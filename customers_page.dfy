/**
 * app/customers/page.tsx: the customer list with its search box, a pager of
 * five rows per page, avatar initials, and the eligibility looked up for each
 * customer when the list loads.
 */
module CustomersPage {
  import opened Wrappers
  import Seqs
  import Text
  import Pagination
  import CustomerTypes
  import EligibilityTypes

  type CustomerEntity = CustomerTypes.CustomerEntity
  type EligibilityResponse = EligibilityTypes.EligibilityResponse

  const PageSize: nat := 5

  /** The search matches the full name, the e-mail or the phone number, lower-cased. */
  predicate SearchHit(query: string, c: CustomerEntity) {
    || Text.Contains(Text.ToLower(c.fullName.fullName), query)
    || Text.Contains(Text.ToLower(c.contactInfo.email), query)
    || Text.Contains(Text.ToLower(c.contactInfo.phoneNumber), query)
  }

  /** `filteredCustomers`. */
  function FilterCustomers(customers: seq<CustomerEntity>, search: string): (r: seq<CustomerEntity>)
    ensures Text.Trim(search) == "" ==> r == customers
    ensures Seqs.Subsequence(r, customers)
  {
    if Text.Trim(search) == "" then Seqs.SubsequenceSelf(customers); customers
    else
      var query := Text.ToLower(search);
      Seqs.KeepSubsequence(customers, c => SearchHit(query, c));
      Seqs.Keep(customers, c => SearchHit(query, c))
  }

  /** Under a non-blank search a customer is listed exactly when the lower-cased search hits one of its three fields. */
  lemma FilterCustomersMember(customers: seq<CustomerEntity>, search: string, c: CustomerEntity)
    requires Text.Trim(search) != ""
    ensures c in FilterCustomers(customers, search) <==> c in customers && SearchHit(Text.ToLower(search), c)
  {
    var query := Text.ToLower(search);
    Seqs.KeepMember(customers, c => SearchHit(query, c), c);
  }

  /** `getInitials`: the upper-cased first letters of the first and last names, or "C" when both are empty. */
  function GetInitials(firstName: string, lastName: string): (r: string)
    ensures Text.NoLower(r)
    ensures firstName == [] && lastName == [] ==> r == "C"
  {
    var first := if firstName != [] then [firstName[0]] else [];
    var last := if lastName != [] then [lastName[0]] else [];
    var initials := if first + last == [] then "C" else first + last;
    Text.ToUpperNoLower(initials);
    Text.ToUpper(initials)
  }

  /** The initials are one letter per non-empty name, taken from the front of each name. */
  lemma InitialsLetters(firstName: string, lastName: string)
    requires firstName != [] || lastName != []
    ensures var r := GetInitials(firstName, lastName);
            && |r| == (if firstName != [] then 1 else 0) + (if lastName != [] then 1 else 0)
            && (firstName != [] ==> r[0] == Text.UpperChar(firstName[0]))
            && (lastName != [] ==> r[|r| - 1] == Text.UpperChar(lastName[0]))
  {
    var first := if firstName != [] then [firstName[0]] else [];
    var last := if lastName != [] then [lastName[0]] else [];
    var s := first + last;
    assert s != [];
    Text.ToUpperAt(s, 0);
    Text.ToUpperAt(s, |s| - 1);
  }

  // ---------------- the eligibility map ----------------

  /** What `map[r.id] = r.data` over `results` leaves, one assignment after another. */
  function Assign(results: seq<(string, Option<EligibilityResponse>)>): map<string, Option<EligibilityResponse>>
    decreases |results|
  {
    if results == [] then map[]
    else Assign(results[..|results| - 1])[results[|results| - 1].0 := results[|results| - 1].1]
  }

  /** The ids the map ends up with are the ids of the results. */
  lemma {:induction false} AssignKeys(results: seq<(string, Option<EligibilityResponse>)>, id: string)
    ensures id in Assign(results) <==> exists i :: 0 <= i < |results| && results[i].0 == id
    decreases |results|
  {
    if results != [] {
      var init := results[..|results| - 1];
      AssignKeys(init, id);
      if exists i :: 0 <= i < |init| && init[i].0 == id {
        var i :| 0 <= i < |init| && init[i].0 == id;
        assert results[i].0 == id;
      }
      if exists i :: 0 <= i < |results| && results[i].0 == id {
        var i :| 0 <= i < |results| && results[i].0 == id;
        if i < |init| {
          assert init[i].0 == id;
        }
      }
    }
  }

  /** A result is what the map holds for its id when no later result has that id. */
  lemma {:induction false} AssignLast(results: seq<(string, Option<EligibilityResponse>)>, i: nat)
    requires i < |results|
    requires forall j :: i < j < |results| ==> results[j].0 != results[i].0
    ensures results[i].0 in Assign(results) && Assign(results)[results[i].0] == results[i].1
    decreases |results|
  {
    var init := results[..|results| - 1];
    if i < |results| - 1 {
      AssignLast(init, i);
    }
  }

  /** The `results.forEach` loop that fills the map. */
  method BuildEligibilityMap(results: seq<(string, Option<EligibilityResponse>)>)
    returns (m: map<string, Option<EligibilityResponse>>)
    ensures m == Assign(results)
  {
    m := map[];
    var i := 0;
    while i < |results|
      invariant 0 <= i <= |results|
      invariant m == Assign(results[..i])
    {
      assert results[..i + 1][..i] == results[..i];
      m := m[results[i].0 := results[i].1];
      i := i + 1;
    }
    assert results[..|results|] == results;
  }

  /** The lookups paired with their customers' ids, in list order; `None` is a lookup that failed. */
  function Results(customers: seq<CustomerEntity>, lookups: seq<Option<EligibilityResponse>>): (r: seq<(string, Option<EligibilityResponse>)>)
    requires |lookups| == |customers|
    ensures |r| == |customers| && forall i :: 0 <= i < |r| ==> r[i] == (customers[i].id, lookups[i])
  {
    seq(|customers|, i requires 0 <= i < |customers| => (customers[i].id, lookups[i]))
  }

  /** Distinct customer ids. */
  predicate DistinctIds(customers: seq<CustomerEntity>) {
    forall i, j :: 0 <= i < j < |customers| ==> customers[i].id != customers[j].id
  }

  /** After loading, every customer has an entry, and it is null exactly when that customer's lookup failed. */
  lemma EveryCustomerHasEntry(customers: seq<CustomerEntity>, lookups: seq<Option<EligibilityResponse>>, i: nat)
    requires |lookups| == |customers| && DistinctIds(customers) && i < |customers|
    ensures var m := Assign(Results(customers, lookups));
            customers[i].id in m && m[customers[i].id] == lookups[i]
            && (m[customers[i].id].None? <==> lookups[i].None?)
  {
    var rs := Results(customers, lookups);
    forall j | i < j < |rs| ensures rs[j].0 != rs[i].0 {
      assert customers[i].id != customers[j].id;
    }
    AssignLast(rs, i);
  }

  /** The map has no entry for an id that is no customer's. */
  lemma NoStrayEntries(customers: seq<CustomerEntity>, lookups: seq<Option<EligibilityResponse>>, id: string)
    requires |lookups| == |customers|
    requires forall i :: 0 <= i < |customers| ==> customers[i].id != id
    ensures id !in Assign(Results(customers, lookups))
  {
    AssignKeys(Results(customers, lookups), id);
  }

  /** What `handleViewEligibility` shows. */
  datatype EligibilityView =
    | ReportError
    | ShowDetails(mivivienda: EligibilityTypes.MiViviendaEligibilityResponse,
                  techoPropio: EligibilityTypes.TechoPropioEligibilityResponse)

  /** `handleViewEligibility(id)`: an error when the entry is missing or null, the two program results otherwise. */
  function ViewEligibility(m: map<string, Option<EligibilityResponse>>, id: string): (v: EligibilityView)
    ensures v.ReportError? <==> id !in m || m[id].None?
    ensures v.ShowDetails? ==> v.mivivienda == m[id].value.mivivienda && v.techoPropio == m[id].value.techoPropio
  {
    if id !in m || m[id].None? then ReportError
    else ShowDetails(m[id].value.mivivienda, m[id].value.techoPropio)
  }

  /** The page state. */
  class CustomerList {
    var customers: seq<CustomerEntity>
    var search: string
    var page: int
    var eligibilityMap: map<string, Option<EligibilityResponse>>

    constructor ()
      ensures customers == [] && search == "" && page == 1 && eligibilityMap == map[]
      ensures Valid()
    {
      customers := [];
      search := "";
      page := 1;
      eligibilityMap := map[];
    }

    function Filtered(): seq<CustomerEntity>
      reads this`customers, this`search
    {
      FilterCustomers(customers, search)
    }

    /** `totalPages`. */
    function TotalPages(): (t: nat)
      reads this`customers, this`search
      ensures t >= 1 && |Filtered()| <= t * PageSize
    {
      Pagination.TotalPages(|Filtered()|, PageSize)
    }

    /** `paginatedCustomers`: at most five rows. */
    function Paginated(): (r: seq<CustomerEntity>)
      reads this
      ensures page >= 1 ==> |r| <= PageSize
    {
      Pagination.Page(Filtered(), page, PageSize)
    }

    predicate Valid()
      reads this
    {
      Pagination.InRange(page, TotalPages())
    }

    /**
     * The load effect: the customers, then one eligibility lookup per customer, gathered into the map.
     * The effect runs once, at mount, while the page is still 1, and page 1 is always in range.
     */
    method Load(data: seq<CustomerEntity>, lookups: seq<Option<EligibilityResponse>>)
      requires |lookups| == |data|
      modifies this`customers, this`eligibilityMap
      ensures customers == data && eligibilityMap == Assign(Results(data, lookups))
      ensures search == old(search) && page == old(page)
      ensures old(page) == 1 ==> Valid()
    {
      customers := data;
      var results := Results(data, lookups);
      eligibilityMap := BuildEligibilityMap(results);
    }

    /** Typing in the search box; the reset effect then goes back to page 1. */
    method SetSearch(text: string)
      modifies this`search, this`page
      ensures search == text && page == 1
      ensures customers == old(customers) && eligibilityMap == old(eligibilityMap)
      ensures Valid()
    {
      search := text;
      page := 1;
    }

    method GoFirst()
      modifies this`page
      ensures page == Pagination.FirstPage()
      ensures customers == old(customers) && search == old(search) && eligibilityMap == old(eligibilityMap)
      ensures Valid()
    {
      page := 1;
    }

    method GoPrevious()
      modifies this`page
      ensures page == Pagination.PreviousPage(old(page))
      ensures customers == old(customers) && search == old(search) && eligibilityMap == old(eligibilityMap)
      ensures old(Valid()) ==> Valid()
    {
      page := if page - 1 < 1 then 1 else page - 1;
    }

    method GoNext()
      modifies this`page
      ensures page == Pagination.NextPage(old(page), TotalPages())
      ensures customers == old(customers) && search == old(search) && eligibilityMap == old(eligibilityMap)
      ensures old(Valid()) ==> Valid()
    {
      var total := TotalPages();
      page := if total < page + 1 then total else page + 1;
    }

    method GoLast()
      modifies this`page
      ensures page == Pagination.LastPage(TotalPages())
      ensures customers == old(customers) && search == old(search) && eligibilityMap == old(eligibilityMap)
      ensures Valid()
    {
      var total := TotalPages();
      page := total;
      assert TotalPages() == total;
    }
  }
}
