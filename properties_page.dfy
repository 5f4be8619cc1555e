/**
 * app/properties/page.tsx: the property catalogue with its search box, its
 * advanced filters and a pager of nine cards per page.
 */
module PropertiesPage {
  import opened Wrappers
  import Seqs
  import Text
  import Numbers
  import Pagination
  import opened PropertyTypes

  const PageSize: nat := 9

  /** `translatePropertyType`: the Spanish label of a property type. */
  function TranslatePropertyType(t: PropertyType): string {
    match t
    case APARTMENT => "Departamento"
    case HOUSE => "Casa"
    case DUPLEX => "Dúplex"
    case TOWNHOUSE => "Casa en condominio"
    case PENTHOUSE => "Penthouse"
    case FLAT => "Flat"
  }

  /** `translateStatus`. */
  function TranslateStatus(s: PropertyStatus): string {
    match s
    case AVAILABLE => "Disponible"
    case RESERVED => "Reservada"
    case SOLD => "Vendida"
    case SUSPENDED => "Suspendida"
  }

  /** `translateFinishing`. */
  function TranslateFinishing(q: FinishingQuality): string {
    match q
    case BASIC => "Básico"
    case STANDARD => "Estándar"
    case PREMIUM => "Premium"
    case LUXURY => "Lujo"
  }

  /** Each translation gives every member its own non-empty label, so the labels tell members apart. */
  lemma TranslationsDistinct(a: PropertyType, b: PropertyType, s: PropertyStatus, t: PropertyStatus,
                             q: FinishingQuality, r: FinishingQuality)
    ensures TranslatePropertyType(a) != [] && TranslateStatus(s) != [] && TranslateFinishing(q) != []
    ensures TranslatePropertyType(a) == TranslatePropertyType(b) ==> a == b
    ensures TranslateStatus(s) == TranslateStatus(t) ==> s == t
    ensures TranslateFinishing(q) == TranslateFinishing(r) ==> q == r
  {
  }

  /** A select that is either "ALL" or one member. */
  datatype Choice<T> = All | Only(value: T)

  datatype MiViviendaFilter = ALL | YES | NO

  /** `PropertyFilters`; an absent or NaN number is `None`. */
  datatype PropertyFilters = PropertyFilters(
    minBedrooms: Option<real>,
    maxPrice: Option<real>,
    propertyType: Choice<PropertyType>,
    status: Choice<PropertyStatus>,
    miVivienda: MiViviendaFilter)

  const InitialFilters: PropertyFilters := PropertyFilters(None, None, All, All, ALL)

  /** A number filter is on when it is a positive number. */
  predicate Active(x: Option<real>) {
    x.Some? && x.value > 0.0
  }

  /** The search box matches the code, the type and finishing labels, or the price as text. */
  predicate SearchHit(query: string, p: PropertyEntity) {
    || Text.Contains(Text.ToLower(p.propertyCode), query)
    || Text.Contains(Text.ToLower(TranslatePropertyType(p.propertyType)), query)
    || Text.Contains(Text.ToLower(TranslateFinishing(p.finishingQuality)), query)
    || Text.Contains(Text.ToLower(Numbers.NumberText(p.pricing.priceAmount)), query)
  }

  // Each condition below holds trivially when its filter is off.

  /** A blank search keeps everything; otherwise the lower-cased (untrimmed) search must hit. */
  predicate SearchOk(search: string, p: PropertyEntity) {
    Text.Trim(search) == "" || SearchHit(Text.ToLower(search), p)
  }

  predicate BedroomsOk(f: PropertyFilters, p: PropertyEntity) {
    Active(f.minBedrooms) ==> p.bedrooms >= f.minBedrooms.value
  }

  predicate PriceOk(f: PropertyFilters, p: PropertyEntity) {
    Active(f.maxPrice) ==> p.pricing.priceAmount <= f.maxPrice.value
  }

  predicate TypeOk(f: PropertyFilters, p: PropertyEntity) {
    f.propertyType.Only? ==> p.propertyType == f.propertyType.value
  }

  predicate StatusOk(f: PropertyFilters, p: PropertyEntity) {
    f.status.Only? ==> p.status == f.status.value
  }

  predicate MiViviendaOk(f: PropertyFilters, p: PropertyEntity) {
    f.miVivienda != ALL ==> p.financiability.isEligibleForMiVivienda == (f.miVivienda == YES)
  }

  /** A property is listed exactly when it passes every filter that is on. */
  predicate Retained(search: string, f: PropertyFilters, p: PropertyEntity) {
    SearchOk(search, p) && BedroomsOk(f, p) && PriceOk(f, p) && TypeOk(f, p) && StatusOk(f, p) && MiViviendaOk(f, p)
  }

  /** The conditions of the first `k` filters of the chain. */
  predicate Stage(k: nat, search: string, f: PropertyFilters, p: PropertyEntity)
    requires k <= 6
  {
    && (k >= 1 ==> SearchOk(search, p))
    && (k >= 2 ==> BedroomsOk(f, p))
    && (k >= 3 ==> PriceOk(f, p))
    && (k >= 4 ==> TypeOk(f, p))
    && (k >= 5 ==> StatusOk(f, p))
    && (k >= 6 ==> MiViviendaOk(f, p))
  }

  /** The specification of the listing: the retained properties, in catalogue order. */
  function Listed(properties: seq<PropertyEntity>, search: string, f: PropertyFilters): seq<PropertyEntity> {
    Seqs.Keep(properties, p => Retained(search, f, p))
  }

  /** The listing keeps the catalogue's order, and lists a property exactly when it passes every active filter. */
  lemma ListedSpec(properties: seq<PropertyEntity>, search: string, f: PropertyFilters, p: PropertyEntity)
    ensures Seqs.Subsequence(Listed(properties, search, f), properties)
    ensures p in Listed(properties, search, f) <==> p in properties && Retained(search, f, p)
  {
    Seqs.KeepSubsequence(properties, p => Retained(search, f, p));
    Seqs.KeepMember(properties, p => Retained(search, f, p), p);
  }

  /** With every filter off and a blank search, the whole catalogue is listed. */
  lemma NoFilterListsAll(properties: seq<PropertyEntity>, search: string)
    requires Text.Trim(search) == ""
    ensures Listed(properties, search, InitialFilters) == properties
  {
    Seqs.KeepAll(properties, p => Retained(search, InitialFilters, p));
  }

  /** `filteredProperties`: `result` passed through each filter in turn. */
  method FilterProperties(properties: seq<PropertyEntity>, search: string, f: PropertyFilters)
    returns (result: seq<PropertyEntity>)
    ensures result == Listed(properties, search, f)
  {
    result := properties;
    ghost var r0 := result;
    result := FilterBySearch(result, search);
    ghost var r1 := result;
    result := FilterByBedrooms(result, f);
    ghost var r2 := result;
    result := FilterByPrice(result, f);
    ghost var r3 := result;
    result := FilterByType(result, f);
    ghost var r4 := result;
    result := FilterByStatus(result, f);
    ghost var r5 := result;
    result := FilterByMiVivienda(result, f);
    ChainIsListed(properties, search, f, r1, r2, r3, r4, r5, result);
  }

  /** The search link: filter only when the search is not blank. */
  method FilterBySearch(xs: seq<PropertyEntity>, search: string) returns (r: seq<PropertyEntity>)
    ensures r == Seqs.Keep(xs, p => SearchOk(search, p))
  {
    r := xs;
    if Text.Trim(search) != "" {
      var query := Text.ToLower(search);
      r := Seqs.Keep(xs, p => SearchHit(query, p));
      Seqs.KeepCongruent(xs, p => SearchHit(query, p), p => SearchOk(search, p));
    } else {
      Seqs.KeepAll(xs, p => SearchOk(search, p));
    }
  }

  /** The minimum-bedrooms link. */
  method FilterByBedrooms(xs: seq<PropertyEntity>, f: PropertyFilters) returns (r: seq<PropertyEntity>)
    ensures r == Seqs.Keep(xs, p => BedroomsOk(f, p))
  {
    r := xs;
    if Active(f.minBedrooms) {
      r := Seqs.Keep(xs, (p: PropertyEntity) => p.bedrooms >= f.minBedrooms.GetOr(0.0));
      Seqs.KeepCongruent(xs, (p: PropertyEntity) => p.bedrooms >= f.minBedrooms.GetOr(0.0), p => BedroomsOk(f, p));
    } else {
      Seqs.KeepAll(xs, p => BedroomsOk(f, p));
    }
  }

  /** The maximum-price link. */
  method FilterByPrice(xs: seq<PropertyEntity>, f: PropertyFilters) returns (r: seq<PropertyEntity>)
    ensures r == Seqs.Keep(xs, p => PriceOk(f, p))
  {
    r := xs;
    if Active(f.maxPrice) {
      r := Seqs.Keep(xs, (p: PropertyEntity) => p.pricing.priceAmount <= f.maxPrice.value);
      Seqs.KeepCongruent(xs, (p: PropertyEntity) => p.pricing.priceAmount <= f.maxPrice.value, p => PriceOk(f, p));
    } else {
      Seqs.KeepAll(xs, p => PriceOk(f, p));
    }
  }

  /** The property-type link. */
  method FilterByType(xs: seq<PropertyEntity>, f: PropertyFilters) returns (r: seq<PropertyEntity>)
    ensures r == Seqs.Keep(xs, p => TypeOk(f, p))
  {
    r := xs;
    if f.propertyType != All {
      r := Seqs.Keep(xs, (p: PropertyEntity) => p.propertyType == f.propertyType.value);
      Seqs.KeepCongruent(xs, (p: PropertyEntity) => p.propertyType == f.propertyType.value, p => TypeOk(f, p));
    } else {
      Seqs.KeepAll(xs, p => TypeOk(f, p));
    }
  }

  /** The status link. */
  method FilterByStatus(xs: seq<PropertyEntity>, f: PropertyFilters) returns (r: seq<PropertyEntity>)
    ensures r == Seqs.Keep(xs, p => StatusOk(f, p))
  {
    r := xs;
    if f.status != All {
      r := Seqs.Keep(xs, (p: PropertyEntity) => p.status == f.status.value);
      Seqs.KeepCongruent(xs, (p: PropertyEntity) => p.status == f.status.value, p => StatusOk(f, p));
    } else {
      Seqs.KeepAll(xs, p => StatusOk(f, p));
    }
  }

  /** The MiVivienda link: "YES" keeps the eligible properties, "NO" the others. */
  method FilterByMiVivienda(xs: seq<PropertyEntity>, f: PropertyFilters) returns (r: seq<PropertyEntity>)
    ensures r == Seqs.Keep(xs, p => MiViviendaOk(f, p))
  {
    r := xs;
    if f.miVivienda != ALL {
      var target := f.miVivienda == YES;
      r := Seqs.Keep(xs, (p: PropertyEntity) => p.financiability.isEligibleForMiVivienda == target);
      Seqs.KeepCongruent(xs, (p: PropertyEntity) => p.financiability.isEligibleForMiVivienda == target,
                         p => MiViviendaOk(f, p));
    } else {
      Seqs.KeepAll(xs, p => MiViviendaOk(f, p));
    }
  }

  /** The six links one after the other list exactly the retained properties. */
  lemma ChainIsListed(all: seq<PropertyEntity>, search: string, f: PropertyFilters,
                      r1: seq<PropertyEntity>, r2: seq<PropertyEntity>, r3: seq<PropertyEntity>,
                      r4: seq<PropertyEntity>, r5: seq<PropertyEntity>, r6: seq<PropertyEntity>)
    requires r1 == Seqs.Keep(all, p => SearchOk(search, p))
    requires r2 == Seqs.Keep(r1, p => BedroomsOk(f, p))
    requires r3 == Seqs.Keep(r2, p => PriceOk(f, p))
    requires r4 == Seqs.Keep(r3, p => TypeOk(f, p))
    requires r5 == Seqs.Keep(r4, p => StatusOk(f, p))
    requires r6 == Seqs.Keep(r5, p => MiViviendaOk(f, p))
    ensures r6 == Listed(all, search, f)
  {
    Seqs.KeepCongruent(all, p => SearchOk(search, p), p => Stage(1, search, f, p));
    StepDone(all, r1, r2, p => Stage(1, search, f, p), p => BedroomsOk(f, p), p => Stage(2, search, f, p));
    StepDone(all, r2, r3, p => Stage(2, search, f, p), p => PriceOk(f, p), p => Stage(3, search, f, p));
    StepDone(all, r3, r4, p => Stage(3, search, f, p), p => TypeOk(f, p), p => Stage(4, search, f, p));
    StepDone(all, r4, r5, p => Stage(4, search, f, p), p => StatusOk(f, p), p => Stage(5, search, f, p));
    StepDone(all, r5, r6, p => Stage(5, search, f, p), p => MiViviendaOk(f, p), p => Stage(6, search, f, p));
    Seqs.KeepCongruent(all, p => Stage(6, search, f, p), p => Retained(search, f, p));
  }

  /** One link of the chain: what the step kept is the catalogue filtered by one more condition. */
  lemma StepDone(all: seq<PropertyEntity>, before: seq<PropertyEntity>, after: seq<PropertyEntity>,
                 stage: PropertyEntity -> bool, step: PropertyEntity -> bool, next: PropertyEntity -> bool)
    requires before == Seqs.Keep(all, stage)
    requires after == Seqs.Keep(before, step)
    requires forall x :: next(x) == (stage(x) && step(x))
    ensures after == Seqs.Keep(all, next)
  {
    Seqs.KeepRefine(all, stage, step, next);
  }

  /** One change of a single filter, as `handleFilterChange` merges it. */
  datatype FilterPatch =
    | SetMinBedrooms(minBedrooms: Option<real>)
    | SetMaxPrice(maxPrice: Option<real>)
    | SetPropertyType(propertyType: Choice<PropertyType>)
    | SetStatus(status: Choice<PropertyStatus>)
    | SetMiVivienda(miVivienda: MiViviendaFilter)

  /** `{ ...prev, ...patch }`. */
  function ApplyPatch(prev: PropertyFilters, patch: FilterPatch): PropertyFilters {
    match patch
    case SetMinBedrooms(x) => prev.(minBedrooms := x)
    case SetMaxPrice(x) => prev.(maxPrice := x)
    case SetPropertyType(c) => prev.(propertyType := c)
    case SetStatus(c) => prev.(status := c)
    case SetMiVivienda(m) => prev.(miVivienda := m)
  }

  /** The number inputs: empty text clears the filter, anything else goes through `Number`. */
  function NumberInput(text: string): (r: Option<real>)
    ensures text == "" ==> r.None?
    ensures text != "" && Numbers.AllDigits(text) ==> r == Some(Numbers.Value(text) as real)
  {
    if text != "" then
      if Numbers.AllDigits(text) then Numbers.NumberOfDigits(text); Numbers.NumberOf(text)
      else Numbers.NumberOf(text)
    else None
  }

  /** The catalogue page: the loaded properties, the search text, the filters and the current page. */
  class Catalogue {
    var properties: seq<PropertyEntity>
    var search: string
    var filters: PropertyFilters
    var page: int

    constructor ()
      ensures properties == [] && search == "" && filters == InitialFilters && page == 1
      ensures Valid()
    {
      properties := [];
      search := "";
      filters := InitialFilters;
      page := 1;
    }

    function Filtered(): seq<PropertyEntity>
      reads this`properties, this`search, this`filters
    {
      Listed(properties, search, filters)
    }

    /** `totalPages`. */
    function TotalPages(): (t: nat)
      reads this`properties, this`search, this`filters
      ensures t >= 1 && |Filtered()| <= t * PageSize
    {
      Pagination.TotalPages(|Filtered()|, PageSize)
    }

    /** `paginatedProperties`: at most nine cards. */
    function Paginated(): (r: seq<PropertyEntity>)
      reads this
      ensures page >= 1 ==> |r| <= PageSize
    {
      Pagination.Page(Filtered(), page, PageSize)
    }

    /** The page shown is one of the pages there are. */
    predicate Valid()
      reads this
    {
      Pagination.InRange(page, TotalPages())
    }

    /**
     * `setProperties(data)` after the catalogue loads. The load effect runs once, at mount,
     * while the page is still 1, and page 1 is always in range.
     */
    method Load(data: seq<PropertyEntity>)
      modifies this`properties
      ensures properties == data && search == old(search) && filters == old(filters) && page == old(page)
      ensures old(page) == 1 ==> Valid()
    {
      properties := data;
    }

    /** Typing in the search box; the reset effect then goes back to page 1. */
    method SetSearch(text: string)
      modifies this`search, this`page
      ensures search == text && page == 1
      ensures properties == old(properties) && filters == old(filters)
      ensures Valid()
    {
      search := text;
      page := 1;
    }

    /** `handleFilterChange(patch)`; the reset effect then goes back to page 1. */
    method ChangeFilter(patch: FilterPatch)
      modifies this`filters, this`page
      ensures filters == ApplyPatch(old(filters), patch) && page == 1
      ensures properties == old(properties) && search == old(search)
      ensures Valid()
    {
      filters := ApplyPatch(filters, patch);
      page := 1;
    }

    /** "Limpiar filtros": the three selects back to "ALL" and both number filters dropped; the reset effect then goes back to page 1. */
    method ClearFilters()
      modifies this`filters, this`page
      ensures filters == InitialFilters && page == 1
      ensures properties == old(properties) && search == old(search)
      ensures Valid()
    {
      filters := InitialFilters;
      page := 1;
    }

    /** The « button. */
    method GoFirst()
      modifies this`page
      ensures page == Pagination.FirstPage()
      ensures properties == old(properties) && search == old(search) && filters == old(filters)
      ensures Valid()
    {
      page := 1;
    }

    /** The ‹ button. */
    method GoPrevious()
      modifies this`page
      ensures page == Pagination.PreviousPage(old(page))
      ensures properties == old(properties) && search == old(search) && filters == old(filters)
      ensures old(Valid()) ==> Valid()
    {
      page := if page - 1 < 1 then 1 else page - 1;
    }

    /** The › button. */
    method GoNext()
      modifies this`page
      ensures page == Pagination.NextPage(old(page), TotalPages())
      ensures properties == old(properties) && search == old(search) && filters == old(filters)
      ensures old(Valid()) ==> Valid()
    {
      var total := TotalPages();
      page := if total < page + 1 then total else page + 1;
    }

    /** The » button. */
    method GoLast()
      modifies this`page
      ensures page == Pagination.LastPage(TotalPages())
      ensures properties == old(properties) && search == old(search) && filters == old(filters)
      ensures Valid()
    {
      var total := TotalPages();
      page := total;
    }
  }
}
