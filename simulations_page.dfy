/**
 * app/simulations/page.tsx: the list of saved loan simulations with a search
 * box, and the null handling of its two formatters.
 */
module SimulationsPage {
  import opened Wrappers
  import Seqs
  import Text
  import LoanSimulationTypes

  type LoanSimulationEntity = LoanSimulationTypes.LoanSimulationEntity

  predicate IsSaved(s: LoanSimulationEntity) {
    s.status == LoanSimulationTypes.SAVED
  }

  /** `savedSimulations`: the simulations whose status is SAVED, in their original order. */
  function SavedSimulations(simulations: seq<LoanSimulationEntity>): (r: seq<LoanSimulationEntity>)
    ensures Seqs.Subsequence(r, simulations)
    ensures forall s :: s in r <==> s in simulations && IsSaved(s)
  {
    Seqs.KeepSubsequence(simulations, IsSaved);
    forall s ensures s in Seqs.Keep(simulations, IsSaved) <==> s in simulations && IsSaved(s) {
      Seqs.KeepMember(simulations, IsSaved, s);
    }
    Seqs.Keep(simulations, IsSaved)
  }

  /** The search matches any of the five ids, lower-cased; a missing property id reads as "". */
  predicate SearchHit(term: string, s: LoanSimulationEntity) {
    || Text.Contains(Text.ToLower(s.id), term)
    || Text.Contains(Text.ToLower(s.customerId), term)
    || Text.Contains(Text.ToLower(s.propertyId.GetOr("")), term)
    || Text.Contains(Text.ToLower(s.institutionId), term)
    || Text.Contains(Text.ToLower(s.loanProgramId), term)
  }

  /** `filteredSimulations`. */
  function FilterSimulations(saved: seq<LoanSimulationEntity>, search: string): (r: seq<LoanSimulationEntity>)
    ensures Text.Trim(search) == "" ==> r == saved
    ensures Seqs.Subsequence(r, saved)
  {
    if Text.Trim(search) == "" then Seqs.SubsequenceSelf(saved); saved
    else
      var term := Text.ToLower(search);
      Seqs.KeepSubsequence(saved, s => SearchHit(term, s));
      Seqs.Keep(saved, s => SearchHit(term, s))
  }

  /** Under a non-blank search exactly the saved simulations the lower-cased term hits are listed. */
  lemma FilterSimulationsMember(simulations: seq<LoanSimulationEntity>, search: string, s: LoanSimulationEntity)
    requires Text.Trim(search) != ""
    ensures s in FilterSimulations(SavedSimulations(simulations), search)
            <==> s in simulations && IsSaved(s) && SearchHit(Text.ToLower(search), s)
  {
    var term := Text.ToLower(search);
    Seqs.KeepMember(SavedSimulations(simulations), s => SearchHit(term, s), s);
  }

  /** Whatever the search, only saved simulations are listed. */
  lemma OnlySavedListed(simulations: seq<LoanSimulationEntity>, search: string, s: LoanSimulationEntity)
    requires s in FilterSimulations(SavedSimulations(simulations), search)
    ensures IsSaved(s) && s in simulations
  {
    if Text.Trim(search) != "" {
      FilterSimulationsMember(simulations, search, s);
    }
  }

  /** What a formatter renders: the dash placeholder, or a value left to `Intl` formatting. */
  datatype Display = Dash | Money(amount: real, currency: string) | DateTime(text: string)

  /** `formatCurrency(amount, currency = "PEN")`. */
  function FormatCurrency(amount: Option<real>, currency: Option<string>): (d: Display)
    ensures d == Dash <==> amount.None?
    ensures amount.Some? ==> d == Money(amount.value, currency.GetOr("PEN"))
  {
    if amount.None? then Dash else Money(amount.value, currency.GetOr("PEN"))
  }

  /** `formatDate(dateStr)`; `validDate` says which texts `new Date` parses. */
  function FormatDate(dateStr: Option<string>, validDate: string -> bool): (d: Display)
    ensures d == Dash <==> !Truthy(dateStr) || !validDate(dateStr.value)
    ensures d != Dash ==> d == DateTime(dateStr.value)
  {
    if !Truthy(dateStr) then Dash
    else if !validDate(dateStr.value) then Dash
    else DateTime(dateStr.value)
  }
}
