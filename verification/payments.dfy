/**
 * The payment history page: the two-stage filter (selected driver, then search),
 * the statistics on the driver-filtered list, the driver picker and its handlers.
 */
module Payments {
  import opened Optional
  import Text
  import Listing

  datatype DriverInfo = DriverInfo(id: string, username: string, email: string, phoneNumber: string)

  /**
   * One payment; the driver may have been deleted. `dateLabel` is the French locale
   * rendering of the payment date, computed outside this model.
   */
  datatype Payment = Payment(id: string, driver: Option<DriverInfo>, montantPaye: int, dateLabel: string)

  datatype DriverOption = DriverOption(id: string, username: string)

  function Amount(p: Payment): int {
    p.montantPaye
  }

  /** The payment belongs to the driver with this id; a payment without driver belongs to nobody. */
  predicate PaidTo(p: Payment, driverId: string) {
    p.driver.Some? && p.driver.value.id == driverId
  }

  /** Stage one: with a driver selected, only that driver's payments; otherwise all of them. */
  function BaseItems(items: seq<Payment>, selectedDriverId: string): (r: seq<Payment>)
    ensures selectedDriverId == "" ==> r == items
    ensures Listing.IsSubseq(r, items)
    ensures selectedDriverId != "" ==> forall i :: 0 <= i < |r| ==> PaidTo(r[i], selectedDriverId)
    ensures forall i :: 0 <= i < |items| && PaidTo(items[i], selectedDriverId) ==> items[i] in r
    ensures forall p :: multiset(r)[p] ==
                        if selectedDriverId == "" || PaidTo(p, selectedDriverId) then multiset(items)[p] else 0
  {
    Listing.SubseqRefl(items);
    if selectedDriverId == "" then items else Listing.Filter(items, p => PaidTo(p, selectedDriverId))
  }

  /**
   * Stage two, one row: the lower-cased term found in the driver's name, e-mail or phone
   * (lower-cased, `""` without a driver), in the amount, or in the rendered date.
   */
  predicate MatchesSearch(p: Payment, loweredTerm: string) {
    var name := if p.driver.Some? then Text.ToLower(p.driver.value.username) else "";
    var email := if p.driver.Some? then Text.ToLower(p.driver.value.email) else "";
    var phone := if p.driver.Some? then Text.ToLower(p.driver.value.phoneNumber) else "";
    || Text.Contains(name, loweredTerm)
    || Text.Contains(email, loweredTerm)
    || Text.Contains(phone, loweredTerm)
    || Text.Contains(Text.IntToString(p.montantPaye), loweredTerm)
    || Text.Contains(p.dateLabel, loweredTerm)
  }

  /** Stage two: the table rows, the base list narrowed by the search term when there is one. */
  function TableItems(base: seq<Payment>, searchTerm: string): (r: seq<Payment>)
    ensures searchTerm == "" ==> r == base
    ensures Listing.IsSubseq(r, base)
    ensures forall i :: 0 <= i < |r| ==> searchTerm == "" || MatchesSearch(r[i], Text.ToLower(searchTerm))
    ensures forall i :: 0 <= i < |base| && MatchesSearch(base[i], Text.ToLower(searchTerm)) ==> base[i] in r
    ensures forall p :: multiset(r)[p] ==
                        if searchTerm == "" || MatchesSearch(p, Text.ToLower(searchTerm)) then multiset(base)[p] else 0
  {
    Listing.SubseqRefl(base);
    if searchTerm == "" then base
    else
      var lowered := Text.ToLower(searchTerm);
      Listing.Filter(base, p => MatchesSearch(p, lowered))
  }

  datatype PaymentStats = PaymentStats(totalPaye: int, nombreTransactions: nat, paiementMoyen: real)

  /** `processDataForDashboard` without the monthly chart: total, count, and average (0 for no payment). */
  function ComputeStats(data: seq<Payment>): (st: PaymentStats)
    ensures st.nombreTransactions == |data|
    ensures st.totalPaye == Listing.Sum(data, Amount)
    ensures |data| == 0 ==> st.paiementMoyen == 0.0
    ensures |data| > 0 ==> st.paiementMoyen * (|data| as real) == st.totalPaye as real
  {
    var total := Listing.Sum(data, Amount);
    var n := |data|;
    PaymentStats(total, n, if n > 0 then (total as real) / (n as real) else 0.0)
  }

  /** What the page shows after its filter effect runs. */
  datatype Dashboard = Dashboard(stats: PaymentStats, selectedDriverTotal: Option<int>, table: seq<Payment>)

  /** The filter effect, run whenever the history, the selected driver or the search term changes. */
  function Recompute(historique: seq<Payment>, selectedDriverId: string, searchTerm: string): (d: Dashboard)
    ensures d.stats == ComputeStats(BaseItems(historique, selectedDriverId))
    ensures d.selectedDriverTotal.None? <==> selectedDriverId == ""
    ensures d.selectedDriverTotal.Some? ==>
      d.selectedDriverTotal.value == Listing.Sum(BaseItems(historique, selectedDriverId), Amount)
    ensures d.table == TableItems(BaseItems(historique, selectedDriverId), searchTerm)
    ensures Listing.IsSubseq(d.table, historique)
  {
    var base := BaseItems(historique, selectedDriverId);
    var table := TableItems(base, searchTerm);
    Listing.SubseqTrans(table, base, historique);
    Dashboard(ComputeStats(base),
              if selectedDriverId != "" then Some(Listing.Sum(base, Amount)) else None,
              table)
  }

  /** The statistics follow the selected driver only: the search term never changes them. */
  lemma StatsIgnoreSearch(historique: seq<Payment>, selectedDriverId: string, t1: string, t2: string)
    ensures Recompute(historique, selectedDriverId, t1).stats == Recompute(historique, selectedDriverId, t2).stats
    ensures selectedDriverId != "" ==>
      Recompute(historique, selectedDriverId, t1).selectedDriverTotal == Some(Recompute(historique, selectedDriverId, t2).stats.totalPaye)
  {
  }

  /** `filteredDriverOptions`: all drivers for an empty term, else those whose name contains it, case-insensitively. */
  function DriverOptions(drivers: seq<DriverOption>, term: string): (r: seq<DriverOption>)
    ensures term == "" ==> r == drivers
    ensures Listing.IsSubseq(r, drivers)
    ensures forall i :: 0 <= i < |r| ==> Text.Matches(r[i].username, term)
    ensures forall i :: 0 <= i < |drivers| && Text.Matches(drivers[i].username, term) ==> drivers[i] in r
    ensures forall d :: multiset(r)[d] == if Text.Matches(d.username, term) then multiset(drivers)[d] else 0
  {
    if term == "" then
      Listing.SubseqRefl(drivers);
      forall d: DriverOption ensures Text.Matches(d.username, term) {
        Text.MatchesEmpty(d.username);
      }
      drivers
    else Listing.Filter(drivers, (d: DriverOption) => Text.Matches(d.username, term))
  }

  /** The driver picker: selected id, text in the picker box, and whether its list is open. */
  datatype Picker = Picker(selectedDriverId: string, driverSearchTerm: string, listVisible: bool)

  /** `handleDriverSearchChange`: typing replaces the text, drops any selection and opens the list. */
  function OnDriverSearchChange(p: Picker, text: string): (q: Picker)
    ensures q.selectedDriverId == "" && q.driverSearchTerm == text && q.listVisible
  {
    Picker(if p.selectedDriverId != "" then "" else p.selectedDriverId, text, true)
  }

  /** `handleDriverSelect`: the driver's id becomes the selection and its name the picker text. */
  function OnDriverSelect(p: Picker, d: DriverOption): (q: Picker)
    ensures q.selectedDriverId == d.id && q.driverSearchTerm == d.username && !q.listVisible
  {
    Picker(d.id, d.username, false)
  }

  /** `clearDriverSelection`. */
  function ClearDriverSelection(p: Picker): (q: Picker)
    ensures q.selectedDriverId == "" && q.driverSearchTerm == "" && !q.listVisible
  {
    Picker("", "", false)
  }

  /** A selected driver is still offered by the picker, whose text is now that driver's name. */
  lemma SelectedDriverStaysOffered(p: Picker, drivers: seq<DriverOption>, i: nat)
    requires i < |drivers|
    ensures drivers[i] in DriverOptions(drivers, OnDriverSelect(p, drivers[i]).driverSearchTerm)
  {
    Text.MatchesSelf(drivers[i].username);
  }

  /** Clearing the picker brings back the whole history, with no per-driver total, and offers every driver again. */
  lemma ClearShowsEverything(p: Picker, historique: seq<Payment>, drivers: seq<DriverOption>)
    ensures Recompute(historique, ClearDriverSelection(p).selectedDriverId, "").table == historique
    ensures Recompute(historique, ClearDriverSelection(p).selectedDriverId, "").selectedDriverTotal == None
    ensures DriverOptions(drivers, ClearDriverSelection(p).driverSearchTerm) == drivers
  {
  }
}
