/** The driver balances page: the transform, search, the payment modal and the full-commission payment. */
module Balances {
  import opened Optional
  import Text
  import Listing

  /** A driver as the API returns it; the balance and the phone may be missing. */
  datatype ApiDriver = ApiDriver(id: string, username: string, email: string, solde: Option<real>, phoneNumber: Option<string>)

  /** A driver as the table shows it. */
  datatype DisplayDriver = DisplayDriver(id: string, nom: string, email: string, phoneNumber: string, solde: real)

  /** `transformApiDriver`: a missing or empty phone reads "N/A", a missing balance reads 0. */
  function TransformApiDriver(a: ApiDriver): (d: DisplayDriver)
    ensures d.id == a.id && d.nom == a.username && d.email == a.email
    ensures Truthy(a.phoneNumber) ==> d.phoneNumber == a.phoneNumber.value
    ensures !Truthy(a.phoneNumber) ==> d.phoneNumber == "N/A"
    ensures a.solde.Some? ==> d.solde == a.solde.value
    ensures a.solde.None? ==> d.solde == 0.0
  {
    DisplayDriver(a.id, a.username, a.email, OrElse(a.phoneNumber, "N/A"), a.solde.GetOr(0.0))
  }

  /** The search box: case-insensitive over the name, the e-mail or the phone. */
  predicate MatchesSearch(d: DisplayDriver, term: string) {
    Text.Matches(d.nom, term) || Text.Matches(d.email, term) || Text.Matches(d.phoneNumber, term)
  }

  /** `filteredDrivers`: the drivers matching the search, in order. */
  function FilteredDrivers(ds: seq<DisplayDriver>, term: string): (r: seq<DisplayDriver>)
    ensures Listing.IsSubseq(r, ds)
    ensures forall i :: 0 <= i < |r| ==> MatchesSearch(r[i], term)
    ensures forall i :: 0 <= i < |ds| && MatchesSearch(ds[i], term) ==> ds[i] in r
    ensures forall d :: multiset(r)[d] == if MatchesSearch(d, term) then multiset(ds)[d] else 0
  {
    Listing.Filter(ds, d => MatchesSearch(d, term))
  }

  /** An empty search shows every driver, as right after loading. */
  lemma FilteredDriversIdentity(ds: seq<DisplayDriver>)
    ensures FilteredDrivers(ds, "") == ds
  {
    forall i | 0 <= i < |ds| ensures MatchesSearch(ds[i], "") {
      Text.MatchesEmpty(ds[i].nom);
    }
    Listing.FilterAll(ds, d => MatchesSearch(d, ""));
  }

  /** A driver without a phone is found by searching "n/a". */
  lemma MissingPhoneFoundAsNA(a: ApiDriver)
    requires !Truthy(a.phoneNumber)
    ensures MatchesSearch(TransformApiDriver(a), "n/a")
  {
    assert Text.ToLower("N/A") == "n/a";
    Text.MatchesSelf("n/a");
  }

  /** The payment modal: whether it is open and the driver it is about. */
  datatype PayState = PayState(isModalOpen: bool, selected: Option<DisplayDriver>)

  /** `openPaymentModal`. */
  function OpenPaymentModal(s: PayState, d: DisplayDriver): (t: PayState)
    ensures t.isModalOpen && t.selected == Some(d)
  {
    PayState(true, Some(d))
  }

  /** `closePaymentModal`. */
  function ClosePaymentModal(s: PayState): (t: PayState)
    ensures !t.isModalOpen && t.selected.None?
  {
    PayState(false, None)
  }

  datatype Request = PayFullCommission(driverId: string)

  /** `handlePayCommission`: a payment of the selected driver's whole commission, only when it is positive. */
  function HandlePayCommission(s: PayState): (r: Option<Request>)
    ensures r.Some? <==> s.selected.Some? && s.selected.value.solde > 0.0
    ensures r.Some? ==> r.value == PayFullCommission(s.selected.value.id)
  {
    if s.selected.None? || s.selected.value.solde <= 0.0 then None
    else Some(PayFullCommission(s.selected.value.id))
  }

  /** The pay button of a row is disabled when nothing is owed. */
  predicate PayButtonDisabled(d: DisplayDriver) {
    d.solde <= 0.0
  }

  /** The balance cell: red while something is owed, green otherwise. */
  function BalanceColor(d: DisplayDriver): (c: string)
    ensures c == "text-red-600" <==> !PayButtonDisabled(d)
    ensures c == "text-green-600" <==> PayButtonDisabled(d)
  {
    if d.solde > 0.0 then "text-red-600" else "text-green-600"
  }

  /** The button and the handler agree: opening the modal on a row leads to a payment exactly when its button is enabled. */
  lemma ButtonMatchesGuard(s: PayState, d: DisplayDriver)
    ensures HandlePayCommission(OpenPaymentModal(s, d)).Some? <==> !PayButtonDisabled(d)
    ensures HandlePayCommission(ClosePaymentModal(s)).None?
  {
  }

  /** A driver whose balance the API left out owes nothing: the button is disabled and no payment goes out. */
  lemma MissingBalanceOwesNothing(s: PayState, a: ApiDriver)
    requires a.solde.None?
    ensures PayButtonDisabled(TransformApiDriver(a))
    ensures HandlePayCommission(OpenPaymentModal(s, TransformApiDriver(a))).None?
  {
  }
}
