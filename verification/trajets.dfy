/** The routes page: search and transport filter, quick statistics, transport badges and the edit/delete modals. */
module Trajets {
  import opened Optional
  import Text
  import Listing

  datatype Chauffeur = Chauffeur(id: string, username: string, email: string, phoneNumber: string)

  /** A route as the API returns it; the driver may be missing. */
  datatype Trajet = Trajet(
    id: string,
    driver: Option<Chauffeur>,
    prixParKilo: real,
    prixParPiece: real,
    modetransport: string,
    dateTraject: string,
    portDepart: string,
    portDarriver: string,
    pointRamasage: seq<string>,
    pointLivraison: seq<string>)

  /** The driver's username, or `""` when the route has no driver. */
  function DriverName(t: Trajet): (n: string)
    ensures t.driver.None? ==> n == ""
    ensures t.driver.Some? ==> n == t.driver.value.username
  {
    if t.driver.Some? then t.driver.value.username else ""
  }

  predicate AnyMatches(points: seq<string>, term: string) {
    exists i :: 0 <= i < |points| && Text.Matches(points[i], term)
  }

  /** The search box: case-insensitive over the id, driver, both ports and every pickup or delivery point. */
  predicate MatchesSearch(t: Trajet, term: string) {
    || Text.Matches(t.id, term)
    || Text.Matches(DriverName(t), term)
    || Text.Matches(t.portDepart, term)
    || Text.Matches(t.portDarriver, term)
    || AnyMatches(t.pointRamasage, term)
    || AnyMatches(t.pointLivraison, term)
  }

  /** The transport filter: `"all"`, or an exact, case-sensitive match of the mode. */
  predicate MatchesTransport(t: Trajet, filter: string) {
    filter == "all" || t.modetransport == filter
  }

  predicate Keep(t: Trajet, term: string, filter: string) {
    MatchesSearch(t, term) && MatchesTransport(t, filter)
  }

  /** `filteredTrajets`: the routes passing both the search and the transport filter, in order. */
  function FilteredTrajets(ts: seq<Trajet>, term: string, filter: string): (r: seq<Trajet>)
    ensures Listing.IsSubseq(r, ts)
    ensures forall i :: 0 <= i < |r| ==> MatchesSearch(r[i], term) && MatchesTransport(r[i], filter)
    ensures forall i :: 0 <= i < |ts| && MatchesSearch(ts[i], term) && MatchesTransport(ts[i], filter) ==> ts[i] in r
    ensures filter != "all" ==> forall i :: 0 <= i < |r| ==> r[i].modetransport == filter
    ensures forall t :: multiset(r)[t] == if Keep(t, term, filter) then multiset(ts)[t] else 0
  {
    Listing.Filter(ts, t => Keep(t, term, filter))
  }

  /** No search term and the `"all"` filter show every route. */
  lemma FilteredTrajetsIdentity(ts: seq<Trajet>)
    ensures FilteredTrajets(ts, "", "all") == ts
  {
    forall i | 0 <= i < |ts| ensures Keep(ts[i], "", "all") {
      Text.MatchesEmpty(ts[i].id);
    }
    Listing.FilterAll(ts, t => Keep(t, "", "all"));
  }

  datatype TrajetStats = TrajetStats(total: nat, avion: nat, bateau: nat, terrestre: nat)

  predicate IsAvion(t: Trajet) {
    t.modetransport == "Avion"
  }

  predicate IsBateau(t: Trajet) {
    t.modetransport == "Bateau"
  }

  predicate IsTerrestre(t: Trajet) {
    t.modetransport != "Avion" && t.modetransport != "Bateau"
  }

  /** The quick statistics: every route is counted in exactly one of the three transport groups. */
  function Stats(ts: seq<Trajet>): (st: TrajetStats)
    ensures st.total == |ts|
    ensures st.avion + st.bateau + st.terrestre == st.total
    ensures st.avion == |Listing.Filter(ts, IsAvion)| && st.bateau == |Listing.Filter(ts, IsBateau)|
  {
    Listing.CountSplit3(ts, IsAvion, IsBateau, IsTerrestre);
    TrajetStats(|ts|, Listing.Count(ts, IsAvion), Listing.Count(ts, IsBateau), Listing.Count(ts, IsTerrestre))
  }

  const BlueBadge: string := "bg-blue-100 text-blue-800"
  const GreenBadge: string := "bg-green-100 text-green-800"
  const OrangeBadge: string := "bg-orange-100 text-orange-800"
  const GrayBadge: string := "bg-gray-100 text-gray-800"

  /** `getTransportColor`: the badge class of a transport mode, case-insensitively. */
  function TransportColor(mode: string): (c: string)
    ensures c in {BlueBadge, GreenBadge, OrangeBadge, GrayBadge}
    ensures c == BlueBadge <==> Text.ToLower(mode) == "avion"
    ensures c == GreenBadge <==> Text.ToLower(mode) == "bateau"
    ensures c == OrangeBadge <==> Text.ToLower(mode) in {"camion", "voiture"}
  {
    match Text.ToLower(mode)
    case "avion" => BlueBadge
    case "bateau" => GreenBadge
    case "camion" => OrangeBadge
    case "voiture" => OrangeBadge
    case _ => GrayBadge
  }

  datatype Glyph = Plane | Ship | Truck | MapPin

  /** An icon: its glyph and its class. */
  datatype Icon = Icon(glyph: Glyph, className: string)

  /** `getTransportIcon`: the icon of a transport mode, case-insensitively. */
  function TransportIcon(mode: string): (icon: Icon)
    ensures icon.glyph == Plane <==> Text.ToLower(mode) == "avion"
    ensures icon.glyph == Ship <==> Text.ToLower(mode) == "bateau"
    ensures icon.glyph == Truck <==> Text.ToLower(mode) in {"camion", "voiture"}
  {
    match Text.ToLower(mode)
    case "avion" => Icon(Plane, "w-4 h-4 text-blue-600")
    case "bateau" => Icon(Ship, "w-4 h-4 text-green-600")
    case "camion" => Icon(Truck, "w-4 h-4 text-orange-600")
    case "voiture" => Icon(Truck, "w-4 h-4 text-orange-600")
    case _ => Icon(MapPin, "w-4 h-4 text-gray-600")
  }

  /** Badge and icon agree: both are decided by the lower-cased mode, and land in the same group. */
  lemma BadgeAndIconAgree(a: string, b: string)
    ensures Text.ToLower(a) == Text.ToLower(b) ==> TransportColor(a) == TransportColor(b) && TransportIcon(a) == TransportIcon(b)
    ensures TransportColor(a) == GrayBadge <==> TransportIcon(a).glyph == MapPin
    ensures TransportColor(a) == OrangeBadge <==> TransportIcon(a).glyph == Truck
  {
  }

  /**
   * The statistics compare the mode case-sensitively while the badge lower-cases it:
   * a route in "avion" wears the blue plane badge yet is counted as land transport.
   */
  lemma StatsAndBadgeDisagreeOnCase(t: Trajet)
    requires t.modetransport == "avion"
    ensures TransportColor(t.modetransport) == BlueBadge
    ensures Stats([t]).terrestre == 1 && Stats([t]).avion == 0
  {
    assert Text.ToLower("avion") == "avion";
  }

  /** The edit form the "edit" action fills in. */
  datatype EditForm = EditForm(
    prixParKilo: real,
    prixParPiece: real,
    modetransport: string,
    dateTraject: string,
    portDepart: string,
    portDarriver: string,
    pointRamasage: seq<string>,
    pointLivraison: seq<string>)

  /** The form for a route: every editable field copied, the date cut before its first `'T'`. */
  function EditFormOf(t: Trajet): (f: EditForm)
    ensures Text.IsPrefix(f.dateTraject, t.dateTraject)
    ensures 'T' !in f.dateTraject
    ensures f.dateTraject == t.dateTraject || t.dateTraject[|f.dateTraject|] == 'T'
    ensures f.modetransport == t.modetransport && f.portDepart == t.portDepart && f.portDarriver == t.portDarriver
    ensures f.prixParKilo == t.prixParKilo && f.prixParPiece == t.prixParPiece
    ensures f.pointRamasage == t.pointRamasage && f.pointLivraison == t.pointLivraison
  {
    EditForm(t.prixParKilo, t.prixParPiece, t.modetransport, Text.BeforeFirst(t.dateTraject, 'T'),
             t.portDepart, t.portDarriver, t.pointRamasage, t.pointLivraison)
  }

  /** An ISO timestamp `date + "T" + time` loses its time part whenever the date has no `'T'`. */
  lemma {:induction false} EditDateDropsTime(date: string, time: string)
    requires 'T' !in date
    ensures Text.BeforeFirst(date + "T" + time, 'T') == date
    decreases |date|
  {
    if date != [] {
      assert (date + "T" + time)[1..] == date[1..] + "T" + time;
      EditDateDropsTime(date[1..], time);
    } else {
      assert (date + "T" + time)[0] == 'T';
    }
  }

  /** The modal state: selected route, edit form (`None` while still `{}`), and which modal is open. */
  datatype View = View(selected: Option<Trajet>, form: Option<EditForm>, showEdit: bool, showDelete: bool)

  const InitialView: View := View(None, None, false, false)

  /** `handleTrajetAction`: "edit" and "delete" select the route and open their modal; anything else changes nothing. */
  function HandleAction(v: View, action: string, t: Trajet): (w: View)
    ensures action == "edit" ==> w == v.(selected := Some(t), form := Some(EditFormOf(t)), showEdit := true)
    ensures action == "delete" ==> w == v.(selected := Some(t), showDelete := true)
    ensures action != "edit" && action != "delete" ==> w == v
  {
    match action
    case "edit" => v.(selected := Some(t), form := Some(EditFormOf(t)), showEdit := true)
    case "delete" => v.(selected := Some(t), showDelete := true)
    case _ => v
  }

  /** The requests the page sends for a route. */
  datatype Request = UpdateTrajet(id: string, form: Option<EditForm>) | DeleteTrajet(id: string)

  /** `handleEditSubmit`: an update of the selected route with the form, or nothing without a selection. */
  function HandleEditSubmit(v: View): (r: Option<Request>)
    ensures r.None? <==> v.selected.None?
    ensures r.Some? ==> r.value == UpdateTrajet(v.selected.value.id, v.form)
  {
    if v.selected.Some? then Some(UpdateTrajet(v.selected.value.id, v.form)) else None
  }

  /** `handleDeleteConfirm`: a deletion of the selected route, or nothing without a selection. */
  function HandleDeleteConfirm(v: View): (r: Option<Request>)
    ensures r.None? <==> v.selected.None?
    ensures r.Some? ==> r.value == DeleteTrajet(v.selected.value.id)
  {
    if v.selected.Some? then Some(DeleteTrajet(v.selected.value.id)) else None
  }

  /** Editing then submitting sends the route's own id with the form built from it. */
  lemma EditThenSubmit(v: View, t: Trajet)
    ensures HandleEditSubmit(HandleAction(v, "edit", t)) == Some(UpdateTrajet(t.id, Some(EditFormOf(t))))
    ensures HandleDeleteConfirm(HandleAction(v, "delete", t)) == Some(DeleteTrajet(t.id))
    ensures HandleEditSubmit(InitialView) == None && HandleDeleteConfirm(InitialView) == None
  {
  }
}
