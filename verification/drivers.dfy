/** The drivers page: the API-to-display transform, search and filters, statistics, status labels and the edit payload. */
module Drivers {
  import opened Optional
  import Text
  import Listing

  /** A driver as the API returns it. */
  datatype ApiUser = ApiUser(id: string, username: string, email: string, phoneNumber: Option<string>, isVerified: bool)

  /** A driver as the table shows it. */
  datatype DisplayUser = DisplayUser(
    id: string,
    nom: string,
    prenom: string,
    email: string,
    telephone: string,
    role: string,
    statut: string,
    isVerified: bool)

  const Transporteur: string := "transporteur"
  const Actif: string := "actif"
  const Inactif: string := "inactif"
  const EnAttente: string := "en_attente"

  /** `transformApiUser`. */
  function TransformApiUser(u: ApiUser): (d: DisplayUser)
    ensures d.id == u.id && d.nom == u.username && d.email == u.email && d.prenom == ""
    ensures d.statut == Actif <==> u.isVerified
    ensures d.statut == EnAttente <==> !u.isVerified
    ensures d.statut != Inactif
    ensures d.role == Transporteur
    ensures d.isVerified == u.isVerified
    ensures Truthy(u.phoneNumber) ==> d.telephone == u.phoneNumber.value
    ensures !Truthy(u.phoneNumber) ==> d.telephone == "N/A"
  {
    DisplayUser(u.id, u.username, "", u.email, OrElse(u.phoneNumber, "N/A"), Transporteur,
                if u.isVerified then Actif else EnAttente, u.isVerified)
  }

  function TransformAll(us: seq<ApiUser>): (ds: seq<DisplayUser>)
    ensures |ds| == |us|
    ensures forall i :: 0 <= i < |us| ==> ds[i] == TransformApiUser(us[i])
  {
    Listing.Map(us, TransformApiUser)
  }

  /** The search box: case-insensitive over the name or the e-mail. */
  predicate MatchesSearch(d: DisplayUser, term: string) {
    Text.Matches(d.nom, term) || Text.Matches(d.email, term)
  }

  predicate Keep(d: DisplayUser, term: string, role: string, status: string) {
    && MatchesSearch(d, term)
    && (role == "all" || d.role == role)
    && (status == "all" || d.statut == status)
  }

  /** `filteredUsers`: the drivers matching the search, the role filter and the status filter, in order. */
  function FilteredUsers(ds: seq<DisplayUser>, term: string, role: string, status: string): (r: seq<DisplayUser>)
    ensures Listing.IsSubseq(r, ds)
    ensures forall i :: 0 <= i < |r| ==>
      MatchesSearch(r[i], term) && (role == "all" || r[i].role == role) && (status == "all" || r[i].statut == status)
    ensures forall i :: 0 <= i < |ds| ==>
      (MatchesSearch(ds[i], term) && (role == "all" || ds[i].role == role) && (status == "all" || ds[i].statut == status))
      ==> ds[i] in r
    ensures forall d :: multiset(r)[d] == if Keep(d, term, role, status) then multiset(ds)[d] else 0
  {
    Listing.Filter(ds, d => Keep(d, term, role, status))
  }

  /** With an empty search and both filters on `"all"`, every driver is shown. */
  lemma FilteredUsersIdentity(ds: seq<DisplayUser>)
    ensures FilteredUsers(ds, "", "all", "all") == ds
  {
    forall i | 0 <= i < |ds| ensures Keep(ds[i], "", "all", "all") {
      Text.MatchesEmpty(ds[i].nom);
    }
    Listing.FilterAll(ds, d => Keep(d, "", "all", "all"));
  }

  /** The "inactif" status filter can never show anything: the transform never produces that status. */
  lemma InactifFilterIsEmpty(us: seq<ApiUser>, term: string, role: string)
    ensures FilteredUsers(TransformAll(us), term, role, Inactif) == []
  {
    var ds := TransformAll(us);
    Listing.FilterNone(ds, d => Keep(d, term, role, Inactif));
  }

  datatype UserStats = UserStats(total: nat, verified: nat, pending: nat)

  predicate IsVerified(d: DisplayUser) {
    d.isVerified
  }

  predicate IsPending(d: DisplayUser) {
    !d.isVerified
  }

  /** The statistics: every driver is either verified or pending. */
  function Stats(ds: seq<DisplayUser>): (st: UserStats)
    ensures st.total == |ds|
    ensures st.verified + st.pending == st.total
    ensures st.verified == |Listing.Filter(ds, IsVerified)|
  {
    Listing.CountSplit(ds, IsVerified, IsPending);
    UserStats(|ds|, Listing.Count(ds, IsVerified), Listing.Count(ds, IsPending))
  }

  /** `getStatusLabel`: the three known statuses get a label; anything else is shown as is. */
  function StatusLabel(statut: string): (shown: string)
    ensures statut == Actif ==> shown == "Vérifié"
    ensures statut == Inactif ==> shown == "Inactif"
    ensures statut == EnAttente ==> shown == "En attente de vérification"
    ensures shown == statut <==> statut !in {Actif, Inactif, EnAttente}
  {
    match statut
    case "actif" => "Vérifié"
    case "inactif" => "Inactif"
    case "en_attente" => "En attente de vérification"
    case _ => statut
  }

  /** The body of the update request. */
  datatype UpdatePayload = UpdatePayload(username: string, email: string, phoneNumber: string)

  datatype Request = UpdateUser(id: string, payload: UpdatePayload)

  /** `handleSaveEdit`: nothing without a driver being edited, else its name, e-mail and phone. */
  function HandleSaveEdit(editing: Option<DisplayUser>): (r: Option<Request>)
    ensures r.None? <==> editing.None?
    ensures r.Some? ==>
      r.value == UpdateUser(editing.value.id, UpdatePayload(editing.value.nom, editing.value.email, editing.value.telephone))
  {
    match editing
    case None => None
    case Some(d) => Some(UpdateUser(d.id, UpdatePayload(d.nom, d.email, d.telephone)))
  }

  /** Editing an untouched driver sends back what the API gave, with a missing phone as "N/A". */
  lemma SaveEditRoundTrip(u: ApiUser)
    ensures HandleSaveEdit(Some(TransformApiUser(u))) ==
      Some(UpdateUser(u.id, UpdatePayload(u.username, u.email, OrElse(u.phoneNumber, "N/A"))))
  {
  }
}
