/**
 * What the ports page and the airports page share: one location collection, filtered
 * by transport mode, shown by name, searched by name, and edited through the same requests.
 */
module Locations {
  import opened Optional
  import Text
  import Listing

  const Bateau: string := "Bateau"
  const Avion: string := "Avion"

  /** A location as the API returns it. */
  datatype ApiLocation = ApiLocation(id: string, name: string, transportMode: string)

  /** A location as the table shows it. */
  datatype Location = Location(id: string, nom: string)

  /** `transformApiLocation` / `transformApiAirport`: the id and the name, nothing else. */
  function TransformApiLocation(a: ApiLocation): (l: Location)
    ensures l.id == a.id && l.nom == a.name
  {
    Location(a.id, a.name)
  }

  /** The requests both pages send. */
  datatype Request =
    | AddLocation(name: string, transportMode: string)
    | UpdateLocation(id: string, name: string)
    | DeleteLocation(id: string)

  /** The search box: case-insensitive over the name only. */
  predicate MatchesName(l: Location, term: string) {
    Text.Matches(l.nom, term)
  }

  /** `filteredPorts` / `filteredAirports`: the locations whose name contains the term, in order. */
  function FilteredByName(ls: seq<Location>, term: string): (r: seq<Location>)
    ensures Listing.IsSubseq(r, ls)
    ensures forall i :: 0 <= i < |r| ==> Text.Matches(r[i].nom, term)
    ensures forall i :: 0 <= i < |ls| && Text.Matches(ls[i].nom, term) ==> ls[i] in r
    ensures forall l :: multiset(r)[l] == if Text.Matches(l.nom, term) then multiset(ls)[l] else 0
  {
    Listing.Filter(ls, l => MatchesName(l, term))
  }

  /** An empty search shows every location. */
  lemma FilteredByNameIdentity(ls: seq<Location>)
    ensures FilteredByName(ls, "") == ls
  {
    forall i | 0 <= i < |ls| ensures MatchesName(ls[i], "") {
      Text.MatchesEmpty(ls[i].nom);
    }
    Listing.FilterAll(ls, l => MatchesName(l, ""));
  }

  /** Deleting asks for confirmation first; the answer is a parameter. */
  function HandleDelete(id: string, confirmed: bool): (r: Option<Request>)
    ensures r.Some? <==> confirmed
    ensures r.Some? ==> r.value == DeleteLocation(id)
  {
    if confirmed then Some(DeleteLocation(id)) else None
  }

  /** The view and edit modals: the location being viewed and the one being edited. */
  datatype View = View(viewing: Option<Location>, editing: Option<Location>)

  /** The "view" button opens the view modal on the row and leaves the edit modal alone. */
  function OpenView(v: View, l: Location): (w: View)
    ensures w.viewing == Some(l) && w.editing == v.editing
  {
    v.(viewing := Some(l))
  }

  /** The "edit" button opens the edit modal on the row and leaves the view modal alone. */
  function OpenEdit(v: View, l: Location): (w: View)
    ensures w.editing == Some(l) && w.viewing == v.viewing
  {
    v.(editing := Some(l))
  }
}
