/** The airports page: locations of mode "Avion", whose add refuses only the empty name and whose rename refuses nothing. */
module Airports {
  import opened Optional
  import Text
  import opened Locations
  import Ports

  /** `addAirport`: nothing for an empty name; otherwise the name as an airport. */
  function AddAirport(nom: string): (r: Option<Request>)
    ensures r.None? <==> nom == ""
    ensures r.Some? ==> r.value == AddLocation(nom, Avion)
  {
    if nom == "" then None else Some(AddLocation(nom, Avion))
  }

  /** `handleSaveEdit`: nothing without an airport being edited; otherwise its name, even an empty one. */
  function HandleSaveEdit(editing: Option<Location>): (r: Option<Request>)
    ensures r.None? <==> editing.None?
    ensures r.Some? ==> r.value == UpdateLocation(editing.value.id, editing.value.nom)
  {
    if editing.None? then None else Some(UpdateLocation(editing.value.id, editing.value.nom))
  }

  /** The two pages guard their add differently: a lone space makes an airport but not a port. */
  lemma BlankNameGuardsDiffer()
    ensures AddAirport(" ").Some?
    ensures Ports.AddPort(" ").None?
  {
    assert Text.IsBlank(" ");
  }

  /** Every name an airport add accepts but a port add refuses is blank and non-empty. */
  lemma {:induction false} GuardsDifferOnlyOnBlankNames(nom: string)
    ensures AddAirport(nom).Some? && Ports.AddPort(nom).None? <==> nom != "" && Text.IsBlank(nom)
    ensures Ports.AddPort(nom).Some? ==> AddAirport(nom).Some?
  {
  }

  /** Renaming an airport to the empty name goes through, while a port would refuse it. */
  lemma EmptyRenameAccepted(id: string)
    ensures HandleSaveEdit(Some(Location(id, ""))) == Some(UpdateLocation(id, ""))
    ensures Ports.UpdatePort(Some(Location(id, ""))).None?
  {
  }
}
