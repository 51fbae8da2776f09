/** The ports page: locations of mode "Bateau", whose add and rename refuse blank names. */
module Ports {
  import opened Optional
  import Text
  import opened Locations

  /** `addPort`: nothing when the name is blank; otherwise the name as typed, untrimmed, as a port. */
  function AddPort(nom: string): (r: Option<Request>)
    ensures r.None? <==> Text.IsBlank(nom)
    ensures r.Some? ==> r.value == AddLocation(nom, Bateau)
  {
    Text.TrimEmptyIffBlank(nom);
    if Text.Trim(nom) == "" then None else Some(AddLocation(nom, Bateau))
  }

  /** `updatePort`: nothing without a port being edited or with a blank name; otherwise its new name. */
  function UpdatePort(editing: Option<Location>): (r: Option<Request>)
    ensures r.None? <==> editing.None? || Text.IsBlank(editing.value.nom)
    ensures r.Some? ==> r.value == UpdateLocation(editing.value.id, editing.value.nom)
  {
    if editing.None? then None
    else
      Text.TrimEmptyIffBlank(editing.value.nom);
      if Text.Trim(editing.value.nom) == "" then None
      else Some(UpdateLocation(editing.value.id, editing.value.nom))
  }

  /** The white space around a name is checked but not removed: " Rades " is sent as typed. */
  lemma NameSentUntrimmed()
    ensures AddPort(" Rades ") == Some(AddLocation(" Rades ", Bateau))
  {
    assert !Text.IsSpace(" Rades "[1]);
  }

  /** Opening the edit modal on a port with a non-blank name and saving renames that port. */
  lemma EditThenSave(v: View, l: Location)
    requires !Text.IsBlank(l.nom)
    ensures UpdatePort(OpenEdit(v, l).editing) == Some(UpdateLocation(l.id, l.nom))
  {
  }
}
