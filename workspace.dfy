/**
 * The workspace page's cue list: the list of cues and the selected cue, and
 * the three edit handlers. Each handler builds a new list and a new
 * selection from the current ones and replaces both; nothing is changed in
 * place. The new cue's id, which the page takes from the clock, is a
 * parameter.
 */
module Workspace {
  import opened Common
  import opened JsStrings
  import opened Seqs

  datatype CueType = ClipCue | ColumnCue | GroupCue

  datatype Cue = Cue(
    id: string, number: string, name: string, cueType: CueType,
    target: Option<string>, duration: Option<real>, armed: bool, notes: Option<string>)

  datatype WorkspaceState = WorkspaceState(cues: seq<Cue>, selectedCue: Option<Cue>)

  /** The demonstration cues the page starts with. */
  const InitialCues: seq<Cue> := [
    Cue("1", "1", "Opening Sequence", ColumnCue, Some("Column 1"), None, true, None),
    Cue("2", "2", "Main Beat Drop", ClipCue, Some("Column 2, Clip 3"), None, true, None),
    Cue("3", "3", "Visual Break", ColumnCue, Some("Column 3"), None, false, None),
    Cue("4", "4", "Finale", GroupCue, None, None, false, None)
  ]

  /** The page's first state: the demonstration cues, with the first one selected. */
  function Initial(): (w: WorkspaceState)
    ensures |w.cues| == 4
    ensures w.selectedCue.Some? && w.selectedCue.value == w.cues[0]
  {
    WorkspaceState(InitialCues, Some(InitialCues[0]))
  }

  function KeepUnless(id: string): Cue -> bool {
    (c: Cue) => c.id != id
  }

  /**
   * `handleAddCue`: append one cue numbered and named after the new length,
   * of type clip, disarmed, with no target, duration or notes, and select it.
   */
  function AddCue(w: WorkspaceState, newId: string): (r: WorkspaceState)
    ensures |r.cues| == |w.cues| + 1 && r.cues[..|w.cues|] == w.cues
    ensures var c := r.cues[|w.cues|];
      && c.id == newId && c.number == NatToString(|w.cues| + 1)
      && c.name == "New Cue " + NatToString(|w.cues| + 1)
      && c.cueType == ClipCue && !c.armed
      && c.target.None? && c.duration.None? && c.notes.None?
    ensures r.selectedCue == Some(r.cues[|w.cues|])
  {
    var n := NatToString(|w.cues| + 1);
    var c := Cue(newId, n, "New Cue " + n, ClipCue, None, None, false, None);
    WorkspaceState(w.cues + [c], Some(c))
  }

  /**
   * `handleDeleteCue`: drop every cue with that id, keeping the rest in
   * order; the selection is cleared only when the selected cue has that id.
   */
  function DeleteCue(w: WorkspaceState, id: string): (r: WorkspaceState)
    ensures |r.cues| <= |w.cues|
    ensures forall c :: c in r.cues <==> c in w.cues && c.id != id
    ensures w.selectedCue.Some? && w.selectedCue.value.id == id ==> r.selectedCue.None?
    ensures w.selectedCue.None? || w.selectedCue.value.id != id ==> r.selectedCue == w.selectedCue
  {
    WorkspaceState(
      Filter(w.cues, KeepUnless(id)),
      if w.selectedCue.Some? && w.selectedCue.value.id == id then None else w.selectedCue)
  }

  /** Every cue whose id is `u.id` replaced by `u`. */
  function Replaced(cues: seq<Cue>, u: Cue): seq<Cue> {
    seq(|cues|, i requires 0 <= i < |cues| => if cues[i].id == u.id then u else cues[i])
  }

  /**
   * `handleUpdateCue`: the list keeps its length and order, exactly the
   * cues with the updated cue's id are replaced by it, and it is selected.
   */
  function UpdateCue(w: WorkspaceState, u: Cue): (r: WorkspaceState)
    ensures |r.cues| == |w.cues|
    ensures forall i :: 0 <= i < |w.cues| && w.cues[i].id == u.id ==> r.cues[i] == u
    ensures forall i :: 0 <= i < |w.cues| && w.cues[i].id != u.id ==> r.cues[i] == w.cues[i]
    ensures r.selectedCue == Some(u)
  {
    WorkspaceState(Replaced(w.cues, u), Some(u))
  }

  // ---------------------------------------------------------------------
  // Properties
  // ---------------------------------------------------------------------

  /** The new cue's number reads back, through `parseInt`, as the new length of the list. */
  lemma AddedNumberIsPosition(w: WorkspaceState, newId: string)
    ensures ParseInt(AddCue(w, newId).cues[|w.cues|].number) == Some(|w.cues| + 1)
  {
    ParseIntOfIntToString(|w.cues| + 1);
  }

  /** Deleting the cue just added, under an id no other cue has, restores the list and clears the selection. */
  lemma DeleteUndoesAdd(w: WorkspaceState, newId: string)
    requires forall i :: 0 <= i < |w.cues| ==> w.cues[i].id != newId
    ensures DeleteCue(AddCue(w, newId), newId).cues == w.cues
    ensures DeleteCue(AddCue(w, newId), newId).selectedCue.None?
  {
    var added := AddCue(w, newId);
    assert added.cues == w.cues + [added.cues[|w.cues|]];
    FilterAppend(w.cues, [added.cues[|w.cues|]], KeepUnless(newId));
    FilterKeepsAll(w.cues, KeepUnless(newId));
  }

  /** Deleting an id no cue has leaves the list as it was. */
  lemma DeleteAbsentIsNoop(w: WorkspaceState, id: string)
    requires forall i :: 0 <= i < |w.cues| ==> w.cues[i].id != id
    ensures DeleteCue(w, id).cues == w.cues
  {
    FilterKeepsAll(w.cues, KeepUnless(id));
  }

  /** Deleting splits over the list: what is kept of a prefix comes before what is kept of the rest. */
  lemma DeleteKeepsOrder(a: seq<Cue>, b: seq<Cue>, id: string)
    ensures DeleteCue(WorkspaceState(a + b, None), id).cues
         == DeleteCue(WorkspaceState(a, None), id).cues + DeleteCue(WorkspaceState(b, None), id).cues
  {
    FilterAppend(a, b, KeepUnless(id));
  }

  /** A second identical update changes nothing. */
  lemma UpdateIdempotent(w: WorkspaceState, u: Cue)
    ensures UpdateCue(UpdateCue(w, u), u) == UpdateCue(w, u)
  {
  }

  lemma {:induction false} DeleteOfReplaced(cues: seq<Cue>, u: Cue)
    ensures Filter(Replaced(cues, u), KeepUnless(u.id)) == Filter(cues, KeepUnless(u.id))
  {
    if cues != [] {
      assert Replaced(cues, u)[1..] == Replaced(cues[1..], u);
      DeleteOfReplaced(cues[1..], u);
    }
  }

  /** Updating a cue and then deleting its id leaves the same list as deleting it straight away. */
  lemma DeleteAfterUpdate(w: WorkspaceState, u: Cue)
    ensures DeleteCue(UpdateCue(w, u), u.id).cues == DeleteCue(w, u.id).cues
    ensures DeleteCue(UpdateCue(w, u), u.id).selectedCue.None?
  {
    DeleteOfReplaced(w.cues, u);
  }
}
