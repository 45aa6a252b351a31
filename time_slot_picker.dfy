/**
 * The list logic of `TimeSlotPicker` (`src/components/TimeSlotPicker.tsx`):
 * which slots are offered, how many are reported taken, and the rows of four
 * chips the offered slots are laid out in.
 */
module TimeSlotPicker {
  import opened Types
  import opened Seqs

  const ROW_WIDTH: nat := 4

  /** Slot `a` is shown before slot `b`: the order the day's slots are generated in. */
  predicate Earlier(a: TimeSlot, b: TimeSlot) {
    a.time < b.time
  }

  /**
   * `availableSlots`: the free slots, each as often as it is given and none
   * that is taken, in the order given (so slots listed in time order stay so).
   */
  function AvailableSlots(slots: seq<TimeSlot>): (r: seq<TimeSlot>)
    ensures forall s :: s in r <==> s in slots && s.available
    ensures forall s :: multiset(r)[s] == if s.available then multiset(slots)[s] else 0
    ensures Pairwise(slots, Earlier) ==> Pairwise(r, Earlier)
  {
    FilterCount(slots, (s: TimeSlot) => s.available);
    if Pairwise(slots, Earlier) then
      FilterPairwise(slots, (s: TimeSlot) => s.available, Earlier);
      Filter(slots, (s: TimeSlot) => s.available)
    else
      Filter(slots, (s: TimeSlot) => s.available)
  }

  /** `unavailableCount`: how many of the slots are taken. */
  function UnavailableCount(slots: seq<TimeSlot>): (n: nat)
    ensures n == |Filter(slots, (s: TimeSlot) => !s.available)|
    ensures n + |AvailableSlots(slots)| == |slots|
  {
    FilterComplement(slots, (s: TimeSlot) => s.available, (s: TimeSlot) => !s.available);
    |slots| - |AvailableSlots(slots)|
  }

  /** The "N horário(s) já ocupado(s)" note is shown exactly when some slot is taken. */
  lemma NoteShownIffTaken(slots: seq<TimeSlot>)
    ensures UnavailableCount(slots) > 0 <==> exists i :: 0 <= i < |slots| && !slots[i].available
  {
    var taken := Filter(slots, (s: TimeSlot) => !s.available);
    if UnavailableCount(slots) > 0 {
      assert taken[0] in taken;
    }
  }

  /** What the picker renders: the empty state, or the note (when positive) and the rows. */
  datatype PickerView =
    | NoSlots
    | SlotRows(takenNote: nat, rows: seq<seq<TimeSlot>>)

  /**
   * The chunking loop: the rows concatenate back to the slots, each row
   * holds four slots except the last, which holds one to four.
   */
  method BuildRows(available: seq<TimeSlot>) returns (rows: seq<seq<TimeSlot>>)
    ensures Flatten(rows) == available
    ensures forall k :: 0 <= k < |rows| - 1 ==> |rows[k]| == ROW_WIDTH
    ensures |rows| > 0 ==> 1 <= |rows[|rows| - 1]| <= ROW_WIDTH
    ensures rows == [] <==> available == []
    ensures |rows| == (|available| + ROW_WIDTH - 1) / ROW_WIDTH
  {
    rows := [];
    var i := 0;
    while i < |available|
      invariant i == ROW_WIDTH * |rows|
      invariant i <= |available| ==> Flatten(rows) == available[..i]
      invariant i > |available| ==> Flatten(rows) == available && i < |available| + ROW_WIDTH
      invariant forall k :: 0 <= k < |rows| - 1 ==> |rows[k]| == ROW_WIDTH
      invariant |rows| > 0 ==> 1 <= |rows[|rows| - 1]| <= ROW_WIDTH
      invariant i <= |available| ==> forall k :: 0 <= k < |rows| ==> |rows[k]| == ROW_WIDTH
    {
      var end := if i + ROW_WIDTH <= |available| then i + ROW_WIDTH else |available|;
      FlattenSnoc(rows, available[i..end]);
      assert available[..i] + available[i..end] == available[..end];
      rows := rows + [available[i..end]];
      i := i + ROW_WIDTH;
    }
    assert available[..|available|] == available;
  }

  /**
   * The picker: with no free slot the empty state and no rows; otherwise the
   * rows of the free slots and the count of taken ones.
   */
  method Render(slots: seq<TimeSlot>) returns (view: PickerView)
    ensures view.NoSlots? <==> AvailableSlots(slots) == []
    ensures view.SlotRows? ==>
      && view.takenNote == UnavailableCount(slots)
      && Flatten(view.rows) == AvailableSlots(slots)
      && (forall k :: 0 <= k < |view.rows| - 1 ==> |view.rows[k]| == ROW_WIDTH)
      && 1 <= |view.rows[|view.rows| - 1]| <= ROW_WIDTH
  {
    var available := AvailableSlots(slots);
    if |available| == 0 {
      return NoSlots;
    }
    var rows := BuildRows(available);
    view := SlotRows(|slots| - |available|, rows);
  }
}
