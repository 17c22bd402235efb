/**
 * Later copies of one message (frontend/app/controllers/whatsapp.js): status, edits and deletions arrive as
 * copies, in any order and more than once, and are merged into the row on show.
 */
module MessageCopies {
  import opened Options

  type Id = nat
  type Text = seq<nat>

  datatype Field =
    | Body | Status | StatusAt | ErrorCode | EditedAt | DeletedAt | MediaStatus | MediaSizeBytes | MediaMime
    | MediaFileName | MediaStoredAt | MediaDeletedAt | MediaDeletedBy

  const MUTABLE_FIELDS: seq<Field> := [
    Body, Status, StatusAt, ErrorCode, EditedAt, DeletedAt, MediaStatus, MediaSizeBytes, MediaMime, MediaFileName,
    MediaStoredAt, MediaDeletedAt, MediaDeletedBy
  ]

  const DELIVERY: set<Field> := {Status, StatusAt, ErrorCode}

  datatype Value = Words(text: Text) | Number(number: nat)

  /** A field that is null is not in the map. */
  type Fields = map<Field, Value>

  datatype Row = Row(id: Id, fields: Fields)

  /** A copy may come without an id: a status push does. */
  datatype Copy = Copy(id: Option<Id>, fields: Fields)

  function TextOf(fields: Fields): Option<Value> { if Body in fields then Some(fields[Body]) else None }

  /** When the text was edited last; 0 when it never was. */
  function EditTime(fields: Fields): nat {
    if EditedAt in fields && fields[EditedAt].Number? then fields[EditedAt].number else 0
  }

  predicate IsOlder(row: Fields, copy: Fields) { EditTime(row) > EditTime(copy) }

  predicate TakesOver(row: Fields, copy: Fields, f: Field) { f in copy && !(f.Body? && IsOlder(row, copy)) }

  function MergedFields(row: Fields, copy: Fields): Fields {
    row + map f | f in copy && TakesOver(row, copy, f) :: copy[f]
  }

  /** A retried send gets its new id, and its delivery starts over. */
  function Merged(row: Row, copy: Copy): Row {
    var fields := MergedFields(row.fields, copy.fields);
    if copy.id.None? || copy.id.value == row.id then Row(row.id, fields)
    else Row(copy.id.value, (fields - DELIVERY) + map f | f in copy.fields && f in DELIVERY :: copy.fields[f])
  }

  /** What became of one field: the value, or None for null. */
  function ValueOf(fields: Fields, f: Field): Option<Value> { if f in fields then Some(fields[f]) else None }

  /** The copy is the same message sent again, under a new id. */
  predicate IsRetry(row: Row, copy: Copy) { copy.id.Some? && copy.id.value != row.id }

  /**
   * Field by field: a retry starts the delivery over with what the copy says of it, else a field that the copy
   * has is the copy's, but for the text of an older edit, and any other stays.
   */
  lemma EachFieldMerged(row: Row, copy: Copy, f: Field)
    ensures Merged(row, copy).id == (if IsRetry(row, copy) then copy.id.value else row.id)
    ensures ValueOf(Merged(row, copy).fields, f)
            == if IsRetry(row, copy) && (f.Status? || f.StatusAt? || f.ErrorCode?) then ValueOf(copy.fields, f)
               else if f.Body? && EditTime(copy.fields) < EditTime(row.fields) then ValueOf(row.fields, f)
               else if f in copy.fields then Some(copy.fields[f])
               else ValueOf(row.fields, f)
  {
  }

  lemma EveryFieldIsListed(f: Field)
    ensures f in MUTABLE_FIELDS
  {
    assert MUTABLE_FIELDS[0] == Body && MUTABLE_FIELDS[1] == Status && MUTABLE_FIELDS[2] == StatusAt;
    assert MUTABLE_FIELDS[3] == ErrorCode && MUTABLE_FIELDS[4] == EditedAt && MUTABLE_FIELDS[5] == DeletedAt;
    assert MUTABLE_FIELDS[6] == MediaStatus && MUTABLE_FIELDS[7] == MediaSizeBytes && MUTABLE_FIELDS[8] == MediaMime;
    assert MUTABLE_FIELDS[9] == MediaFileName && MUTABLE_FIELDS[10] == MediaStoredAt;
    assert MUTABLE_FIELDS[11] == MediaDeletedAt && MUTABLE_FIELDS[12] == MediaDeletedBy;
  }

  /** The fields merged so far: those listed before `done`. */
  ghost predicate MergedUpTo(row: Fields, copy: Fields, merged: Fields, done: nat)
    requires done <= |MUTABLE_FIELDS|
  {
    forall f :: var isTaken := f in MUTABLE_FIELDS[..done] && TakesOver(row, copy, f);
                (f in merged <==> f in row || isTaken)
                && (f in merged ==> merged[f] == if isTaken then copy[f] else row[f])
  }

  lemma MergedInFull(row: Fields, copy: Fields, merged: Fields)
    requires MergedUpTo(row, copy, merged, |MUTABLE_FIELDS|)
    ensures merged == MergedFields(row, copy)
  {
    assert MUTABLE_FIELDS[..|MUTABLE_FIELDS|] == MUTABLE_FIELDS;
    forall f: Field ensures f in MUTABLE_FIELDS {
      EveryFieldIsListed(f);
    }
  }

  /** One field of the loop. */
  method MergeField(row: Fields, copy: Fields, merged: Fields, f: Field) returns (next: Fields, changed: bool)
    requires (f in merged <==> f in row) && (f in row ==> merged[f] == row[f])
    ensures next == if TakesOver(row, copy, f) then merged[f := copy[f]] else merged
    ensures changed <==> next != merged
  {
    if f.Body? && IsOlder(row, copy) {
      return merged, false;
    }
    if f in copy && (f !in row || copy[f] != row[f]) {
      return merged[f := copy[f]], true;
    }
    if f in copy {
      assert merged[f := copy[f]] == merged;
    }
    return merged, false;
  }

  /** None stands for null: nothing has changed. */
  method MergeExisting(existing: Row, incoming: Copy) returns (r: Option<Row>)
    ensures r == if Merged(existing, incoming) == existing then None else Some(Merged(existing, incoming))
  {
    var merged, changed := existing.fields, false;
    var i: nat := 0;
    while i < |MUTABLE_FIELDS|
      invariant i <= |MUTABLE_FIELDS|
      invariant MergedUpTo(existing.fields, incoming.fields, merged, i)
      invariant changed <==> merged != existing.fields
    {
      var f := MUTABLE_FIELDS[i];
      FieldIsListedOnce(i);
      var next, more := MergeField(existing.fields, incoming.fields, merged, f);
      assert MUTABLE_FIELDS[..i + 1] == MUTABLE_FIELDS[..i] + [f];
      FieldMerged(existing.fields, incoming.fields, merged, next, i);
      merged, changed := next, changed || more;
      i := i + 1;
    }
    MergedInFull(existing.fields, incoming.fields, merged);
    if incoming.id.Some? && incoming.id.value != existing.id {
      var delivery := map f | f in incoming.fields && f in DELIVERY :: incoming.fields[f];
      return Some(Row(incoming.id.value, (merged - DELIVERY) + delivery));
    }
    if changed {
      return Some(Row(existing.id, merged));
    }
    return None;
  }

  lemma FieldIsListedOnce(i: nat)
    requires i < |MUTABLE_FIELDS|
    ensures MUTABLE_FIELDS[i] !in MUTABLE_FIELDS[..i]
  {
  }

  lemma FieldMerged(row: Fields, copy: Fields, merged: Fields, next: Fields, i: nat)
    requires i < |MUTABLE_FIELDS| && MergedUpTo(row, copy, merged, i)
    requires var f := MUTABLE_FIELDS[i]; next == if TakesOver(row, copy, f) then merged[f := copy[f]] else merged
    ensures MergedUpTo(row, copy, next, i + 1)
    ensures merged != row ==> next != row
  {
    assert MUTABLE_FIELDS[..i + 1] == MUTABLE_FIELDS[..i] + [MUTABLE_FIELDS[i]];
  }

  // ----- Old text coming back -----

  /** A row with the edit time of the copy whose text it shows. */
  datatype Shown = Shown(row: Row, textFrom: nat)

  function ShownAfter(s: Shown, copy: Copy): Shown {
    Shown(Merged(s.row, copy),
          if TakesOver(s.row.fields, copy.fields, Body) then EditTime(copy.fields) else s.textFrom)
  }

  /** A row as it was loaded, and the copies merged into it. */
  ghost predicate IsRun(states: seq<Shown>, copies: seq<Copy>) {
    && |states| == |copies| + 1 && states[0].textFrom == EditTime(states[0].row.fields)
    && forall i | 0 <= i < |copies| :: states[i + 1] == ShownAfter(states[i], copies[i])
  }

  /** The row says that it was edited earlier than the text it shows. */
  predicate Exposed(s: Shown) { EditTime(s.row.fields) < s.textFrom }

  /** A copy of an edit from before the text on show. */
  predicate IsLateEdit(s: Shown, copy: Copy) { EditedAt in copy.fields && EditTime(copy.fields) < s.textFrom }

  lemma MergedEditTime(row: Row, copy: Copy)
    ensures EditTime(Merged(row, copy).fields) == EditTime(if EditedAt in copy.fields then copy.fields else row.fields)
  {
  }

  /** The copy replaces the text by that of an earlier edit. */
  predicate PutsOldTextBack(s: Shown, copy: Copy) { ShownAfter(s, copy).textFrom < s.textFrom }

  /** Some copy would put an older text back, exactly when the row is exposed. */
  lemma OldTextCanComeBackExactlyWhenExposed(s: Shown)
    ensures (exists copy :: PutsOldTextBack(s, copy)) <==> Exposed(s)
  {
    if Exposed(s) {
      var copy := Copy(None, map[Body := Words([]), EditedAt := Number(EditTime(s.row.fields))]);
      assert PutsOldTextBack(s, copy);
    }
  }

  /** A merge leaves the row exposed exactly when it takes no text and the edit time it leaves is an earlier one. */
  lemma ExposedAfter(s: Shown, copy: Copy)
    ensures Exposed(ShownAfter(s, copy)) <==>
            !TakesOver(s.row.fields, copy.fields, Body)
            && if EditedAt in copy.fields then IsLateEdit(s, copy) else Exposed(s)
  {
    MergedEditTime(s.row, copy);
  }

  /** Of the rows that are not, a merge exposes exactly those whose copy is a late edit. */
  lemma LateEditsExpose(s: Shown, copy: Copy)
    requires !Exposed(s)
    ensures Exposed(ShownAfter(s, copy)) <==> IsLateEdit(s, copy)
    ensures ShownAfter(s, copy).textFrom >= s.textFrom
  {
    ExposedAfter(s, copy);
  }

  /**
   * While no late edit is merged, whatever else comes in whatever order and however often, no older text ever
   * comes back.
   */
  lemma {:induction false} TextNeverGoesBack(states: seq<Shown>, copies: seq<Copy>, i: nat, k: nat)
    requires IsRun(states, copies) && i <= k < |states|
    requires forall j | 0 <= j < k :: !IsLateEdit(states[j], copies[j])
    ensures !Exposed(states[k]) && states[i].textFrom <= states[k].textFrom
    decreases k
  {
    if k > 0 {
      TextNeverGoesBack(states, copies, if i < k then i else k - 1, k - 1);
      LateEditsExpose(states[k - 1], copies[k - 1]);
    }
  }

  /** Over every run: old text can never come back, exactly when no late edit is merged. */
  lemma SafeExactlyWithoutLateEdits(states: seq<Shown>, copies: seq<Copy>)
    requires IsRun(states, copies)
    ensures (forall k | 0 <= k < |states| :: !Exposed(states[k])) <==>
            (forall j | 0 <= j < |copies| :: !IsLateEdit(states[j], copies[j]))
  {
    if forall k | 0 <= k < |states| :: !Exposed(states[k]) {
      forall j | 0 <= j < |copies| ensures !IsLateEdit(states[j], copies[j]) {
        assert !Exposed(states[j]) && !Exposed(states[j + 1]);
        LateEditsExpose(states[j], copies[j]);
      }
    }
    if forall j | 0 <= j < |copies| :: !IsLateEdit(states[j], copies[j]) {
      forall k | 0 <= k < |states| ensures !Exposed(states[k]) {
        TextNeverGoesBack(states, copies, k, k);
      }
    }
  }

  /** The same late edit a second time puts its text back. */
  lemma SecondLateEditPutsItsTextBack(s: Shown, copy: Copy)
    requires !Exposed(s) && IsLateEdit(s, copy) && Body in copy.fields
    ensures var once := ShownAfter(s, copy);
            var twice := ShownAfter(once, copy);
            && once.textFrom == s.textFrom
            && TextOf(once.row.fields) == TextOf(s.row.fields)
            && twice.textFrom < s.textFrom && TextOf(twice.row.fields) == TextOf(copy.fields)
  {
    MergedEditTime(s.row, copy);
  }

  /** An older edit with a text of its own: its text is passed over at first and taken the second time. */
  predicate CountsTwice(row: Fields, copy: Fields) {
    IsOlder(row, copy) && EditedAt in copy && Body in copy && TextOf(row) != TextOf(copy)
  }

  lemma FieldsTwice(row: Fields, copy: Fields, once: Fields)
    requires forall f: Field | !f.Body? :: f in copy ==> f in once && once[f] == copy[f]
    requires TextOf(once) == if TakesOver(row, copy, Body) then TextOf(copy) else TextOf(row)
    requires EditTime(once) == EditTime(if EditedAt in copy then copy else row)
    ensures MergedFields(once, copy) == once <==> !CountsTwice(row, copy)
  {
    var twice := MergedFields(once, copy);
    assert TextOf(twice) == if TakesOver(once, copy, Body) then TextOf(copy) else TextOf(once);
    assert forall f: Field | !f.Body? :: (f in twice <==> f in once) && (f in once ==> twice[f] == once[f]);
    if TextOf(twice) == TextOf(once) {
      assert twice == once;
    }
  }

  lemma MergedText(row: Row, copy: Copy)
    ensures TextOf(Merged(row, copy).fields) ==
            if TakesOver(row.fields, copy.fields, Body) then TextOf(copy.fields) else TextOf(row.fields)
    ensures forall f: Field | !f.Body? && f in copy.fields ::
              f in Merged(row, copy).fields && Merged(row, copy).fields[f] == copy.fields[f]
  {
  }

  /** A copy that comes twice counts once, exactly unless it is an older edit with a text of its own. */
  lemma MergingTwiceIsMergingOnce(row: Row, copy: Copy)
    ensures Merged(Merged(row, copy), copy) == Merged(row, copy) <==> !CountsTwice(row.fields, copy.fields)
  {
    MergedEditTime(row, copy);
    MergedText(row, copy);
    FieldsTwice(row.fields, copy.fields, Merged(row, copy).fields);
  }

  const Two: Fields := map[Body := Words([2]), EditedAt := Number(200)]
  const One: Fields := map[Body := Words([1]), EditedAt := Number(100)]

  /** The edit of 200 is on show; the one of 100 arrives twice, and its text is back. */
  lemma OlderEditTwice() returns (states: seq<Shown>, copies: seq<Copy>)
    ensures IsRun(states, copies) && copies == [Copy(Some(0), One), Copy(Some(0), One)]
    ensures states[0] == Shown(Row(0, Two), 200)
    ensures TextOf(states[1].row.fields) == Some(Words([2])) && TextOf(states[2].row.fields) == Some(Words([1]))
  {
    var s, copy := Shown(Row(0, Two), 200), Copy(Some(0), One);
    SecondLateEditPutsItsTextBack(s, copy);
    states, copies := [s, ShownAfter(s, copy), ShownAfter(ShownAfter(s, copy), copy)], [copy, copy];
  }
}
