/** Taking over what another document has and the base lacks. */
module Merging {
  import opened Options
  import opened Numbering
  import opened Document
  import opened DocumentLaws

  function Larger(a: Number, b: Number): Number {
    if b > a then b else a
  }

  /** Numbers for messages that have none, as long as the number is free; Next and Validity only go up. */
  function MergedFolder(f: Folder, other: Folder): Folder {
    Folder(Larger(f.validity, other.validity), Larger(f.next, other.next),
           f.uids + map mid | mid in other.uids && mid !in f.uids && other.uids[mid] !in f.owner :: other.uids[mid],
           f.owner + map n | n in other.owner && n !in f.owner && other.owner[n] !in f.uids :: other.owner[n])
  }

  /** What the base knows wins; the filters of the other document are not looked at. */
  function Merged(base: Doc, other: Doc): Doc {
    Doc(other.messages + base.messages,
        other.tags + base.tags,
        if |base.rules| == 0 && |other.rules| > 0 then other.rules else base.rules,
        base.filters,
        map name | name in base.uids.Keys + other.uids.Keys ::
          if name in other.uids then MergedFolder(FolderOf(base.uids, name), Normal(other.uids[name]))
          else base.uids[name])
  }

  function MergeMissing(base: Doc, other: Option<Doc>): Doc {
    if other.None? then base else Merged(Normalized(base), other.value)
  }

  lemma MergeKeepsTags(base: Doc, other: Option<Doc>)
    requires TagsKnown(base) && (other.Some? ==> TagsKnown(other.value))
    ensures TagsKnown(MergeMissing(base, other))
  {
  }

  lemma MergedFolderIndexed(f: Folder, other: Folder)
    requires Indexed(f) && Indexed(other)
    ensures Indexed(MergedFolder(f, other))
  {
  }

  lemma MergedFolderSound(f: Folder, other: Folder)
    requires Sound(f) && Sound(other)
    ensures Sound(MergedFolder(f, other))
  {
    MergedFolderIndexed(f, other);
  }

  /** The merge keeps the numbering sound: no number moves, none is given twice, Next and Validity never fall. */
  lemma MergeKeepsNumbering(base: Doc, other: Option<Doc>)
    requires AllSound(base) && (other.Some? ==> AllSound(other.value))
    ensures AllSound(MergeMissing(base, other)) && Continues(base, MergeMissing(base, other), {})
  {
    if other.Some? {
      hide *;
      var m := MergeMissing(base, other);
      MergedNames(base, other.value);
      forall name | name in m.uids
        ensures Sound(m.uids[name]) && (name in base.uids ==> GoesOn(base.uids[name], m.uids[name], {}))
      {
        NameKept(base, other.value, name);
      }
      KeptByName(base, m);
    } else {
      SameGoesOn(base);
    }
  }

  lemma SameGoesOn(d: Doc)
    ensures Continues(d, d, {})
  {
  }

  lemma KeptByName(d: Doc, d': Doc)
    requires d.uids.Keys <= d'.uids.Keys
    requires forall name :: name in d'.uids ==>
      Sound(d'.uids[name]) && (name in d.uids ==> GoesOn(d.uids[name], d'.uids[name], {}))
    ensures AllSound(d') && Continues(d, d', {})
  {
    hide Sound, GoesOn;
  }

  lemma MergedNames(base: Doc, other: Doc)
    ensures MergeMissing(base, Some(other)).uids.Keys == base.uids.Keys + other.uids.Keys
  {
    hide MergedFolder, FolderOf;
  }

  lemma NameKept(base: Doc, other: Doc, name: string)
    requires AllSound(base) && AllSound(other) && name in MergeMissing(base, Some(other)).uids
    ensures var g := MergeMissing(base, Some(other)).uids[name];
      Sound(g) && (name in base.uids ==> GoesOn(base.uids[name], g, {}))
  {
    SoundNormalized(base);
    MergedNumbers(base, other);
    if name in other.uids {
      FolderSound(base, name);
      SoundNormal(other.uids[name]);
      MergedFolderSound(FolderOf(base.uids, name), other.uids[name]);
      MergedFolderGrows(FolderOf(base.uids, name), other.uids[name]);
    }
    hide MergedFolder, Sound, FolderOf, MergeMissing, Merged, Normalized;
  }

  lemma MergedNumbers(base: Doc, other: Doc)
    requires Normalized(base) == base
    ensures var uids := MergeMissing(base, Some(other)).uids;
      && uids.Keys == base.uids.Keys + other.uids.Keys
      && (forall name :: name in other.uids ==>
            uids[name] == MergedFolder(FolderOf(base.uids, name), Normal(other.uids[name])))
      && (forall name :: name in base.uids && name !in other.uids ==> uids[name] == base.uids[name])
  {
    hide MergedFolder, Normalized, FolderOf, Normal;
  }

  /** It keeps every index an inverse, whatever the numbers are. */
  lemma MergeKeepsIndex(base: Doc, other: Option<Doc>)
    requires AllIndexed(base) && (other.Some? ==> AllIndexed(other.value))
    ensures AllIndexed(MergeMissing(base, other))
  {
    if other.Some? {
      forall name | name in other.value.uids
        ensures Indexed(MergedFolder(FolderOf(Normalized(base).uids, name), Normal(other.value.uids[name])))
      {
        FolderIndexed(Normalized(base), name);
        MergedFolderIndexed(FolderOf(Normalized(base).uids, name), Normal(other.value.uids[name]));
      }
      hide MergedFolder, FolderOf;
    }
  }

  // -- every document there can be -------------------------------------------------------------------

  /** How a document came about: by ops, and by merges with local copies that came about in the same way. */
  datatype Story = Nothing | Then(before: Story, op: Op) | Merging(base: Story, copy: Story)

  function Told(s: Story): Doc {
    match s
    case Nothing => EMPTY
    case Then(before, op) => ApplyOp(Told(before), op)
    case Merging(base, copy) => MergeMissing(Told(base), Some(Told(copy)))
  }

  /** Every op was in range when it was applied. */
  ghost predicate InRangeThroughout(s: Story) {
    match s
    case Nothing => true
    case Then(before, op) => InRangeThroughout(before) && InRange(Told(before), op)
    case Merging(base, copy) => InRangeThroughout(base) && InRangeThroughout(copy)
  }

  /** In every document there can be, the tags on messages are registered and no number is on two messages. */
  lemma {:induction false} EveryStoryKeeps(s: Story)
    ensures TagsKnown(Told(s)) && AllIndexed(Told(s))
  {
    hide TagsKnown, AllIndexed, ApplyOp, MergeMissing;
    match s
    case Nothing =>
      assert TagsKnown(EMPTY) && AllIndexed(EMPTY) by { EmptyKeeps(); }
    case Then(before, op) =>
      EveryStoryKeeps(before);
      TagsStayKnown(Told(before), op);
      IndexKept(Told(before), op);
    case Merging(base, copy) =>
      EveryStoryKeeps(base);
      EveryStoryKeeps(copy);
      MergeKeepsTags(Told(base), Some(Told(copy)));
      MergeKeepsIndex(Told(base), Some(Told(copy)));
  }

  lemma EmptyKeeps()
    ensures TagsKnown(EMPTY) && AllIndexed(EMPTY) && AllSound(EMPTY)
  {
  }

  /** And if every op was in range, all folders are sound. */
  lemma {:induction false} EveryStorySound(s: Story)
    requires InRangeThroughout(s)
    ensures AllSound(Told(s))
  {
    hide AllSound, ApplyOp, MergeMissing, InRange, Continues;
    match s
    case Nothing => EmptyKeeps();
    case Then(before, op) =>
      EveryStorySound(before);
      NumberingKept(Told(before), op);
    case Merging(base, copy) =>
      EveryStorySound(base);
      EveryStorySound(copy);
      MergeKeepsNumbering(Told(base), Some(Told(copy)));
  }

  lemma MergedFolderGrows(f: Folder, other: Folder)
    ensures var g := MergedFolder(f, other);
      g.next >= f.next && g.validity >= f.validity && g.next >= other.next
      && forall mid :: mid in f.uids ==> mid in g.uids && g.uids[mid] == f.uids[mid]
  {
  }

  /** Nothing is taken over from a document that is already covered. */
  ghost predicate Covers(base: Doc, other: Doc) {
    && other.messages.Keys <= base.messages.Keys && other.tags.Keys <= base.tags.Keys
    && (|base.rules| > 0 || |other.rules| == 0)
    && forall name :: name in other.uids ==>
         && name in base.uids
         && other.uids[name].uids.Keys <= base.uids[name].uids.Keys
         && other.uids[name].next <= base.uids[name].next
         && other.uids[name].validity <= base.uids[name].validity
  }

  lemma CoveredFolder(f: Folder, other: Folder)
    requires Indexed(other) && other.uids.Keys <= f.uids.Keys
    requires other.next <= f.next && other.validity <= f.validity
    ensures MergedFolder(f, other) == f
  {
    var g := MergedFolder(f, other);
    assert g.uids == f.uids && g.owner == f.owner;
  }

  lemma MergeAddsNothing(base: Doc, other: Doc)
    requires AllSound(base) && AllSound(other) && Covers(base, other)
    ensures MergeMissing(base, Some(other)) == base
  {
    hide *;
    SoundNormalized(base);
    NothingNew(base, other);
    MergedNumbers(base, other);
    forall name | name in other.uids
      ensures name in base.uids && MergedFolder(FolderOf(base.uids, name), Normal(other.uids[name])) == base.uids[name]
    {
      FolderCovered(base, other, name);
    }
    assert MergeMissing(base, Some(other)).uids == base.uids;
  }

  lemma FolderCovered(base: Doc, other: Doc, name: string)
    requires AllSound(base) && AllSound(other) && Covers(base, other) && name in other.uids
    ensures name in base.uids && MergedFolder(FolderOf(base.uids, name), Normal(other.uids[name])) == base.uids[name]
  {
    FolderSound(base, name);
    SoundNormal(other.uids[name]);
    SoundIsIndexed(other.uids[name]);
    CoveredFolder(base.uids[name], other.uids[name]);
  }

  lemma NothingNew(base: Doc, other: Doc)
    requires Covers(base, other) && Normalized(base) == base
    ensures var m := MergeMissing(base, Some(other)); m == base.(uids := m.uids)
  {
    var m := MergeMissing(base, Some(other));
    hide MergedFolder, Normalized, FolderOf;
    assert m.messages == base.messages && m.tags == base.tags;
  }

  lemma SoundIsIndexed(f: Folder)
    requires Sound(f)
    ensures Indexed(f)
  {
  }

  /** An entry that was dropped everywhere comes back from an old local copy. */
  lemma DroppedEntryReturns()
    ensures var local := ApplyOp(EMPTY, Ruled(["m"]));
      var base := ApplyOp(local, Drop(["m"]));
      "m" !in base.messages && "m" in MergeMissing(base, Some(local)).messages
  {
    hide MergedFolder, RetireFirst;
    var mids := ["m"];
    assert mids[0] in SetOf(mids);
    var local := ApplyOp(EMPTY, Ruled(mids));
    assert "m" in local.messages;
    assert ApplyOp(local, Drop(mids)).messages == local.messages - SetOf(mids);
  }
}
