/** What every op keeps, and what doing it twice changes. */
module DocumentLaws {
  import opened Options
  import opened Numbering
  import opened Document

  // -- the parts ------------------------------------------------------------------------------

  lemma {:induction false} WithoutMembers(tags: seq<string>, gone: seq<string>)
    ensures forall t :: t in Without(tags, gone) <==> t in tags && t !in gone
  {
    if tags != [] {
      var last := |tags| - 1;
      WithoutMembers(tags[..last], gone);
      assert tags == tags[..last] + [tags[last]];
    }
  }

  lemma {:induction false} AppendedMembers(tags: seq<string>, add: seq<string>, k: nat)
    requires k <= |add|
    ensures forall t :: t in Appended(tags, add, k) <==> t in tags || t in add[..k]
  {
    if k > 0 {
      AppendedMembers(tags, add, k - 1);
      assert add[..k] == add[..k - 1] + [add[k - 1]];
    }
  }

  lemma RetaggedMembers(e: Entry, add: seq<string>, remove: seq<string>)
    ensures forall t :: t in Retagged(e, add, remove).tags <==> t in add || (t in e.tags && t !in remove)
  {
    WithoutMembers(e.tags, remove);
    AppendedMembers(Without(e.tags, remove), add, |add|);
    assert add[..|add|] == add;
  }

  lemma RenamedMembers(tags: seq<string>, was: string, now: string)
    ensures forall t :: t in Renamed(tags, was, now) <==> (t in tags && t != was) || (t == now && was in tags)
  {
    var r := Renamed(tags, was, now);
    forall t | (t in tags && t != was) || (t == now && was in tags) ensures t in r {
      var i :| 0 <= i < |tags| && tags[i] == if t in tags && t != was then t else was;
      assert r[i] == t;
    }
    forall t | t in r ensures (t in tags && t != was) || (t == now && was in tags) {
      var i :| 0 <= i < |r| && r[i] == t;
      assert tags[i] in tags;
    }
  }

  /** A rename leaves every tag at its place. */
  lemma RenamedInPlace(d: Doc, was: string, now: string, color: string, mid: string, i: nat)
    requires mid in d.messages && i < |d.messages[mid].tags|
    ensures var before, after := d.messages[mid].tags, ApplyOp(d, TagRen(was, now, color)).messages[mid].tags;
      |after| == |before| && after[i] == if before[i] == was then now else before[i]
  {
    hide RenamedTags;
  }

  lemma {:induction false} RegisteredKeys(tags: map<string, string>, add: seq<string>, k: nat)
    requires k <= |add|
    ensures forall t :: t in Registered(tags, add, k) <==> t in tags || t in add[..k]
    ensures forall t :: t in tags ==> Registered(tags, add, k)[t] == tags[t]
  {
    if k > 0 {
      RegisteredKeys(tags, add, k - 1);
      assert add[..k] == add[..k - 1] + [add[k - 1]];
    }
  }

  // -- every tag is registered -----------------------------------------------------------------

  ghost predicate KnownIn(messages: map<string, Entry>, tags: map<string, string>) {
    forall mid, t :: mid in messages && t in messages[mid].tags ==> t in tags
  }

  ghost predicate TagsKnown(d: Doc) {
    KnownIn(d.messages, d.tags)
  }

  lemma {:induction false} RetagKnown(messages: map<string, Entry>, tags: map<string, string>, mids: seq<string>,
                                      k: nat, add: seq<string>, remove: seq<string>)
    requires k <= |mids| && (forall t :: t in add ==> t in tags) && KnownIn(messages, tags)
    ensures KnownIn(RetaggedFirst(messages, mids, k, add, remove), tags)
  {
    if k > 0 {
      RetagKnown(messages, tags, mids, k - 1, add, remove);
      var before := RetaggedFirst(messages, mids, k - 1, add, remove);
      RetaggedMembers(Get(before, mids[k - 1]), add, remove);
      hide Retagged;
      var e := Retagged(Get(before, mids[k - 1]), add, remove);
      assert forall t :: t in e.tags ==> t in tags;
    }
  }

  /** No op leaves a message with a tag that is not registered. */
  lemma TagsStayKnown(d: Doc, op: Op)
    requires TagsKnown(d)
    ensures TagsKnown(ApplyOp(d, op))
  {
    hide Registered, RetaggedFirst, Without, Renamed, AssignFirst, RetireFirst;
    match op
    case Retag(mids, add, remove) =>
      RegisteredKeys(d.tags, add, |add|);
      assert add[..|add|] == add;
      var tags := Registered(d.tags, add, |add|);
      assert forall t :: t in add ==> t in tags;
      RetagKnown(d.messages, tags, mids, |mids|, add, remove);
    case TagDel(name) =>
      forall mid | mid in d.messages { WithoutMembers(d.messages[mid].tags, [name]); }
    case TagRen(was, now, color) =>
      forall mid | mid in d.messages { RenamedMembers(d.messages[mid].tags, was, now); }
    case _ =>
  }

  // -- the numbering ----------------------------------------------------------------------------

  ghost predicate AllIndexed(d: Doc) {
    forall name :: name in d.uids ==> Indexed(d.uids[name])
  }

  ghost predicate AllSound(d: Doc) {
    forall name :: name in d.uids ==> Sound(d.uids[name])
  }

  /** The op does not give the last number of its folder, and its refusals do not wrap Validity around to less. */
  ghost predicate InRange(d: Doc, op: Op) {
    op.Uid? ==>
      var f := FolderOf(d.uids, op.folder);
      && !ExhaustsIn(f, op.mids, op.nums, |op.mids|)
      && (f.validity + Refusals(f, op.mids, op.nums, |op.mids|)) % LIMIT >= f.validity
  }

  /** No op breaks the inverse, whatever its numbers are. */
  lemma IndexKept(d: Doc, op: Op)
    requires AllIndexed(d)
    ensures AllIndexed(ApplyOp(d, op))
  {
    var n := Normalized(d);
    assert AllIndexed(n);
    hide AssignFirst, RetireFirst, Registered, RetaggedFirst, Indexed, Normalized, Without, Renamed, RenamedTags;
    match op
    case Uid(folder, mids, nums) => UidIndexed(n, folder, mids, nums);
    case UidRetire(folder, mids) => UidRetireIndexed(n, folder, mids);
    case Drop(mids) => DropIndexed(n, mids);
    case _ => assert Step(n, op).uids == n.uids;
  }

  lemma FolderIndexed(d: Doc, folder: string)
    requires AllIndexed(d)
    ensures Indexed(FolderOf(d.uids, folder))
  {
  }

  lemma UidIndexed(d: Doc, folder: string, mids: seq<string>, nums: seq<Number>)
    requires AllIndexed(d)
    ensures AllIndexed(Step(d, Uid(folder, mids, nums)))
  {
    FolderIndexed(d, folder);
    StepOfUid(d, folder, mids, nums);
    hide Step, AssignFirst, FolderOf, Indexed;
    AssignFirstKeeps(FolderOf(d.uids, folder), mids, nums, |mids|);
  }

  lemma UidRetireIndexed(d: Doc, folder: string, mids: seq<string>)
    requires AllIndexed(d)
    ensures AllIndexed(Step(d, UidRetire(folder, mids)))
  {
    FolderIndexed(d, folder);
    StepOfUidRetire(d, folder, mids);
    hide Step, RetireFirst, FolderOf, Indexed;
    RetireFirstKeeps(FolderOf(d.uids, folder), mids, |mids|);
  }

  lemma DropIndexed(d: Doc, mids: seq<string>)
    requires AllIndexed(d)
    ensures AllIndexed(Step(d, Drop(mids)))
  {
    StepOfDrop(d, mids);
    forall name | name in d.uids ensures Indexed(RetireFirst(FolderOf(d.uids, name), mids, |mids|)) {
      FolderIndexed(d, name);
      RetireFirstKeeps(FolderOf(d.uids, name), mids, |mids|);
    }
    hide Step, RetireFirst, FolderOf, Indexed;
  }

  /** A message keeps its number until it is retired or dropped; Next and Validity never fall. */
  ghost predicate Continues(d: Doc, d': Doc, gone: set<string>) {
    forall name :: name in d.uids ==> name in d'.uids && GoesOn(d.uids[name], d'.uids[name], gone)
  }

  ghost predicate GoesOn(f: Folder, g: Folder, gone: set<string>) {
    && g.next >= f.next && g.validity >= f.validity
    && forall mid :: mid in f.uids && mid !in gone ==> mid in g.uids && g.uids[mid] == f.uids[mid]
  }

  function Removes(op: Op): set<string> {
    if op.UidRetire? || op.Drop? then SetOf(op.mids) else {}
  }

  lemma SoundNormal(f: Folder)
    requires Sound(f)
    ensures Normal(f) == f
  {
  }

  lemma SoundNormalized(d: Doc)
    requires AllSound(d)
    ensures Normalized(d) == d
  {
    forall name | name in d.uids ensures Normal(d.uids[name]) == d.uids[name] {
      SoundNormal(d.uids[name]);
    }
    assert Normalized(d).uids == d.uids;
  }

  /** The numbering stays sound and goes on without a break if and only if the op is in range. */
  lemma NumberingKept(d: Doc, op: Op)
    requires AllSound(d)
    ensures AllSound(ApplyOp(d, op)) && Continues(d, ApplyOp(d, op), Removes(op)) <==> InRange(d, op)
  {
    SoundNormalized(d);
    hide AssignFirst, RetireFirst, Registered, RetaggedFirst, Sound, Normal, Normalized;
    match op
    case Uid(folder, mids, nums) => UidKeeps(d, folder, mids, nums);
    case UidRetire(folder, mids) => UidRetireKeeps(d, folder, mids);
    case Drop(mids) => DropKeeps(d, mids);
    case _ =>
  }

  lemma FolderSound(d: Doc, folder: string)
    requires AllSound(d)
    ensures Sound(FolderOf(d.uids, folder))
    ensures folder in d.uids ==> FolderOf(d.uids, folder) == d.uids[folder]
  {
  }

  lemma UidKeeps(d: Doc, folder: string, mids: seq<string>, nums: seq<Number>)
    requires AllSound(d)
    ensures var op := Uid(folder, mids, nums); var d' := Step(d, op);
      AllSound(d') && Continues(d, d', {}) <==> InRange(d, op)
  {
    FolderSound(d, folder);
    StepOfUid(d, folder, mids, nums);
    var f := FolderOf(d.uids, folder);
    FreshIsLeast(d, folder, AssignFirst(f, mids, nums, |mids|));
    hide Step, AssignFirst, Sound, FolderOf, Refusals, ExhaustsIn;
    AssignFirstKeeps(f, mids, nums, |mids|) by { SoundIndex(f); }
    AssignFirstSoundWhen(f, mids, nums, |mids|);
    var op, g := Uid(folder, mids, nums), AssignFirst(f, mids, nums, |mids|);
    var d' := Step(d, op);
    assert d'.uids == d.uids[folder := g];
    assert AllSound(d') && Continues(d, d', {}) <==> Sound(g) && g.next >= f.next && g.validity >= f.validity by {
      assert f.next >= 1 && f.validity >= 1;
      OnlyFolder(d, d', folder, f, g);
    }
  }

  lemma OnlyFolder(d: Doc, d': Doc, folder: string, f: Folder, g: Folder)
    requires AllSound(d) && d'.uids == d.uids[folder := g]
    requires if folder in d.uids then f == d.uids[folder] else f.next == 1 && f.validity == 1
    requires forall m :: m in f.uids ==> m in g.uids && g.uids[m] == f.uids[m]
    requires Sound(g) ==> g.next >= 1 && g.validity >= 1
    ensures AllSound(d') && Continues(d, d', {}) <==> Sound(g) && g.next >= f.next && g.validity >= f.validity
  {
    hide Sound;
    assert folder in d'.uids && d'.uids[folder] == g;
    assert forall name :: name in d.uids && name != folder ==> name in d'.uids && d'.uids[name] == d.uids[name];
    if Sound(g) && g.next >= f.next && g.validity >= f.validity {
      assert AllSound(d') && Continues(d, d', {});
    } else if folder in d.uids {
      assert !(AllSound(d') && Continues(d, d', {}));
    }
  }

  /** A folder that was not there starts with the least values. */
  lemma FreshIsLeast(d: Doc, folder: string, g: Folder)
    ensures folder !in d.uids ==> FolderOf(d.uids, folder) == FRESH
    ensures Sound(g) ==> g.next >= FRESH.next && g.validity >= FRESH.validity
  {
  }

  lemma SoundIndex(f: Folder)
    requires Sound(f)
    ensures Indexed(f)
  {
  }

  lemma UidRetireKeeps(d: Doc, folder: string, mids: seq<string>)
    requires AllSound(d)
    ensures var d' := Step(d, UidRetire(folder, mids)); AllSound(d') && Continues(d, d', SetOf(mids))
  {
    FolderSound(d, folder);
    StepOfUidRetire(d, folder, mids);
    hide Step, RetireFirst, Sound, FolderOf, SetOf;
    RetireSound(FolderOf(d.uids, folder), mids);
  }

  lemma DropKeeps(d: Doc, mids: seq<string>)
    requires AllSound(d)
    ensures var d' := Step(d, Drop(mids)); AllSound(d') && Continues(d, d', SetOf(mids))
  {
    StepOfDrop(d, mids);
    hide Step, RetireFirst, Sound, SetOf, FolderOf;
    forall name | name in d.uids
      ensures var g := RetireFirst(FolderOf(d.uids, name), mids, |mids|); var f := d.uids[name];
        Sound(g) && g.next == f.next && g.validity == f.validity && g.uids == f.uids - SetOf(mids)
    {
      FolderSound(d, name);
      RetireSound(d.uids[name], mids);
    }
  }

  lemma FreshIsSound()
    ensures Sound(FRESH) && Normal(FRESH) == FRESH
  {
  }

  lemma RetireSound(f: Folder, mids: seq<string>)
    requires Sound(f)
    ensures var g := RetireFirst(f, mids, |mids|);
      Sound(g) && g.next == f.next && g.validity == f.validity && g.uids == f.uids - SetOf(mids)
  {
    RetireFirstKeeps(f, mids, |mids|);
  }

  // -- doing it twice ----------------------------------------------------------------------------

  ghost predicate Disjoint(a: seq<string>, b: seq<string>) {
    forall t :: t in a ==> t !in b
  }

  lemma {:induction false} NothingWithout(tags: seq<string>, gone: seq<string>)
    requires Disjoint(tags, gone)
    ensures Without(tags, gone) == tags
  {
    if tags != [] {
      NothingWithout(tags[..|tags| - 1], gone);
    }
  }

  lemma {:induction false} NothingAppended(tags: seq<string>, add: seq<string>, k: nat)
    requires k <= |add| && forall t :: t in add ==> t in tags
    ensures Appended(tags, add, k) == tags
  {
    if k > 0 {
      NothingAppended(tags, add, k - 1);
    }
  }

  lemma RetaggedTwice(e: Entry, add: seq<string>, remove: seq<string>)
    requires Disjoint(add, remove)
    ensures Retagged(Retagged(e, add, remove), add, remove) == Retagged(e, add, remove)
  {
    RetaggedMembers(e, add, remove);
    var once := Retagged(e, add, remove);
    NothingWithout(once.tags, remove);
    NothingAppended(once.tags, add, |add|);
  }

  lemma IsRetaggedAgain(e: Entry, e': Entry, add: seq<string>, remove: seq<string>)
    requires IsRetagged(e, e', add, remove)
    ensures IsRetagged(e, Retagged(e', add, remove), add, remove)
  {
    RetaggedMembers(e', add, remove);
  }

  lemma IsRetaggedOnce(e: Entry, add: seq<string>, remove: seq<string>)
    ensures IsRetagged(e, Retagged(e, add, remove), add, remove)
  {
    RetaggedMembers(e, add, remove);
  }

  /** Which messages a tag op touches, and what their entries become. */
  lemma {:induction false} RetaggedAt(messages: map<string, Entry>, mids: seq<string>, k: nat, add: seq<string>,
                                      remove: seq<string>)
    requires k <= |mids|
    ensures var r := RetaggedFirst(messages, mids, k, add, remove);
      && (forall mid :: mid in r <==> mid in messages || mid in mids[..k])
      && (forall mid :: mid in r && mid !in mids[..k] ==> r[mid] == messages[mid])
      && (forall mid :: mid in mids[..k] ==> IsRetagged(Get(messages, mid), r[mid], add, remove))
  {
    hide Retagged, IsRetagged;
    if k > 0 {
      RetaggedAt(messages, mids, k - 1, add, remove);
      var before := RetaggedFirst(messages, mids, k - 1, add, remove);
      var mid := mids[k - 1];
      assert mids[..k] == mids[..k - 1] + [mid];
      if mid in mids[..k - 1] {
        IsRetaggedAgain(Get(messages, mid), before[mid], add, remove);
      } else {
        IsRetaggedOnce(Get(messages, mid), add, remove);
      }
    }
  }

  /** Without overlap the lists are what one change makes of them, however often a message is named. */
  lemma {:induction false} RetaggedExactly(messages: map<string, Entry>, mids: seq<string>, k: nat, add: seq<string>,
                                           remove: seq<string>)
    requires k <= |mids| && Disjoint(add, remove)
    ensures var r := RetaggedFirst(messages, mids, k, add, remove);
      forall mid :: mid in mids[..k] ==> mid in r && r[mid] == Retagged(Get(messages, mid), add, remove)
  {
    hide Retagged, Disjoint;
    if k > 0 {
      RetaggedExactly(messages, mids, k - 1, add, remove);
      RetaggedAt(messages, mids, k - 1, add, remove);
      var mid := mids[k - 1];
      assert mids[..k] == mids[..k - 1] + [mid];
      RetaggedTwice(Get(messages, mid), add, remove);
    }
  }

  /** The entry's tags are the ones added and the ones kept; its flags are untouched. */
  ghost predicate IsRetagged(e: Entry, e': Entry, add: seq<string>, remove: seq<string>) {
    && e'.read == e.read && e'.star == e.star && e'.ruled == e.ruled
    && forall t :: t in e'.tags <==> t in add || (t in e.tags && t !in remove)
  }

  ghost predicate SameEntry(e: Entry, e': Entry) {
    && e'.read == e.read && e'.star == e.star && e'.ruled == e.ruled
    && forall t :: t in e'.tags <==> t in e.tags
  }

  /** The same messages with the same flags and the same tags, in whatever order. */
  ghost predicate SameMessages(a: map<string, Entry>, b: map<string, Entry>) {
    a.Keys == b.Keys && forall mid :: mid in a ==> SameEntry(a[mid], b[mid])
  }

  lemma RetagTwiceSame(messages: map<string, Entry>, mids: seq<string>, add: seq<string>, remove: seq<string>)
    ensures var once := RetaggedFirst(messages, mids, |mids|, add, remove);
      SameMessages(once, RetaggedFirst(once, mids, |mids|, add, remove))
  {
    hide RetaggedFirst, Retagged;
    var once := RetaggedFirst(messages, mids, |mids|, add, remove);
    RetaggedAt(messages, mids, |mids|, add, remove);
    RetaggedAt(once, mids, |mids|, add, remove);
    assert mids[..|mids|] == mids;
    var twice := RetaggedFirst(once, mids, |mids|, add, remove);
    forall mid | mid in once ensures SameEntry(once[mid], twice[mid]) {
      if mid in mids {
        RetagTwiceEntry(Get(messages, mid), once[mid], twice[mid], add, remove);
      }
    }
  }

  lemma RetagTwiceEntry(e: Entry, e': Entry, e'': Entry, add: seq<string>, remove: seq<string>)
    requires IsRetagged(e, e', add, remove) && IsRetagged(e', e'', add, remove)
    ensures SameEntry(e', e'')
  {
  }

  lemma RetagTwiceEqual(messages: map<string, Entry>, mids: seq<string>, add: seq<string>, remove: seq<string>)
    requires Disjoint(add, remove)
    ensures var once := RetaggedFirst(messages, mids, |mids|, add, remove);
      RetaggedFirst(once, mids, |mids|, add, remove) == once
  {
    hide RetaggedFirst, Retagged, IsRetagged;
    var once := RetaggedFirst(messages, mids, |mids|, add, remove);
    RetaggedAt(messages, mids, |mids|, add, remove);
    RetaggedAt(once, mids, |mids|, add, remove);
    RetaggedExactly(messages, mids, |mids|, add, remove);
    RetaggedExactly(once, mids, |mids|, add, remove);
    assert mids[..|mids|] == mids;
    var twice := RetaggedFirst(once, mids, |mids|, add, remove);
    forall mid | mid in once ensures twice[mid] == once[mid] {
      if mid in mids {
        RetaggedTwice(Get(messages, mid), add, remove);
      }
    }
    assert twice.Keys == once.Keys;
  }

  lemma {:induction false} RegisteredTwice(tags: map<string, string>, add: seq<string>, k: nat)
    requires k <= |add| && forall t :: t in add ==> t in tags
    ensures Registered(tags, add, k) == tags
  {
    if k > 0 {
      RegisteredTwice(tags, add, k - 1);
    }
  }

  lemma WithoutTwice(tags: seq<string>, gone: seq<string>)
    ensures Without(Without(tags, gone), gone) == Without(tags, gone)
  {
    WithoutMembers(tags, gone);
    NothingWithout(Without(tags, gone), gone);
  }

  lemma RenamedTwice(tags: seq<string>, was: string, now: string)
    ensures Renamed(Renamed(tags, was, now), was, now) == Renamed(tags, was, now)
  {
  }

  /** Everything but the numbering is the same, tag lists up to their order unless exact is set. */
  ghost predicate SameRest(a: Doc, b: Doc, exact: bool) {
    && b.tags == a.tags && b.rules == a.rules && b.filters == a.filters
    && SameMessages(a.messages, b.messages)
    && (exact ==> b.messages == a.messages)
  }

  lemma SameRestAll(a: Doc, b: Doc)
    requires b.tags == a.tags && b.rules == a.rules && b.filters == a.filters && b.messages == a.messages
    ensures SameRest(a, b, true)
  {
  }

  lemma RetagStepTwice(d: Doc, mids: seq<string>, add: seq<string>, remove: seq<string>)
    ensures var op := Retag(mids, add, remove); var once := Step(d, op);
      SameRest(once, Step(once, op), Disjoint(add, remove))
  {
    RegisteredKeys(d.tags, add, |add|);
    assert add[..|add|] == add;
    RegisteredTwice(Registered(d.tags, add, |add|), add, |add|);
    RetagTwiceSame(d.messages, mids, add, remove);
    hide Registered, RetaggedFirst, Disjoint, SameMessages;
    if Disjoint(add, remove) {
      RetagTwiceEqual(d.messages, mids, add, remove);
    }
  }

  lemma FlagsStepTwice(d: Doc, mids: seq<string>, read: Option<bool>, star: Option<bool>)
    ensures var op := Flags(mids, read, star); var once := Step(d, op); Step(once, op) == once
  {
    var op := Flags(mids, read, star);
    var once := Step(d, op);
    assert Step(once, op).messages == once.messages;
  }

  lemma RuledStepTwice(d: Doc, mids: seq<string>)
    ensures var op := Ruled(mids); var once := Step(d, op); Step(once, op) == once
  {
    var op := Ruled(mids);
    var once := Step(d, op);
    assert Step(once, op).messages == once.messages;
  }

  lemma TagDelStepTwice(d: Doc, name: string)
    ensures var op := TagDel(name); var once := Step(d, op); Step(once, op) == once
  {
    hide Without;
    var op := TagDel(name);
    var once := Step(d, op);
    forall mid | mid in d.messages ensures Step(once, op).messages[mid] == once.messages[mid] {
      WithoutTwice(d.messages[mid].tags, [name]);
    }
    assert Step(once, op).messages == once.messages;
  }

  lemma TagRenStepTwice(d: Doc, was: string, now: string, color: string)
    ensures var op := TagRen(was, now, color); var once := Step(d, op); Step(once, op) == once
  {
    hide Renamed, RenamedTags;
    var op := TagRen(was, now, color);
    var once := Step(d, op);
    forall mid | mid in d.messages ensures Step(once, op).messages[mid] == once.messages[mid] {
      RenamedTwice(d.messages[mid].tags, was, now);
    }
    assert Step(once, op).messages == once.messages;
    RenamedTagsTwice(d.tags, was, now, color);
  }

  lemma RenamedTagsTwice(tags: map<string, string>, was: string, now: string, color: string)
    ensures var once := RenamedTags(tags, was, now, color); RenamedTags(once, was, now, color) == once
  {
  }

  lemma DropStepTwice(d: Doc, mids: seq<string>)
    ensures var op := Drop(mids); var once := Step(d, op); SameRest(once, Step(once, op), true)
  {
    hide RetireFirst, FolderOf;
    var op := Drop(mids);
    var once := Step(d, op);
    assert Step(once, op).messages == once.messages;
    SameRestAll(once, Step(once, op));
  }

  /** Everything but the numbering: a second time changes nothing, except that overlapping tag lists may be reordered. */
  lemma RestTwice(d: Doc, op: Op)
    ensures var once := Step(d, op);
      SameRest(once, Step(once, op), op.Retag? ==> Disjoint(op.add, op.remove))
  {
    var once := Step(d, op);
    hide Registered, RetaggedFirst, Without, Renamed, AssignFirst, RetireFirst, Disjoint, SameRest;
    match op
    case Retag(mids, add, remove) => RetagStepTwice(d, mids, add, remove);
    case Flags(mids, read, star) => FlagsStepTwice(d, mids, read, star); SameRestAll(once, once);
    case Ruled(mids) => RuledStepTwice(d, mids); SameRestAll(once, once);
    case TagDel(name) => TagDelStepTwice(d, name); SameRestAll(once, once);
    case TagRen(was, now, color) => TagRenStepTwice(d, was, now, color); SameRestAll(once, once);
    case Drop(mids) => DropStepTwice(d, mids);
    case _ => SameRestAll(once, Step(once, op));
  }

  /** The order can change: the second time, the tag that is removed and added again goes to the end. */
  lemma OverlapReorders()
    ensures var op := Retag(["m"], ["a", "b"], ["a"]);
      var once := ApplyOp(EMPTY, op); var twice := ApplyOp(once, op);
      once.messages["m"].tags == ["a", "b"] && twice.messages["m"].tags == ["b", "a"]
  {
    var op := Retag(["m"], ["a", "b"], ["a"]);
    var add, remove := ["a", "b"], ["a"];
    assert Without([], remove) == [];
    assert Appended([], add, 1) == ["a"];
    assert Appended([], add, 2) == ["a", "b"];
    assert ["a", "b"][..1] == ["a"] && ["a"][..0] == [];
    assert Without(["a"], remove) == [];
    assert Without(["a", "b"], remove) == ["b"];
    assert Appended(["b"], add, 1) == ["b", "a"];
    assert Appended(["b"], add, 2) == ["b", "a"];
  }

  /** How many assignments of an op have left their messages without a number in the document after it. */
  function Conflicts(once: Doc, op: Op): nat {
    if op.Uid? then Unanswered(FolderOf(once.uids, op.folder), op.mids, op.nums, |op.mids|) else 0
  }

  /** The numbering after a replay: Validity of the op's folder has risen once for every conflict. */
  function Disturbed(once: Doc, op: Op): map<string, Folder> {
    var uids := Normalized(once).uids;
    if op.Uid? then
      var f := FolderOf(once.uids, op.folder);
      uids[op.folder := f.(validity := (f.validity + Conflicts(once, op)) % LIMIT)]
    else uids
  }

  lemma FolderNormalized(d: Doc, folder: string)
    ensures FolderOf(Normalized(d).uids, folder) == FolderOf(d.uids, folder)
    ensures Normal(FolderOf(d.uids, folder)) == FolderOf(d.uids, folder)
  {
  }

  lemma UidTwice(d: Doc, folder: string, mids: seq<string>, nums: seq<Number>)
    ensures var op := Uid(folder, mids, nums); var once := ApplyOp(d, op);
      ApplyOp(once, op).uids == Disturbed(once, op)
  {
    var f := FolderOf(Normalized(d).uids, folder);
    OpSettles(f, mids, nums, |mids|);
    var g := AssignFirst(f, mids, nums, |mids|);
    StepOfUid(Normalized(d), folder, mids, nums);
    var once := Step(Normalized(d), Uid(folder, mids, nums));
    assert FolderOf(once.uids, folder) == Normal(g);
    FolderNormalized(once, folder);
    StepOfUid(Normalized(once), folder, mids, nums);
    SettledNormal(g, mids, nums);
    hide AssignFirst, Unanswered, Step, FolderOf, Normalized, Settled;
    Replay(Normal(g), mids, nums, |mids|);
  }

  lemma SettledNormal(f: Folder, mids: seq<string>, nums: seq<Number>)
    requires Settled(f, mids, nums, |mids|)
    ensures Settled(Normal(f), mids, nums, |mids|)
  {
  }

  lemma UidRetireTwice(d: Doc, folder: string, mids: seq<string>)
    ensures var op := UidRetire(folder, mids); var once := ApplyOp(d, op);
      ApplyOp(once, op).uids == Normalized(once).uids
  {
    FolderNormalized(d, folder);
    var f := FolderOf(Normalized(d).uids, folder);
    var g := RetireFirst(f, mids, |mids|);
    StepOfUidRetire(Normalized(d), folder, mids);
    var once := Step(Normalized(d), UidRetire(folder, mids));
    assert FolderOf(once.uids, folder) == Normal(g);
    FolderNormalized(once, folder);
    StepOfUidRetire(Normalized(once), folder, mids);
    assert Normalized(once).uids[folder] == Normal(g);
    hide RetireFirst, Step, FolderOf, Normalized, Normal;
    RetireTwice(f, mids);
    RetireNormal(g, mids, |mids|);
    assert ApplyOp(once, UidRetire(folder, mids)).uids == Normalized(once).uids[folder := Normal(g)];
  }

  lemma {:induction false} RetireNormal(f: Folder, mids: seq<string>, k: nat)
    requires k <= |mids|
    ensures RetireFirst(Normal(f), mids, k) == Normal(RetireFirst(f, mids, k))
    ensures Normal(Normal(f)) == Normal(f)
  {
    if k > 0 {
      RetireNormal(f, mids, k - 1);
    }
  }

  lemma FolderRetiredTwice(f: Folder, mids: seq<string>)
    ensures var g := RetireFirst(Normal(f), mids, |mids|);
      RetireFirst(Normal(Normal(g)), mids, |mids|) == Normal(g)
  {
    RetireTwice(Normal(f), mids);
    RetireNormal(RetireFirst(Normal(f), mids, |mids|), mids, |mids|);
  }

  lemma NormalizedFolder(d: Doc, name: string)
    ensures Normalized(d).uids.Keys == d.uids.Keys
    ensures name in d.uids ==>
      Normalized(d).uids[name] == Normal(d.uids[name]) && FolderOf(d.uids, name) == Normal(d.uids[name])
  {
  }

  lemma DroppedFolder(d: Doc, mids: seq<string>, name: string)
    requires name in d.uids
    ensures var d' := Step(d, Drop(mids));
      d'.uids.Keys == d.uids.Keys && d'.uids[name] == RetireFirst(FolderOf(d.uids, name), mids, |mids|)
  {
    StepOfDrop(d, mids);
    hide Step, RetireFirst;
  }

  lemma DropTwiceIn(d: Doc, mids: seq<string>, name: string)
    requires name in d.uids
    ensures var once := Step(Normalized(d), Drop(mids));
      var twice := Step(Normalized(once), Drop(mids));
      once.uids.Keys == d.uids.Keys && twice.uids.Keys == d.uids.Keys
      && twice.uids[name] == Normalized(once).uids[name]
  {
    hide Step, Indexed, RetireFirst, FolderOf, Normalized, Normal;
    var n := Normalized(d);
    var once := Step(n, Drop(mids));
    NormalizedFolder(d, name);
    NormalizedFolder(n, name);
    DroppedFolder(n, mids, name);
    NormalizedFolder(once, name);
    NormalizedFolder(Normalized(once), name);
    DroppedFolder(Normalized(once), mids, name);
    RetireNormal(d.uids[name], mids, 0);
    FolderRetiredTwice(d.uids[name], mids);
  }

  lemma DropTwice(d: Doc, mids: seq<string>)
    ensures var op := Drop(mids); var once := ApplyOp(d, op); ApplyOp(once, op).uids == Normalized(once).uids
  {
    hide Step, Indexed, RetireFirst, Normal, FolderOf, Normalized;
    var once := Step(Normalized(d), Drop(mids));
    var twice := Step(Normalized(once), Drop(mids));
    DropKeys(d, mids);
    forall name | name in d.uids ensures twice.uids[name] == Normalized(once).uids[name] {
      DropTwiceIn(d, mids, name);
    }
    assert twice.uids == Normalized(once).uids;
  }

  lemma DropKeys(d: Doc, mids: seq<string>)
    ensures var once := Step(Normalized(d), Drop(mids)); var twice := Step(Normalized(once), Drop(mids));
      twice.uids.Keys == d.uids.Keys == Normalized(once).uids.Keys
  {
    StepOfDrop(Normalized(d), mids);
    StepOfDrop(Normalized(Step(Normalized(d), Drop(mids))), mids);
    hide Step, RetireFirst, FolderOf;
  }

  /** What a step does apart from the numbering does not depend on the numbering. */
  lemma RestIgnoresNumbers(d: Doc, e: Doc, op: Op)
    requires e == d.(uids := e.uids)
    ensures Step(e, op) == Step(d, op).(uids := Step(e, op).uids)
  {
    hide Registered, RetaggedFirst, Without, Renamed, AssignFirst, RetireFirst, RenamedTags, Flagged, FolderOf;
  }

  /** The numbering of the other ops is only ever normalized. */
  lemma OtherNumbers(d: Doc, op: Op)
    requires !op.Uid? && !op.UidRetire? && !op.Drop?
    ensures ApplyOp(d, op).uids == Normalized(d).uids
    ensures Normalized(Normalized(d)) == Normalized(d)
  {
    hide Registered, RetaggedFirst, Without, Renamed, RenamedTags, Flagged;
  }

  /**
    Applying any op a second time changes nothing - with two exceptions: tags that are added and
    removed at once may change places, and every conflict of a uid op raises Validity again.
    */
  lemma ApplyTwice(d: Doc, op: Op)
    ensures var once := ApplyOp(d, op); var twice := ApplyOp(once, op);
      && SameRest(once, twice, op.Retag? ==> Disjoint(op.add, op.remove))
      && twice.uids == Disturbed(once, op)
  {
    var once := ApplyOp(d, op);
    RestTwice(Normalized(d), op);
    RestIgnoresNumbers(once, Normalized(once), op);
    match op {
      case Uid(folder, mids, nums) => UidTwice(d, folder, mids, nums);
      case UidRetire(folder, mids) => UidRetireTwice(d, folder, mids);
      case Drop(mids) => DropTwice(d, mids);
      case _ => OtherNumbers(d, op); OtherNumbers(once, op);
    }
    hide Step, SameMessages;
  }

  /**
    A replayed uid op leaves the document alone if and only if no message had all its assignments refused
    at their turns in the document the op was made for - as long as Validity does not go round.
    */
  lemma ReplayHarmlessWhen(d: Doc, op: Op)
    requires op.Uid?
    ensures var f := FolderOf(d.uids, op.folder); var once := ApplyOp(d, op);
      && ((forall i: nat :: i < |op.mids| ==> !AllRefused(f, op.mids, op.nums, i)) ==>
            ApplyOp(once, op) == Normalized(once))
      && (ApplyOp(once, op) == Normalized(once) && Conflicts(once, op) < LIMIT ==>
            forall i: nat :: i < |op.mids| ==> !AllRefused(f, op.mids, op.nums, i))
  {
    var once := ApplyOp(d, op);
    var f, g := FolderOf(d.uids, op.folder), FolderOf(once.uids, op.folder);
    UidTwice(d, op.folder, op.mids, op.nums);
    FolderNormalized(d, op.folder);
    StepOfUid(Normalized(d), op.folder, op.mids, op.nums);
    assert g.uids == AssignFirst(f, op.mids, op.nums, |op.mids|).uids;
    NoneLeftOut(g, op.mids, op.nums, |op.mids|);
    forall i: nat | i < |op.mids| ensures LeftOut(g, op.mids, op.nums, i) <==> AllRefused(f, op.mids, op.nums, i) {
      LeftOutWhen(f, op.mids, op.nums, i);
    }
    hide AssignFirst, Unanswered, AllRefused, LeftOut;
    if Conflicts(once, op) < LIMIT {
      Rises(g.validity, Conflicts(once, op));
    }
    assert ApplyOp(once, op).uids[op.folder].validity == (g.validity + Conflicts(once, op)) % LIMIT;
    assert Normalized(once).uids[op.folder] == g;
  }

  /**
    If neither a message nor a number is named twice: exactly if no message without a number is given one
    that is somebody else's in the document the op is first applied to.
    */
  lemma ReplayHarmlessFromStart(d: Doc, op: Op)
    requires op.Uid? && NamedOnce(op.mids, op.nums)
    ensures var f := FolderOf(d.uids, op.folder); var once := ApplyOp(d, op);
      ApplyOp(once, op) == Normalized(once)
      <==> forall i :: 0 <= i < |op.mids| && i < |op.nums| ==> !Refused(f, op.mids[i], op.nums[i])
  {
    var f := FolderOf(d.uids, op.folder);
    ReplayHarmlessWhen(d, op);
    FewUnanswered(FolderOf(ApplyOp(d, op).uids, op.folder), op.mids, op.nums, |op.mids|);
    hide AllRefused, Refused, FolderOf, Normalized, ApplyOp;
    forall i: nat | i < |op.mids|
      ensures AllRefused(f, op.mids, op.nums, i) <==> i < |op.nums| && Refused(f, op.mids[i], op.nums[i])
    {
      RefusedFromStart(f, op.mids, op.nums, i);
    }
  }

  lemma Rises(v: Number, c: nat)
    requires c < LIMIT
    ensures (v + c) % LIMIT == v <==> c == 0
  {
  }

  /** Two machines that number different messages alike: the later op raises Validity on every replay. */
  lemma ConflictRaisesValidityAgain()
    ensures var d := ApplyOp(EMPTY, Uid("", ["a"], [1])); var op := Uid("", ["b"], [1]);
      var once := ApplyOp(d, op);
      once.uids[""].validity == 2 && ApplyOp(once, op).uids[""].validity == 3
  {
    var op := Uid("", ["b"], [1]);
    var f := Folder(1, 2, map["a" := 1], map[1 := "a"]);
    assert AssignFirst(FRESH, ["a"], [1], 0) == FRESH;
    assert AssignFirst(FRESH, ["a"], [1], 1) == f;
    assert AssignFirst(f, ["b"], [1], 0) == f;
    var g := f.(validity := 2);
    assert AssignFirst(f, ["b"], [1], 1) == g;
    assert AssignFirst(g, ["b"], [1], 0) == g;
    assert AssignFirst(g, ["b"], [1], 1) == g.(validity := 3);
  }
}
