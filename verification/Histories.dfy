/** Runs of the numbering: a number that was given once is never given to another message. */
module Histories {
  import opened Numbering
  import opened Document
  import opened DocumentLaws

  /** The op that numbers the messages that have no number yet. */
  function AssignOp(d: Doc, folder: string, mids: seq<string>): Op {
    var f := FolderOf(d.uids, folder);
    var todo := Unnumbered(f, mids);
    Uid(folder, todo, Consecutive(f.next, |todo|))
  }

  /** Ops that number messages were made for the document they are applied to, and numbers are left. */
  ghost predicate MadeFor(d: Doc, op: Op) {
    op.Uid? ==>
      var f := FolderOf(d.uids, op.folder);
      Numberable(f, op.mids) && op.nums == Consecutive(f.next, |op.mids|)
  }

  /** Ops from AssignOp are made for the document, if the names are distinct and numbers are left. */
  lemma AssignOpIsMade(d: Doc, folder: string, mids: seq<string>)
    requires AllSound(d) && DistinctNames(mids) && FolderOf(d.uids, folder).next + |mids| < LIMIT
    ensures MadeFor(d, AssignOp(d, folder, mids))
  {
    var f := FolderOf(d.uids, folder);
    FreshIsSound();
    if folder in d.uids {
      SoundNormal(d.uids[folder]);
    }
    UnnumberedNames(f, mids);
    UnnumberedShorter(f, mids);
    assert Sound(f);
    hide Sound, FolderOf, Consecutive;
    forall i | 0 <= i < |Unnumbered(f, mids)| ensures Unnumbered(f, mids)[i] !in f.uids {
      assert Unnumbered(f, mids)[i] in Unnumbered(f, mids);
    }
  }

  lemma {:induction false} UnnumberedShorter(f: Folder, mids: seq<string>)
    ensures |Unnumbered(f, mids)| <= |mids|
  {
    if mids != [] {
      UnnumberedShorter(f, mids[..|mids| - 1]);
    }
  }

  /** After it all of them are numbered, consecutively in their order from Next on, and Validity has not moved. */
  lemma AssignOpNumbersAll(d: Doc, folder: string, mids: seq<string>)
    requires AllSound(d) && DistinctNames(mids) && FolderOf(d.uids, folder).next + |mids| < LIMIT
    ensures var f := FolderOf(d.uids, folder);
      var todo := Unnumbered(f, mids);
      var d' := ApplyOp(d, AssignOp(d, folder, mids));
      folder in d'.uids && Numbered(f, d'.uids[folder], todo, |todo|)
      && forall mid :: mid in mids ==> mid in d'.uids[folder].uids
  {
    AssignOpIsMade(d, folder, mids);
    SoundNormalized(d);
    var f := FolderOf(d.uids, folder);
    var todo := Unnumbered(f, mids);
    StepOfUid(d, folder, todo, Consecutive(f.next, |todo|));
    hide Sound, FolderOf, Consecutive, AssignFirst, Normalized, Step, Numbered, DistinctNames, AllSound;
    BatchNumbered(f, todo, |todo|);
    hide Numberable;
    AllNumbered(f, AssignFirst(f, todo, Consecutive(f.next, |todo|), |todo|), mids);
  }

  lemma AllNumbered(f: Folder, g: Folder, mids: seq<string>)
    requires var todo := Unnumbered(f, mids); Numbered(f, g, todo, |todo|)
    ensures forall mid :: mid in mids ==> mid in g.uids
  {
    UnnumberedNames(f, mids);
    hide Indexed;
    var todo := Unnumbered(f, mids);
    forall mid | mid in mids ensures mid in g.uids {
      if mid !in f.uids {
        var i :| 0 <= i < |todo| && todo[i] == mid;
      }
    }
  }

  /** Ops for different folders can be made for the same document and applied one after the other. */
  lemma OtherFolderStillMade(d: Doc, op: Op, other: Op)
    requires AllSound(d) && op.Uid? && other.Uid? && op.folder != other.folder && MadeFor(d, op) && MadeFor(d, other)
    ensures MadeFor(ApplyOp(d, op), other)
  {
    SoundNormalized(d);
    StepOfUid(d, op.folder, op.mids, op.nums);
    hide Step, Normalized, AssignFirst, Numberable, Consecutive;
    assert FolderOf(ApplyOp(d, op).uids, other.folder) == FolderOf(d.uids, other.folder);
  }

  // -- what was ever given -----------------------------------------------------------------------

  /** For every folder, who was the first to get which number. */
  type History = map<string, map<Number, string>>

  function GivenIn(given: History, folder: string): map<Number, string> {
    if folder in given then given[folder] else map[]
  }

  function Recorded(given: History, d: Doc, op: Op): History {
    if op.Uid? then
      given[op.folder := GivenFirst(GivenIn(given, op.folder), FolderOf(d.uids, op.folder), op.mids, op.nums, |op.mids|)]
    else given
  }

  /** The history of a run, which starts with the numbers the document has. */
  function HistoryOf(d: Doc, ops: seq<Op>): History {
    if ops == [] then map name | name in d.uids :: d.uids[name].owner
    else Recorded(HistoryOf(d, ops[..|ops| - 1]), ApplyAll(d, ops[..|ops| - 1]), ops[|ops| - 1])
  }

  ghost predicate AllOwned(d: Doc, given: History) {
    forall name :: name in d.uids ==> Owned(d.uids[name], GivenIn(given, name))
  }

  /** At one of its turns the op gives a message a number that was somebody else's first. */
  ghost predicate ReusedBy(given: History, d: Doc, op: Op) {
    op.Uid? && exists i: nat ::
      i < |op.mids| && ReusesAt(FolderOf(d.uids, op.folder), GivenIn(given, op.folder), op.mids, op.nums, i)
  }

  /** The numbering after an op: the folder of a uid op has a new one, in the others numbers only go. */
  lemma FoldersAfter(d: Doc, op: Op, name: string)
    requires AllIndexed(d) && name in ApplyOp(d, op).uids
    ensures var g := ApplyOp(d, op).uids[name];
      if op.Uid? && name == op.folder then g == AssignFirst(FolderOf(d.uids, name), op.mids, op.nums, |op.mids|)
      else
        && g.next == FolderOf(d.uids, name).next
        && forall mid :: mid in g.uids ==> name in d.uids && mid in d.uids[name].uids && g.uids[mid] == d.uids[name].uids[mid]
  {
    var n := Normalized(d);
    NormalizedFolder(d, name);
    FreshIndexed(d, name);
    match op
    case Uid(folder, mids, nums) =>
      NormalizedFolder(d, folder);
      StepOfUid(n, folder, mids, nums);
      hide Step, AssignFirst, Normalized;
      NormalTwice(d, folder);
      NormalTwice(d, name);
    case UidRetire(folder, mids) =>
      StepOfUidRetire(n, folder, mids);
      NormalTwice(d, name);
      hide Step, RetireFirst, Normalized;
      RetireFirstKeeps(FolderOf(d.uids, name), mids, |mids|);
    case Drop(mids) =>
      StepOfDrop(n, mids);
      NormalTwice(d, name);
      hide Step, RetireFirst, Normalized;
      RetireFirstKeeps(FolderOf(d.uids, name), mids, |mids|);
    case _ =>
      OtherNumbers(d, op);
  }

  lemma FreshIndexed(d: Doc, name: string)
    requires AllIndexed(d)
    ensures Indexed(FolderOf(d.uids, name))
  {
  }

  lemma NormalTwice(d: Doc, name: string)
    ensures FolderOf(Normalized(d).uids, name) == FolderOf(d.uids, name)
    ensures name in d.uids ==> Normalized(d).uids[name] == FolderOf(d.uids, name)
    ensures name !in d.uids ==> name !in Normalized(d).uids && FolderOf(d.uids, name) == FRESH
    ensures name in d.uids ==> FolderOf(d.uids, name).uids == d.uids[name].uids
    ensures name !in d.uids ==> FolderOf(d.uids, name).uids == map[]
  {
  }

  /** An op that reuses nothing leaves every number with its first owner. */
  lemma StepOwned(d: Doc, given: History, op: Op)
    requires AllIndexed(d) && AllOwned(d, given) && !ReusedBy(given, d, op)
    ensures AllOwned(ApplyOp(d, op), Recorded(given, d, op))
  {
    hide ApplyOp, AssignFirst, GivenFirst, ReusesAt;
    forall name | name in ApplyOp(d, op).uids
      ensures Owned(ApplyOp(d, op).uids[name], GivenIn(Recorded(given, d, op), name))
    {
      FoldersAfter(d, op, name);
      NormalTwice(d, name);
      if op.Uid? && name == op.folder {
        OpOwned(FolderOf(d.uids, name), GivenIn(given, name), op.mids, op.nums, |op.mids|);
      }
    }
  }

  lemma FirstOwnersStay(d: Doc, given: History, op: Op, folder: string, n: Number)
    requires AllIndexed(d) && n in GivenIn(given, folder)
    ensures var now := GivenIn(Recorded(given, d, op), folder); n in now && now[n] == GivenIn(given, folder)[n]
  {
    if op.Uid? && folder == op.folder {
      FreshIndexed(d, folder);
      hide FolderOf, GivenFirst;
      OpGives(FolderOf(d.uids, folder), GivenIn(given, folder), op.mids, op.nums, |op.mids|);
    }
  }

  lemma {:induction false} RunIndexed(d: Doc, ops: seq<Op>)
    requires AllIndexed(d)
    ensures AllIndexed(ApplyAll(d, ops))
  {
    hide AllIndexed, ApplyOp;
    if ops != [] {
      RunIndexed(d, ops[..|ops| - 1]);
      IndexKept(ApplyAll(d, ops[..|ops| - 1]), ops[|ops| - 1]);
    }
  }

  // -- numbers over whole runs -------------------------------------------------------------------

  /** The document after the first k ops. */
  function DocAt(d: Doc, ops: seq<Op>, k: nat): Doc
    requires k <= |ops|
  {
    ApplyAll(d, ops[..k])
  }

  function GivenAt(d: Doc, ops: seq<Op>, k: nat): History
    requires k <= |ops|
  {
    HistoryOf(d, ops[..k])
  }

  predicate NumberOf(d: Doc, folder: string, mid: string, n: Number) {
    folder in d.uids && mid in d.uids[folder].uids && d.uids[folder].uids[mid] == n
  }

  /** The message has the number after the first i ops. */
  predicate NumberAt(d: Doc, ops: seq<Op>, i: nat, folder: string, mid: string, n: Number) {
    i <= |ops| && NumberOf(DocAt(d, ops, i), folder, mid, n)
  }

  /** No number of a folder is ever on two messages, however far apart in the run. */
  ghost predicate NeverTwice(d: Doc, ops: seq<Op>) {
    forall i, j, folder, a, b, n :: NumberAt(d, ops, i, folder, a, n) && NumberAt(d, ops, j, folder, b, n) ==> a == b
  }

  /** Nothing is reused up to some point. */
  ghost predicate ReuseFree(d: Doc, ops: seq<Op>, k: nat) {
    forall i: nat :: i < k && i < |ops| ==> !ReusedBy(GivenAt(d, ops, i), DocAt(d, ops, i), ops[i])
  }

  lemma OneStep(d: Doc, ops: seq<Op>, k: nat)
    requires k < |ops|
    ensures DocAt(d, ops, k + 1) == ApplyOp(DocAt(d, ops, k), ops[k])
    ensures GivenAt(d, ops, k + 1) == Recorded(GivenAt(d, ops, k), DocAt(d, ops, k), ops[k])
  {
    assert ops[..k + 1][..k] == ops[..k] && |ops[..k + 1]| == k + 1;
    hide ApplyOp, Recorded;
  }

  lemma IndexedAt(d: Doc, ops: seq<Op>, k: nat)
    requires AllIndexed(d) && k <= |ops|
    ensures AllIndexed(DocAt(d, ops, k))
  {
    RunIndexed(d, ops[..k]);
  }

  lemma StartOf(d: Doc, ops: seq<Op>)
    ensures DocAt(d, ops, 0) == d && GivenAt(d, ops, 0) == HistoryOf(d, [])
  {
    assert ops[..0] == [];
  }

  lemma {:induction false} OwnedSoFar(d: Doc, ops: seq<Op>, k: nat)
    requires AllIndexed(d) && k <= |ops| && ReuseFree(d, ops, k)
    ensures AllOwned(DocAt(d, ops, k), GivenAt(d, ops, k))
  {
    if k == 0 {
      StartOwned(d, ops);
    } else {
      hide AllIndexed, AllOwned, ReusedBy, Recorded, ApplyOp, DocAt, GivenAt;
      OwnedSoFar(d, ops, k - 1);
      OneStep(d, ops, k - 1);
      IndexedAt(d, ops, k - 1);
      StepOwned(DocAt(d, ops, k - 1), GivenAt(d, ops, k - 1), ops[k - 1]);
    }
  }

  lemma StartOwned(d: Doc, ops: seq<Op>)
    requires AllIndexed(d)
    ensures AllOwned(DocAt(d, ops, 0), GivenAt(d, ops, 0))
  {
    StartOf(d, ops);
  }

  predicate FirstIs(given: History, folder: string, n: Number, mid: string) {
    n in GivenIn(given, folder) && GivenIn(given, folder)[n] == mid
  }

  lemma FirstStays(d: Doc, given: History, op: Op, folder: string, n: Number, mid: string)
    requires AllIndexed(d) && FirstIs(given, folder, n, mid)
    ensures FirstIs(Recorded(given, d, op), folder, n, mid)
  {
    hide AllIndexed, Recorded;
    FirstOwnersStay(d, given, op, folder, n);
  }

  lemma FirstStaysAt(d: Doc, ops: seq<Op>, k: nat, folder: string, n: Number, mid: string)
    requires AllIndexed(d) && k < |ops| && FirstIs(GivenAt(d, ops, k), folder, n, mid)
    ensures FirstIs(GivenAt(d, ops, k + 1), folder, n, mid)
  {
    hide DocAt, GivenAt, AllIndexed, Recorded, ApplyOp;
    OneStep(d, ops, k);
    IndexedAt(d, ops, k);
    FirstStays(DocAt(d, ops, k), GivenAt(d, ops, k), ops[k], folder, n, mid);
  }

  lemma {:induction false} FirstOwnersKept(d: Doc, ops: seq<Op>, i: nat, k: nat, folder: string, n: Number, mid: string)
    requires AllIndexed(d) && i <= k <= |ops| && FirstIs(GivenAt(d, ops, i), folder, n, mid)
    ensures FirstIs(GivenAt(d, ops, k), folder, n, mid)
    decreases k
  {
    if k > i {
      hide *;
      FirstOwnersKept(d, ops, i, k - 1, folder, n, mid);
      FirstStaysAt(d, ops, k - 1, folder, n, mid);
    }
  }

  /** Whoever is in the history had the number at some time. */
  lemma {:induction false} GivenOnce(d: Doc, ops: seq<Op>, k: nat, folder: string, n: Number) returns (i: nat)
    requires AllIndexed(d) && k <= |ops| && n in GivenIn(GivenAt(d, ops, k), folder)
    ensures i <= k && NumberAt(d, ops, i, folder, GivenIn(GivenAt(d, ops, k), folder)[n], n)
    decreases k
  {
    if k == 0 {
      i := 0;
      StartOf(d, ops);
      return;
    }
    OneStep(d, ops, k - 1);
    var before, doc, op := GivenAt(d, ops, k - 1), DocAt(d, ops, k - 1), ops[k - 1];
    IndexedAt(d, ops, k - 1);
    hide AllIndexed, DocAt, GivenAt, ApplyOp, Recorded;
    if n in GivenIn(before, folder) {
      FirstOwnersStay(doc, before, op, folder, n);
      i := GivenOnce(d, ops, k - 1, folder, n);
    } else {
      i := k;
      NewlyGiven(doc, before, op, folder, n);
    }
  }

  lemma NewlyGiven(d: Doc, given: History, op: Op, folder: string, n: Number)
    requires AllIndexed(d) && n !in GivenIn(given, folder) && n in GivenIn(Recorded(given, d, op), folder)
    ensures NumberOf(ApplyOp(d, op), folder, GivenIn(Recorded(given, d, op), folder)[n], n)
  {
    FreshIndexed(d, folder);
    var f := FolderOf(d.uids, folder);
    OpGives(f, GivenIn(given, folder), op.mids, op.nums, |op.mids|);
    UidFolder(d, op);
    FoldersAfter(d, op, folder);
  }

  lemma UidFolder(d: Doc, op: Op)
    requires op.Uid?
    ensures op.folder in ApplyOp(d, op).uids
  {
    StepOfUid(Normalized(d), op.folder, op.mids, op.nums);
  }

  /** An op that reuses a number shows: its message has it afterwards, and somebody else had it before. */
  lemma ReuseIsTwice(d: Doc, ops: seq<Op>, k: nat)
    requires AllIndexed(d) && k < |ops| && ReusedBy(GivenAt(d, ops, k), DocAt(d, ops, k), ops[k])
    ensures !NeverTwice(d, ops)
  {
    var given, doc, op := GivenAt(d, ops, k), DocAt(d, ops, k), ops[k];
    var f := FolderOf(doc.uids, op.folder);
    var at: nat :| at < |op.mids| && ReusesAt(f, GivenIn(given, op.folder), op.mids, op.nums, at);
    IndexedAt(d, ops, k);
    FreshIndexed(doc, op.folder);
    ReuseShows(f, GivenIn(given, op.folder), op.mids, op.nums, at);
    UidFolder(doc, op);
    FoldersAfter(doc, op, op.folder);
    OneStep(d, ops, k);
    hide DocAt, ApplyOp, GivenAt, AssignFirst, ReusesAt, AllIndexed, FolderOf;
    var n, mid := op.nums[at], op.mids[at];
    var i := GivenOnce(d, ops, k, op.folder, n);
    assert NumberAt(d, ops, k + 1, op.folder, mid, n);
    assert NumberAt(d, ops, i, op.folder, GivenIn(given, op.folder)[n], n);
  }

  lemma FirstOwner(d: Doc, ops: seq<Op>, i: nat, folder: string, mid: string, n: Number)
    requires AllIndexed(d) && ReuseFree(d, ops, |ops|) && NumberAt(d, ops, i, folder, mid, n)
    ensures FirstIs(GivenAt(d, ops, |ops|), folder, n, mid)
  {
    hide ReusedBy, AllIndexed, DocAt, GivenAt;
    assert ReuseFree(d, ops, i);
    OwnedSoFar(d, ops, i);
    FirstOwnersKept(d, ops, i, |ops|, folder, n, mid);
  }

  /** Over any run of any ops: numbers are never on two messages if and only if no op reuses one at one of its turns. */
  lemma NeverReusedWhen(d: Doc, ops: seq<Op>)
    requires AllIndexed(d)
    ensures NeverTwice(d, ops) <==> ReuseFree(d, ops, |ops|)
  {
    hide NumberAt, ReusedBy, AllIndexed, DocAt, GivenAt;
    if ReuseFree(d, ops, |ops|) {
      forall i, j, folder, a, b, n | NumberAt(d, ops, i, folder, a, n) && NumberAt(d, ops, j, folder, b, n)
        ensures a == b
      {
        FirstOwner(d, ops, i, folder, a, n);
        FirstOwner(d, ops, j, folder, b, n);
      }
    } else {
      var k: nat :| k < |ops| && ReusedBy(GivenAt(d, ops, k), DocAt(d, ops, k), ops[k]);
      ReuseIsTwice(d, ops, k);
    }
  }

  // -- ops in turn -----------------------------------------------------------------------------------

  /** Whatever takes effect gives Next or a later number; refusals and replays do not matter. */
  ghost predicate UidInTurn(d: Doc, op: Op) {
    op.Uid? ==> OpInTurn(FolderOf(d.uids, op.folder), op.mids, op.nums, |op.mids|)
  }

  /** So it is with ops made for the document... */
  lemma MadeForIsInTurn(d: Doc, op: Op)
    requires MadeFor(d, op)
    ensures UidInTurn(d, op)
  {
    if op.Uid? {
      BatchInTurn(FolderOf(d.uids, op.folder), op.mids);
    }
  }

  /** ...and with an op that is replayed. */
  lemma ReplayIsInTurn(d: Doc, op: Op)
    requires AllIndexed(d)
    ensures UidInTurn(ApplyOp(d, op), op)
  {
    if op.Uid? {
      UidFolder(d, op);
      FoldersAfter(d, op, op.folder);
      hide ApplyOp, AssignFirst, OpInTurn;
      OpSettles(FolderOf(d.uids, op.folder), op.mids, op.nums, |op.mids|);
      SettledNormal(ApplyOp(d, op).uids[op.folder], op.mids, op.nums);
      SettledInTurn(FolderOf(ApplyOp(d, op).uids, op.folder), op.mids, op.nums);
    }
  }

  ghost predicate AllBelow(d: Doc, given: History) {
    forall name :: name in given ==> name in d.uids && Below(FolderOf(d.uids, name), given[name])
  }

  lemma StepBelow(d: Doc, given: History, op: Op)
    requires AllIndexed(d) && AllBelow(d, given) && UidInTurn(d, op)
    ensures AllBelow(ApplyOp(d, op), Recorded(given, d, op)) && !ReusedBy(given, d, op)
  {
    if op.Uid? {
      UidFolder(d, op);
      hide AssignFirst, GivenFirst, OpInTurn, ApplyOp, ReusesAt;
      InTurnKeeps(FolderOf(d.uids, op.folder), GivenIn(given, op.folder), op.mids, op.nums, |op.mids|);
    }
    hide ApplyOp, AssignFirst, GivenFirst;
    var d', now := ApplyOp(d, op), Recorded(given, d, op);
    forall name | name in now ensures name in d'.uids && Below(FolderOf(d'.uids, name), now[name]) {
      FoldersStay(d, op);
      FoldersAfter(d, op, name);
      HigherNext(d', name);
    }
  }

  lemma HigherNext(d: Doc, name: string)
    requires name in d.uids
    ensures FolderOf(d.uids, name).next >= d.uids[name].next
  {
  }

  lemma FoldersStay(d: Doc, op: Op)
    ensures d.uids.Keys <= ApplyOp(d, op).uids.Keys
  {
    hide AssignFirst, RetireFirst;
    if !op.Uid? && !op.UidRetire? && !op.Drop? {
      OtherNumbers(d, op);
    }
  }

  ghost predicate RunInTurn(d: Doc, ops: seq<Op>) {
    forall k: nat :: k < |ops| ==> UidInTurn(DocAt(d, ops, k), ops[k])
  }

  lemma BelowAt(d: Doc, ops: seq<Op>, k: nat)
    requires AllIndexed(d) && k < |ops| && RunInTurn(d, ops) && AllBelow(DocAt(d, ops, k), GivenAt(d, ops, k))
    ensures AllBelow(DocAt(d, ops, k + 1), GivenAt(d, ops, k + 1))
    ensures !ReusedBy(GivenAt(d, ops, k), DocAt(d, ops, k), ops[k])
  {
    hide AllIndexed, AllBelow, ReusedBy, Recorded, ApplyOp, UidInTurn, DocAt, GivenAt;
    OneStep(d, ops, k);
    IndexedAt(d, ops, k);
    StepBelow(DocAt(d, ops, k), GivenAt(d, ops, k), ops[k]);
  }

  lemma {:induction false} BelowSoFar(d: Doc, ops: seq<Op>, k: nat)
    requires AllSound(d) && AllIndexed(d) && k <= |ops| && RunInTurn(d, ops)
    ensures AllBelow(DocAt(d, ops, k), GivenAt(d, ops, k))
  {
    if k == 0 {
      StartOf(d, ops);
      StartsBelow(d);
    } else {
      hide *;
      BelowSoFar(d, ops, k - 1);
      BelowAt(d, ops, k - 1);
    }
  }

  lemma StartsBelow(d: Doc)
    requires AllSound(d)
    ensures AllBelow(d, HistoryOf(d, []))
  {
  }

  /** Along every run whose uid ops are in turn, no number of a folder is ever on two messages. */
  lemma NeverReused(d: Doc, ops: seq<Op>)
    requires AllSound(d) && RunInTurn(d, ops)
    ensures NeverTwice(d, ops)
  {
    assert AllIndexed(d);
    hide UidInTurn, AllSound, AllIndexed, DocAt, NeverTwice, GivenAt, ReusedBy, AllBelow;
    forall k: nat | k < |ops| ensures !ReusedBy(GivenAt(d, ops, k), DocAt(d, ops, k), ops[k]) {
      BelowSoFar(d, ops, k);
      BelowAt(d, ops, k);
    }
    NeverReusedWhen(d, ops);
  }
}
