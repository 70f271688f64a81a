/**
  Where the log is not exact: for each condition of an orderly run, one run or more that break only
  that condition and lose a change for good; runs in which a local file, or a pending op that is never
  written, shows for good; and what a snapshot with pending ops in it still guarantees.
  */
module LogLimits {
  import opened Options
  import opened Document
  import opened Absorption
  import opened Merging
  import opened StateLog

  predicate Between(lo: nat, n: nat, hi: nat) {
    lo <= n < hi
  }

  function Names(lo: nat, hi: nat): (names: set<nat>)
    ensures forall n :: n in names <==> Between(lo, n, hi)
  {
    set n: nat | lo <= n < hi && Between(lo, n, hi)
  }

  lemma {:induction false} NamesCount(lo: nat, hi: nat)
    requires lo <= hi
    ensures |Names(lo, hi)| == hi - lo
    decreases hi
  {
    if lo < hi {
      NamesCount(lo, hi - 1);
      assert Names(lo, hi) == Names(lo, hi - 1) + {hi - 1};
    } else {
      assert Names(lo, hi) == {};
    }
  }

  /** The change that gets lost, and the one that fills the log. */
  const MARK := [Ruled(["x"])]
  const QUIET := [Unknown]

  /** A log of quiet objects but for the one named at. */
  ghost predicate OneMark(hist: map<nat, seq<Op>>, at: nat) {
    at in hist && hist[at] == MARK && forall n :: n in hist && n != at ==> hist[n] == QUIET
  }

  function MarkedLog(lo: nat, hi: nat, at: nat): (log: map<nat, seq<Op>>)
    ensures log.Keys == Names(lo, hi)
  {
    map n | n in Names(lo, hi) :: if n == at then MARK else QUIET
  }

  predicate Marked(d: Doc) {
    "x" in d.messages
  }

  lemma AfterOne(d: Doc, ops: seq<Op>, op: Op)
    ensures ApplyAll(d, ops + [op]) == ApplyOp(ApplyAll(d, ops), op)
  {
    ApplyAllConcat(d, ops, [op]);
    OneOp(ApplyAll(d, ops), op);
  }

  /** The mark shows in a replay exactly when its object is in it. */
  lemma {:induction false} MarkShows(hist: map<nat, seq<Op>>, names: set<nat>, at: nat)
    requires OneMark(hist, at) && names <= hist.Keys
    ensures Marked(Truth(hist, names)) <==> at in names
    decreases |names|
  {
    if names == {} {
      assert Truth(hist, names) == EMPTY;
    } else {
      var m := Last(names);
      MarkShows(hist, names - {m}, at);
      AfterOne(EMPTY, Content(hist, names - {m}), hist[m][0]);
      var before := Truth(hist, names - {m});
      assert Content(hist, names) == Content(hist, names - {m}) + [hist[m][0]];
      EffectIs(before, Ruled(["x"]), Here("x"));
      hide ApplyAll, Content, Last, Step;
      assert m != at ==> ApplyOp(before, Unknown).messages == before.messages by {
        NothingHappens(before);
      }
    }
  }

  lemma NothingHappens(d: Doc)
    ensures ApplyOp(d, Unknown).messages == d.messages
  {
  }

  /** The change was written, but no fresh machine sees it. */
  ghost predicate Lost(s: System) {
    Marked(Truth(s.hist, s.hist.Keys)) && !Marked(FreshLoad(s.bucket))
  }

  lemma UnseenIsLost(s: System, at: nat)
    requires Tracked(s) && OneMark(s.hist, at) && at !in s.Seen()
    ensures Lost(s)
  {
    hide Truth, ApplyAll, Content, FreshLoad;
    assert s.Seen() <= s.hist.Keys by {
      assert Replays(s.bucket.Base(), s.hist, s.merged, s.bucket.Upto());
    }
    FreshLoadSees(s);
    MarkShows(s.hist, s.Seen(), at);
    MarkShows(s.hist, s.hist.Keys, at);
  }

  // -- runs with one unusual event ------------------------------------------------------------------

  /** A run so far. */
  datatype Trail = Trail(states: seq<System>, events: seq<Event>)

  /** A run from an exact state in which every event is orderly and plain, but for the event number k. */
  ghost predicate UsualBut(t: Trail, k: nat) {
    && |t.states| == |t.events| + 1
    && Tracked(t.states[0]) && Complete(t.states[0], COMPACT_AFTER)
    && forall i :: 0 <= i < |t.events| ==> StepsTo(t.states[i], t.events[i], t.states[i + 1], i != k)
  }

  ghost predicate StepsTo(s: System, e: Event, s': System, usual: bool) {
    Follows(s, e, s') && (usual ==> Orderly(s, e, COMPACT_AFTER) && Plain(s, e))
  }

  /** Where the run has got to. */
  ghost predicate At(t: Trail, k: nat, s: System) {
    UsualBut(t, k) && t.states[|t.events|] == s
  }

  ghost function Extend(t: Trail, e: Event, s': System): Trail {
    Trail(t.states + [s'], t.events + [e])
  }

  lemma Extended(t: Trail, k: nat, s: System, e: Event, s': System)
    requires At(t, k, s) && StepsTo(s, e, s', |t.events| != k)
    ensures At(Extend(t, e, s'), k, s')
  {
    hide Tracked, Complete, StepsTo;
    var t' := Extend(t, e, s');
    forall i | 0 <= i < |t'.events| ensures StepsTo(t'.states[i], t'.events[i], t'.states[i + 1], i != k) {
      if i < |t.events| {
        assert StepsTo(t.states[i], t.events[i], t.states[i + 1], i != k);
      }
    }
  }

  /** Only the event number k is disorderly, and in the end the mark is lost. */
  ghost predicate LosesBy(t: Trail, k: nat, e: Event) {
    k < |t.events| && t.events[k] == e && UsualBut(t, k) && Plain(t.states[k], e) && Lost(t.states[|t.events|])
  }

  /** Nobody ever wrote the mark, or it was taken back, but fresh machines see it. */
  ghost predicate Pretends(s: System) {
    Marked(FreshLoad(s.bucket)) && !Marked(Truth(s.hist, s.hist.Keys))
  }

  /** The run is orderly, only the event number k is not plain, and in the end the mark is there for nothing. */
  ghost predicate ShowsBy(t: Trail, k: nat, e: Event) {
    && k < |t.events| && t.events[k] == e && UsualBut(t, k)
    && Orderly(t.states[k], e, COMPACT_AFTER) && Pretends(t.states[|t.events|])
  }

  /** These events are always plain. */
  lemma PlainAnyway(s: System, e: Event)
    requires e.Write? || e.PutSnapshot? || (e.ReadSnapshot? && e.local == None) || (e.FetchOps? && e.pending == [])
    ensures Plain(s, e)
  {
  }

  lemma MarkLost(t: Trail, k: nat, s: System, e: Event, at: nat)
    requires At(t, k, s) && k < |t.events| && t.events[k] == e
    requires e.Write? || e.PutSnapshot? || (e.ReadSnapshot? && e.local == None) || (e.FetchOps? && e.pending == [])
    requires OneMark(s.hist, at) && at !in s.Seen()
    ensures LosesBy(t, k, e)
  {
    PlainAnyway(t.states[k], e);
    hide Tracked, Complete, Orderly, Plain, Lost, OneMark;
    forall i | 0 <= i < |t.events| ensures Follows(t.states[i], t.events[i], t.states[i + 1]) && Plain(t.states[i], t.events[i]) {
      assert StepsTo(t.states[i], t.events[i], t.states[i + 1], i != k);
    }
    hide Follows;
    RunTracked(t.states, t.events, |t.events|);
    UnseenIsLost(s, at);
  }

  /** A log without a snapshot, and two idle machines. */
  lemma Start(ops: map<nat, seq<Op>>, k: nat) returns (t: Trail, s: System)
    requires 0 !in ops
    ensures At(t, k, s) && t.events == []
    ensures s == System(Bucket(None, ops), ops, {}, map[0 := Idle, 1 := Idle])
  {
    s := System(Bucket(None, ops), ops, {}, map[0 := Idle, 1 := Idle]);
    t := Trail([s], []);
    assert Content(ops, {}) == [];
  }

  lemma ReadStep(t: Trail, k: nat, s: System, m: nat, local: Option<Doc>, found: bool) returns (t': Trail, s': System)
    requires At(t, k, s) && m in s.machines && s.machines[m].Idle? && (|t.events| != k ==> local == None)
    ensures At(t', k, s') && t'.events == t.events + [ReadSnapshot(m, local, found)] && t'.states == t.states + [s']
    ensures m in s'.machines && s' == s.(machines := s.machines[m := s'.machines[m]]) && s'.machines[m].Reading?
    ensures var p := s'.machines[m]; var known := found && s.bucket.snapshot.Some?;
      && p.upto == (if known then s.bucket.Upto() else 0) && p.seen == (if known then s.merged else {})
      && p.doc == BaseOf(if found then s.bucket.snapshot else None, local)
  {
    hide ApplyAll, Content, At;
    s' := Do(s, ReadSnapshot(m, local, found));
    t' := Extend(t, ReadSnapshot(m, local, found), s');
    Extended(t, k, s, ReadSnapshot(m, local, found), s');
  }

  lemma ListStep(t: Trail, k: nat, s: System, m: nat, names: set<nat>) returns (t': Trail, s': System)
    requires At(t, k, s) && m in s.machines && s.machines[m].Reading?
    requires names == Above(s.bucket.ops.Keys, s.machines[m].upto)
    ensures At(t', k, s') && t'.events == t.events + [ListNames(m, true)]
    ensures var p := s.machines[m]; s' == s.(machines := s.machines[m := Listed(p.doc, p.upto, p.seen, names)])
  {
    hide At;
    s' := Do(s, ListNames(m, true));
    t' := Extend(t, ListNames(m, true), s');
    Extended(t, k, s, ListNames(m, true), s');
  }

  lemma FetchStep(t: Trail, k: nat, s: System, m: nat, failed: set<nat>, pending: seq<Op>) returns (t': Trail, s': System)
    requires At(t, k, s) && m in s.machines && s.machines[m].Listed? && (|t.events| != k ==> failed == {} && pending == [])
    ensures At(t', k, s') && t'.events == t.events + [FetchOps(m, failed, pending)] && t'.states == t.states + [s']
    ensures m in s'.machines && s' == s.(machines := s.machines[m := s'.machines[m]]) && s'.machines[m].Loaded?
    ensures var p, q := s.machines[m], s'.machines[m]; var fetched := p.names * s.bucket.ops.Keys - failed;
      && q.names == p.names && q.seen == p.seen + fetched && q.upto == p.upto
      && q.doc == ApplyAll(Normalized(p.doc), Content(s.bucket.ops, fetched) + pending)
  {
    hide ApplyAll, Content, At;
    s' := Do(s, FetchOps(m, failed, pending));
    t' := Extend(t, FetchOps(m, failed, pending), s');
    Extended(t, k, s, FetchOps(m, failed, pending), s');
  }

  lemma WriteStep(t: Trail, k: nat, s: System, name: nat, ops: seq<Op>) returns (t': Trail, s': System)
    requires At(t, k, s) && name > 0 && name !in s.hist && ops != []
    requires |t.events| != k ==> Orderly(s, Write(name, ops), COMPACT_AFTER)
    ensures At(t', k, s') && t'.events == t.events + [Write(name, ops)]
    ensures s' == s.(bucket := s.bucket.(ops := s.bucket.ops[name := ops]), hist := s.hist[name := ops])
  {
    hide At;
    s' := Do(s, Write(name, ops));
    t' := Extend(t, Write(name, ops), s');
    Extended(t, k, s, Write(name, ops), s');
  }

  lemma PutStep(t: Trail, k: nat, s: System, m: nat, w: nat) returns (t': Trail, s': System)
    requires At(t, k, s) && m in s.machines && s.machines[m].Loaded? && |s.machines[m].names| >= COMPACT_AFTER
    requires IsMax(s.machines[m].names, w) && (|t.events| != k ==> s.machines[m].upto == s.bucket.Upto())
    ensures At(t', k, s') && t'.events == t.events + [PutSnapshot(m)] && t'.states == t.states + [s']
    ensures s' == s.(bucket := s.bucket.(snapshot := Some(Snapshot(s.machines[m].doc, w))), merged := s.machines[m].seen,
                     machines := s.machines[m := Cleaning(s.machines[m].names)])
  {
    hide At;
    s' := Do(s, PutSnapshot(m));
    t' := Extend(t, PutSnapshot(m), s');
    Extended(t, k, s, PutSnapshot(m), s');
  }

  lemma DeleteStep(t: Trail, k: nat, s: System, m: nat, n: nat) returns (t': Trail, s': System)
    requires At(t, k, s) && m in s.machines && s.machines[m].Cleaning? && n in s.machines[m].names
    ensures At(t', k, s') && t'.events == t.events + [DeleteOp(m, n)] && t'.states == t.states + [s']
    ensures s' == s.(bucket := s.bucket.(ops := s.bucket.ops - {n}),
                     machines := s.machines[m := Cleaning(s.machines[m].names - {n})])
  {
    hide At;
    s' := Do(s, DeleteOp(m, n));
    t' := Extend(t, DeleteOp(m, n), s');
    Extended(t, k, s, DeleteOp(m, n), s');
  }

  /** A whole Load of a machine that finds no snapshot. */
  lemma LoadSteps(t: Trail, k: nat, s: System, m: nat, names: set<nat>) returns (t': Trail, s': System)
    requires At(t, k, s) && m in s.machines && s.machines[m].Idle? && s.bucket.snapshot.None?
    requires names == s.bucket.ops.Keys && 0 !in names && k !in {|t.events|, |t.events| + 2}
    ensures At(t', k, s') && |t'.events| == |t.events| + 3 && t.events <= t'.events
    ensures m in s'.machines && s' == s.(machines := s.machines[m := s'.machines[m]]) && s'.machines[m].Loaded?
    ensures s'.machines[m].names == names && s'.machines[m].seen == names && s'.machines[m].upto == 0
  {
    hide At;
    var t1, s1 := ReadStep(t, k, s, m, None, true);
    assert names == Above(s1.bucket.ops.Keys, 0);
    var t2, s2 := ListStep(t1, k, s1, m, names);
    t', s' := FetchStep(t2, k, s2, m, {}, []);
  }

  // -- the limits -----------------------------------------------------------------------------------

  /** An op named below a name that was already listed, but written after the listing, is skipped for ever. */
  lemma LateNameIsLost() returns (t: Trail)
    ensures LosesBy(t, 3, Write(1, MARK))
  {
    var ops := MarkedLog(2, 52, 0);
    NamesCount(2, 52);
    hide At, LosesBy, Names;
    var t0, s0 := Start(ops, 3);
    var t3, s3 := LoadSteps(t0, 3, s0, 0, Names(2, 52));
    var t4, s4 := WriteStep(t3, 3, s3, 1, MARK);
    var t5, s5 := PutStep(t4, 3, s4, 0, 51);
    t := t5;
    MarkLost(t5, 3, s5, Write(1, MARK), 1);
  }

  /** An op named below the watermark is skipped from the start. */
  lemma StaleNameIsLost() returns (t: Trail)
    ensures LosesBy(t, 4, Write(1, MARK))
  {
    var ops := MarkedLog(2, 52, 0);
    NamesCount(2, 52);
    hide At, LosesBy, Names;
    var t0, s0 := Start(ops, 4);
    var t3, s3 := LoadSteps(t0, 4, s0, 0, Names(2, 52));
    var t4, s4 := PutStep(t3, 4, s3, 0, 51);
    var t5, s5 := WriteStep(t4, 4, s4, 1, MARK);
    t := t5;
    MarkLost(t5, 4, s5, Write(1, MARK), 1);
  }

  /** An op whose body could not be read counts as merged all the same. */
  lemma UnreadOpIsLost() returns (t: Trail)
    ensures LosesBy(t, 2, FetchOps(0, {1}, []))
  {
    hide At, LosesBy, OneMark, MarkedLog;
    NamesCount(1, 51);
    MarkedOnce(1, 51, 1);
    var t2, s2 := FiftyListed(2);
    var t3, s3 := FetchStep(t2, 2, s2, 0, {1}, []);
    t := PutAndLose(t3, 2, s3, 0, 50, FetchOps(0, {1}, []), 1);
  }

  /** Machine 0 has listed fifty objects. */
  lemma FiftyListed(k: nat) returns (t: Trail, s: System)
    requires k == 2
    ensures At(t, k, s) && |t.events| == 2
    ensures s.hist == s.bucket.ops == MarkedLog(1, 51, 1) && 0 in s.machines && s.machines[0].Listed?
    ensures s.machines.Keys == {0, 1} && s.machines[1] == Idle
    ensures s.machines[0].names == Names(1, 51) && s.machines[0].seen == {} && s.machines[0].upto == 0
    ensures s.bucket.snapshot.None?
  {
    var ops := MarkedLog(1, 51, 1);
    assert Names(1, 51) == Above(ops.Keys, 0);
    hide At, Names, MarkedLog;
    var t0, s0 := Start(ops, k);
    var t1, s1 := ReadStep(t0, k, s0, 0, None, true);
    t, s := ListStep(t1, k, s1, 0, Names(1, 51));
  }

  /** The last step of the runs: the snapshot is put without the mark, and the mark's object is no longer above it. */
  lemma PutAndLose(t: Trail, k: nat, s: System, m: nat, w: nat, e: Event, at: nat) returns (t': Trail)
    requires At(t, k, s) && m in s.machines && s.machines[m].Loaded? && |s.machines[m].names| >= COMPACT_AFTER
    requires IsMax(s.machines[m].names, w)
    requires if k == |t.events| then e == PutSnapshot(m)
             else k < |t.events| && t.events[k] == e && s.machines[m].upto == s.bucket.Upto()
    requires e.Write? || e.PutSnapshot? || (e.ReadSnapshot? && e.local == None) || (e.FetchOps? && e.pending == [])
    requires OneMark(s.hist, at) && at !in s.machines[m].seen && (at <= w || at !in s.bucket.ops)
    ensures LosesBy(t', k, e)
  {
    hide At, LosesBy, OneMark;
    var s': System;
    t', s' := PutStep(t, k, s, m, w);
    assert at !in s'.Seen();
    MarkLost(t', k, s', e, at);
  }

  /** A snapshot made by a machine that had read the one before the last, and listed what was left then: what was cleaned is lost. */
  lemma RaceLosesCleaned() returns (t: Trail)
    ensures LosesBy(t, 8, PutSnapshot(0))
  {
    hide At, LosesBy, MarkedLog, OneMark;
    var t6, s6 := CleanedMeanwhile();
    NamesCount(2, 52);
    assert Names(2, 52) == Above(s6.bucket.ops.Keys, 0);
    MarkedOnce(1, 52, 1);
    var t7, s7 := ListStep(t6, 8, s6, 0, Names(2, 52));
    var t8, s8 := FetchStep(t7, 8, s7, 0, {}, []);
    t := PutAndLose(t8, 8, s8, 0, 51, PutSnapshot(0), 1);
  }

  lemma MarkedOnce(lo: nat, hi: nat, at: nat)
    requires lo <= at < hi
    ensures OneMark(MarkedLog(lo, hi, at), at)
  {
  }

  /** Machine 0 has read that there is no snapshot; then machine 1 puts one and deletes the first object. */
  lemma CleanedMeanwhile() returns (t: Trail, s: System)
    ensures At(t, 8, s) && |t.events| == 6
    ensures s.hist == MarkedLog(1, 52, 1) && s.bucket.ops == s.hist - {1}
    ensures s.machines.Keys == {0, 1} && s.machines[1].Cleaning?
    ensures s.machines[0].Reading? && s.machines[0].upto == 0 && s.machines[0].seen == {}
  {
    var ops := MarkedLog(1, 52, 1);
    NamesCount(1, 52);
    hide At, MarkedLog;
    var t0, s0 := Start(ops, 8);
    var t1, s1 := ReadStep(t0, 8, s0, 0, None, true);
    var t4, s4 := LoadSteps(t1, 8, s1, 1, Names(1, 52));
    var t5, s5 := PutStep(t4, 8, s4, 1, 51);
    t, s := DeleteStep(t5, 8, s5, 1, 1);
  }

  /** Two overlapping compactions: an older snapshot over a newer one loses what the newer one had cleaned. */
  lemma OlderSnapshotWins() returns (t: Trail)
    ensures LosesBy(t, 9, PutSnapshot(0))
  {
    hide At, LosesBy, OneMark;
    var t4, s4 := LoadedBefore(9);
    NamesCount(1, 51);
    NamesCount(1, 52);
    var t7, s7 := LoadSteps(t4, 9, s4, 1, Names(1, 52));
    var t8, s8 := PutStep(t7, 9, s7, 1, 51);
    var t9, s9 := DeleteStep(t8, 9, s8, 1, 51);
    t := PutAndLose(t9, 9, s9, 0, 50, PutSnapshot(0), 51);
  }

  /** An older snapshot over a newer one does no harm as such; but then the newer one's cleaning loses what it has alone. */
  lemma LateDeleteIsLost() returns (t: Trail)
    ensures LosesBy(t, 8, PutSnapshot(0)) && |t.states| == 11 && t.events[9] == DeleteOp(1, 51)
    ensures SeesAll(t.states[9]) && !SeesAll(t.states[10])
  {
    hide At, LosesBy, OneMark;
    var t9, s9 := OlderOverNewer();
    NewestAlone(s9);
    var t10, s10 := DeleteStep(t9, 8, s9, 1, 51);
    t := t10;
    MarkLost(t, 8, s10, PutSnapshot(0), 51);
    LastTwo(t9, t10, 8, s9, s10);
  }

  /** Machine 1 has put a snapshot of 51 objects, then machine 0 one of the first fifty. */
  lemma OlderOverNewer() returns (t: Trail, s: System)
    ensures At(t, 8, s) && |t.events| == 9 && t.events[8] == PutSnapshot(0)
    ensures OneMark(s.hist, 51) && s.hist.Keys == s.bucket.ops.Keys == Names(1, 52) && s.bucket.Upto() == 50
    ensures s.merged == Names(1, 51) && s.machines.Keys == {0, 1} && s.machines[1] == Cleaning(Names(1, 52))
  {
    hide At, OneMark;
    var t4, s4 := LoadedBefore(8);
    NamesCount(1, 51);
    NamesCount(1, 52);
    var t7, s7 := LoadSteps(t4, 8, s4, 1, Names(1, 52));
    var t8, s8 := PutStep(t7, 8, s7, 1, 51);
    t, s := PutStep(t8, 8, s8, 0, 50);
  }

  lemma NewestAlone(s: System)
    requires s.hist.Keys == s.bucket.ops.Keys == Names(1, 52) && s.bucket.Upto() == 50 && s.merged == Names(1, 51)
    ensures SeesAll(s) && 51 in Names(1, 52)
  {
    forall n | n in Names(1, 52) ensures n in s.Seen() {
      assert Between(1, n, 52);
      assert n <= 50 ==> Between(1, n, 51);
    }
    assert forall n :: n in Names(1, 51) ==> Between(1, n, 52);
    assert Between(1, 51, 52);
  }

  lemma LastTwo(t: Trail, t': Trail, k: nat, s: System, s': System)
    requires At(t, k, s) && At(t', k, s') && |t'.events| == |t.events| + 1 && t'.states == t.states + [s']
    ensures t'.states[|t.events|] == s && t'.states[|t'.events|] == s' && |t'.states| == |t'.events| + 1
  {
    hide StepsTo;
  }

  /** Machine 0 has loaded fifty objects; then one more is written. */
  lemma LoadedBefore(k: nat) returns (t: Trail, s: System)
    requires k >= 5
    ensures At(t, k, s) && |t.events| == 4
    ensures OneMark(s.hist, 51) && s.hist.Keys == s.bucket.ops.Keys == Names(1, 52) && s.bucket.snapshot.None?
    ensures s.machines.Keys == {0, 1} && s.machines[1] == Idle
    ensures s.machines[0].Loaded? && s.machines[0].names == s.machines[0].seen == Names(1, 51)
  {
    var ops := MarkedLog(1, 51, 0);
    hide At;
    var t0, s0 := Start(ops, k);
    var t3, s3 := LoadSteps(t0, k, s0, 0, Names(1, 51));
    t, s := WriteStep(t3, k, s3, 51, MARK);
  }

  /** A snapshot that cannot be read counts as none, and the next compaction puts the rest in its place. */
  lemma UnreadSnapshotIsLost() returns (t: Trail)
    ensures LosesBy(t, 3, PutSnapshot(0)) && t.events[0] == ReadSnapshot(0, None, false)
  {
    hide At, LosesBy, OneMark, MarkedLog;
    var t0, s0 := Compacted();
    NamesCount(2, 52);
    MarkedOnce(1, 52, 1);
    var t1, s1 := ReadStep(t0, 3, s0, 0, None, false);
    assert Names(2, 52) == Above(s1.bucket.ops.Keys, 0);
    var t2, s2 := ListStep(t1, 3, s1, 0, Names(2, 52));
    var t3, s3 := FetchStep(t2, 3, s2, 0, {}, []);
    var t4, s4 := PutStep(t3, 3, s3, 0, 51);
    t := t4;
    MarkLost(t, 3, s4, PutSnapshot(0), 1);
  }

  /** The first object has gone into a snapshot, fifty more lie above it. */
  lemma Compacted() returns (t: Trail, s: System)
    ensures At(t, 3, s) && t.events == []
    ensures s.hist == MarkedLog(1, 52, 1) && s.bucket.ops.Keys == Names(2, 52) && s.merged == {1}
    ensures s.machines == map[0 := Idle, 1 := Idle]
  {
    var ops, hist := MarkedLog(2, 52, 1), MarkedLog(1, 52, 1);
    s := System(Bucket(Some(Snapshot(Truth(hist, {1}), 1)), ops), hist, {1}, map[0 := Idle, 1 := Idle]);
    SnapshotExact(s);
    t := Trail([s], []);
  }

  lemma SnapshotExact(s: System)
    requires s.hist == MarkedLog(1, 52, 1) && s.merged == {1} && s.machines == map[0 := Idle, 1 := Idle]
    requires s.bucket == Bucket(Some(Snapshot(Truth(s.hist, {1}), 1)), MarkedLog(2, 52, 1))
    ensures Tracked(s) && Complete(s, COMPACT_AFTER)
  {
    hide Truth;
    assert UpTo(s.hist.Keys, 1) == {1};
    assert Above(s.bucket.ops.Keys, 1) == Above(s.hist.Keys, 1);
  }

  // -- files and pending ops that show ---------------------------------------------------------------

  ghost predicate Quiet(log: map<nat, seq<Op>>, names: set<nat>) {
    forall n :: n in names && n in log ==> log[n] == QUIET
  }

  lemma {:induction false} QuietReplay(d: Doc, log: map<nat, seq<Op>>, names: set<nat>)
    requires Quiet(log, names)
    ensures ApplyAll(d, Content(log, names)).messages == d.messages
    decreases |names|
  {
    if names != {} {
      var m := Last(names);
      QuietReplay(d, log, names - {m});
      if m in log {
        AfterOne(d, Content(log, names - {m}), Unknown);
        NothingHappens(ApplyAll(d, Content(log, names - {m})));
        assert Content(log, names) == Content(log, names - {m}) + [Unknown];
      } else {
        assert Content(log, names) == Content(log, names - {m});
      }
    }
  }

  lemma MarkedByOp(d: Doc)
    ensures Marked(ApplyAll(d, MARK)) && !Marked(ApplyOp(ApplyAll(d, MARK), Drop(["x"])))
  {
    OneOp(d, MARK[0]);
    EffectIs(d, MARK[0], Here("x"));
    EffectIs(ApplyAll(d, MARK), Drop(["x"]), Here("x"));
  }

  /** The snapshot shows the mark, and all that lies above it is quiet. */
  lemma ShownAgain(s: System, doc: Doc, w: nat)
    requires s.bucket.snapshot == Some(Snapshot(doc, w)) && Marked(doc) && Quiet(s.bucket.ops, s.bucket.ops.Keys)
    ensures Marked(FreshLoad(s.bucket))
  {
    QuietReplay(Normalized(doc), s.bucket.ops, Above(s.bucket.ops.Keys, w));
    hide ApplyAll, Content;
  }

  /** Machine 0 has listed fifty quiet objects. */
  lemma QuietListed() returns (t: Trail, s: System)
    ensures At(t, 2, s) && |t.events| == 2
    ensures s.hist == s.bucket.ops == MarkedLog(1, 51, 0) && s.bucket.snapshot.None? && s.machines.Keys == {0, 1}
    ensures s.machines[0].Listed? && s.machines[0].upto == 0 && s.machines[0].names == Names(1, 51)
  {
    var ops := MarkedLog(1, 51, 0);
    assert Names(1, 51) == Above(ops.Keys, 0);
    hide At, Names, MarkedLog;
    var t0, s0 := Start(ops, 2);
    var t1, s1 := ReadStep(t0, 2, s0, 0, None, true);
    t, s := ListStep(t1, 2, s1, 0, Names(1, 51));
  }

  /** It loads them with the mark pending, and puts the snapshot. */
  lemma PendingPut() returns (t: Trail, s: System, doc: Doc)
    ensures At(t, 2, s) && |t.events| == 4 && t.events[2] == FetchOps(0, {}, MARK)
    ensures s.hist == s.bucket.ops == MarkedLog(1, 51, 0) && s.bucket.snapshot == Some(Snapshot(doc, 50)) && Marked(doc)
  {
    var t2, s2 := QuietListed();
    NamesCount(1, 51);
    assert IsMax(Names(1, 51), 50);
    hide At, Names, MarkedLog, ApplyAll, Content, Last, Marked, IsMax;
    var t3, s3 := FetchStep(t2, 2, s2, 0, {}, MARK);
    doc := s3.machines[0].doc;
    t, s := PutStep(t3, 2, s3, 0, 50);
    var base := Normalized(s2.machines[0].doc);
    var c := Content(s2.bucket.ops, s2.machines[0].names * s2.bucket.ops.Keys - {});
    ApplyAllConcat(base, c, MARK);
    MarkedByOp(ApplyAll(base, c));
  }

  /** A snapshot taken with a pending op in it, which is never written because the machine stops. */
  lemma PendingNeverWritten() returns (t: Trail)
    ensures ShowsBy(t, 2, FetchOps(0, {}, MARK))
  {
    var s, doc;
    t, s, doc := PendingPut();
    assert Quiet(s.hist, s.hist.Keys);
    hide ApplyAll, Content, Marked, Quiet, UsualBut, MarkedLog;
    ShownAgain(s, doc, 50);
    QuietReplay(EMPTY, s.hist, s.hist.Keys);
    EmptyUnmarked(Truth(s.hist, s.hist.Keys));
    UsualAt(t, 2, s);
  }

  lemma EmptyUnmarked(d: Doc)
    requires d.messages == EMPTY.messages
    ensures !Marked(d)
  {
  }

  lemma UsualAt(t: Trail, k: nat, s: System)
    requires At(t, k, s)
    ensures UsualBut(t, k) && |t.states| == |t.events| + 1 && t.states[|t.events|] == s
  {
  }

  const TAKEN := [Drop(["x"])]

  /** A log in which the mark is set and taken back. */
  function TakenLog(lo: nat): (log: map<nat, seq<Op>>)
    ensures log.Keys == Names(lo, 53)
  {
    map n | n in Names(lo, 53) :: if n == 1 then MARK else if n == 2 then TAKEN else QUIET
  }

  /** The mark and its removal have gone into a snapshot, fifty objects more lie above it. */
  lemma TakenBack() returns (t: Trail, s: System)
    ensures At(t, 0, s) && t.events == []
    ensures s.hist == TakenLog(1) && s.bucket.ops == TakenLog(3) && s.machines == map[0 := Idle, 1 := Idle]
    ensures s.bucket.snapshot == Some(Snapshot(Truth(s.hist, {1, 2}), 2)) && s.merged == {1, 2}
  {
    var ops, hist := TakenLog(3), TakenLog(1);
    s := System(Bucket(Some(Snapshot(Truth(hist, {1, 2}), 2)), ops), hist, {1, 2}, map[0 := Idle, 1 := Idle]);
    TakenExact(s);
    t := Trail([s], []);
  }

  lemma TakenExact(s: System)
    requires s.hist == TakenLog(1) && s.merged == {1, 2} && s.machines == map[0 := Idle, 1 := Idle]
    requires s.bucket == Bucket(Some(Snapshot(Truth(s.hist, {1, 2}), 2)), TakenLog(3))
    ensures Tracked(s) && Complete(s, COMPACT_AFTER)
  {
    hide Truth;
    assert UpTo(s.hist.Keys, 2) == {1, 2};
    assert Above(s.bucket.ops.Keys, 2) == Above(s.hist.Keys, 2);
  }

  /** The whole log comes to a document without the mark. */
  lemma TakenUnmarked(hist: map<nat, seq<Op>>)
    requires hist == TakenLog(1)
    ensures !Marked(Truth(hist, {1, 2})) && !Marked(Truth(hist, hist.Keys))
  {
    var one: set<nat>, two: set<nat>, rest := {1}, {2}, Names(3, 53);
    OneObject(hist, 1);
    OneObject(hist, 2);
    assert Quiet(hist, rest);
    assert hist.Keys == (one + two) + rest;
    assert one + two == {1, 2};
    ContentSplit(hist, one, two);
    ContentSplit(hist, one + two, rest);
    hide ApplyAll, Content, Last, TakenLog, Names, Marked, Quiet;
    ApplyAllConcat(EMPTY, MARK, TAKEN);
    OneOp(ApplyAll(EMPTY, MARK), TAKEN[0]);
    MarkedByOp(EMPTY);
    var d := Truth(hist, {1, 2});
    ApplyAllConcat(EMPTY, MARK + TAKEN, Content(hist, rest));
    QuietReplay(d, hist, rest);
    SameMark(d, Truth(hist, hist.Keys));
  }

  lemma SameMark(d: Doc, e: Doc)
    requires d.messages == e.messages
    ensures Marked(d) <==> Marked(e)
  {
  }

  lemma OneObject(log: map<nat, seq<Op>>, n: nat)
    requires n in log
    ensures Content(log, {n}) == log[n]
  {
    var one := {n};
    assert Last(one) == n;
    assert one - {n} == {};
    assert Content(log, {}) == [];
    assert Content(log, one) == Content(log, {}) + log[n];
  }

  /** Machine 0 has merged an old file into the snapshot, and listed what lies above it. */
  lemma OldFileRead(file: Doc) returns (t: Trail, s: System)
    requires Marked(file)
    ensures At(t, 0, s) && |t.events| == 2 && t.events[0] == ReadSnapshot(0, Some(file), true)
    ensures s.hist == TakenLog(1) && s.bucket.ops == TakenLog(3) && s.machines.Keys == {0, 1}
    ensures s.machines[0].Listed? && s.machines[0].upto == s.bucket.Upto() == 2 && s.machines[0].names == Names(3, 53)
    ensures Marked(s.machines[0].doc)
  {
    var t0, s0 := TakenBack();
    assert Names(3, 53) == Above(s0.bucket.ops.Keys, 2);
    assert s0.bucket.Upto() == 2;
    hide *;
    FileMarks(s0.bucket.snapshot.value, file);
    var t1, s1 := ReadStep(t0, 0, s0, 0, Some(file), true);
    t, s := ListStep(t1, 0, s1, 0, Names(3, 53));
  }

  lemma OldFilePut(file: Doc) returns (t: Trail, s: System, doc: Doc)
    requires Marked(file)
    ensures At(t, 0, s) && |t.events| == 4 && t.events[0] == ReadSnapshot(0, Some(file), true)
    ensures s.hist == TakenLog(1) && s.bucket == Bucket(Some(Snapshot(doc, 52)), TakenLog(3)) && Marked(doc)
  {
    var t2, s2 := OldFileRead(file);
    NamesCount(3, 53);
    assert IsMax(Names(3, 53), 52);
    var names := s2.machines[0].names * s2.bucket.ops.Keys - {};
    assert Quiet(s2.bucket.ops, names);
    hide At, Names, TakenLog, ApplyAll, Content, Last, Marked, IsMax, Quiet;
    var t3, s3 := FetchStep(t2, 0, s2, 0, {}, []);
    doc := s3.machines[0].doc;
    t, s := PutStep(t3, 0, s3, 0, 52);
    assert Content(s2.bucket.ops, names) + [] == Content(s2.bucket.ops, names);
    QuietReplay(Normalized(s2.machines[0].doc), s2.bucket.ops, names);
    SameMark(s2.machines[0].doc, doc);
  }

  /** A local file older than the snapshot: the entry that was dropped is merged back, and compaction keeps it. */
  lemma OldFileReturns() returns (t: Trail)
    ensures ShowsBy(t, 0, ReadSnapshot(0, Some(ApplyAll(EMPTY, MARK)), true))
  {
    MarkedByOp(EMPTY);
    var s, doc;
    t, s, doc := OldFilePut(ApplyAll(EMPTY, MARK));
    TakenUnmarked(s.hist);
    assert Quiet(s.bucket.ops, s.bucket.ops.Keys);
    hide ApplyAll, Content, Marked, Quiet, UsualBut, TakenLog;
    ShownAgain(s, doc, 52);
    UsualAt(t, 0, s);
  }

  lemma FileMarks(base: Snapshot, file: Doc)
    requires Marked(file)
    ensures Marked(BaseOf(Some(base), Some(file)))
  {
    hide MergedFolder;
  }

  // -- snapshots with pending ops --------------------------------------------------------------------

  /**
    A snapshot taken while ops were pending, which come again later as objects of their own: for
    ops that write constants the entries, tag sets, rules and filters are those of a clean replay.
    */
  lemma PendingInSnapshot(merged: seq<Op>, pending: seq<Op>, later: seq<Op>)
    requires AllConstant(later) && forall op :: op in pending ==> op in later
    ensures SameContent(ApplyAll(ApplyAll(EMPTY, merged + pending), later), ApplyAll(EMPTY, merged + later))
  {
    ApplyAllConcat(EMPTY, merged, pending);
    ApplyAllConcat(EMPTY, merged, later);
    hide ApplyAll, SameContent;
    Absorbed(ApplyAll(EMPTY, merged), pending, later);
  }

  /** A local file that already contains part of the log, on a machine that finds no snapshot. */
  lemma LogOverLocalFile(local: seq<Op>, log: seq<Op>)
    requires AllConstant(log) && forall op :: op in local ==> op in log
    ensures SameContent(ApplyAll(BaseOf(None, Some(ApplyAll(EMPTY, local))), log), ApplyAll(EMPTY, log))
  {
    hide ApplyAll, SameContent;
    Absorbed(EMPTY, local, log);
  }
}
