/**
  The replicated log: machines that share a bucket, each change an object of its own, read as
  a snapshot plus the newer ops in name order, now and then merged into a new snapshot.
  Names are numbers; 0 stands for the empty watermark.
  */
module StateLog {
  import opened Options
  import opened Document
  import opened Merging

  const COMPACT_AFTER := 50

  datatype Snapshot = Snapshot(doc: Doc, upto: nat)

  datatype Bucket = Bucket(snapshot: Option<Snapshot>, ops: map<nat, seq<Op>>) {
    function Upto(): nat {
      if snapshot.Some? then snapshot.value.upto else 0
    }

    /** The objects a load applies to the snapshot. */
    function Newer(): set<nat> {
      Above(ops.Keys, Upto())
    }

    /** What a reader without a local file starts from. */
    function Base(): Doc {
      if snapshot.Some? then snapshot.value.doc else EMPTY
    }
  }

  // -- ops in name order ------------------------------------------------------------------------

  ghost predicate IsMax(names: set<nat>, m: nat) {
    m in names && forall n :: n in names ==> n <= m
  }

  lemma {:induction false} MaxExists(names: set<nat>)
    requires names != {}
    ensures exists m: nat :: IsMax(names, m)
  {
    var n :| n in names;
    if names == {n} {
      assert IsMax(names, n);
    } else {
      MaxExists(names - {n});
      var rest: nat :| IsMax(names - {n}, rest);
      var m := if n > rest then n else rest;
      assert names == (names - {n}) + {n};
      assert IsMax(names, m);
    }
  }

  /** The last of the names, 0 if there are none. */
  ghost function Last(names: set<nat>): (m: nat)
    ensures names != {} ==> IsMax(names, m)
    ensures names == {} ==> m == 0
  {
    if names == {} then 0
    else
      MaxExists(names);
      var m: nat :| IsMax(names, m);
      m
  }

  /** The ops of the named objects, in name order. */
  ghost function Content(log: map<nat, seq<Op>>, names: set<nat>): seq<Op>
    decreases |names|
  {
    if names == {} then []
    else
      var m := Last(names);
      Content(log, names - {m}) + (if m in log then log[m] else [])
  }

  lemma {:induction false} ContentSplit(log: map<nat, seq<Op>>, low: set<nat>, high: set<nat>)
    requires forall a, b :: a in low && b in high ==> a < b
    ensures Content(log, low + high) == Content(log, low) + Content(log, high)
    decreases |high|
  {
    if high == {} {
      assert low + high == low;
    } else {
      var m := Last(high);
      assert IsMax(low + high, m);
      assert low + high - {m} == low + (high - {m});
      ContentSplit(log, low, high - {m});
    }
  }

  lemma {:induction false} ContentSame(log: map<nat, seq<Op>>, log': map<nat, seq<Op>>, names: set<nat>)
    requires forall n :: n in names ==> (n in log <==> n in log') && (n in log ==> log[n] == log'[n])
    ensures Content(log, names) == Content(log', names)
    decreases |names|
  {
    if names != {} {
      ContentSame(log, log', names - {Last(names)});
    }
  }

  /** The names above a watermark. */
  function Above(names: set<nat>, upto: nat): set<nat> {
    set n | n in names && n > upto
  }

  function UpTo(names: set<nat>, upto: nat): set<nat> {
    set n | n in names && n <= upto
  }

  // -- documents as their readers see them --------------------------------------------------------

  /** Every reader fills in missing fields first. */
  ghost predicate SameView(a: Doc, b: Doc) {
    Normalized(a) == Normalized(b)
  }

  lemma {:induction false} ViewReplayed(a: Doc, b: Doc, ops: seq<Op>)
    requires SameView(a, b)
    ensures SameView(ApplyAll(a, ops), ApplyAll(b, ops))
  {
    hide Step, Normalized;
    if ops != [] {
      ViewReplayed(a, b, ops[..|ops| - 1]);
    }
  }

  /** What everything that was ever written amounts to, in name order. */
  ghost function Truth(hist: map<nat, seq<Op>>, names: set<nat>): Doc {
    ApplyAll(EMPTY, Content(hist, names))
  }

  /** What a machine loads that has no local file and nothing pending. */
  ghost function FreshLoad(b: Bucket): Doc {
    ApplyAll(Normalized(b.Base()), Content(b.ops, Above(b.ops.Keys, b.Upto())))
  }

  // -- machines and events -----------------------------------------------------------------------

  /** Where a machine stands between the steps of Load and Compact; seen are the ops its document has in it. */
  datatype Phase =
    | Idle
    | Reading(doc: Doc, upto: nat, seen: set<nat>)
    | Listed(doc: Doc, upto: nat, seen: set<nat>, names: set<nat>)
    | Loaded(doc: Doc, upto: nat, seen: set<nat>, names: set<nat>)
    | Cleaning(names: set<nat>)

  /** The bucket, everything ever written to the log, the ops that went into the snapshot, and the machines. */
  datatype System = System(bucket: Bucket, hist: map<nat, seq<Op>>, merged: set<nat>, machines: map<nat, Phase>) {
    /** The ops a fresh load gets to see. */
    function Seen(): set<nat> {
      merged + Above(bucket.ops.Keys, bucket.Upto())
    }
  }

  datatype Event =
    | Write(name: nat, ops: seq<Op>)
    | ReadSnapshot(machine: nat, local: Option<Doc>, found: bool)
    | ListNames(machine: nat, answered: bool)
    | FetchOps(machine: nat, failed: set<nat>, pending: seq<Op>)
    | PutSnapshot(machine: nat)
    | DeleteOp(machine: nat, name: nat)
    | Stop(machine: nat)

  /** The base document of Load, from what could be read of snapshot and local file. */
  function BaseOf(snapshot: Option<Snapshot>, local: Option<Doc>): Doc {
    match snapshot
    case Some(s) => MergeMissing(s.doc, local)
    case None => if local.Some? then local.value else EMPTY
  }

  ghost predicate Enabled(s: System, e: Event) {
    match e
    case Write(name, ops) => name > 0 && name !in s.hist && ops != []
    case ReadSnapshot(m, _, _) => m in s.machines && s.machines[m].Idle?
    case ListNames(m, _) => m in s.machines && s.machines[m].Reading?
    case FetchOps(m, _, _) => m in s.machines && s.machines[m].Listed?
    case PutSnapshot(m) => m in s.machines && s.machines[m].Loaded? && |s.machines[m].names| >= COMPACT_AFTER
    case DeleteOp(m, n) => m in s.machines && s.machines[m].Cleaning? && n in s.machines[m].names
    case Stop(m) => m in s.machines
  }

  /** A listed op counts as merged even if its body could not be read, or is gone by now. */
  ghost function Do(s: System, e: Event): System
    requires Enabled(s, e)
  {
    match e
    case Write(name, ops) =>
      s.(bucket := s.bucket.(ops := s.bucket.ops[name := ops]), hist := s.hist[name := ops])
    case ReadSnapshot(m, local, found) =>
      var snapshot := if found then s.bucket.snapshot else None;
      var upto := if snapshot.Some? then snapshot.value.upto else 0;
      s.(machines := s.machines[m := Reading(BaseOf(snapshot, local), upto, if snapshot.Some? then s.merged else {})])
    case ListNames(m, answered) =>
      var p := s.machines[m];
      var names := if answered then Above(s.bucket.ops.Keys, p.upto) else {};
      s.(machines := s.machines[m := Listed(p.doc, p.upto, p.seen, names)])
    case FetchOps(m, failed, pending) =>
      var p := s.machines[m];
      var fetched := p.names * s.bucket.ops.Keys - failed;
      var doc := ApplyAll(Normalized(p.doc), Content(s.bucket.ops, fetched) + pending);
      s.(machines := s.machines[m := Loaded(doc, p.upto, p.seen + fetched, p.names)])
    case PutSnapshot(m) =>
      var p := s.machines[m];
      s.(bucket := s.bucket.(snapshot := Some(Snapshot(p.doc, Last(p.names)))), merged := p.seen,
         machines := s.machines[m := Cleaning(p.names)])
    case DeleteOp(m, n) =>
      s.(bucket := s.bucket.(ops := s.bucket.ops - {n}),
         machines := s.machines[m := Cleaning(s.machines[m].names - {n})])
    case Stop(m) => s.(machines := s.machines[m := Idle])
  }

  // -- what a document consists of -----------------------------------------------------------------

  /** No local file and no pending op adds anything. */
  ghost predicate Plain(s: System, e: Event) {
    match e
    case ReadSnapshot(_, local, found) =>
      var snapshot := if found then s.bucket.snapshot else None;
      SameView(BaseOf(snapshot, local), BaseOf(snapshot, None))
    case FetchOps(_, _, pending) => pending == []
    case _ => true
  }

  /** The document is the replay of these ops, all of them up to the watermark. */
  ghost predicate Replays(doc: Doc, hist: map<nat, seq<Op>>, names: set<nat>, upto: nat) {
    names <= hist.Keys && (forall n :: n in names ==> n <= upto) && SameView(doc, Truth(hist, names))
  }

  ghost predicate PhaseTracked(hist: map<nat, seq<Op>>, p: Phase) {
    match p
    case Reading(doc, upto, seen) => Replays(doc, hist, seen, upto)
    case Listed(doc, upto, seen, names) =>
      Replays(doc, hist, seen, upto) && names <= hist.Keys && forall n :: n in names ==> n > upto
    case Loaded(doc, upto, seen, names) =>
      Replays(doc, hist, seen, if names == {} then upto else Last(names))
      && names <= hist.Keys && forall n :: n in names ==> n > upto
    case _ => true
  }

  /** Every document, in the bucket and in the machines, is the replay of the ops it is said to have seen. */
  ghost predicate Tracked(s: System) {
    && (forall n :: n in s.bucket.ops ==> n in s.hist && s.bucket.ops[n] == s.hist[n])
    && (forall n :: n in s.hist ==> n > 0)
    && Replays(s.bucket.Base(), s.hist, s.merged, s.bucket.Upto())
    && forall m :: m in s.machines ==> PhaseTracked(s.hist, s.machines[m])
  }

  lemma NormalizedView(d: Doc)
    ensures SameView(Normalized(d), d)
  {
  }

  lemma LastIsMax(names: set<nat>)
    requires names != {}
    ensures Last(names) in names && forall n :: n in names ==> n <= Last(names)
  {
  }

  /** Replaying newer objects on a replay. */
  lemma ReplayMore(doc: Doc, log: map<nat, seq<Op>>, hist: map<nat, seq<Op>>, seen: set<nat>, upto: nat, more: set<nat>)
    requires Replays(doc, hist, seen, upto) && more <= log.Keys
    requires forall n :: n in log ==> n in hist && log[n] == hist[n]
    requires forall n :: n in more ==> n > upto
    ensures SameView(ApplyAll(Normalized(doc), Content(log, more)), Truth(hist, seen + more))
  {
    hide Normalized, ApplyAll, Content;
    ContentSame(log, hist, more);
    NormalizedView(doc);
    ViewReplayed(Normalized(doc), Truth(hist, seen), Content(hist, more));
    ContentSplit(hist, seen, more);
    ApplyAllConcat(EMPTY, Content(hist, seen), Content(hist, more));
  }

  /** What a fresh machine sees: the replay, in name order, of exactly the ops seen. */
  lemma FreshLoadSees(s: System)
    requires Tracked(s)
    ensures SameView(FreshLoad(s.bucket), Truth(s.hist, s.Seen()))
  {
    hide Normalized, ApplyAll, Content;
    ReplayMore(s.bucket.Base(), s.bucket.ops, s.hist, s.merged, s.bucket.Upto(),
               Above(s.bucket.ops.Keys, s.bucket.Upto()));
  }

  lemma ReplaysGrown(doc: Doc, hist: map<nat, seq<Op>>, hist': map<nat, seq<Op>>, names: set<nat>, upto: nat)
    requires Replays(doc, hist, names, upto) && forall n :: n in hist ==> n in hist' && hist'[n] == hist[n]
    ensures Replays(doc, hist', names, upto)
  {
    hide Normalized, ApplyAll, Content;
    ContentSame(hist, hist', names);
  }

  lemma WriteTracked(s: System, e: Event)
    requires Tracked(s) && Enabled(s, e) && e.Write?
    ensures Tracked(Do(s, e))
  {
    hide Replays, Last;
    var hist' := s.hist[e.name := e.ops];
    ReplaysGrown(s.bucket.Base(), s.hist, hist', s.merged, s.bucket.Upto());
    forall m | m in s.machines ensures PhaseTracked(hist', s.machines[m]) {
      PhaseGrown(s.hist, hist', s.machines[m]);
    }
  }

  lemma PhaseGrown(hist: map<nat, seq<Op>>, hist': map<nat, seq<Op>>, p: Phase)
    requires PhaseTracked(hist, p) && forall n :: n in hist ==> n in hist' && hist'[n] == hist[n]
    ensures PhaseTracked(hist', p)
  {
    hide Replays, Last;
    if p.Reading? || p.Listed? {
      ReplaysGrown(p.doc, hist, hist', p.seen, p.upto);
    } else if p.Loaded? {
      ReplaysGrown(p.doc, hist, hist', p.seen, if p.names == {} then p.upto else Last(p.names));
    }
  }

  lemma ReadTracked(s: System, e: Event)
    requires Tracked(s) && Enabled(s, e) && Plain(s, e) && e.ReadSnapshot?
    ensures Tracked(Do(s, e))
  {
    hide Normalized, ApplyOp, Merged, Last;
  }

  lemma FetchTracked(s: System, e: Event)
    requires Tracked(s) && Enabled(s, e) && Plain(s, e) && e.FetchOps?
    ensures Tracked(Do(s, e))
  {
    hide Normalized, ApplyAll, Content, Last;
    var p := s.machines[e.machine];
    var fetched := p.names * s.bucket.ops.Keys - e.failed;
    assert Content(s.bucket.ops, fetched) + e.pending == Content(s.bucket.ops, fetched);
    ReplayMore(p.doc, s.bucket.ops, s.hist, p.seen, p.upto, fetched);
    if p.names != {} {
      LastIsMax(p.names);
    }
  }

  lemma PutTracked(s: System, e: Event)
    requires Tracked(s) && Enabled(s, e) && e.PutSnapshot?
    ensures Tracked(Do(s, e))
  {
    hide Normalized, ApplyAll, Content, Last;
    assert s.machines[e.machine].names != {};
  }

  lemma OthersTracked(s: System, e: Event)
    requires Tracked(s) && Enabled(s, e) && (e.ListNames? || e.DeleteOp? || e.Stop?)
    ensures Tracked(Do(s, e))
  {
    hide Replays, Last;
  }

  lemma EventTracked(s: System, e: Event)
    requires Tracked(s) && Enabled(s, e) && Plain(s, e)
    ensures Tracked(Do(s, e))
  {
    hide Tracked, Plain, Content;
    match e
    case Write(_, _) => WriteTracked(s, e);
    case ReadSnapshot(_, _, _) => ReadTracked(s, e);
    case FetchOps(_, _, _) => FetchTracked(s, e);
    case PutSnapshot(_) => PutTracked(s, e);
    case _ => OthersTracked(s, e);
  }

  // -- what gets lost --------------------------------------------------------------------------------

  /** All ops that were ever written are seen by a fresh load. */
  ghost predicate SeesAll(s: System) {
    s.Seen() == s.hist.Keys
  }

  /** Names are of ops that were written, and what has been seen lies at or below the watermark it is seen with. */
  ghost predicate Booked(s: System) {
    && s.bucket.ops.Keys <= s.hist.Keys && s.merged <= s.hist.Keys
    && (forall n :: n in s.merged ==> n <= s.bucket.Upto())
    && forall m :: m in s.machines ==> PhaseBooked(s, s.machines[m])
  }

  ghost predicate PhaseBooked(s: System, p: Phase) {
    match p
    case Reading(_, upto, seen) => seen <= s.hist.Keys && forall n :: n in seen ==> n <= upto
    case Listed(_, upto, seen, names) =>
      seen <= s.hist.Keys && names <= s.hist.Keys && (forall n :: n in seen ==> n <= upto) && forall n :: n in names ==> n > upto
    case Loaded(_, upto, seen, names) =>
      seen <= s.hist.Keys && names <= s.hist.Keys && (forall n :: n in seen ==> n <= upto || n in names)
      && forall n :: n in names ==> n > upto
    case Cleaning(names) => names <= s.hist.Keys
    case Idle => true
  }

  lemma EventBooked(s: System, e: Event)
    requires Booked(s) && Enabled(s, e)
    ensures Booked(Do(s, e))
  {
    hide ApplyAll, Content, BaseOf, Last;
    var s' := Do(s, e);
    if e.PutSnapshot? {
      LastIsMax(s.machines[e.machine].names);
    }
    forall m | m in s'.machines ensures PhaseBooked(s', s'.machines[m]) {
      assert PhaseBooked(s, s.machines[m]);
    }
    if e.PutSnapshot? {
      assert PhaseBooked(s, s.machines[e.machine]);
    }
  }

  /**
    The events that lose nothing.  Reading, listing, fetching and dying never do, whatever fails.  A write has
    to be named above the watermark; a snapshot has to have every op at or below its watermark in it, and
    every other op still has to be an object; and only objects at or below the watermark may be deleted.
    */
  ghost predicate Lossless(s: System, e: Event) {
    match e
    case Write(name, _) => name > s.bucket.Upto()
    case PutSnapshot(m) =>
      m in s.machines && s.machines[m].Loaded? ==>
        forall n :: n in s.hist && n !in s.machines[m].seen ==>
          n in s.bucket.ops && forall k :: k in s.machines[m].names ==> k < n
    case DeleteOp(_, n) => n <= s.bucket.Upto()
    case _ => true
  }

  /** Event by event: everything is still seen if and only if the event is one of these. */
  lemma EventLossless(s: System, e: Event)
    requires Booked(s) && SeesAll(s) && Enabled(s, e)
    ensures SeesAll(Do(s, e)) <==> Lossless(s, e)
  {
    hide ApplyAll, Content, BaseOf, Last;
    var s' := Do(s, e);
    match e
    case Write(name, _) =>
      assert s'.Seen() == if name > s.bucket.Upto() then s.Seen() + {name} else s.Seen();
      assert name > s.bucket.Upto() ==> s'.Seen() == s'.hist.Keys;
      assert name !in s.Seen() && name in s'.hist;
    case PutSnapshot(m) => PutLossless(s, m);
    case DeleteOp(_, n) =>
      assert s'.Seen() == if n > s.bucket.Upto() then s.Seen() - {n} else s.Seen();
    case _ => assert s'.Seen() == s.Seen();
  }

  lemma PutLossless(s: System, m: nat)
    requires Booked(s) && SeesAll(s) && Enabled(s, PutSnapshot(m))
    ensures SeesAll(Do(s, PutSnapshot(m))) <==> Lossless(s, PutSnapshot(m))
  {
    hide ApplyAll, Content, BaseOf, Last;
    var p, s' := s.machines[m], Do(s, PutSnapshot(m));
    LastIsMax(p.names);
    assert PhaseBooked(s, p);
    assert s'.Seen() == p.seen + Above(s.bucket.ops.Keys, Last(p.names));
    forall n | n in s.hist && n !in p.seen
      ensures n in s'.Seen() <==> n in s.bucket.ops && forall k :: k in p.names ==> k < n
    {
    }
  }

  // -- what keeps the runs lossless -------------------------------------------------------------------

  /** The machine may go on to put a snapshot over the one there is, from at least so many names. */
  predicate Counts(p: Phase, upto: nat, least: nat) {
    (p.Listed? || p.Loaded?) && p.upto == upto && |p.names| >= least
  }

  /**
    What a bucket and its machines can see to.  A write is named above the watermark, and above the names of
    every machine that counts; such a machine can read all bodies; and a snapshot is only put over the one it
    was made from.
    */
  ghost predicate Orderly(s: System, e: Event, least: nat) {
    match e
    case Write(name, _) =>
      name > s.bucket.Upto()
      && forall m, n :: m in s.machines && Counts(s.machines[m], s.bucket.Upto(), least) && n in s.machines[m].names ==> n < name
    case FetchOps(m, failed, _) =>
      m in s.machines && Counts(s.machines[m], s.bucket.Upto(), least) ==>
        failed * s.machines[m].names * s.bucket.ops.Keys == {}
    case PutSnapshot(m) => m in s.machines && s.machines[m].Loaded? ==> s.machines[m].upto == s.bucket.Upto()
    case _ => true
  }

  /** The names are all there are, up to the last of them. */
  ghost predicate ListedAll(hist: map<nat, seq<Op>>, upto: nat, names: set<nat>) {
    && names <= Above(hist.Keys, upto)
    && forall n, k :: n in Above(hist.Keys, upto) && n !in names && k in names ==> k < n
  }

  /** A machine that counts has seen everything up to its names. */
  ghost predicate PhaseComplete(s: System, p: Phase, least: nat) {
    match p
    case Idle => true
    case Reading(_, upto, seen) => upto <= s.bucket.Upto() && (upto == s.bucket.Upto() ==> seen == s.merged)
    case Listed(_, upto, seen, names) =>
      upto <= s.bucket.Upto() && (Counts(p, s.bucket.Upto(), least) ==> seen == s.merged && ListedAll(s.hist, upto, names))
    case Loaded(_, upto, seen, names) =>
      upto <= s.bucket.Upto()
      && (Counts(p, s.bucket.Upto(), least) ==> seen == s.merged + names && ListedAll(s.hist, upto, names))
    case Cleaning(names) => forall n :: n in names ==> n <= s.bucket.Upto()
  }

  /** The snapshot has everything up to its watermark in it, and everything newer is still there. */
  ghost predicate Complete(s: System, least: nat) {
    && s.merged == UpTo(s.hist.Keys, s.bucket.Upto())
    && Above(s.bucket.ops.Keys, s.bucket.Upto()) == Above(s.hist.Keys, s.bucket.Upto())
    && s.bucket.ops.Keys <= s.hist.Keys && 0 !in s.hist
    && forall m :: m in s.machines ==> PhaseComplete(s, s.machines[m], least)
  }

  lemma CompleteSeesAll(s: System, least: nat)
    requires Complete(s, least)
    ensures SeesAll(s)
  {
  }

  lemma WriteComplete(s: System, e: Event, least: nat)
    requires Complete(s, least) && Enabled(s, e) && Orderly(s, e, least) && e.Write?
    ensures Complete(Do(s, e), least)
  {
    var s', upto := Do(s, e), s.bucket.Upto();
    assert e.name > upto;
    assert UpTo(s'.hist.Keys, upto) == UpTo(s.hist.Keys, upto);
    assert Above(s'.hist.Keys, upto) == Above(s.hist.Keys, upto) + {e.name};
    assert Above(s'.bucket.ops.Keys, upto) == Above(s.bucket.ops.Keys, upto) + {e.name};
    forall m | m in s.machines ensures PhaseComplete(s', s'.machines[m], least) {
      assert PhaseComplete(s, s.machines[m], least);
    }
  }

  /** The machines an event does not touch. */
  lemma SameMachines(s: System, s': System, m: nat, least: nat)
    requires Complete(s, least) && s'.bucket == s.bucket && s'.hist == s.hist && s'.merged == s.merged
    requires s'.machines.Keys == s.machines.Keys
    requires forall k :: k in s.machines && k != m ==> s'.machines[k] == s.machines[k]
    ensures forall k :: k in s.machines && k != m ==> PhaseComplete(s', s'.machines[k], least)
  {
    forall k | k in s.machines && k != m ensures PhaseComplete(s', s'.machines[k], least) {
      assert PhaseComplete(s, s.machines[k], least);
    }
  }

  lemma ListComplete(s: System, e: Event, least: nat)
    requires Complete(s, least) && Enabled(s, e) && Orderly(s, e, least) && e.ListNames?
    ensures Complete(Do(s, e), least)
  {
    SameMachines(s, Do(s, e), e.machine, least);
    assert PhaseComplete(s, s.machines[e.machine], least);
  }

  lemma ReadComplete(s: System, e: Event, least: nat)
    requires Complete(s, least) && Enabled(s, e) && Orderly(s, e, least) && e.ReadSnapshot?
    ensures Complete(Do(s, e), least)
  {
    hide BaseOf;
    SameMachines(s, Do(s, e), e.machine, least);
    assert s.bucket.snapshot.None? ==> s.merged == {};
  }

  lemma FetchComplete(s: System, e: Event, least: nat)
    requires Complete(s, least) && Enabled(s, e) && Orderly(s, e, least) && e.FetchOps?
    ensures Complete(Do(s, e), least)
  {
    hide ApplyAll, Content;
    var p := s.machines[e.machine];
    SameMachines(s, Do(s, e), e.machine, least);
    assert PhaseComplete(s, p, least);
    if Counts(p, s.bucket.Upto(), least) {
      assert p.names <= Above(s.bucket.ops.Keys, p.upto);
      assert forall n :: n in p.names && n in e.failed ==> n in e.failed * p.names * s.bucket.ops.Keys;
      assert p.names * s.bucket.ops.Keys - e.failed == p.names;
    }
  }

  lemma HigherMark(some: set<nat>, all: set<nat>, low: nat, high: nat)
    requires Above(some, low) == Above(all, low) && low <= high
    ensures Above(some, high) == Above(all, high)
  {
    forall n | n in some + all && n > high ensures n in some <==> n in all {
      assert n in Above(some, low) <==> n in Above(all, low);
    }
  }

  lemma MergedPrefix(all: set<nat>, low: nat, names: set<nat>, w: nat)
    requires names <= Above(all, low) && w in names && forall n :: n in names ==> n <= w
    requires forall n, k :: n in Above(all, low) && n !in names && k in names ==> k < n
    ensures UpTo(all, low) + names == UpTo(all, w)
  {
    forall n | n in all && low < n <= w ensures n in names {
      assert n in Above(all, low);
    }
    assert forall n :: n in names ==> n in Above(all, low);
  }

  lemma PutComplete(s: System, e: Event, least: nat)
    requires least <= COMPACT_AFTER && Complete(s, least) && Enabled(s, e) && Orderly(s, e, least) && e.PutSnapshot?
    ensures Complete(Do(s, e), least)
  {
    hide Last;
    var p, s' := s.machines[e.machine], Do(s, e);
    LastIsMax(p.names);
    var w := Last(p.names);
    assert PhaseComplete(s, p, least);
    MergedPrefix(s.hist.Keys, s.bucket.Upto(), p.names, w);
    HigherMark(s.bucket.ops.Keys, s.hist.Keys, s.bucket.Upto(), w);
    forall m | m in s.machines ensures PhaseComplete(s', s'.machines[m], least) {
      assert PhaseComplete(s, s.machines[m], least);
    }
  }

  lemma DeleteComplete(s: System, e: Event, least: nat)
    requires Complete(s, least) && Enabled(s, e) && e.DeleteOp?
    ensures Complete(Do(s, e), least)
  {
  }

  lemma StopComplete(s: System, e: Event, least: nat)
    requires Complete(s, least) && Enabled(s, e) && e.Stop?
    ensures Complete(Do(s, e), least)
  {
  }

  lemma EventComplete(s: System, e: Event, least: nat)
    requires least <= COMPACT_AFTER && Complete(s, least) && Enabled(s, e) && Orderly(s, e, least)
    ensures Complete(Do(s, e), least)
  {
    hide Complete, Orderly, BaseOf, Content;
    match e
    case Write(_, _) => WriteComplete(s, e, least);
    case ReadSnapshot(_, _, _) => ReadComplete(s, e, least);
    case ListNames(_, _) => ListComplete(s, e, least);
    case FetchOps(_, _, _) => FetchComplete(s, e, least);
    case PutSnapshot(_) => PutComplete(s, e, least);
    case DeleteOp(_, _) => DeleteComplete(s, e, least);
    case Stop(_) => StopComplete(s, e, least);
  }

  // -- runs ----------------------------------------------------------------------------------------

  /** States and the events between them. */
  ghost predicate Run(states: seq<System>, events: seq<Event>) {
    && |states| == |events| + 1
    && forall i :: 0 <= i < |events| ==> Follows(states[i], events[i], states[i + 1])
  }

  ghost predicate Follows(s: System, e: Event, s': System) {
    Enabled(s, e) && s' == Do(s, e)
  }

  ghost predicate PlainRun(states: seq<System>, events: seq<Event>) {
    Run(states, events) && forall i :: 0 <= i < |events| ==> Plain(states[i], events[i])
  }

  ghost predicate LosslessRun(states: seq<System>, events: seq<Event>) {
    Run(states, events) && forall i :: 0 <= i < |events| ==> Lossless(states[i], events[i])
  }

  ghost predicate OrderlyRun(states: seq<System>, events: seq<Event>, least: nat) {
    Run(states, events) && forall i :: 0 <= i < |events| ==> Orderly(states[i], events[i], least)
  }

  ghost predicate Initial(s: System) {
    s.bucket == Bucket(None, map[]) && s.hist == map[] && s.merged == {}
    && forall m :: m in s.machines ==> s.machines[m].Idle?
  }

  lemma InitialTracked(s: System)
    requires Initial(s)
    ensures Tracked(s) && Booked(s) && SeesAll(s) && forall least :: Complete(s, least)
  {
  }

  lemma {:induction false} RunTracked(states: seq<System>, events: seq<Event>, k: nat)
    requires PlainRun(states, events) && Tracked(states[0]) && k <= |events|
    ensures Tracked(states[k])
  {
    hide Tracked, Enabled, Plain;
    if k > 0 {
      RunTracked(states, events, k - 1);
      assert Follows(states[k - 1], events[k - 1], states[k - 1 + 1]);
      EventTracked(states[k - 1], events[k - 1]);
    }
  }

  lemma {:induction false} RunBooked(states: seq<System>, events: seq<Event>, k: nat)
    requires Run(states, events) && Booked(states[0]) && k <= |events|
    ensures Booked(states[k])
  {
    hide Booked, Enabled;
    if k > 0 {
      RunBooked(states, events, k - 1);
      assert Follows(states[k - 1], events[k - 1], states[k - 1 + 1]);
      EventBooked(states[k - 1], events[k - 1]);
    }
  }

  /** Over whole runs: every op was seen at all times up to some point if and only if all events up to there lose nothing. */
  lemma {:induction false} RunSeesAllWhen(states: seq<System>, events: seq<Event>, k: nat)
    requires Run(states, events) && Initial(states[0]) && k <= |events|
    ensures (forall i :: 0 <= i <= k ==> SeesAll(states[i])) <==> (forall i :: 0 <= i < k ==> Lossless(states[i], events[i]))
  {
    InitialTracked(states[0]);
    if k > 0 {
      hide *;
      RunSeesAllWhen(states, events, k - 1);
      if SeesAll(states[k - 1]) {
        RunStep(states, events, k - 1);
      }
    }
  }

  lemma RunStep(states: seq<System>, events: seq<Event>, k: nat)
    requires Run(states, events) && Booked(states[0]) && k < |events| && SeesAll(states[k])
    ensures SeesAll(states[k + 1]) <==> Lossless(states[k], events[k])
  {
    RunBooked(states, events, k);
    hide Booked, SeesAll, Enabled, Lossless;
    assert Follows(states[k], events[k], states[k + 1]);
    EventLossless(states[k], events[k]);
  }

  lemma {:induction false} RunComplete(states: seq<System>, events: seq<Event>, k: nat, least: nat)
    requires least <= COMPACT_AFTER && OrderlyRun(states, events, least) && Complete(states[0], least) && k <= |events|
    ensures Complete(states[k], least)
  {
    hide Complete, Enabled, Plain, Orderly;
    if k > 0 {
      RunComplete(states, events, k - 1, least);
      assert Follows(states[k - 1], events[k - 1], states[k - 1 + 1]);
      EventComplete(states[k - 1], events[k - 1], least);
    }
  }

  /** What the machines can see to is enough. */
  lemma OrderlyIsLossless(states: seq<System>, events: seq<Event>, least: nat)
    requires least <= COMPACT_AFTER && OrderlyRun(states, events, least) && Initial(states[0])
    ensures LosslessRun(states, events)
  {
    InitialTracked(states[0]);
    hide Initial, Complete, SeesAll, Lossless, Orderly, Follows;
    forall i | 0 <= i <= |events| ensures SeesAll(states[i]) {
      RunComplete(states, events, i, least);
      CompleteSeesAll(states[i], least);
    }
    RunSeesAllWhen(states, events, |events|);
  }

  /**
    In every run in which local files and pending ops add nothing, whatever fails and however the machines
    interleave, a fresh load is the replay in name order of exactly the ops that went into the snapshot or
    lie above its watermark.
    */
  lemma EveryFreshLoad(states: seq<System>, events: seq<Event>, k: nat)
    requires PlainRun(states, events) && Initial(states[0]) && k <= |events|
    ensures SameView(FreshLoad(states[k].bucket), Truth(states[k].hist, states[k].Seen()))
  {
    InitialTracked(states[0]);
    RunTracked(states, events, k);
    FreshLoadSees(states[k]);
  }

  /** And in a run that loses nothing these are all the ops that were ever written: compaction and cleaning never show. */
  lemma EveryLosslessLoad(states: seq<System>, events: seq<Event>, k: nat)
    requires LosslessRun(states, events) && PlainRun(states, events) && Initial(states[0]) && k <= |events|
    ensures SameView(FreshLoad(states[k].bucket), Truth(states[k].hist, states[k].hist.Keys))
  {
    hide Initial, Lossless, Plain, Follows;
    RunSeesAllWhen(states, events, k);
    assert SeesAll(states[k]);
    EveryFreshLoad(states, events, k);
  }

  /** A machine that counts, once it has loaded, has everything up to the newest op it listed. */
  lemma EveryLoadedMachine(states: seq<System>, events: seq<Event>, least: nat, k: nat, m: nat)
    requires least <= COMPACT_AFTER && OrderlyRun(states, events, least) && PlainRun(states, events) && Initial(states[0])
    requires k <= |events| && m in states[k].machines && states[k].machines[m].Loaded?
    requires Counts(states[k].machines[m], states[k].bucket.Upto(), least)
    ensures var p, hist := states[k].machines[m], states[k].hist;
      SameView(p.doc, Truth(hist, UpTo(hist.Keys, if p.names == {} then p.upto else Last(p.names))))
  {
    InitialTracked(states[0]);
    RunTracked(states, events, k);
    RunComplete(states, events, k, least);
    var s, p := states[k], states[k].machines[m];
    hide SameView, Truth, Last;
    assert PhaseTracked(s.hist, p) && PhaseComplete(s, p, least);
    if p.names != {} {
      LastIsMax(p.names);
    }
    assert p.seen == UpTo(s.hist.Keys, if p.names == {} then p.upto else Last(p.names));
  }

  // -- compaction -----------------------------------------------------------------------------------

  /**
    Compaction with any of its deletes: what is seen afterwards is what the machine had seen, and
    everything above the new watermark.  So no op is lost exactly when the machine had seen every op
    at or below the new watermark, and every op above it is still an object of its own.
    */
  lemma CompactionSees(s: System, m: nat, deleted: set<nat>)
    requires Tracked(s) && Enabled(s, PutSnapshot(m)) && deleted <= s.machines[m].names
    ensures var p, after := s.machines[m], Do(s, PutSnapshot(m));
      var cleaned := after.(bucket := after.bucket.(ops := after.bucket.ops - deleted));
      && Tracked(cleaned)
      && cleaned.Seen() == p.seen + Above(s.bucket.ops.Keys, Last(p.names))
      && (s.Seen() <= cleaned.Seen() <==>
            forall n :: n in s.Seen() ==> if n <= Last(p.names) then n in p.seen else n in s.bucket.ops)
  {
    PutTracked(s, PutSnapshot(m));
    LastIsMax(s.machines[m].names);
    var p, after := s.machines[m], Do(s, PutSnapshot(m));
    assert forall n :: n in p.seen ==> n <= Last(p.names) by {
      assert PhaseTracked(s.hist, p);
    }
    hide Last, Replays;
    var cleaned := after.(bucket := after.bucket.(ops := after.bucket.ops - deleted));
    assert cleaned.Seen() == p.seen + Above(s.bucket.ops.Keys, Last(p.names));
  }

  /** Compaction, whichever deletes fail, changes no fresh load if no op is lost by it and none was unseen before. */
  lemma CompactionIsInvisible(s: System, m: nat, deleted: set<nat>)
    requires Tracked(s) && Enabled(s, PutSnapshot(m)) && deleted <= s.machines[m].names
    requires s.machines[m].seen + Above(s.bucket.ops.Keys, Last(s.machines[m].names)) == s.Seen()
    ensures var after := Do(s, PutSnapshot(m)).bucket;
      SameView(FreshLoad(after.(ops := after.ops - deleted)), FreshLoad(s.bucket))
  {
    CompactionSees(s, m, deleted);
    FreshLoadSees(s);
    hide Last, Tracked, FreshLoad, SameView, Truth;
    var after := Do(s, PutSnapshot(m));
    var cleaned := after.(bucket := after.bucket.(ops := after.bucket.ops - deleted));
    FreshLoadSees(cleaned);
    ViewTransitive(FreshLoad(cleaned.bucket), FreshLoad(s.bucket), Truth(s.hist, s.Seen()));
  }

  /** So it is with every put that loses nothing, in a system in which all is seen. */
  lemma LosslessCompactionSees(s: System, m: nat)
    requires Booked(s) && SeesAll(s) && Enabled(s, PutSnapshot(m)) && Lossless(s, PutSnapshot(m))
    ensures s.machines[m].seen + Above(s.bucket.ops.Keys, Last(s.machines[m].names)) == s.Seen()
  {
    EventLossless(s, PutSnapshot(m));
    hide Last;
  }

  lemma ViewTransitive(a: Doc, b: Doc, c: Doc)
    requires SameView(a, c) && SameView(b, c)
    ensures SameView(a, b)
  {
  }
}
