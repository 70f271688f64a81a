/**
  The log with local files and pending ops allowed, for all ops but real renames: a rekey or tagren to
  the same name is among them, one to another name is not.  Next to every document goes a list of the ops
  it may show ahead of their time: what its file knew more than the snapshot, and what was pending when it
  was loaded.  An op leaves the list when it is read from the log.
  */
module LogContent {
  import opened Options
  import opened Document
  import opened Merging
  import opened Absorption
  import opened Parts
  import opened StateLog

  datatype Ahead = Ahead(snapshot: seq<Op>, machines: map<nat, seq<Op>>)

  function AheadOf(a: Ahead, m: nat): seq<Op> {
    if m in a.machines then a.machines[m] else []
  }

  /** The ops that are not among those read. */
  function NotIn(ops: seq<Op>, done: seq<Op>): (rest: seq<Op>)
    ensures forall op :: op in rest <==> op in ops && op !in done
  {
    if ops == [] then []
    else
      var last := ops[|ops| - 1];
      var rest := NotIn(ops[..|ops| - 1], done);
      assert ops == ops[..|ops| - 1] + [last];
      if last in done then rest else rest + [last]
  }

  lemma {:induction false} NothingLeft(ops: seq<Op>, done: seq<Op>)
    requires forall op :: op in ops ==> op in done
    ensures NotIn(ops, done) == []
  {
    if ops != [] {
      NothingLeft(ops[..|ops| - 1], done);
    }
  }

  ghost function Fetched(s: System, m: nat, failed: set<nat>): set<nat>
    requires m in s.machines && s.machines[m].Listed?
  {
    s.machines[m].names * s.bucket.ops.Keys - failed
  }

  /** The lists after an event; file is what a local file knows more than the snapshot. */
  ghost function Next(a: Ahead, s: System, e: Event, file: seq<Op>): Ahead
    requires Enabled(s, e)
  {
    match e
    case ReadSnapshot(m, _, found) =>
      a.(machines := a.machines[m := (if found && s.bucket.snapshot.Some? then a.snapshot else []) + file])
    case FetchOps(m, failed, pending) =>
      a.(machines := a.machines[m := NotIn(AheadOf(a, m), Content(s.bucket.ops, Fetched(s, m, failed))) + pending])
    case PutSnapshot(m) => a.(snapshot := AheadOf(a, m))
    case _ => a
  }

  /** The file differs from the snapshot only in what these ops write. */
  ghost predicate Explains(s: System, e: Event, file: seq<Op>) {
    e.ReadSnapshot? ==>
      var snapshot := if e.found then s.bucket.snapshot else None;
      Like(BaseOf(snapshot, e.local), BaseOf(snapshot, None), file)
  }

  ghost predicate ConstantEvent(e: Event) {
    match e
    case Write(_, ops) => AllConstant(ops)
    case FetchOps(_, _, pending) => AllConstant(pending)
    case _ => true
  }

  // -- what a document shows ------------------------------------------------------------------------

  /** The document has the content of a replay, apart from what the ops ahead write. */
  ghost predicate Shows(doc: Doc, hist: map<nat, seq<Op>>, names: set<nat>, upto: nat, ahead: seq<Op>) {
    names <= hist.Keys && (forall n :: n in names ==> n <= upto) && Like(doc, Truth(hist, names), ahead)
  }

  ghost predicate PhaseShows(hist: map<nat, seq<Op>>, p: Phase, ahead: seq<Op>) {
    match p
    case Reading(doc, upto, seen) => Shows(doc, hist, seen, upto, ahead)
    case Listed(doc, upto, seen, names) =>
      Shows(doc, hist, seen, upto, ahead) && names <= hist.Keys && forall n :: n in names ==> n > upto
    case Loaded(doc, upto, seen, names) =>
      Shows(doc, hist, seen, if names == {} then upto else Last(names), ahead)
      && names <= hist.Keys && forall n :: n in names ==> n > upto
    case _ => true
  }

  ghost predicate Followed(s: System, a: Ahead) {
    && (forall n :: n in s.bucket.ops ==> n in s.hist && s.bucket.ops[n] == s.hist[n])
    && (forall n :: n in s.hist ==> n > 0 && AllConstant(s.hist[n]))
    && Shows(s.bucket.Base(), s.hist, s.merged, s.bucket.Upto(), a.snapshot)
    && forall m :: m in s.machines ==> PhaseShows(s.hist, s.machines[m], AheadOf(a, m))
  }

  lemma {:induction false} ConstantContent(log: map<nat, seq<Op>>, names: set<nat>)
    requires forall n :: n in log ==> AllConstant(log[n])
    ensures AllConstant(Content(log, names))
    decreases |names|
  {
    hide Constant;
    if names != {} {
      ConstantContent(log, names - {Last(names)});
    }
  }

  /** Reading newer objects: what was ahead and is among them is so no longer. */
  lemma ShowMore(doc: Doc, log: map<nat, seq<Op>>, hist: map<nat, seq<Op>>, seen: set<nat>, upto: nat, ahead: seq<Op>,
                 more: set<nat>)
    requires Shows(doc, hist, seen, upto, ahead) && more <= log.Keys
    requires forall n :: n in log ==> n in hist && log[n] == hist[n] && AllConstant(log[n])
    requires forall n :: n in more ==> n > upto
    ensures Like(ApplyAll(Normalized(doc), Content(log, more)), Truth(hist, seen + more), NotIn(ahead, Content(log, more)))
  {
    hide Normalized, ApplyAll, Content, Like, NotIn;
    ConstantContent(log, more);
    ContentSame(log, hist, more);
    ContentSplit(hist, seen, more);
    ApplyAllConcat(EMPTY, Content(hist, seen), Content(hist, more));
    LikeNormalized(doc, Truth(hist, seen), ahead);
    LikeReplayed(Normalized(doc), Truth(hist, seen), ahead, Content(log, more), NotIn(ahead, Content(log, more)));
  }

  /** A fresh load shows the ops seen, and what the snapshot has ahead of the newer objects. */
  lemma FreshLoadShows(s: System, a: Ahead)
    requires Followed(s, a)
    ensures Like(FreshLoad(s.bucket), Truth(s.hist, s.Seen()), NotIn(a.snapshot, Content(s.bucket.ops, s.bucket.Newer())))
  {
    hide Normalized, ApplyAll, Content, Like, NotIn;
    ShowMore(s.bucket.Base(), s.bucket.ops, s.hist, s.merged, s.bucket.Upto(), a.snapshot, s.bucket.Newer());
  }

  // -- every event ----------------------------------------------------------------------------------

  lemma ShowsGrown(doc: Doc, hist: map<nat, seq<Op>>, hist': map<nat, seq<Op>>, names: set<nat>, upto: nat, ahead: seq<Op>)
    requires Shows(doc, hist, names, upto, ahead) && forall n :: n in hist ==> n in hist' && hist'[n] == hist[n]
    ensures Shows(doc, hist', names, upto, ahead)
  {
    hide ApplyAll, Content, Like;
    ContentSame(hist, hist', names);
  }

  lemma PhaseGrowth(hist: map<nat, seq<Op>>, hist': map<nat, seq<Op>>, p: Phase, ahead: seq<Op>)
    requires PhaseShows(hist, p, ahead) && forall n :: n in hist ==> n in hist' && hist'[n] == hist[n]
    ensures PhaseShows(hist', p, ahead)
  {
    hide Shows, Last;
    if p.Reading? || p.Listed? {
      ShowsGrown(p.doc, hist, hist', p.seen, p.upto, ahead);
    } else if p.Loaded? {
      ShowsGrown(p.doc, hist, hist', p.seen, if p.names == {} then p.upto else Last(p.names), ahead);
    }
  }

  lemma WriteFollowed(s: System, a: Ahead, e: Event)
    requires Followed(s, a) && Enabled(s, e) && ConstantEvent(e) && e.Write?
    ensures Followed(Do(s, e), a)
  {
    hide Shows, Last, AllConstant;
    var hist' := s.hist[e.name := e.ops];
    ShowsGrown(s.bucket.Base(), s.hist, hist', s.merged, s.bucket.Upto(), a.snapshot);
    forall m | m in s.machines ensures PhaseShows(hist', s.machines[m], AheadOf(a, m)) {
      PhaseGrowth(s.hist, hist', s.machines[m], AheadOf(a, m));
    }
  }

  lemma ReadShows(s: System, a: Ahead, e: Event, file: seq<Op>)
    requires Followed(s, a) && Enabled(s, e) && e.ReadSnapshot? && Explains(s, e, file)
    ensures PhaseShows(s.hist, Do(s, e).machines[e.machine], AheadOf(Next(a, s, e, file), e.machine))
  {
    var snapshot := if e.found then s.bucket.snapshot else None;
    var known := if snapshot.Some? then a.snapshot else [];
    var base := BaseOf(snapshot, None);
    var seen := if snapshot.Some? then s.merged else {};
    assert base == (if snapshot.Some? then s.bucket.Base() else EMPTY);
    assert Truth(s.hist, {}) == EMPTY;
    assert Like(base, Truth(s.hist, seen), known);
    hide At, Touches, BaseOf, ApplyAll, Content;
    LikeMore(base, Truth(s.hist, seen), known, known + file);
    LikeMore(BaseOf(snapshot, e.local), base, file, known + file);
    LikeChain(BaseOf(snapshot, e.local), base, Truth(s.hist, seen), known + file);
  }

  /** The pending ops on top of what was read. */
  lemma ShowPending(doc: Doc, log: map<nat, seq<Op>>, hist: map<nat, seq<Op>>, seen: set<nat>, upto: nat,
                    ahead: seq<Op>, more: set<nat>, pending: seq<Op>)
    requires Shows(doc, hist, seen, upto, ahead) && more <= log.Keys && AllConstant(pending)
    requires forall n :: n in log ==> n in hist && log[n] == hist[n] && AllConstant(log[n])
    requires forall n :: n in more ==> n > upto
    ensures Like(ApplyAll(Normalized(doc), Content(log, more) + pending), Truth(hist, seen + more),
                 NotIn(ahead, Content(log, more)) + pending)
  {
    ShowMore(doc, log, hist, seen, upto, ahead, more);
    hide *;
    var c := Content(log, more);
    var read, rest := ApplyAll(Normalized(doc), c), NotIn(ahead, c);
    ApplyAllConcat(Normalized(doc), c, pending);
    LikeEarly(read, pending);
    LikeMore(ApplyAll(read, pending), read, pending, rest + pending);
    LikeMore(read, Truth(hist, seen + more), rest, rest + pending);
    LikeChain(ApplyAll(read, pending), read, Truth(hist, seen + more), rest + pending);
  }

  lemma ListedShows(hist: map<nat, seq<Op>>, log: map<nat, seq<Op>>, p: Phase, ahead: seq<Op>, fetched: set<nat>,
                    pending: seq<Op>)
    requires p.Listed? && PhaseShows(hist, p, ahead) && fetched <= p.names * log.Keys && AllConstant(pending)
    requires forall n :: n in log ==> n in hist && log[n] == hist[n] && AllConstant(log[n])
    ensures PhaseShows(hist,
                       Loaded(ApplyAll(Normalized(p.doc), Content(log, fetched) + pending), p.upto, p.seen + fetched, p.names),
                       NotIn(ahead, Content(log, fetched)) + pending)
  {
    if p.names != {} {
      LastIsMax(p.names);
    }
    hide Normalized, ApplyAll, Content, Last, Like, NotIn, AllConstant, Truth;
    ShowPending(p.doc, log, hist, p.seen, p.upto, ahead, fetched, pending);
  }

  lemma FetchShows(s: System, a: Ahead, e: Event)
    requires Followed(s, a) && Enabled(s, e) && ConstantEvent(e) && e.FetchOps?
    ensures PhaseShows(s.hist, Do(s, e).machines[e.machine], AheadOf(Next(a, s, e, []), e.machine))
  {
    hide PhaseShows, Shows, Normalized, ApplyAll, Content, NotIn, AllConstant;
    var m := e.machine;
    ListedShows(s.hist, s.bucket.ops, s.machines[m], AheadOf(a, m), Fetched(s, m, e.failed), e.pending);
  }

  /** The machines an event does not touch. */
  lemma OneMachine(s: System, a: Ahead, s': System, a': Ahead, m: nat)
    requires Followed(s, a) && s'.bucket == s.bucket && s'.hist == s.hist && s'.merged == s.merged
    requires a'.snapshot == a.snapshot && s'.machines.Keys == s.machines.Keys
    requires forall k :: k in s.machines && k != m ==> s'.machines[k] == s.machines[k] && AheadOf(a', k) == AheadOf(a, k)
    requires m in s'.machines ==> PhaseShows(s.hist, s'.machines[m], AheadOf(a', m))
    ensures Followed(s', a')
  {
    hide PhaseShows, Shows, AllConstant, AheadOf;
  }

  lemma PutFollowed(s: System, a: Ahead, e: Event)
    requires Followed(s, a) && Enabled(s, e) && e.PutSnapshot?
    ensures Followed(Do(s, e), Next(a, s, e, []))
  {
    hide Normalized, ApplyAll, Content, Last, Like, AllConstant;
    assert s.machines[e.machine].names != {};
    assert PhaseShows(s.hist, s.machines[e.machine], AheadOf(a, e.machine));
  }

  lemma OthersFollowed(s: System, a: Ahead, e: Event)
    requires Followed(s, a) && Enabled(s, e) && (e.ListNames? || e.DeleteOp? || e.Stop?)
    ensures Followed(Do(s, e), a)
  {
    hide Shows, Last, AllConstant;
  }

  lemma EventFollowed(s: System, a: Ahead, e: Event, file: seq<Op>)
    requires Followed(s, a) && Enabled(s, e) && ConstantEvent(e) && Explains(s, e, file)
    ensures Followed(Do(s, e), Next(a, s, e, file))
  {
    hide Followed, Explains, ConstantEvent, Content, PhaseShows, BaseOf;
    match e
    case Write(_, _) => WriteFollowed(s, a, e);
    case ReadSnapshot(m, _, _) =>
      ReadShows(s, a, e, file);
      OneMachine(s, a, Do(s, e), Next(a, s, e, file), m);
    case FetchOps(m, _, _) =>
      FetchShows(s, a, e);
      OneMachine(s, a, Do(s, e), Next(a, s, e, file), m);
    case PutSnapshot(_) => PutFollowed(s, a, e);
    case _ => OthersFollowed(s, a, e);
  }

  // -- runs -----------------------------------------------------------------------------------------

  /** A run with the lists of what is ahead, and what each local file knows more than the snapshot. */
  ghost predicate ContentRun(states: seq<System>, events: seq<Event>, aheads: seq<Ahead>, files: seq<seq<Op>>) {
    && Run(states, events) && |aheads| == |states| && |files| == |events| && aheads[0] == Ahead([], map[])
    && forall i :: 0 <= i < |events| ==> Advances(states[i], aheads[i], events[i], files[i], aheads[i + 1])
  }

  ghost predicate Advances(s: System, a: Ahead, e: Event, file: seq<Op>, a': Ahead) {
    ConstantEvent(e) && Explains(s, e, file) && Enabled(s, e) && a' == Next(a, s, e, file)
  }

  lemma {:induction false} RunFollowed(states: seq<System>, events: seq<Event>, aheads: seq<Ahead>, files: seq<seq<Op>>,
                                       k: nat)
    requires ContentRun(states, events, aheads, files) && Initial(states[0]) && k <= |events|
    ensures Followed(states[k], aheads[k])
  {
    if k == 0 {
      EmptyFollowed(states[0]);
    } else {
      RunFollowed(states, events, aheads, files, k - 1);
      hide Followed, Enabled, Explains, ConstantEvent, Initial;
      assert Follows(states[k - 1], events[k - 1], states[k - 1 + 1]);
      assert Advances(states[k - 1], aheads[k - 1], events[k - 1], files[k - 1], aheads[k - 1 + 1]);
      EventFollowed(states[k - 1], aheads[k - 1], events[k - 1], files[k - 1]);
    }
  }

  lemma EmptyFollowed(s: System)
    requires Initial(s)
    ensures Followed(s, Ahead([], map[]))
  {
    assert Truth(s.hist, {}) == EMPTY;
    hide At, Touches;
  }

  /**
    In every run, with any local files and pending ops, whatever fails and however the machines interleave: a
    fresh load has the content of the replay of the ops seen, apart from what the snapshot has ahead and no
    newer object repeats.
    */
  lemma EveryFreshContent(states: seq<System>, events: seq<Event>, aheads: seq<Ahead>, files: seq<seq<Op>>, k: nat)
    requires ContentRun(states, events, aheads, files) && Initial(states[0]) && k <= |events|
    ensures var s := states[k];
      Like(FreshLoad(s.bucket), Truth(s.hist, s.Seen()), NotIn(aheads[k].snapshot, Content(s.bucket.ops, s.bucket.Newer())))
  {
    RunFollowed(states, events, aheads, files, k);
    FreshLoadShows(states[k], aheads[k]);
  }

  /** In a run that loses nothing it has the content of everything written, once all that was shown ahead is written. */
  lemma EveryLosslessContent(states: seq<System>, events: seq<Event>, aheads: seq<Ahead>, files: seq<seq<Op>>, k: nat)
    requires ContentRun(states, events, aheads, files) && LosslessRun(states, events) && Initial(states[0]) && k <= |events|
    requires var b := states[k].bucket; forall op :: op in aheads[k].snapshot ==> op in Content(b.ops, b.Newer())
    ensures SameContent(FreshLoad(states[k].bucket), Truth(states[k].hist, states[k].hist.Keys))
  {
    EveryFreshContent(states, events, aheads, files, k);
    RunSeesAllWhen(states, events, k);
    hide Lossless, Follows;
    assert SeesAll(states[k]);
    var s := states[k];
    var rest := NotIn(aheads[k].snapshot, Content(s.bucket.ops, s.bucket.Newer()));
    NothingLeft(aheads[k].snapshot, Content(s.bucket.ops, s.bucket.Newer()));
    SameParts(FreshLoad(s.bucket), Truth(s.hist, s.Seen()));
  }

  /** A machine that has just loaded shows what it has seen, and what is in its list. */
  lemma EveryLoadedContent(states: seq<System>, events: seq<Event>, aheads: seq<Ahead>, files: seq<seq<Op>>, k: nat, m: nat)
    requires ContentRun(states, events, aheads, files) && Initial(states[0]) && k <= |events|
    requires m in states[k].machines && states[k].machines[m].Loaded?
    ensures var p := states[k].machines[m]; Like(p.doc, Truth(states[k].hist, p.seen), AheadOf(aheads[k], m))
  {
    RunFollowed(states, events, aheads, files, k);
    assert PhaseShows(states[k].hist, states[k].machines[m], AheadOf(aheads[k], m));
  }

  // -- local files ----------------------------------------------------------------------------------

  /**
    Over any snapshot, or none, a local file does not show in the content of a load if and only if all the
    parts in which it changes the base are written by the ops that are replayed, rules included.
    */
  lemma FileHarmlessWhen(snapshot: Option<Snapshot>, local: Option<Doc>, log: seq<Op>)
    requires AllConstant(log)
    ensures SameContent(ApplyAll(Normalized(BaseOf(snapshot, local)), log), ApplyAll(Normalized(BaseOf(snapshot, None)), log))
        <==> forall p :: At(BaseOf(snapshot, local), p) == At(BaseOf(snapshot, None), p) || Touched(log, p)
  {
    var d, e := BaseOf(snapshot, local), BaseOf(snapshot, None);
    hide BaseOf, At, Touched, ApplyAll, Normalized;
    ReplayWhen(Normalized(d), Normalized(e), log);
    LikeNormalized(d, Normalized(e), log);
    LikeNormalized(e, d, log);
  }

  /** There are ops that explain any file, so no run is left out for its files. */
  lemma EveryFileExplained(snapshot: Option<Snapshot>, local: Option<Doc>) returns (file: seq<Op>)
    ensures AllConstant(file) && Like(BaseOf(snapshot, local), BaseOf(snapshot, None), file)
  {
    var d, e := BaseOf(snapshot, local), BaseOf(snapshot, None);
    var mids := Listing(d.messages.Keys + e.messages.Keys);
    var tags := Listing(d.tags.Keys + e.tags.Keys);
    file := [Drop(mids), SetRules([]), SetFilters([]), Retag([], tags, [])];
    hide BaseOf;
    forall p ensures At(d, p) == At(e, p) || Touched(file, p) {
      assert file[0] in file && file[1] in file && file[2] in file && file[3] in file;
      assert p.TheRules? ==> Touches(file[1], p);
      assert p.TheFilters? ==> Touches(file[2], p);
      assert p.OfCell? && p.cell.Known? && p.cell.tag in tags ==> Touches(file[3], p);
      assert p.OfCell? && !p.cell.Known? && p.cell.mid in mids ==> Touches(file[0], p);
    }
  }

  lemma {:induction false} Listing(names: set<string>) returns (list: seq<string>)
    ensures forall n :: n in list <==> n in names
  {
    list := [];
    if names != {} {
      var n :| n in names;
      list := Listing(names - {n});
      list := list + [n];
    }
  }
}
