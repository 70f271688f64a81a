/**
  The log with any ops in it, real renames included, and with any local files and pending ops: over whole
  runs, exactly when fresh loads have the content of the ops they see.  It is decided at the puts, and where
  an object comes or goes below newer ones, by what the newer ops make facts of.
  */
module LogTracing {
  import opened Options
  import opened Document
  import opened Merging
  import opened Absorption
  import opened StateLog
  import opened Tracing

  /** Names are booked, and every object is as it was written. */
  ghost predicate Intact(s: System) {
    Booked(s) && forall n :: n in s.bucket.ops ==> n in s.hist && s.bucket.ops[n] == s.hist[n]
  }

  /** A fresh load has the content of the replay of the ops it sees. */
  ghost predicate ShowsSeen(s: System) {
    SameContent(FreshLoad(s.bucket), Truth(s.hist, s.Seen()))
  }

  // -- replays of any ops ---------------------------------------------------------------------------

  lemma {:induction false} HoldsSame(x: Source, d: Doc, e: Doc)
    requires SameContent(d, e)
    ensures Holds(x, d) == Holds(x, e)
  {
    hide Value;
    match x
    case Lit(_) =>
    case Of(_) =>
    case If(guard, yes, no) =>
      HoldsSame(guard, d, e);
      HoldsSame(yes, d, e);
      HoldsSame(no, d, e);
  }

  /** Any ops take documents of the same content to documents of the same content. */
  lemma SameReplay(d: Doc, e: Doc, log: seq<Op>)
    requires SameContent(d, e)
    ensures SameContent(ApplyAll(d, log), ApplyAll(e, log))
  {
    forall c ensures Holds(Traced(Of(c), log), d) == Holds(Traced(Of(c), log), e) {
      HoldsSame(Traced(Of(c), log), d, e);
    }
    AnyReplayWhen(d, e, log);
  }

  lemma ViewContent(d: Doc, e: Doc)
    requires SameView(d, e)
    ensures SameContent(d, e)
  {
  }

  lemma FromNormalized(d: Doc, log: seq<Op>)
    ensures SameContent(ApplyAll(Normalized(d), log), ApplyAll(d, log))
  {
    hide ApplyAll, SameContent;
    NormalizedView(d);
    ViewReplayed(Normalized(d), d, log);
    ViewContent(ApplyAll(Normalized(d), log), ApplyAll(d, log));
  }

  /** What the log makes of the one document is what the other log makes of the other. */
  ghost predicate AgreeAfter(d: Doc, log: seq<Op>, e: Doc, log': seq<Op>) {
    && (forall c :: Holds(Traced(Of(c), log), d) == Holds(Traced(Of(c), log'), e))
    && Finally(LastRules(log), d.rules) == Finally(LastRules(log'), e.rules)
    && Finally(LastFilters(log), d.filters) == Finally(LastFilters(log'), e.filters)
  }

  function Finally<T>(last: Option<T>, was: T): T {
    if last.Some? then last.value else was
  }

  lemma ReplaysWhen(d: Doc, log: seq<Op>, e: Doc, log': seq<Op>)
    ensures SameContent(ApplyAll(d, log), ApplyAll(e, log')) <==> AgreeAfter(d, log, e, log')
  {
    forall c
      ensures Value(ApplyAll(d, log), c) == Holds(Traced(Of(c), log), d)
      ensures Value(ApplyAll(e, log'), c) == Holds(Traced(Of(c), log'), e)
    {
      TracedIs(Of(c), log, d);
      TracedIs(Of(c), log', e);
    }
    hide ApplyAll, Value, Traced, Holds;
    ReplayRules(d, log);
    ReplayRules(e, log');
  }

  // -- one state ------------------------------------------------------------------------------------

  /** Read on from a document by the newer objects: exactly when that is the replay of all of them. */
  lemma ReadOnWhen(doc: Doc, hist: map<nat, seq<Op>>, seen: set<nat>, upto: nat, newer: set<nat>)
    requires (forall n :: n in seen ==> n <= upto) && forall n :: n in newer ==> n > upto
    ensures SameContent(ApplyAll(Normalized(doc), Content(hist, newer)), Truth(hist, seen + newer))
        <==> AgreeUnder(doc, Truth(hist, seen), Content(hist, newer))
  {
    hide *;
    TruthSplit(hist, seen, upto, newer);
    FromNormalized(doc, Content(hist, newer));
    AnyReplayWhen(doc, Truth(hist, seen), Content(hist, newer));
    SameAsFirst(ApplyAll(Normalized(doc), Content(hist, newer)), ApplyAll(doc, Content(hist, newer)), Truth(hist, seen + newer));
  }

  lemma TruthSplit(hist: map<nat, seq<Op>>, seen: set<nat>, upto: nat, newer: set<nat>)
    requires (forall n :: n in seen ==> n <= upto) && forall n :: n in newer ==> n > upto
    ensures Truth(hist, seen + newer) == ApplyAll(Truth(hist, seen), Content(hist, newer))
  {
    hide ApplyAll, Content;
    ContentSplit(hist, seen, newer);
    ApplyAllConcat(EMPTY, Content(hist, seen), Content(hist, newer));
  }

  lemma SameAsFirst(a: Doc, b: Doc, c: Doc)
    requires SameContent(a, b)
    ensures SameContent(a, c) <==> SameContent(b, c)
  {
    hide Value;
  }

  /** In any state: a fresh load shows the ops seen exactly if the snapshot agrees with its ops on all the newer ones make facts of. */
  lemma ShowsSeenWhen(s: System)
    requires Intact(s)
    ensures ShowsSeen(s) <==> AgreeUnder(s.bucket.Base(), Truth(s.hist, s.merged), Content(s.hist, s.bucket.Newer()))
  {
    hide ApplyAll, Content, SameContent, AgreeUnder, Truth;
    ContentSame(s.bucket.ops, s.hist, s.bucket.Newer());
    ReadOnWhen(s.bucket.Base(), s.hist, s.merged, s.bucket.Upto(), s.bucket.Newer());
  }

  // -- every event ----------------------------------------------------------------------------------

  /**
    A put is to agree with the ops the machine has seen on all the newer objects make facts of.  So is the
    snapshot where an object is written below newer ones, or a newer one is deleted.  Nothing else matters.
    */
  ghost predicate Agrees(s: System, e: Event) {
    match e
    case Write(name, ops) =>
      name > s.bucket.Upto() && (exists n :: n in s.bucket.Newer() && n > name) ==>
        AgreeUnder(s.bucket.Base(), Truth(s.hist, s.merged), Content(s.hist[name := ops], s.bucket.Newer() + {name}))
    case PutSnapshot(m) =>
      m in s.machines && s.machines[m].Loaded? ==>
        var p := s.machines[m];
        AgreeUnder(p.doc, Truth(s.hist, p.seen), Content(s.hist, Above(s.bucket.ops.Keys, Last(p.names))))
    case DeleteOp(_, n) =>
      n in s.bucket.Newer() ==>
        AgreeUnder(s.bucket.Base(), Truth(s.hist, s.merged), Content(s.hist, s.bucket.Newer() - {n}))
    case _ => true
  }

  lemma EventIntact(s: System, e: Event)
    requires Intact(s) && Enabled(s, e)
    ensures Intact(Do(s, e))
  {
    EventBooked(s, e);
    hide Booked, Last, Content, BaseOf;
  }

  lemma TruthGrown(hist: map<nat, seq<Op>>, name: nat, ops: seq<Op>, names: set<nat>)
    requires names <= hist.Keys && name !in hist
    ensures Truth(hist[name := ops], names) == Truth(hist, names)
  {
    ContentSame(hist, hist[name := ops], names);
  }

  /** A write above all newer objects. */
  lemma WriteOnTop(s: System, e: Event)
    requires Intact(s) && ShowsSeen(s) && Enabled(s, e) && e.Write?
    requires e.name > s.bucket.Upto() && forall n :: n in s.bucket.Newer() ==> n < e.name
    ensures ShowsSeen(Do(s, e))
  {
    hide Content, ApplyAll, AgreeUnder, SameContent, Truth;
    var base, truth := s.bucket.Base(), Truth(s.hist, s.merged);
    var newer, hist' := s.bucket.Newer(), s.hist[e.name := e.ops];
    assert Do(s, e).bucket.Newer() == newer + {e.name};
    ContentSplit(hist', newer, {e.name});
    ContentSame(hist', s.hist, newer);
    TruthGrown(s.hist, e.name, e.ops, s.merged);
    ShowsSeenWhen(s);
    EventIntact(s, e);
    ShowsSeenWhen(Do(s, e));
    AgreeOn(base, truth, Content(s.hist, newer), Content(hist', {e.name}));
  }

  lemma AgreeOn(d: Doc, e: Doc, log: seq<Op>, more: seq<Op>)
    requires AgreeUnder(d, e, log)
    ensures AgreeUnder(d, e, log + more)
  {
    hide *;
    AnyReplayWhen(d, e, log);
    AnyReplayWhen(d, e, log + more);
    ApplyAllConcat(d, log, more);
    ApplyAllConcat(e, log, more);
    SameReplay(ApplyAll(d, log), ApplyAll(e, log), more);
  }

  lemma WriteShows(s: System, e: Event)
    requires Intact(s) && ShowsSeen(s) && Enabled(s, e) && e.Write?
    ensures ShowsSeen(Do(s, e)) <==> Agrees(s, e)
  {
    hide Content, ApplyAll, AgreeUnder, SameContent, Truth;
    if e.name > s.bucket.Upto() && forall n :: n in s.bucket.Newer() ==> n < e.name {
      WriteOnTop(s, e);
    } else {
      var newer, hist' := s.bucket.Newer(), s.hist[e.name := e.ops];
      EventIntact(s, e);
      TruthGrown(s.hist, e.name, e.ops, s.merged);
      ShowsSeenWhen(s);
      ShowsSeenWhen(Do(s, e));
      if e.name > s.bucket.Upto() {
        assert Do(s, e).bucket.Newer() == newer + {e.name};
        assert e.name !in newer;
      } else {
        assert Do(s, e).bucket.Newer() == newer;
        ContentSame(hist', s.hist, newer);
      }
    }
  }

  lemma PutShows(s: System, e: Event)
    requires Intact(s) && Enabled(s, e) && e.PutSnapshot?
    ensures ShowsSeen(Do(s, e)) <==> Agrees(s, e)
  {
    hide Content, ApplyAll, AgreeUnder, SameContent, Truth, Last, ShowsSeen, Booked;
    EventIntact(s, e);
    ShowsSeenWhen(Do(s, e));
  }

  lemma DeleteShows(s: System, e: Event)
    requires Intact(s) && ShowsSeen(s) && Enabled(s, e) && e.DeleteOp?
    ensures ShowsSeen(Do(s, e)) <==> Agrees(s, e)
  {
    hide Content, ApplyAll, AgreeUnder, SameContent, Truth, Booked;
    EventIntact(s, e);
    ShowsSeenWhen(s);
    ShowsSeenWhen(Do(s, e));
    assert Do(s, e).bucket.Newer() == s.bucket.Newer() - {e.name};
    assert e.name !in s.bucket.Newer() ==> s.bucket.Newer() - {e.name} == s.bucket.Newer();
  }

  /** Event by event: the content stays right if and only if the event agrees. */
  lemma EventShows(s: System, e: Event)
    requires Intact(s) && ShowsSeen(s) && Enabled(s, e)
    ensures ShowsSeen(Do(s, e)) <==> Agrees(s, e)
  {
    hide Content, ApplyAll, AgreeUnder, SameContent, Truth, Booked, Intact, Last, BaseOf;
    match e
    case Write(_, _) => WriteShows(s, e);
    case PutSnapshot(_) => PutShows(s, e);
    case DeleteOp(_, _) => DeleteShows(s, e);
    case _ =>
      assert Do(s, e).bucket == s.bucket && Do(s, e).hist == s.hist && Do(s, e).merged == s.merged;
  }

  // -- runs -----------------------------------------------------------------------------------------

  lemma InitialShows(s: System)
    requires Initial(s)
    ensures Intact(s) && ShowsSeen(s)
  {
    InitialTracked(s);
    FreshLoadSees(s);
    ViewContent(FreshLoad(s.bucket), Truth(s.hist, s.Seen()));
  }

  lemma {:induction false} RunIntact(states: seq<System>, events: seq<Event>, k: nat)
    requires Run(states, events) && Intact(states[0]) && k <= |events|
    ensures Intact(states[k])
  {
    hide Intact, Enabled;
    if k > 0 {
      RunIntact(states, events, k - 1);
      assert Follows(states[k - 1], events[k - 1], states[k - 1 + 1]);
      EventIntact(states[k - 1], events[k - 1]);
    }
  }

  /**
    Over whole runs, with any ops, local files and pending ops, whatever fails: fresh loads had the content of
    the ops they see at all times up to some point if and only if all events up to there agree.
    */
  lemma {:induction false} RunShowsWhen(states: seq<System>, events: seq<Event>, k: nat)
    requires Run(states, events) && Initial(states[0]) && k <= |events|
    ensures (forall i :: 0 <= i <= k ==> ShowsSeen(states[i])) <==> (forall i :: 0 <= i < k ==> Agrees(states[i], events[i]))
  {
    hide Initial, Intact, ShowsSeen, Enabled, Do, Agrees;
    InitialShows(states[0]);
    if k > 0 {
      RunShowsWhen(states, events, k - 1);
      if ShowsSeen(states[k - 1]) {
        ShowsStep(states, events, k - 1);
      }
    }
  }

  lemma ShowsStep(states: seq<System>, events: seq<Event>, k: nat)
    requires Run(states, events) && Intact(states[0]) && k < |events| && ShowsSeen(states[k])
    ensures ShowsSeen(states[k + 1]) <==> Agrees(states[k], events[k])
  {
    RunIntact(states, events, k);
    hide Intact, ShowsSeen, Enabled, Agrees;
    assert Follows(states[k], events[k], states[k + 1]);
    EventShows(states[k], events[k]);
  }

  ghost predicate AgreeingRun(states: seq<System>, events: seq<Event>) {
    Run(states, events) && forall i :: 0 <= i < |events| ==> Agrees(states[i], events[i])
  }

  /** If nothing is lost in such a run, either, fresh loads have the content of every op ever written. */
  lemma EveryAgreeingLoad(states: seq<System>, events: seq<Event>, k: nat)
    requires AgreeingRun(states, events) && LosslessRun(states, events) && Initial(states[0]) && k <= |events|
    ensures SameContent(FreshLoad(states[k].bucket), Truth(states[k].hist, states[k].hist.Keys))
  {
    RunShowsWhen(states, events, k);
    RunSeesAllWhen(states, events, k);
    hide SameContent, FreshLoad, Truth, Lossless, Agrees, Follows;
    assert SeesAll(states[k]) && ShowsSeen(states[k]);
  }

  // -- what a put agrees on, from where its machine began -------------------------------------------

  /** The machine an event is of. */
  function MachineOf(e: Event): Option<nat> {
    match e
    case Write(_, _) => None
    case ReadSnapshot(m, _, _) => Some(m)
    case ListNames(m, _) => Some(m)
    case FetchOps(m, _, _) => Some(m)
    case PutSnapshot(m) => Some(m)
    case DeleteOp(m, _) => Some(m)
    case Stop(m) => Some(m)
  }

  lemma Untouched(s: System, e: Event, m: nat)
    requires Enabled(s, e) && m in s.machines && MachineOf(e) != Some(m)
    ensures m in Do(s, e).machines && Do(s, e).machines[m] == s.machines[m]
  {
    hide ApplyAll, Content, BaseOf, Last;
  }

  lemma Listing(s: System, e: Event, m: nat)
    requires Enabled(s, e) && e.ListNames? && e.machine == m
    ensures m in s.machines && s.machines[m].Reading?
    ensures var p, p' := s.machines[m], Do(s, e).machines[m]; p'.Listed? && p'.doc == p.doc && p'.seen == p.seen
  {
  }

  /** From reading to fetching the machine keeps the document it began with. */
  lemma {:induction false} StillReading(states: seq<System>, events: seq<Event>, m: nat, r: nat, k: nat)
    requires Run(states, events) && r < k <= |events| && events[r].ReadSnapshot? && events[r].machine == m
    requires forall i :: r < i < k && MachineOf(events[i]) == Some(m) ==> events[i].ListNames?
    ensures m in states[r].machines && m in states[r + 1].machines && m in states[k].machines
    ensures states[r + 1].machines[m].Reading?
    ensures var p, q := states[r + 1].machines[m], states[k].machines[m];
      (q.Reading? || q.Listed?) && q.doc == p.doc && q.seen == p.seen
    decreases k
  {
    if k == r + 1 {
      assert Follows(states[r], events[r], states[r + 1]);
    } else {
      StillReading(states, events, m, r, k - 1);
      hide Enabled, Do;
      assert Follows(states[k - 1], events[k - 1], states[k - 1 + 1]);
      if MachineOf(events[k - 1]) == Some(m) {
        Listing(states[k - 1], events[k - 1], m);
      } else {
        Untouched(states[k - 1], events[k - 1], m);
      }
    }
  }

  lemma {:induction false} StillThere(states: seq<System>, events: seq<Event>, m: nat, i: nat, k: nat)
    requires Run(states, events) && i <= k <= |events| && m in states[i].machines
    requires forall j :: i <= j < k ==> MachineOf(events[j]) != Some(m)
    ensures m in states[k].machines && states[k].machines[m] == states[i].machines[m]
    decreases k
  {
    if i < k {
      StillThere(states, events, m, i, k - 1);
      hide Enabled, Do;
      assert Follows(states[k - 1], events[k - 1], states[k - 1 + 1]);
      Untouched(states[k - 1], events[k - 1], m);
    }
  }

  lemma {:induction false} HistGrows(states: seq<System>, events: seq<Event>, i: nat, k: nat)
    requires Run(states, events) && i <= k <= |events|
    ensures forall n :: n in states[i].hist ==> n in states[k].hist && states[k].hist[n] == states[i].hist[n]
    decreases k
  {
    if i < k {
      HistGrows(states, events, i, k - 1);
      assert Follows(states[k - 1], events[k - 1], states[k - 1 + 1]);
      hide ApplyAll, Content, BaseOf, Last;
    }
  }

  /**
    From reading to the put: the put agrees if and only if what the base of the load makes of the ops read, the
    pending ones and the newer objects is what the ops seen make of the ops read and the newer objects.  The
    base is the snapshot found, merged with the local file.
    */
  lemma PutAgreesWhen(states: seq<System>, events: seq<Event>, m: nat, r: nat, f: nat, k: nat)
    requires Run(states, events) && Intact(states[0]) && r < f < k < |events|
    requires events[r].ReadSnapshot? && events[f].FetchOps? && events[k] == PutSnapshot(m)
    requires events[r].machine == m && events[f].machine == m
    requires forall i :: r < i < f && MachineOf(events[i]) == Some(m) ==> events[i].ListNames?
    requires forall i :: f < i < k ==> MachineOf(events[i]) != Some(m)
    ensures m in states[f].machines && states[f].machines[m].Listed? && m in states[k].machines && states[k].machines[m].Loaded?
    ensures
      var found := if events[r].found then states[r].bucket.snapshot else None;
      var seen := if found.Some? then states[r].merged else {};
      var read := Content(states[f].bucket.ops, states[f].machines[m].names * states[f].bucket.ops.Keys - events[f].failed);
      var newer := Content(states[k].hist, Above(states[k].bucket.ops.Keys, Last(states[k].machines[m].names)));
      Agrees(states[k], events[k]) <==>
        AgreeAfter(BaseOf(found, events[r].local), read + events[f].pending + newer, Truth(states[k].hist, seen), read + newer)
  {
    StillReading(states, events, m, r, f);
    assert Follows(states[r], events[r], states[r + 1]) && Follows(states[f], events[f], states[f + 1]);
    StillThere(states, events, m, f + 1, k);
    RunIntact(states, events, f);
    HistGrows(states, events, f, k);
    var p, e, newer := states[f].machines[m], events[f], Above(states[k].bucket.ops.Keys, Last(states[k].machines[m].names));
    var fetched := p.names * states[f].bucket.ops.Keys - e.failed;
    assert PhaseBooked(states[f], p);
    hide *;
    ContentSame(states[f].bucket.ops, states[k].hist, fetched);
    LoadAgreesWhen(p.doc, states[k].hist, p.seen, p.upto, fetched, e.pending, Content(states[k].hist, newer));
  }

  /** What a load makes of a base, with pending ops, before any later ops. */
  lemma LoadAgreesWhen(doc: Doc, hist: map<nat, seq<Op>>, seen: set<nat>, upto: nat, fetched: set<nat>, pending: seq<Op>,
                       later: seq<Op>)
    requires (forall n :: n in seen ==> n <= upto) && forall n :: n in fetched ==> n > upto
    ensures var read := Content(hist, fetched);
      AgreeUnder(ApplyAll(Normalized(doc), read + pending), Truth(hist, seen + fetched), later)
      <==> AgreeAfter(doc, read + pending + later, Truth(hist, seen), read + later)
  {
    hide *;
    var read, truth := Content(hist, fetched), Truth(hist, seen);
    var loaded, clean := ApplyAll(Normalized(doc), read + pending), Truth(hist, seen + fetched);
    TruthSplit(hist, seen, upto, fetched);
    AnyReplayWhen(loaded, clean, later);
    ApplyAllConcat(Normalized(doc), read + pending, later);
    ApplyAllConcat(truth, read, later);
    FromNormalized(doc, read + pending + later);
    SameAsFirst(ApplyAll(loaded, later), ApplyAll(doc, read + pending + later), ApplyAll(truth, read + later));
    ReplaysWhen(doc, read + pending + later, truth, read + later);
  }
}
