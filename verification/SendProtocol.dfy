/**
  Sending: what is written down before and after the one step that cannot be undone, as a
  state machine over single storage operations.  A program can die between any two of them;
  another can recover at any time.  Messages, their markers and their copies in the sent
  folder go by the base name of the message.
  */
module SendProtocol {
  import opened Options

  /** A send as it was asked for: the draft it came from, if any, and the message. */
  datatype Attempt = Attempt(draft: Option<string>, raw: string)

  /** A marker: the id is empty as long as it is unknown whether the message went out. */
  datatype Marker = Marker(id: string, attempt: Attempt)

  /** The steps of the handler that is still running; each is named after what has been done. */
  datatype Phase = Begun | Marked | Accepted | Fetched | Recorded | Copied | Dropped | Refused

  /** A live send, and whether its marker could be written. */
  datatype Live = Live(phase: Phase, marked: bool)

  /** Somebody finishing a send from its marker: copied first, then dropped. */
  datatype Job = Job(base: string, marker: Marker, copied: bool, dropped: bool)

  datatype System = System(
    drafts: map<string, string>, markers: map<string, Marker>, sent: map<string, string>,
    attempts: map<string, Attempt>, accepted: set<string>, saved: set<string>, discarded: set<string>,
    live: map<string, Live>, jobs: map<nat, Job>)

  /** Storage events say whether the call went through. */
  datatype Event =
    | SaveDraft(key: string, raw: string)
    | DiscardDraft(key: string)
    | Begin(base: string, attempt: Attempt)
    | PutMarker(base: string, ok: bool)
    | Answer(base: string, accepted: bool)
    | ReadMarker(base: string, ok: bool)
    | RecordId(base: string, id: string, ok: bool)
    | PutCopy(base: string, ok: bool)
    | DropDraft(base: string, ok: bool)
    | ClearMarker(base: string, ok: bool)
    | Die(base: string)
    | Recover(job: nat, base: string)
    | Resolve(job: nat, base: string, sent: bool, ok: bool)
    | JobCopy(job: nat, ok: bool)
    | JobDrop(job: nat, ok: bool)
    | JobClear(job: nat, ok: bool)
    | JobDie(job: nat)

  predicate Stands(s: System, base: string, phase: Phase) {
    base in s.live && s.live[base].phase == phase
  }

  /** The draft an attempt came from is not there (any more). */
  predicate DraftGone(s: System, base: string)
    requires base in s.attempts
  {
    Gone(s.drafts, s.attempts[base].draft)
  }

  predicate Enabled(s: System, e: Event) {
    match e
    case SaveDraft(key, _) => key !in s.saved && forall b :: b in s.attempts ==> s.attempts[b].draft != Some(key)
    case DiscardDraft(key) => key in s.drafts
    case Begin(base, attempt) => base !in s.attempts && attempt.raw != ""
    case PutMarker(base, _) => Stands(s, base, Begun) && base in s.attempts
    case Answer(base, _) => Stands(s, base, Marked)
    case ReadMarker(base, _) => Stands(s, base, Accepted)
    case RecordId(base, id, _) => Stands(s, base, Fetched) && base in s.attempts && id != ""
    case PutCopy(base, _) => Stands(s, base, Recorded) && base in s.attempts
    case DropDraft(base, _) => Stands(s, base, Copied) && base in s.attempts
    case ClearMarker(base, _) => Stands(s, base, Dropped) || Stands(s, base, Refused)
    case Die(base) => base in s.live
    case Recover(job, base) => job !in s.jobs && base in s.markers && s.markers[base].id != ""
    case Resolve(job, base, _, _) => job !in s.jobs && base in s.markers
    case JobCopy(job, _) => job in s.jobs && !s.jobs[job].copied
    case JobDrop(job, _) => job in s.jobs && s.jobs[job].copied && !s.jobs[job].dropped
    case JobClear(job, _) => job in s.jobs && s.jobs[job].copied && s.jobs[job].dropped
    case JobDie(job) => job in s.jobs
  }

  function Advance(s: System, base: string, phase: Phase): System
    requires base in s.live
  {
    s.(live := s.live[base := s.live[base].(phase := phase)])
  }

  function WithoutDraft(drafts: map<string, string>, draft: Option<string>): map<string, string> {
    if draft.Some? then drafts - {draft.value} else drafts
  }

  function Do(s: System, e: Event): System
    requires Enabled(s, e)
  {
    match e
    case SaveDraft(key, raw) => s.(drafts := s.drafts[key := raw], saved := s.saved + {key})
    case DiscardDraft(key) => s.(drafts := s.drafts - {key}, discarded := s.discarded + {key})
    case Begin(base, attempt) =>
      s.(attempts := s.attempts[base := attempt], live := s.live[base := Live(Begun, false)])
    case PutMarker(base, ok) =>
      // The send goes on in either case.
      var marked := s.(live := s.live[base := Live(Marked, ok)]);
      if ok then marked.(markers := s.markers[base := Marker("", s.attempts[base])]) else marked
    case Answer(base, accepted) =>
      if accepted then Advance(s, base, Accepted).(accepted := s.accepted + {base})
      else Advance(s, base, Refused)
    case ReadMarker(base, ok) =>
      if s.live[base].marked && ok && base in s.markers then Advance(s, base, Fetched) else Advance(s, base, Recorded)
    case RecordId(base, id, ok) =>
      var recorded := Advance(s, base, Recorded);
      if ok then recorded.(markers := s.markers[base := Marker(id, s.attempts[base])]) else recorded
    case PutCopy(base, ok) =>
      // The answer stands, even if the copy could not be stored.
      var copied := Advance(s, base, Copied);
      if ok then copied.(sent := s.sent[base := s.attempts[base].raw]) else copied
    case DropDraft(base, ok) =>
      var dropped := Advance(s, base, Dropped);
      if ok then dropped.(drafts := WithoutDraft(s.drafts, s.attempts[base].draft)) else dropped
    case ClearMarker(base, ok) =>
      s.(live := s.live - {base}, markers := if s.live[base].marked && ok then s.markers - {base} else s.markers)
    case Die(base) => s.(live := s.live - {base})
    case Recover(job, base) => s.(jobs := s.jobs[job := Job(base, s.markers[base], false, false)])
    case Resolve(job, base, sent, ok) =>
      if sent then s.(jobs := s.jobs[job := Job(base, s.markers[base], false, false)])
      else if ok then s.(markers := s.markers - {base})
      else s
    case JobCopy(job, ok) =>
      var j := s.jobs[job];
      if j.marker.attempt.raw == "" then s.(jobs := s.jobs[job := j.(copied := true)])
      else if ok then
        s.(jobs := s.jobs[job := j.(copied := true)], sent := s.sent[j.base := j.marker.attempt.raw])
      else s.(jobs := s.jobs - {job})
    case JobDrop(job, ok) =>
      // A draft that cannot be dropped is not an error.
      var j := s.jobs[job];
      s.(jobs := s.jobs[job := j.(dropped := true)],
         drafts := if ok then WithoutDraft(s.drafts, j.marker.attempt.draft) else s.drafts)
    case JobClear(job, ok) =>
      s.(jobs := s.jobs - {job}, markers := if ok then s.markers - {s.jobs[job].base} else s.markers)
    case JobDie(job) => s.(jobs := s.jobs - {job})
  }

  /**
    The events that do no harm.  All calls may fail.  But nothing may go out whose marker is not there; a
    marker may be taken from a message that is out only if the message is settled, be it by the handler, by
    recovery or by the answer "not sent"; and nobody may file a message as sent that is not out.
    */
  predicate Sound(s: System, e: Event) {
    match e
    case Answer(base, accepted) => accepted ==> base in s.markers
    case ClearMarker(base, ok) => ok && base in s.live && s.live[base].marked ==> MayClear(s, base)
    case Resolve(_, base, sent, ok) => !sent && ok ==> MayClear(s, base)
    case JobCopy(job, ok) => ok && job in s.jobs ==> s.jobs[job].base in s.accepted
    case JobClear(job, ok) => ok && job in s.jobs ==> MayClear(s, s.jobs[job].base)
    case _ => true
  }

  predicate Gone(drafts: map<string, string>, draft: Option<string>) {
    draft.Some? ==> draft.value !in drafts
  }

  predicate MayClear(s: System, base: string) {
    base in s.accepted ==> base in s.attempts && Settled(s, base)
  }

  /** The bookkeeping of the message is done. */
  predicate Settled(s: System, base: string)
    requires base in s.attempts
  {
    base in s.sent && s.sent[base] == s.attempts[base].raw && DraftGone(s, base)
  }

  // -- what every step keeps -------------------------------------------------------------------------

  ghost predicate LiveFits(s: System, base: string)
    requires base in s.live
  {
    base in s.attempts && (base in s.accepted <==> s.live[base].phase !in {Begun, Marked, Refused})
  }

  ghost predicate JobFits(s: System, j: Job) {
    && j.base in s.attempts && j.marker.attempt == s.attempts[j.base]
    && (j.marker.id != "" ==> j.base in s.accepted)
    && (j.copied ==> j.base in s.sent) && (j.dropped ==> j.copied)
  }

  ghost predicate MarkerFits(s: System, base: string)
    requires base in s.markers
  {
    base in s.attempts && s.markers[base].attempt == s.attempts[base] && (s.markers[base].id != "" ==> base in s.accepted)
  }

  /** Markers, running sends and jobs are about attempts there were, and an id says that the message is out. */
  ghost predicate Consistent(s: System) {
    && s.accepted <= s.attempts.Keys && s.drafts.Keys <= s.saved
    && (forall b :: b in s.attempts ==> s.attempts[b].raw != "")
    && (forall b :: b in s.markers ==> MarkerFits(s, b))
    && (forall b :: b in s.live ==> LiveFits(s, b))
    && (forall i :: i in s.jobs ==> JobFits(s, s.jobs[i]))
  }

  /** What is new or changed fits; the rest is as it was. */
  lemma StaysConsistent(s: System, s': System)
    requires Consistent(s) && s.attempts.Keys <= s'.attempts.Keys && s.accepted <= s'.accepted <= s'.attempts.Keys
    requires (forall b :: b in s.attempts ==> s'.attempts[b] == s.attempts[b]) && s'.drafts.Keys <= s'.saved
    requires s.sent.Keys <= s'.sent.Keys && forall b :: b in s'.attempts ==> s'.attempts[b].raw != ""
    requires forall b :: b in s'.markers ==> MarkerFits(s', b) || (b in s.markers && s'.markers[b] == s.markers[b])
    requires forall b :: b in s'.live ==>
      LiveFits(s', b) || (b in s.live && s'.live[b] == s.live[b] && (b in s'.accepted ==> b in s.accepted))
    requires forall i :: i in s'.jobs ==> JobFits(s', s'.jobs[i]) || (i in s.jobs && s'.jobs[i] == s.jobs[i])
    ensures Consistent(s')
  {
    forall b | b in s'.markers ensures MarkerFits(s', b) {
      assert b in s.markers && s'.markers[b] == s.markers[b] ==> MarkerFits(s, b);
    }
    forall b | b in s'.live ensures LiveFits(s', b) {
      assert b in s.live && s'.live[b] == s.live[b] ==> LiveFits(s, b);
    }
    forall i | i in s'.jobs ensures JobFits(s', s'.jobs[i]) {
      assert i in s.jobs && s'.jobs[i] == s.jobs[i] ==> JobFits(s, s.jobs[i]);
    }
  }

  // -- what every sound step keeps -------------------------------------------------------------------

  /** A message made from the draft went out. */
  ghost predicate SentFrom(s: System, key: string) {
    exists b :: b in s.accepted && b in s.attempts && s.attempts[b].draft == Some(key)
  }

  /** What is out has its marker, or is settled. */
  ghost predicate NothingForgotten(s: System) {
    forall b :: b in s.accepted && b !in s.markers ==> b in s.attempts && Settled(s, b)
  }

  /** Only what is out is filed as sent, and as it was sent. */
  ghost predicate NothingFeigned(s: System) {
    forall b :: b in s.sent ==> b in s.accepted && b in s.attempts && s.sent[b] == s.attempts[b].raw
  }

  /** A draft goes only by hand, or after a message made from it went out. */
  ghost predicate NoDraftLost(s: System) {
    forall k :: k in s.saved ==> k in s.drafts || k in s.discarded || SentFrom(s, k)
  }

  ghost predicate Harmless(s: System) {
    NothingForgotten(s) && NothingFeigned(s) && NoDraftLost(s)
  }

  /**
    No harm is done as long as messages stay attempted and out, copies are of messages that are out, only
    spent drafts are dropped, and whatever is out without a marker was settled before.
    */
  lemma StaysHarmless(s: System, s': System)
    requires Harmless(s) && s.accepted <= s.attempts.Keys && s.accepted <= s'.accepted && s.discarded <= s'.discarded
    requires forall b :: b in s.attempts ==> b in s'.attempts && s'.attempts[b] == s.attempts[b]
    requires forall k :: k in s'.saved && k !in s.saved ==> k in s'.drafts
    requires forall k :: k in s.drafts && k !in s'.drafts ==> k in s'.discarded || SentFrom(s', k)
    requires forall k, b :: k in s'.drafts && k !in s.drafts && b in s.attempts ==> s.attempts[b].draft != Some(k)
    requires forall b :: b in s.sent ==> b in s'.sent
    requires forall b :: b in s'.sent ==> (b in s.sent && s'.sent[b] == s.sent[b]) || MayFile(s', b)
    requires forall b :: b in s'.accepted && b !in s'.markers ==> b in s.accepted && (b !in s.markers || MayClear(s, b))
    ensures Harmless(s')
  {
    DraftsStay(s, s');
    forall b | b in s'.accepted && b !in s'.markers ensures b in s'.attempts && Settled(s', b) {
      assert b in s.attempts && Settled(s, b);
    }
  }

  predicate MayFile(s: System, base: string) {
    base in s.sent && base in s.accepted && base in s.attempts && s.sent[base] == s.attempts[base].raw
  }

  lemma DraftsStay(s: System, s': System)
    requires NoDraftLost(s) && s.accepted <= s'.accepted && s.discarded <= s'.discarded
    requires forall b :: b in s.attempts ==> b in s'.attempts && s'.attempts[b] == s.attempts[b]
    requires forall k :: k in s'.saved && k !in s.saved ==> k in s'.drafts
    requires forall k :: k in s.drafts && k !in s'.drafts ==> k in s'.discarded || SentFrom(s', k)
    ensures NoDraftLost(s')
  {
    forall k | k in s'.saved ensures k in s'.drafts || k in s'.discarded || SentFrom(s', k) {
      if k in s.saved && k !in s.drafts && k !in s.discarded {
        var b :| b in s.accepted && b in s.attempts && s.attempts[b].draft == Some(k);
        assert b in s'.accepted && s'.attempts[b].draft == Some(k);
      }
    }
  }

  // -- event by event --------------------------------------------------------------------------------

  ghost predicate Fine(s: System) {
    Consistent(s) && Harmless(s)
  }

  /** The event keeps the books consistent, and does no harm exactly if it is sound. */
  ghost predicate Judged(s: System, e: Event)
    requires Enabled(s, e)
  {
    Consistent(Do(s, e)) && (Harmless(Do(s, e)) <==> Sound(s, e))
  }

  lemma DropSpends(s: System, s': System, base: string)
    requires base in s.accepted && base in s.attempts && s'.accepted == s.accepted && s'.attempts == s.attempts
    requires s'.drafts == WithoutDraft(s.drafts, s.attempts[base].draft)
    ensures forall k :: k in s.drafts && k !in s'.drafts ==> SentFrom(s', k)
  {
    assert forall k :: k in s.drafts && k !in s'.drafts ==> s'.attempts[base].draft == Some(k);
  }

  lemma Forgotten(s: System, base: string)
    requires base in s.accepted && base !in s.markers && !MayClear(s, base)
    ensures !Harmless(s)
  {
  }

  lemma Feigned(s: System, base: string)
    requires base in s.sent && base !in s.accepted
    ensures !Harmless(s)
  {
  }

  lemma SameSettled(s: System, s': System, base: string)
    requires s' == s.(markers := s'.markers, live := s'.live, jobs := s'.jobs)
    ensures MayClear(s', base) <==> MayClear(s, base)
  {
  }

  /** A send that only moves on. */
  lemma MovesOn(s: System, base: string, l: Live)
    requires Fine(s) && base in s.live && LiveFits(s.(live := s.live[base := l]), base)
    ensures Fine(s.(live := s.live[base := l]))
  {
    var s' := s.(live := s.live[base := l]);
    hide LiveFits, JobFits, MarkerFits, Harmless, MayFile, MayClear, SentFrom;
    assert Consistent(s') by {
      StaysConsistent(s, s');
    }
    hide Consistent;
    StaysHarmless(s, s');
  }

  lemma SaveJudged(s: System, key: string, raw: string)
    requires Fine(s) && Enabled(s, SaveDraft(key, raw))
    ensures Judged(s, SaveDraft(key, raw))
  {
    var s' := Do(s, SaveDraft(key, raw));
    hide LiveFits, JobFits, MarkerFits, Harmless, MayFile, MayClear, SentFrom;
    assert Consistent(s') by {
      StaysConsistent(s, s');
    }
    hide Consistent;
    StaysHarmless(s, s');
  }

  lemma DiscardJudged(s: System, key: string)
    requires Fine(s) && Enabled(s, DiscardDraft(key))
    ensures Judged(s, DiscardDraft(key))
  {
    var s' := Do(s, DiscardDraft(key));
    hide LiveFits, JobFits, MarkerFits, Harmless, MayFile, MayClear, SentFrom;
    assert Consistent(s') by {
      StaysConsistent(s, s');
    }
    hide Consistent;
    StaysHarmless(s, s');
  }

  lemma BeginJudged(s: System, base: string, attempt: Attempt)
    requires Fine(s) && Enabled(s, Begin(base, attempt))
    ensures Judged(s, Begin(base, attempt))
  {
    var s' := Do(s, Begin(base, attempt));
    assert LiveFits(s', base);
    hide LiveFits, JobFits, MarkerFits, Harmless, MayFile, MayClear, SentFrom;
    assert Consistent(s') by {
      StaysConsistent(s, s');
    }
    hide Consistent;
    StaysHarmless(s, s');
  }

  lemma PutMarkerJudged(s: System, base: string, ok: bool)
    requires Fine(s) && Enabled(s, PutMarker(base, ok))
    ensures Judged(s, PutMarker(base, ok))
  {
    var s' := Do(s, PutMarker(base, ok));
    assert LiveFits(s, base) && LiveFits(s', base);
    if !ok {
      MovesOn(s, base, s'.live[base]);
      return;
    }
    assert MarkerFits(s', base);
    hide LiveFits, JobFits, MarkerFits, Harmless, MayFile, MayClear, SentFrom;
    assert Consistent(s') by {
      StaysConsistent(s, s');
    }
    hide Consistent;
    StaysHarmless(s, s');
  }

  lemma AnswerJudged(s: System, base: string, accepted: bool)
    requires Fine(s) && Enabled(s, Answer(base, accepted))
    ensures Judged(s, Answer(base, accepted))
  {
    var s' := Do(s, Answer(base, accepted));
    assert LiveFits(s, base) && LiveFits(s', base);
    if !accepted {
      MovesOn(s, base, s'.live[base]);
      return;
    }
    assert base !in s.sent && !MayClear(s', base);
    hide LiveFits, JobFits, MarkerFits, Harmless, MayFile, MayClear, SentFrom;
    assert Consistent(s') by {
      StaysConsistent(s, s');
    }
    hide Consistent;
    if base in s.markers {
      StaysHarmless(s, s');
    } else {
      Forgotten(s', base);
    }
  }

  lemma ReadMarkerJudged(s: System, base: string, ok: bool)
    requires Fine(s) && Enabled(s, ReadMarker(base, ok))
    ensures Judged(s, ReadMarker(base, ok))
  {
    var s' := Do(s, ReadMarker(base, ok));
    assert LiveFits(s, base) && LiveFits(s', base);
    MovesOn(s, base, s'.live[base]);
  }

  lemma RecordIdJudged(s: System, base: string, id: string, ok: bool)
    requires Fine(s) && Enabled(s, RecordId(base, id, ok))
    ensures Judged(s, RecordId(base, id, ok))
  {
    var s' := Do(s, RecordId(base, id, ok));
    assert LiveFits(s, base) && LiveFits(s', base);
    if !ok {
      MovesOn(s, base, s'.live[base]);
      return;
    }
    assert MarkerFits(s', base);
    hide LiveFits, JobFits, MarkerFits, Harmless, MayFile, MayClear, SentFrom;
    assert Consistent(s') by {
      StaysConsistent(s, s');
    }
    hide Consistent;
    StaysHarmless(s, s');
  }

  lemma PutCopyJudged(s: System, base: string, ok: bool)
    requires Fine(s) && Enabled(s, PutCopy(base, ok))
    ensures Judged(s, PutCopy(base, ok))
  {
    assert LiveFits(s, base);
    var l := s.live[base].(phase := Copied);
    if ok {
      hide Fine, Harmless, Consistent, LiveFits;
      LiveCopies(s, base, l);
    } else {
      MovesOn(s, base, l);
    }
  }

  lemma LiveCopies(s: System, base: string, l: Live)
    requires Fine(s) && base in s.live && LiveFits(s, base) && base in s.accepted && l.phase == Copied
    ensures Fine(s.(live := s.live[base := l], sent := s.sent[base := s.attempts[base].raw]))
  {
    var s' := s.(live := s.live[base := l], sent := s.sent[base := s.attempts[base].raw]);
    assert LiveFits(s', base) && MayFile(s', base);
    hide LiveFits, JobFits, MarkerFits, Harmless, MayFile, MayClear, SentFrom;
    assert Consistent(s') by {
      StaysConsistent(s, s');
    }
    hide Consistent;
    StaysHarmless(s, s');
  }

  lemma DropDraftJudged(s: System, base: string, ok: bool)
    requires Fine(s) && Enabled(s, DropDraft(base, ok))
    ensures Judged(s, DropDraft(base, ok))
  {
    var s' := Do(s, DropDraft(base, ok));
    assert LiveFits(s, base) && LiveFits(s', base);
    if !ok {
      MovesOn(s, base, s'.live[base]);
      return;
    }
    DropSpends(s, s', base);
    hide LiveFits, JobFits, MarkerFits, Harmless, MayFile, MayClear, SentFrom;
    assert Consistent(s') by {
      StaysConsistent(s, s');
    }
    hide Consistent;
    StaysHarmless(s, s');
  }

  lemma ClearMarkerJudged(s: System, base: string, ok: bool)
    requires Fine(s) && Enabled(s, ClearMarker(base, ok))
    ensures Judged(s, ClearMarker(base, ok))
  {
    var s' := Do(s, ClearMarker(base, ok));
    SameSettled(s, s', base);
    hide LiveFits, JobFits, MarkerFits, Harmless, MayFile, MayClear, SentFrom;
    assert Consistent(s') by {
      StaysConsistent(s, s');
    }
    hide Consistent;
    if Sound(s, ClearMarker(base, ok)) {
      StaysHarmless(s, s');
    } else {
      Forgotten(s', base);
    }
  }

  lemma DieJudged(s: System, base: string)
    requires Fine(s) && Enabled(s, Die(base))
    ensures Judged(s, Die(base))
  {
    var s' := Do(s, Die(base));
    hide LiveFits, JobFits, MarkerFits, Harmless, MayFile, MayClear, SentFrom;
    assert Consistent(s') by {
      StaysConsistent(s, s');
    }
    hide Consistent;
    StaysHarmless(s, s');
  }

  lemma JobStarts(s: System, job: nat, base: string)
    requires Fine(s) && job !in s.jobs && base in s.markers
    ensures Fine(s.(jobs := s.jobs[job := Job(base, s.markers[base], false, false)]))
  {
    var s' := s.(jobs := s.jobs[job := Job(base, s.markers[base], false, false)]);
    assert MarkerFits(s, base) && JobFits(s', s'.jobs[job]);
    hide LiveFits, JobFits, MarkerFits, Harmless, MayFile, MayClear, SentFrom;
    assert Consistent(s') by {
      StaysConsistent(s, s');
    }
    hide Consistent;
    StaysHarmless(s, s');
  }

  lemma RecoverJudged(s: System, job: nat, base: string)
    requires Fine(s) && Enabled(s, Recover(job, base))
    ensures Judged(s, Recover(job, base))
  {
    hide Fine, Harmless, Consistent;
    JobStarts(s, job, base);
    assert Fine(s.(jobs := s.jobs[job := Job(base, s.markers[base], false, false)]));
    FineIs(Do(s, Recover(job, base)));
  }

  lemma FineIs(s: System)
    ensures Fine(s) <==> Consistent(s) && Harmless(s)
  {
  }

  lemma ResolveJudged(s: System, job: nat, base: string, sent: bool, ok: bool)
    requires Fine(s) && Enabled(s, Resolve(job, base, sent, ok))
    ensures Judged(s, Resolve(job, base, sent, ok))
  {
    if sent {
      hide Fine, Harmless, Consistent;
      JobStarts(s, job, base);
      FineIs(Do(s, Resolve(job, base, sent, ok)));
      return;
    }
    var s' := Do(s, Resolve(job, base, sent, ok));
    SameSettled(s, s', base);
    hide LiveFits, JobFits, MarkerFits, Harmless, MayFile, MayClear, SentFrom;
    assert Consistent(s') by {
      StaysConsistent(s, s');
    }
    hide Consistent;
    if ok ==> MayClear(s, base) {
      StaysHarmless(s, s');
    } else {
      Forgotten(s', base);
    }
  }

  lemma JobDieJudged(s: System, job: nat)
    requires Fine(s) && Enabled(s, JobDie(job))
    ensures Judged(s, JobDie(job))
  {
    var s' := Do(s, JobDie(job));
    hide LiveFits, JobFits, MarkerFits, Harmless, MayFile, MayClear, SentFrom;
    assert Consistent(s') by {
      StaysConsistent(s, s');
    }
    hide Consistent;
    StaysHarmless(s, s');
  }

  lemma JobCopyJudged(s: System, job: nat, ok: bool)
    requires Fine(s) && Enabled(s, JobCopy(job, ok))
    ensures Judged(s, JobCopy(job, ok))
  {
    var s', base := Do(s, JobCopy(job, ok)), s.jobs[job].base;
    assert JobFits(s, s.jobs[job]);
    if !ok {
      JobDieJudged(s, job);
      return;
    }
    var j := s.jobs[job];
    assert s' == s.(jobs := s.jobs[job := j.(copied := true)], sent := s.sent[base := s.attempts[base].raw]);
    JobCopies(s, job);
  }

  lemma JobCopies(s: System, job: nat)
    requires Fine(s) && job in s.jobs && JobFits(s, s.jobs[job]) && !s.jobs[job].copied
    ensures var j := s.jobs[job];
      var s' := s.(jobs := s.jobs[job := j.(copied := true)], sent := s.sent[j.base := s.attempts[j.base].raw]);
      Consistent(s') && (Harmless(s') <==> j.base in s.accepted)
  {
    var j, base := s.jobs[job], s.jobs[job].base;
    var s' := s.(jobs := s.jobs[job := j.(copied := true)], sent := s.sent[base := s.attempts[base].raw]);
    assert JobFits(s', s'.jobs[job]) && (base in s.accepted ==> MayFile(s', base));
    hide LiveFits, JobFits, MarkerFits, Harmless, MayFile, MayClear, SentFrom;
    assert Consistent(s') by {
      StaysConsistent(s, s');
    }
    hide Consistent;
    if base in s.accepted {
      StaysHarmless(s, s');
    } else {
      Feigned(s', base);
    }
  }

  lemma JobDropJudged(s: System, job: nat, ok: bool)
    requires Fine(s) && Enabled(s, JobDrop(job, ok))
    ensures Judged(s, JobDrop(job, ok))
  {
    var j := s.jobs[job];
    assert JobFits(s, j);
    assert MayFile(s, j.base) by { assert j.base in s.sent; }
    hide Fine, Harmless, Consistent, JobFits, MayFile;
    JobDrops(s, job, if ok then WithoutDraft(s.drafts, j.marker.attempt.draft) else s.drafts);
  }

  lemma JobDrops(s: System, job: nat, drafts: map<string, string>)
    requires Fine(s) && job in s.jobs && s.jobs[job].copied && JobFits(s, s.jobs[job]) && MayFile(s, s.jobs[job].base)
    requires drafts == s.drafts || drafts == WithoutDraft(s.drafts, s.jobs[job].marker.attempt.draft)
    ensures var s' := s.(jobs := s.jobs[job := s.jobs[job].(dropped := true)], drafts := drafts);
      Consistent(s') && Harmless(s')
  {
    var s' := s.(jobs := s.jobs[job := s.jobs[job].(dropped := true)], drafts := drafts);
    assert JobFits(s', s'.jobs[job]);
    if drafts != s.drafts {
      DropSpends(s, s', s.jobs[job].base);
    }
    hide LiveFits, JobFits, MarkerFits, Harmless, MayFile, MayClear, SentFrom;
    assert Consistent(s') by {
      StaysConsistent(s, s');
    }
    hide Consistent;
    StaysHarmless(s, s');
  }

  lemma JobClearJudged(s: System, job: nat, ok: bool)
    requires Fine(s) && Enabled(s, JobClear(job, ok))
    ensures Judged(s, JobClear(job, ok))
  {
    var s' := Do(s, JobClear(job, ok));
    var base := s.jobs[job].base;
    assert JobFits(s, s.jobs[job]);
    SameSettled(s, s', base);
    hide LiveFits, JobFits, MarkerFits, Harmless, MayFile, MayClear, SentFrom;
    assert Consistent(s') by {
      StaysConsistent(s, s');
    }
    hide Consistent;
    if Sound(s, JobClear(job, ok)) {
      StaysHarmless(s, s');
    } else {
      Forgotten(s', base);
    }
  }

  /** Whatever fails and whoever says what, the books stay consistent; and no harm is done if and only if the event is sound. */
  lemma EventHarmless(s: System, e: Event)
    requires Consistent(s) && Harmless(s) && Enabled(s, e)
    ensures Consistent(Do(s, e)) && (Harmless(Do(s, e)) <==> Sound(s, e))
  {
    assert Fine(s);
    hide *;
    assert Judged(s, e) by {
      match e
      case SaveDraft(key, raw) => SaveJudged(s, key, raw);
      case DiscardDraft(key) => DiscardJudged(s, key);
      case Begin(base, attempt) => BeginJudged(s, base, attempt);
      case PutMarker(base, ok) => PutMarkerJudged(s, base, ok);
      case Answer(base, accepted) => AnswerJudged(s, base, accepted);
      case ReadMarker(base, ok) => ReadMarkerJudged(s, base, ok);
      case RecordId(base, id, ok) => RecordIdJudged(s, base, id, ok);
      case PutCopy(base, ok) => PutCopyJudged(s, base, ok);
      case DropDraft(base, ok) => DropDraftJudged(s, base, ok);
      case ClearMarker(base, ok) => ClearMarkerJudged(s, base, ok);
      case Die(base) => DieJudged(s, base);
      case Recover(job, base) => RecoverJudged(s, job, base);
      case Resolve(job, base, sent, ok) => ResolveJudged(s, job, base, sent, ok);
      case JobCopy(job, ok) => JobCopyJudged(s, job, ok);
      case JobDrop(job, ok) => JobDropJudged(s, job, ok);
      case JobClear(job, ok) => JobClearJudged(s, job, ok);
      case JobDie(job) => JobDieJudged(s, job);
    }
  }

  // -- runs ------------------------------------------------------------------------------------------

  ghost predicate Follows(s: System, e: Event, s': System) {
    Enabled(s, e) && s' == Do(s, e)
  }

  ghost predicate Run(states: seq<System>, events: seq<Event>) {
    |states| == |events| + 1 && forall i :: 0 <= i < |events| ==> Follows(states[i], events[i], states[i + 1])
  }

  ghost predicate SoundRun(states: seq<System>, events: seq<Event>) {
    Run(states, events) && forall i :: 0 <= i < |events| ==> Sound(states[i], events[i])
  }

  const START := System(map[], map[], map[], map[], {}, {}, {}, map[], map[])

  ghost predicate HarmlessTo(states: seq<System>, k: nat)
    requires k < |states|
  {
    forall i :: 0 <= i <= k ==> Harmless(states[i])
  }

  ghost predicate SoundTo(states: seq<System>, events: seq<Event>, k: nat)
    requires k <= |events| <= |states|
  {
    forall i :: 0 <= i < k ==> Sound(states[i], events[i])
  }

  lemma OneFurther(states: seq<System>, events: seq<Event>, k: nat)
    requires k < |events| && |events| < |states|
    ensures HarmlessTo(states, k + 1) <==> HarmlessTo(states, k) && Harmless(states[k + 1])
    ensures SoundTo(states, events, k + 1) <==> SoundTo(states, events, k) && Sound(states[k], events[k])
    ensures HarmlessTo(states, k) ==> Harmless(states[k])
  {
    hide Harmless, Sound;
  }

  /**
    Over whole runs: no harm was done up to some point if and only if all events up to there were sound.
    As long as that is so, the books are consistent.
    */
  lemma {:induction false} RunHarmlessWhen(states: seq<System>, events: seq<Event>, k: nat)
    requires Run(states, events) && states[0] == START && k <= |events|
    ensures HarmlessTo(states, k) <==> SoundTo(states, events, k)
    ensures SoundTo(states, events, k) ==> Consistent(states[k])
  {
    if k == 0 {
      StartsFine();
    } else {
      hide HarmlessTo, SoundTo, Consistent, Harmless, Sound, Follows;
      RunHarmlessWhen(states, events, k - 1);
      OneFurther(states, events, k - 1);
      if SoundTo(states, events, k - 1) {
        RunStep(states, events, k - 1);
      }
    }
  }

  lemma StartsFine()
    ensures Harmless(START) && Consistent(START)
  {
  }

  lemma RunStep(states: seq<System>, events: seq<Event>, k: nat)
    requires Run(states, events) && k < |events| && Consistent(states[k]) && Harmless(states[k])
    ensures Consistent(states[k + 1]) && (Harmless(states[k + 1]) <==> Sound(states[k], events[k]))
  {
    hide Consistent, Harmless, Do, Enabled, Sound;
    assert Follows(states[k], events[k], states[k + 1]);
    EventHarmless(states[k], events[k]);
  }

  lemma SoundRunHarmless(states: seq<System>, events: seq<Event>, k: nat)
    requires SoundRun(states, events) && states[0] == START && k <= |events|
    ensures Harmless(states[k]) && Consistent(states[k])
  {
    hide Consistent, Harmless, Sound;
    RunHarmlessWhen(states, events, k);
  }

  /** A draft that lies there with no marker for it never went out: sending it again is safe. */
  lemma UnmarkedDraftNeverSent(states: seq<System>, events: seq<Event>, k: nat, key: string)
    requires SoundRun(states, events) && states[0] == START && k <= |events| && key in states[k].drafts
    requires forall b :: b in states[k].markers ==> states[k].markers[b].attempt.draft != Some(key)
    ensures !SentFrom(states[k], key)
  {
    SoundRunHarmless(states, events, k);
    var s := states[k];
    forall b | b in s.accepted && b in s.attempts ensures s.attempts[b].draft != Some(key) {
      assert b in s.markers ==> MarkerFits(s, b);
      assert b !in s.markers ==> Settled(s, b);
    }
  }

  /** A marker that is gone after the message went out: the copy lies in sent, as it was sent, and the draft is gone. */
  lemma ClearedMeansSettled(states: seq<System>, events: seq<Event>, k: nat, base: string)
    requires SoundRun(states, events) && states[0] == START && k <= |events|
    requires base in states[k].accepted && base !in states[k].markers
    ensures base in states[k].attempts && Settled(states[k], base)
  {
    SoundRunHarmless(states, events, k);
  }

  /** Only what went out is filed as sent, and a draft goes only after a message made from it went out, or by hand. */
  lemma NothingPretended(states: seq<System>, events: seq<Event>, k: nat)
    requires SoundRun(states, events) && states[0] == START && k <= |events|
    ensures var s := states[k];
      && (forall b :: b in s.sent ==> b in s.accepted && b in s.attempts && s.sent[b] == s.attempts[b].raw)
      && (forall key :: key in s.saved && key !in s.drafts && key !in s.discarded ==> SentFrom(s, key))
  {
    SoundRunHarmless(states, events, k);
  }
}
