/**
  The send handler and the recovery as they run, one storage call after the other.  Whatever
  the storage does, the calls make up a run of the send protocol; and if it works, recovery
  settles everything that is decided.
  */
module Outbox {
  import opened Options
  import opened Order
  import opened SendProtocol

  /** A marker as it was found. */
  datatype Pending = Pending(base: string, marker: Marker)

  predicate Decided(m: Marker) {
    m.id != ""
  }

  /** The markers somebody has to be asked about. */
  function Undecided(markers: map<string, Marker>): map<string, Marker> {
    map b | b in markers && !Decided(markers[b]) :: markers[b]
  }

  /** The copies that belong into the sent folder. */
  function Copies(markers: map<string, Marker>): map<string, string> {
    map b | b in markers && Decided(markers[b]) && markers[b].attempt.raw != "" :: markers[b].attempt.raw
  }

  /** The drafts of messages that are known to be out. */
  function SpentDrafts(markers: map<string, Marker>): set<string> {
    set b | b in markers && Decided(markers[b]) && markers[b].attempt.draft.Some? :: markers[b].attempt.draft.value
  }

  /**
    What a recovery may do, whatever fails: only decided markers go, each with its copy stored; only their
    copies come, and only their drafts go.
    */
  ghost predicate OnlySettled(markers0: map<string, Marker>, sent0: map<string, string>, drafts0: map<string, string>,
                              markers: map<string, Marker>, sent: map<string, string>, drafts: map<string, string>) {
    && (forall b :: b in markers ==> b in markers0 && markers[b] == markers0[b])
    && (forall b :: b in markers0 && b !in markers ==>
          Decided(markers0[b])
          && (markers0[b].attempt.raw != "" ==> b in sent && sent[b] == markers0[b].attempt.raw))
    && (forall b :: b in sent0 ==> b in sent)
    && (forall b :: b in sent && !(b in sent0 && sent[b] == sent0[b]) ==>
          b in markers0 && Decided(markers0[b]) && sent[b] == markers0[b].attempt.raw)
    && (forall k :: k in drafts ==> k in drafts0 && drafts[k] == drafts0[k])
    && (forall k :: k in drafts0 && k !in drafts ==>
          exists b :: b in markers0 && Decided(markers0[b]) && markers0[b].attempt.draft == Some(k))
  }

  lemma SettledMore(markers0: map<string, Marker>, sent0: map<string, string>, drafts0: map<string, string>,
                    markers: map<string, Marker>, sent: map<string, string>, drafts: map<string, string>, p: Pending,
                    markers': map<string, Marker>, sent': map<string, string>, drafts': map<string, string>)
    requires OnlySettled(markers0, sent0, drafts0, markers, sent, drafts)
    requires p.base in markers && markers[p.base] == p.marker && Decided(p.marker)
    requires markers' == markers
             || (markers' == markers - {p.base} && (p.marker.attempt.raw != "" ==> sent' == sent[p.base := p.marker.attempt.raw]))
    requires sent' == sent || (p.marker.attempt.raw != "" && sent' == sent[p.base := p.marker.attempt.raw])
    requires drafts' == drafts || drafts' == WithoutDraft(drafts, p.marker.attempt.draft)
    ensures OnlySettled(markers0, sent0, drafts0, markers', sent', drafts')
  {
  }

  lemma NoneSettled(markers: map<string, Marker>, sent: map<string, string>, drafts: map<string, string>)
    ensures OnlySettled(markers, sent, drafts, markers, sent, drafts)
  {
  }

  function Flat(told: seq<seq<bool>>): seq<bool> {
    if told == [] then [] else Flat(told[..|told| - 1]) + told[|told| - 1]
  }

  lemma FlatNext(start: seq<bool>, told: seq<seq<bool>>, more: seq<bool>)
    ensures start + Flat(told + [more]) == start + Flat(told) + more
  {
    assert (told + [more])[..|told|] == told;
    assert Flat(told + [more]) == Flat(told) + more;
  }

  /**
    Of the first i that were found, the decided ones were taken up, each with calls of its own: it is settled,
    or the last of them failed.
    */
  ghost predicate TakenUp(list: seq<Pending>, told: seq<seq<bool>>, i: nat, markers: map<string, Marker>) {
    && i <= |list| && |told| == i
    && forall k :: 0 <= k < i && Decided(list[k].marker) ==>
         told[k] != [] && (list[k].base in markers ==> !told[k][|told[k]| - 1])
  }

  lemma NoneTaken(list: seq<Pending>, markers: map<string, Marker>)
    ensures TakenUp(list, [], 0, markers)
  {
  }

  lemma NoneTold(start: seq<bool>)
    ensures start + Flat([]) == start
  {
  }

  lemma TakenNext(list: seq<Pending>, told: seq<seq<bool>>, i: nat, was: map<string, Marker>, markers: map<string, Marker>,
                  more: seq<bool>)
    requires i < |list| && TakenUp(list, told, i, was) && markers.Keys <= was.Keys
    requires Decided(list[i].marker) ==> more != [] && (list[i].base in markers ==> !more[|more| - 1])
    ensures TakenUp(list, told + [more], i + 1, markers)
  {
    hide Decided;
  }

  /** What storage answered to the calls of a send after the first: of those that were made. */
  datatype Told = Told(read: bool, recorded: bool, copied: bool, dropped: bool, cleared: bool)

  const ALL_WELL := Told(true, true, true, true, true)

  /** The marker after the mail service answered, and after so many steps. */
  function MarkersAt(m: map<string, Marker>, base: string, attempt: Attempt, marked: bool, accepts: bool, id: string,
                     steps: nat, t: Told): map<string, Marker>
  {
    if !marked || steps <= 2 then m
    else if !accepts then if t.cleared then m - {base} else m
    else
      var recorded := if t.read && t.recorded then m[base := Marker(id, attempt)] else m;
      if steps >= 6 && t.cleared then recorded - {base} else recorded
  }

  function SentAt(sent: map<string, string>, base: string, attempt: Attempt, accepts: bool, steps: nat, t: Told):
    map<string, string>
  {
    if accepts && steps >= 4 && t.copied then sent[base := attempt.raw] else sent
  }

  function DraftsAt(drafts: map<string, string>, attempt: Attempt, accepts: bool, steps: nat, t: Told): map<string, string> {
    if accepts && steps >= 5 && t.dropped then WithoutDraft(drafts, attempt.draft) else drafts
  }

  /** The calls made for it, after the id has been recorded or not. */
  function FilingCalls(attempt: Attempt, marked: bool, steps: nat, t: Told): seq<bool> {
    if steps < 4 then [] else [t.copied] + DroppingCalls(attempt, marked, steps, t)
  }

  function DroppingCalls(attempt: Attempt, marked: bool, steps: nat, t: Told): seq<bool> {
    if steps < 5 then []
    else (if attempt.draft.Some? then [t.dropped] else []) + (if marked && steps >= 6 then [t.cleared] else [])
  }

  lemma NothingDropped(drafts: map<string, string>, attempt: Attempt, marked: bool, steps: nat, t: Told)
    requires steps < 4
    ensures drafts == DraftsAt(drafts, attempt, true, steps, t)
  {
  }

  /** The answer to the copy says nothing about the draft. */
  lemma SameDropped(drafts: map<string, string>, attempt: Attempt, marked: bool, steps: nat, t: Told, copied: bool)
    ensures var u := t.(copied := copied);
      && DraftsAt(drafts, attempt, true, steps, u) == DraftsAt(drafts, attempt, true, steps, t)
      && DroppingCalls(attempt, marked, steps, u) == DroppingCalls(attempt, marked, steps, t)
      && (steps >= 6 ==> DraftsAt(drafts, attempt, true, steps, t) == DraftsAt(drafts, attempt, true, 6, t))
  {
  }

  /** Nor do those to reading and recording the marker say anything about what comes after. */
  lemma SameFiled(sent: map<string, string>, drafts: map<string, string>, base: string, attempt: Attempt, marked: bool,
                  steps: nat, t: Told, read: bool, recorded: bool)
    ensures var u := t.(read := read, recorded := recorded);
      && SentAt(sent, base, attempt, true, steps, u) == SentAt(sent, base, attempt, true, steps, t)
      && DraftsAt(drafts, attempt, true, steps, u) == DraftsAt(drafts, attempt, true, steps, t)
      && FilingCalls(attempt, marked, steps, u) == FilingCalls(attempt, marked, steps, t)
  {
  }

  /** The calls made for it, after the first. */
  function CallsAt(attempt: Attempt, marked: bool, accepts: bool, steps: nat, t: Told): seq<bool> {
    if accepts then
      (if steps >= 3 && marked && t.read then [t.recorded] else []) + FilingCalls(attempt, marked, steps, t)
    else if marked && steps >= 3 then [t.cleared]
    else []
  }

  /** The calls that finishing a send makes, by their answers: a copy, a draft, the marker; after a failed copy none. */
  function CallsFor(a: Attempt, copied: bool, dropped: bool, cleared: bool): seq<bool> {
    (if a.raw != "" then [copied] else [])
    + (if !copied then [] else (if a.draft.Some? then [dropped] else []) + [cleared])
  }

  /** The last of them tells how it ended. */
  lemma CallsEnd(a: Attempt, copied: bool, dropped: bool, cleared: bool)
    requires (cleared ==> copied) && (a.raw == "" ==> copied)
    ensures var told := CallsFor(a, copied, dropped, cleared); told != [] && told[|told| - 1] == cleared
  {
  }

  class Outbox {
    const working: bool
    var drafts: map<string, string>
    var markers: map<string, Marker>
    var sent: map<string, string>

    /** The run of the protocol so far. */
    ghost var states: seq<System>
    ghost var events: seq<Event>

    /** Which of the calls that write went through, and which of those that only read. */
    ghost var calls: seq<bool>
    ghost var answers: seq<bool>

    ghost predicate InStep()
      reads `drafts, `markers, `sent, `states, `events
    {
      && Run(states, events) && states[0] == START
      && drafts == Now().drafts && markers == Now().markers && sent == Now().sent
    }

    /** Nothing in the run so far did any harm. */
    ghost predicate Safe()
      reads `states, `events
    {
      SoundRun(states, events)
    }

    ghost function Now(): System
      requires |states| > 0
      reads `states
    {
      states[|states| - 1]
    }

    constructor (working: bool)
      ensures InStep() && Safe() && states == [START] && this.working == working
    {
      this.working := working;
      drafts, markers, sent := map[], map[], map[];
      states, events, calls, answers := [START], [], [], [];
    }

    /** One more event of the run; the storage has already changed accordingly. */
    ghost method Record(e: Event)
      requires Run(states, events) && states[0] == START && Enabled(Now(), e)
      requires var s := Do(Now(), e); drafts == s.drafts && markers == s.markers && sent == s.sent
      modifies this`states, this`events
      ensures InStep() && Now() == Do(old(Now()), e) && events == old(events) + [e]
      ensures Safe() <==> old(Safe()) && Sound(old(Now()), e)
    {
      hide Do, Enabled, Sound;
      var s := Do(Now(), e);
      var was, done := states, events;
      states, events := states + [s], events + [e];
      forall i | 0 <= i < |events| ensures Follows(states[i], events[i], states[i + 1]) {
        if i < |done| {
          assert Follows(was[i], done[i], was[i + 1]);
        }
      }
      assert events[|done|] == e && states[|done|] == was[|done|];
      assert forall i :: 0 <= i < |done| ==> events[i] == done[i] && states[i] == was[i];
    }

    // -- storage calls, any of which may fail -------------------------------------------------------

    method Try() returns (ok: bool)
      ensures working ==> ok
    {
      ok := *;
      if working {
        ok := true;
      }
    }

    method PutMarker(base: string, m: Marker) returns (ok: bool)
      modifies this`markers, this`calls
      ensures markers == (if ok then old(markers)[base := m] else old(markers)) && (working ==> ok)
      ensures calls == old(calls) + [ok]
    {
      ok := Try();
      calls := calls + [ok];
      if ok {
        markers := markers[base := m];
      }
    }

    method GetMarker(base: string) returns (m: Option<Marker>, ghost ok: bool)
      modifies this`answers
      ensures m == (if ok && base in markers then Some(markers[base]) else None) && (working ==> ok)
      ensures answers == old(answers) + [ok]
    {
      var got := Try();
      ok := got;
      answers := answers + [ok];
      m := if got && base in markers then Some(markers[base]) else None;
    }

    method DeleteMarker(base: string) returns (ok: bool)
      modifies this`markers, this`calls
      ensures markers == (if ok then old(markers) - {base} else old(markers)) && (working ==> ok)
      ensures calls == old(calls) + [ok]
    {
      ok := Try();
      calls := calls + [ok];
      if ok {
        markers := markers - {base};
      }
    }

    method PutSent(base: string, raw: string) returns (ok: bool)
      modifies this`sent, this`calls
      ensures sent == (if ok then old(sent)[base := raw] else old(sent)) && (working ==> ok)
      ensures calls == old(calls) + [ok]
    {
      ok := Try();
      calls := calls + [ok];
      if ok {
        sent := sent[base := raw];
      }
    }

    method DropDraft(key: string) returns (ok: bool)
      modifies this`drafts, this`calls
      ensures drafts == (if ok then old(drafts) - {key} else old(drafts)) && (working ==> ok)
      ensures calls == old(calls) + [ok]
    {
      ok := Try();
      calls := calls + [ok];
      if ok {
        drafts := drafts - {key};
      }
    }

    // -- the handler -----------------------------------------------------------------------------------

    /** The handler of this message has come this far. */
    ghost predicate Handling(base: string, attempt: Attempt, phase: Phase, marked: bool)
      reads `drafts, `markers, `sent, `states, `events
    {
      && InStep() && Stands(Now(), base, phase) && Now().live[base].marked == marked
      && base in Now().attempts && Now().attempts[base] == attempt
    }

    /** Stores a draft under a name that is new. */
    method SaveDraft(key: string, raw: string) returns (ok: bool)
      requires InStep() && key !in Now().saved && forall b :: b in Now().attempts ==> Now().attempts[b].draft != Some(key)
      modifies this`drafts, this`states, this`events
      ensures InStep() && old(events) <= events
      ensures Safe() == old(Safe())
      ensures drafts == (if ok then old(drafts)[key := raw] else old(drafts)) && (working ==> ok)
    {
      ok := Try();
      if ok {
        drafts := drafts[key := raw];
        Record(SendProtocol.SaveDraft(key, raw));
      }
    }

    /** In a run without harm, a message never sent has no marker, and is not out. */
    ghost predicate Untouched(base: string)
      requires states != []
      reads `markers, `states
    {
      base !in Now().accepted && base !in markers
    }

    lemma NewIsUntouched(base: string)
      requires InStep() && Safe() && base !in Now().attempts
      ensures Untouched(base)
    {
      SoundRunHarmless(states, events, |events|);
      hide Harmless, SoundRun;
      assert base in markers ==> MarkerFits(Now(), base);
    }

    /** The run has gone on, without anything being accepted for sending. */
    twostate predicate NothingNew()
      requires old(states) != [] && states != []
      reads `states, `events
    {
      old(events) <= events && Now().accepted == old(Now().accepted)
    }

    /**
      Sends a message.  What the mail service says is a parameter, and after how many steps the program dies,
      if it does.  Whatever fails, it does no harm exactly if a message that is out had a marker, and has it
      still or is settled.
      */
    method Send(base: string, attempt: Attempt, accepts: bool, id: string, steps: nat) returns (marked: bool, ghost t: Told)
      requires InStep() && base !in Now().attempts && base !in Now().live && attempt.raw != "" && id != ""
      modifies this
      ensures InStep() && old(events) <= events && base !in Now().live
      ensures base in Now().attempts && Now().attempts[base] == attempt
      ensures old(Safe()) ==> (base in Now().accepted <==> accepts && steps >= 2)
      ensures old(Safe()) ==>
        (Safe() <==> (base in Now().accepted ==> marked && (base in markers || Settled(Now(), base))))
      ensures working && old(Safe()) ==> Safe()
      ensures working ==> marked && t == ALL_WELL
      ensures var m := if marked then old(markers)[base := Marker("", attempt)] else old(markers);
        && markers == MarkersAt(m, base, attempt, marked, accepts, id, steps, t)
        && sent == SentAt(old(sent), base, attempt, accepts, steps, t)
        && drafts == DraftsAt(old(drafts), attempt, accepts, steps, t)
      ensures calls == old(calls) + [marked] + CallsAt(attempt, marked, accepts, steps, t)
      ensures answers == old(answers) + (if marked && accepts && steps >= 3 then [t.read] else [])
    {
      if Safe() {
        NewIsUntouched(base);
      }
      hide Handling, WithoutDraft, InStep, Safe, Settled;
      t := ALL_WELL;
      marked := BeginSend(base, attempt);
      if steps <= 1 {
        Died(base, attempt, Marked, marked);
      } else {
        t := Deliver(base, attempt, marked, accepts, id, steps);
      }
    }

    /** The step that cannot be undone, and what follows. */
    method Deliver(base: string, attempt: Attempt, marked: bool, accepts: bool, id: string, steps: nat) returns (ghost t: Told)
      requires Handling(base, attempt, Marked, marked) && id != "" && attempt.raw != "" && steps >= 2
      requires marked ==> base in markers && markers[base].attempt == attempt
      modifies this
      ensures InStep() && old(events) <= events && base !in Now().live
      ensures base in Now().attempts && Now().attempts[base] == attempt
      ensures Now().accepted == old(Now().accepted) + (if accepts then {base} else {})
      ensures old(Safe()) && base !in old(Now().accepted) && (marked <==> base in old(markers)) ==>
        (Safe() <==> (accepts ==> marked && (base in markers || MayClear(Now(), base))))
      ensures working && marked && base !in old(Now().accepted) ==> base in markers || MayClear(Now(), base)
      ensures (working ==> t == ALL_WELL) && markers == MarkersAt(old(markers), base, attempt, marked, accepts, id, steps, t)
      ensures sent == SentAt(old(sent), base, attempt, accepts, steps, t)
      ensures drafts == DraftsAt(old(drafts), attempt, accepts, steps, t)
      ensures calls == old(calls) + CallsAt(attempt, marked, accepts, steps, t)
      ensures answers == old(answers) + (if marked && accepts && steps >= 3 then [t.read] else [])
    {
      hide Handling, WithoutDraft, InStep, Safe, Settled;
      t := ALL_WELL;
      Answered(base, attempt, marked, accepts);
      if steps == 2 {
        Died(base, attempt, if accepts then Accepted else Refused, marked);
      } else if accepts {
        t := FileAccepted(base, attempt, marked, id, steps);
      } else {
        ghost var cleared := AbandonSend(base, attempt, Refused, marked);
        t := t.(cleared := cleared);
      }
    }

    /** What follows once the message is out. */
    method FileAccepted(base: string, attempt: Attempt, marked: bool, id: string, steps: nat) returns (ghost t: Told)
      requires Handling(base, attempt, Accepted, marked) && id != "" && attempt.raw != "" && steps >= 3
      requires marked ==> base in markers && markers[base].attempt == attempt
      modifies this
      ensures InStep() && NothingNew() && base !in Now().live
      ensures base in Now().attempts && Now().attempts[base] == attempt
      ensures old(Safe()) && marked && base in old(markers) ==>
        (Safe() <==> base in markers || MayClear(Now(), base))
      ensures !marked ==> Safe() == old(Safe())
      ensures working && marked ==> base in markers || MayClear(Now(), base)
      ensures (working ==> t == ALL_WELL) && markers == MarkersAt(old(markers), base, attempt, marked, true, id, steps, t)
      ensures sent == SentAt(old(sent), base, attempt, true, steps, t)
      ensures drafts == DraftsAt(old(drafts), attempt, true, steps, t)
      ensures calls == old(calls) + CallsAt(attempt, marked, true, steps, t)
      ensures answers == old(answers) + (if marked then [t.read] else [])
    {
      hide Handling, WithoutDraft, InStep, Safe, MayClear, SentAt, DraftsAt, FilingCalls;
      ghost var read, recorded := MarkSent(base, attempt, marked, id);
      ghost var filed := FileAway(base, attempt, marked, steps);
      SameFiled(old(sent), old(drafts), base, attempt, marked, steps, filed, read, recorded);
      t := filed.(read := read, recorded := recorded);
    }

    /** Copy, draft and marker. */
    method FileAway(base: string, attempt: Attempt, marked: bool, steps: nat) returns (ghost t: Told)
      requires Handling(base, attempt, Recorded, marked) && steps >= 3
      modifies this`drafts, this`markers, this`sent, this`states, this`events, this`calls
      ensures InStep() && NothingNew() && base !in Now().live
      ensures base in Now().attempts && Now().attempts[base] == attempt
      ensures old(Safe()) && marked && base in old(markers) ==> (Safe() <==> base in markers || MayClear(Now(), base))
      ensures !marked ==> Safe() == old(Safe())
      ensures working && steps >= 6 ==> MayClear(Now(), base)
      ensures markers == if marked && steps >= 6 && t.cleared then old(markers) - {base} else old(markers)
      ensures sent == SentAt(old(sent), base, attempt, true, steps, t)
      ensures drafts == DraftsAt(old(drafts), attempt, true, steps, t)
      ensures calls == old(calls) + FilingCalls(attempt, marked, steps, t) && (working ==> t == ALL_WELL)
    {
      hide Handling, WithoutDraft, InStep, Safe, MayClear, DraftsAt, DroppingCalls;
      t := ALL_WELL;
      if steps == 3 {
        Died(base, attempt, Recorded, marked);
        NothingDropped(drafts, attempt, marked, steps, t);
        return;
      }
      ghost var copied := FileSent(base, attempt, marked);
      t := DropAway(base, attempt, marked, steps);
      SameDropped(old(drafts), attempt, marked, steps, t, copied);
      if working && steps >= 6 {
        SettledNow(base, attempt, old(sent), old(drafts));
      }
      t := t.(copied := copied);
    }

    /** Draft and marker. */
    method DropAway(base: string, attempt: Attempt, marked: bool, steps: nat) returns (ghost t: Told)
      requires Handling(base, attempt, Copied, marked) && steps >= 4
      modifies this`drafts, this`markers, this`states, this`events, this`calls
      ensures InStep() && NothingNew() && base !in Now().live
      ensures base in Now().attempts && Now().attempts[base] == attempt
      ensures old(Safe()) && marked && base in old(markers) ==> (Safe() <==> base in markers || MayClear(Now(), base))
      ensures !marked ==> Safe() == old(Safe())
      ensures markers == if marked && steps >= 6 && t.cleared then old(markers) - {base} else old(markers)
      ensures drafts == DraftsAt(old(drafts), attempt, true, steps, t)
      ensures calls == old(calls) + DroppingCalls(attempt, marked, steps, t) && (working ==> t == ALL_WELL)
    {
      hide Handling, WithoutDraft, InStep, Safe, MayClear;
      t := ALL_WELL;
      if steps == 4 {
        Died(base, attempt, Copied, marked);
        return;
      }
      ghost var dropped := DropOwnDraft(base, attempt, marked);
      t := t.(dropped := dropped);
      if steps == 5 {
        Died(base, attempt, Dropped, marked);
        return;
      }
      ghost var cleared := AbandonSend(base, attempt, Dropped, marked);
      t := t.(cleared := cleared);
    }

    lemma SettledNow(base: string, attempt: Attempt, sent0: map<string, string>, drafts0: map<string, string>)
      requires InStep() && base in Now().attempts && Now().attempts[base] == attempt
      requires sent == sent0[base := attempt.raw] && drafts == DraftsAt(drafts0, attempt, true, 6, ALL_WELL)
      ensures MayClear(Now(), base)
    {
    }

    ghost method Died(base: string, attempt: Attempt, phase: Phase, marked: bool)
      requires Handling(base, attempt, phase, marked)
      modifies this`states, this`events
      ensures InStep() && NothingNew() && base !in Now().live && Safe() == old(Safe())
      ensures base in Now().attempts && Now().attempts[base] == attempt
    {
      Record(Die(base));
    }

    /** Puts the marker; the send goes on even without one. */
    method BeginSend(base: string, attempt: Attempt) returns (marked: bool)
      requires InStep() && base !in Now().attempts && base !in Now().live && attempt.raw != ""
      modifies this`markers, this`states, this`events, this`calls
      ensures Handling(base, attempt, Marked, marked) && NothingNew() && Safe() == old(Safe())
      ensures markers == (if marked then old(markers)[base := Marker("", attempt)] else old(markers))
      ensures calls == old(calls) + [marked] && (working ==> marked)
    {
      Started(base, attempt);
      marked := PutMarker(base, Marker("", attempt));
      Record(SendProtocol.PutMarker(base, marked));
    }

    ghost method Started(base: string, attempt: Attempt)
      requires InStep() && base !in Now().attempts && attempt.raw != ""
      modifies this`states, this`events
      ensures Handling(base, attempt, Begun, false) && NothingNew() && Safe() == old(Safe())
    {
      Record(Begin(base, attempt));
    }

    /** The answer of the mail service. */
    ghost method Answered(base: string, attempt: Attempt, marked: bool, accepts: bool)
      requires Handling(base, attempt, Marked, marked)
      modifies this`states, this`events
      ensures Handling(base, attempt, if accepts then Accepted else Refused, marked) && old(events) <= events
      ensures Now().accepted == old(Now().accepted) + (if accepts then {base} else {})
      ensures Safe() <==> old(Safe()) && (accepts ==> base in markers)
    {
      Record(Answer(base, accepts));
    }

    /** Writes the id into the marker, if there is one and it can be read. */
    method MarkSent(base: string, attempt: Attempt, marked: bool, id: string) returns (ghost read: bool, ghost recorded: bool)
      requires Handling(base, attempt, Accepted, marked) && id != ""
      requires marked ==> base in markers && markers[base].attempt == attempt
      modifies this`markers, this`states, this`events, this`calls, this`answers
      ensures Handling(base, attempt, Recorded, marked) && NothingNew() && Safe() == old(Safe())
      ensures markers == if marked && read && recorded then old(markers)[base := Marker(id, attempt)] else old(markers)
      ensures calls == old(calls) + (if marked && read then [recorded] else [])
      ensures answers == old(answers) + (if marked then [read] else [])
      ensures working ==> read && recorded
    {
      read, recorded := true, true;
      if !marked {
        Record(ReadMarker(base, true));
        return;
      }
      var m;
      m, read := GetMarker(base);
      Record(ReadMarker(base, m.Some?));
      hide Handling, Safe;
      if m.Some? {
        recorded := RecordSent(base, m.value, attempt, id);
      }
    }

    method RecordSent(base: string, m: Marker, attempt: Attempt, id: string) returns (ghost recorded: bool)
      requires Handling(base, attempt, Fetched, true) && id != "" && m.attempt == attempt
      modifies this`markers, this`states, this`events, this`calls
      ensures Handling(base, attempt, Recorded, true) && NothingNew() && Safe() == old(Safe())
      ensures markers == if recorded then old(markers)[base := Marker(id, attempt)] else old(markers)
      ensures calls == old(calls) + [recorded] && (working ==> recorded)
    {
      var ok := PutMarker(base, m.(id := id));
      recorded := ok;
      Record(RecordId(base, id, ok));
    }

    /** The copy into sent: a failure is only a warning. */
    method FileSent(base: string, attempt: Attempt, marked: bool) returns (ghost copied: bool)
      requires Handling(base, attempt, Recorded, marked)
      modifies this`sent, this`states, this`events, this`calls
      ensures Handling(base, attempt, Copied, marked) && NothingNew() && Safe() == old(Safe())
      ensures sent == if copied then old(sent)[base := attempt.raw] else old(sent)
      ensures calls == old(calls) + [copied] && (working ==> copied)
    {
      var ok := PutSent(base, attempt.raw);
      copied := ok;
      Record(PutCopy(base, ok));
    }

    method DropOwnDraft(base: string, attempt: Attempt, marked: bool) returns (ghost dropped: bool)
      requires Handling(base, attempt, Copied, marked)
      modifies this`drafts, this`states, this`events, this`calls
      ensures Handling(base, attempt, Dropped, marked) && NothingNew() && Safe() == old(Safe())
      ensures drafts == if dropped then WithoutDraft(old(drafts), attempt.draft) else old(drafts)
      ensures calls == old(calls) + (if attempt.draft.Some? then [dropped] else []) && (working ==> dropped)
    {
      var ok := true;
      if attempt.draft.Some? {
        ok := DropDraft(attempt.draft.value);
      }
      dropped := ok;
      Record(SendProtocol.DropDraft(base, ok));
    }

    method AbandonSend(base: string, attempt: Attempt, phase: Phase, marked: bool) returns (ghost cleared: bool)
      requires Handling(base, attempt, phase, marked) && (phase == Dropped || phase == Refused)
      modifies this`markers, this`states, this`events, this`calls
      ensures InStep() && NothingNew() && base !in Now().live
      ensures base in Now().attempts && Now().attempts[base] == attempt
      ensures !marked ==> Safe() == old(Safe())
      ensures MayClear(Now(), base) <==> old(MayClear(Now(), base))
      ensures old(Safe()) && marked && base in old(markers) ==> (Safe() <==> base in markers || MayClear(Now(), base))
      ensures old(Safe()) && MayClear(Now(), base) ==> Safe()
      ensures markers == if marked && cleared then old(markers) - {base} else old(markers)
      ensures calls == old(calls) + (if marked then [cleared] else []) && (working ==> cleared)
    {
      var ok := true;
      if marked {
        ok := DeleteMarker(base);
      }
      cleared := ok;
      Record(ClearMarker(base, ok));
    }

    // -- recovery ------------------------------------------------------------------------------------------

    /** The markers that survived and can be read, in the order of their keys; nothing if the bucket does not answer. */
    method PendingSends()
      returns (r: Option<seq<Pending>>, ghost listed: bool, ghost names: seq<string>, ghost got: seq<bool>)
      modifies this`answers
      ensures answers == old(answers) + [listed] + got && |got| == |names| && (working ==> listed)
      ensures listed ==> Ascending(names) && forall b :: b in names <==> b in markers
      ensures r == if listed then Some(FoundBy(markers, names, got)) else None
      ensures r.Some? ==> Ascending(Bases(r.value)) && forall p :: p in r.value ==> p.base in markers && markers[p.base] == p.marker
      ensures working ==> r.Some? && forall b :: b in markers ==> Pending(b, markers[b]) in r.value
    {
      hide Ascending, FoundBy, Bases, Granted;
      names, got := [], [];
      var ok := Try();
      listed := ok;
      answers := answers + [ok];
      if !ok {
        return None, listed, [], [];
      }
      var order := Sorted(markers.Keys);
      names := order;
      var list;
      list, got := ReadMarkers(order);
      FoundInOrder(markers, order, got);
      if working {
        FoundAll(markers, order, got);
      }
      return Some(list), listed, names, got;
    }

    /** The markers of these that can be read; each is asked for. */
    method ReadMarkers(names: seq<string>) returns (list: seq<Pending>, ghost got: seq<bool>)
      modifies this`answers
      ensures answers == old(answers) + got && |got| == |names| && (working ==> Granted(got))
      ensures list == FoundBy(markers, names, got)
    {
      hide FoundBy, Granted;
      list, got := [], [];
      NoneFound(markers, names);
      for i := 0 to |names|
        invariant answers == old(answers) + got && |got| == i && (working ==> Granted(got))
        invariant list == FoundBy(markers, names[..i], got)
      {
        var m;
        ghost var read;
        m, read := GetMarker(names[i]);
        FoundNext(markers, names, got, i, read);
        GrantedNext(got, read);
        got := got + [read];
        if m.Some? {
          list := list + [Pending(names[i], m.value)];
        }
      }
      assert names[..|names|] == names;
    }

    /** Somebody is finishing this send. */
    ghost predicate Finishing(job: nat, p: Pending, copied: bool, dropped: bool)
      reads `drafts, `markers, `sent, `states, `events
    {
      InStep() && job in Now().jobs && Now().jobs[job] == Job(p.base, p.marker, copied, dropped)
    }

    /** What was found is about the attempt there was. */
    lemma FoundFits(job: nat, p: Pending, copied: bool, dropped: bool)
      requires Finishing(job, p, copied, dropped) && Safe()
      ensures p.base in Now().attempts && p.marker.attempt == Now().attempts[p.base] && p.marker.attempt.raw != ""
    {
      SoundRunHarmless(states, events, |events|);
      hide Harmless, SoundRun;
      assert JobFits(Now(), Now().jobs[job]);
    }

    /**
      Carries out what is left to do for a message that is out: no harm is done exactly if the marker stays, or
      the message is settled.
      */
    method FinishSent(ghost job: nat, p: Pending) returns (ok: bool, ghost copied: bool, ghost dropped: bool)
      requires Finishing(job, p, false, false)
      modifies this
      ensures InStep() && NothingNew()
      ensures old(Safe()) && p.base in Now().accepted && p.base in old(markers) ==>
        (Safe() <==> p.base in markers || MayClear(Now(), p.base))
      ensures working && old(Safe()) && p.base in Now().accepted ==> Safe()
      ensures markers == if ok then old(markers) - {p.base} else old(markers)
      ensures sent == old(sent) || (p.marker.attempt.raw != "" && sent == old(sent)[p.base := p.marker.attempt.raw])
      ensures ok && p.marker.attempt.raw != "" ==> sent == old(sent)[p.base := p.marker.attempt.raw]
      ensures drafts == if copied && dropped then WithoutDraft(old(drafts), p.marker.attempt.draft) else old(drafts)
      ensures calls == old(calls) + CallsFor(p.marker.attempt, copied, dropped, ok) && answers == old(answers)
      ensures (ok ==> copied) && (p.marker.attempt.raw == "" ==> copied)
      ensures working ==>
        && ok && markers == old(markers) - {p.base}
        && sent == (if p.marker.attempt.raw != "" then old(sent)[p.base := p.marker.attempt.raw] else old(sent))
        && drafts == WithoutDraft(old(drafts), p.marker.attempt.draft)
    {
      if Safe() {
        FoundFits(job, p, false, false);
      }
      hide Finishing, WithoutDraft, InStep, Safe, MayClear;
      dropped := false;
      ok := CopyOf(job, p);
      copied := ok;
      if ok {
        ok, dropped := DropAndClear(job, p);
      }
    }

    /** What follows once the copy is stored. */
    method DropAndClear(ghost job: nat, p: Pending) returns (ok: bool, ghost dropped: bool)
      requires Finishing(job, p, true, false)
      modifies this`drafts, this`markers, this`states, this`events, this`calls
      ensures InStep() && NothingNew() && Now().attempts == old(Now().attempts)
      ensures Safe() <==> old(Safe()) && (ok ==> MayClear(Now(), p.base))
      ensures markers == (if ok then old(markers) - {p.base} else old(markers)) && (working ==> ok && dropped)
      ensures drafts == if dropped then WithoutDraft(old(drafts), p.marker.attempt.draft) else old(drafts)
      ensures calls == old(calls) + ((if p.marker.attempt.draft.Some? then [dropped] else []) + [ok])
    {
      hide Finishing, WithoutDraft, InStep, Safe, MayClear;
      dropped := DropDraftOf(job, p);
      ok := ClearOf(job, p);
    }

    /**
      The user's answer.  "Sent" has the bookkeeping finished; "not sent" takes the marker away and touches
      nothing else.
      */
    method ResolveSending(base: string, wasSent: bool) returns (ok: bool, ghost got: bool)
      requires InStep()
      modifies this
      ensures InStep() && NothingNew()
      ensures old(Safe()) && old(Truthful(base, wasSent)) && (base in markers || MayClear(Now(), base)) ==> Safe()
      ensures working && old(Safe()) && old(Truthful(base, wasSent)) ==> Safe()
      ensures markers == if ok then old(markers) - {base} else old(markers)
      ensures !wasSent ==> drafts == old(drafts) && sent == old(sent)
      ensures ok ==> base in old(markers)
      ensures answers == old(answers) + [got] && (working ==> got) && (ok ==> got)
      ensures got && base in old(markers) ==> |calls| > |old(calls)| && (ok <==> calls[|calls| - 1])
      ensures got && base in old(markers) && !wasSent ==> calls == old(calls) + [ok]
      ensures ok && wasSent && old(markers)[base].attempt.raw != "" ==>
        sent == old(sent)[base := old(markers)[base].attempt.raw]
      ensures working && wasSent && base in old(markers) ==>
        var a := old(markers)[base].attempt;
        && ok && markers == old(markers) - {base} && drafts == WithoutDraft(old(drafts), a.draft)
        && sent == if a.raw != "" then old(sent)[base := a.raw] else old(sent)
      ensures working && !wasSent && base in old(markers) ==>
        ok && markers == old(markers) - {base} && drafts == old(drafts) && sent == old(sent)
      ensures base !in old(markers) ==> !ok && markers == old(markers) && drafts == old(drafts) && sent == old(sent)
    {
      var m;
      m, got := GetMarker(base);
      if m.None? {
        return false, got;
      }
      hide InStep, WithoutDraft, Safe, MayClear, CallsFor, Finishing, Truthful;
      if !wasSent {
        ok := Deny(base);
        return;
      }
      ghost var job := Confirmed(base);
      ghost var copied, dropped;
      ok, copied, dropped := FinishSent(job, Pending(base, m.value));
      CallsEnd(m.value.attempt, copied, dropped, ok);
    }

    /** "Not sent". */
    method Deny(base: string) returns (ok: bool)
      requires InStep() && base in markers
      modifies this`markers, this`states, this`events, this`calls
      ensures InStep() && NothingNew() && (working ==> ok)
      ensures Safe() <==> old(Safe()) && (ok ==> old(MayClear(Now(), base)))
      ensures MayClear(Now(), base) <==> old(MayClear(Now(), base))
      ensures markers == (if ok then old(markers) - {base} else old(markers)) && calls == old(calls) + [ok]
    {
      ghost var job := Unused(Now().jobs.Keys);
      ok := DeleteMarker(base);
      Record(Resolve(job, base, false, ok));
    }

    /** "Sent". */
    ghost method Confirmed(base: string) returns (job: nat)
      requires InStep() && base in markers
      modifies this`states, this`events
      ensures Finishing(job, Pending(base, markers[base]), false, false) && NothingNew() && Safe() == old(Safe())
    {
      job := Unused(Now().jobs.Keys);
      Record(Resolve(job, base, true, true));
    }

    /** "Sent" is said of a message that is out, "not sent" of one that is not, or is settled. */
    ghost predicate Truthful(base: string, wasSent: bool)
      requires states != []
      reads `states
    {
      if wasSent then base in Now().accepted else MayClear(Now(), base)
    }

    ghost method StartJob(p: Pending) returns (job: nat)
      requires InStep() && p.base in markers && markers[p.base] == p.marker && Decided(p.marker)
      modifies this`states, this`events
      ensures Finishing(job, p, false, false) && NothingNew() && Safe() == old(Safe())
      ensures Safe() ==> p.base in Now().accepted
    {
      job := Unused(Now().jobs.Keys);
      if Safe() {
        SoundRunHarmless(states, events, |events|);
        assert MarkerFits(Now(), p.base);
      }
      hide Harmless, Consistent;
      Record(Recover(job, p.base));
    }

    method CopyOf(ghost job: nat, p: Pending) returns (ok: bool)
      requires Finishing(job, p, false, false)
      modifies this`sent, this`states, this`events, this`calls
      ensures InStep() && NothingNew() && (ok ==> Finishing(job, p, true, false))
      ensures Now().attempts == old(Now().attempts)
      ensures p.base in Now().accepted ==> Safe() == old(Safe())
      ensures working ==> ok
      ensures ok ==> sent == if p.marker.attempt.raw != "" then old(sent)[p.base := p.marker.attempt.raw] else old(sent)
      ensures !ok ==> sent == old(sent)
      ensures calls == old(calls) + (if p.marker.attempt.raw != "" then [ok] else [])
      ensures p.marker.attempt.raw == "" ==> ok
    {
      ok := true;
      if |p.marker.attempt.raw| > 0 {
        ok := PutSent(p.base, p.marker.attempt.raw);
      }
      Record(JobCopy(job, ok));
    }

    method DropDraftOf(ghost job: nat, p: Pending) returns (ghost dropped: bool)
      requires Finishing(job, p, true, false)
      modifies this`drafts, this`states, this`events, this`calls
      ensures Finishing(job, p, true, true) && NothingNew() && Safe() == old(Safe())
      ensures Now().attempts == old(Now().attempts)
      ensures drafts == if dropped then WithoutDraft(old(drafts), p.marker.attempt.draft) else old(drafts)
      ensures working ==> dropped
      ensures calls == old(calls) + (if p.marker.attempt.draft.Some? then [dropped] else [])
    {
      var ok := true;
      if p.marker.attempt.draft.Some? {
        ok := DropDraft(p.marker.attempt.draft.value);
      }
      dropped := ok;
      Record(JobDrop(job, ok));
    }

    method ClearOf(ghost job: nat, p: Pending) returns (ok: bool)
      requires Finishing(job, p, true, true)
      modifies this`markers, this`states, this`events, this`calls
      ensures InStep() && NothingNew() && (working ==> ok)
      ensures Now().attempts == old(Now().attempts)
      ensures MayClear(Now(), p.base) <==> old(MayClear(Now(), p.base))
      ensures Safe() <==> old(Safe()) && (ok ==> MayClear(Now(), p.base))
      ensures markers == if ok then old(markers) - {p.base} else old(markers)
      ensures calls == old(calls) + [ok]
    {
      ok := DeleteMarker(p.base);
      Record(JobClear(job, ok));
    }

    /** The marker is gone, and the copy stored. */
    static predicate Settles(markers0: map<string, Marker>, sent0: map<string, string>, markers: map<string, Marker>,
                             sent: map<string, string>, p: Pending)
    {
      markers == markers0 - {p.base} && (p.marker.attempt.raw != "" ==> sent == sent0[p.base := p.marker.attempt.raw])
    }

    method FinishDecided(p: Pending) returns (ghost told: seq<bool>)
      requires InStep() && p.base in markers && markers[p.base] == p.marker && Decided(p.marker)
      modifies this
      ensures InStep() && old(events) <= events && (working && old(Safe()) ==> Safe())
      ensures calls == old(calls) + told && told != [] && answers == old(answers)
      ensures if told[|told| - 1] then Settles(old(markers), old(sent), markers, sent, p) else markers == old(markers)
      ensures sent == old(sent) || (p.marker.attempt.raw != "" && sent == old(sent)[p.base := p.marker.attempt.raw])
      ensures drafts == old(drafts) || drafts == WithoutDraft(old(drafts), p.marker.attempt.draft)
      ensures working ==>
        && markers == old(markers) - {p.base}
        && sent == (if p.marker.attempt.raw != "" then old(sent)[p.base := p.marker.attempt.raw] else old(sent))
        && drafts == WithoutDraft(old(drafts), p.marker.attempt.draft)
    {
      hide Finishing, WithoutDraft, Safe, MayClear, Decided, CallsFor;
      ghost var job := StartJob(p);
      var ok;
      ghost var copied, dropped;
      ok, copied, dropped := FinishSent(job, p);
      told := CallsFor(p.marker.attempt, copied, dropped, ok);
      CallsEnd(p.marker.attempt, copied, dropped, ok);
    }

    /** Settles every decided marker, and returns the others. */
    method RecoverSends()
      returns (ask: Option<seq<Pending>>, ghost listed: bool, ghost names: seq<string>, ghost got: seq<bool>,
               ghost told: seq<seq<bool>>)
      requires InStep()
      modifies this
      ensures InStep() && old(events) <= events
      ensures working && old(Safe()) ==> Safe()
      ensures ask.Some? ==> Ascending(Bases(ask.value)) && forall p :: p in ask.value ==>
        !Decided(p.marker) && p.base in old(markers) && old(markers)[p.base] == p.marker
      ensures OnlySettled(old(markers), old(sent), old(drafts), markers, sent, drafts)
      ensures answers == old(answers) + [listed] + got && |got| == |names| && calls == old(calls) + Flat(told)
      ensures listed ==> Ascending(names) && forall b :: b in names <==> b in old(markers)
      ensures var found := FoundBy(old(markers), names, got);
        && ask == (if listed then Some(OpenFirst(found, |found|)) else None)
        && (listed ==> TakenUp(found, told, |found|, markers))
      ensures working ==>
        && ask.Some? && (forall b :: b in Undecided(old(markers)) ==> Pending(b, old(markers)[b]) in ask.value)
        && markers == Undecided(old(markers))
        && sent == old(sent) + Copies(old(markers))
        && drafts == old(drafts) - SpentDrafts(old(markers))
    {
      hide Left, ListOf, OpenFirst, Decided, Copies, SpentDrafts, Undecided, InStep, Safe, Ascending, Bases,
           WithoutDraft, MarkersAfter, SentAfter, DraftsAfter, OnlySettled, FoundBy, TakenUp, Flat;
      ghost var m0, sent0, drafts0 := markers, sent, drafts;
      NoneSettled(m0, sent0, drafts0);
      NoneTold(calls);
      var pending;
      told := [];
      pending, listed, names, got := PendingSends();
      if pending == None {
        return None, listed, names, got, told;
      }
      var list := pending.value;
      var todo: seq<Pending> := [];
      FoundList(list, m0);
      NoneTaken(list, markers);
      NothingDone(m0, sent0, drafts0, list);
      AllLeft(list, m0);
      for i := 0 to |list|
        invariant InStep() && old(events) <= events && todo == OpenFirst(list, i)
        invariant working && old(Safe()) ==> Safe()
        invariant Left(list, markers, i) && OnlySettled(m0, sent0, drafts0, markers, sent, drafts)
        invariant answers == old(answers) + [listed] + got
        invariant calls == old(calls) + Flat(told) && TakenUp(list, told, i, markers)
        invariant working ==> markers == MarkersAfter(m0, list, i)
        invariant working ==> sent == SentAfter(sent0, list, i) && drafts == DraftsAfter(drafts0, list, i)
      {
        OneMoreDone(m0, sent0, drafts0, list, i);
        OpenNext(list, i);
        NextLeft(list, markers, i);
        if Decided(list[i].marker) {
          ghost var m, s, d := markers, sent, drafts;
          ghost var more := FinishDecided(list[i]);
          TakenNext(list, told, i, m, markers, more);
          FlatNext(old(calls), told, more);
          told := told + [more];
          SettledMore(m0, sent0, drafts0, m, s, d, list[i], markers, sent, drafts);
        } else {
          todo := todo + [list[i]];
          TakenNext(list, told, i, markers, markers, []);
          FlatNext(old(calls), told, []);
          told := told + [[]];
        }
      }
      OpenOnes(list, |list|);
      if working {
        AllDone(m0, sent0, drafts0, list);
        UndecidedOnes(m0);
      }
      return Some(todo), listed, names, got, told;
    }
  }

  /** What the program finds in its storage if nothing has done any harm, whatever sends died on the way. */
  lemma SafeStorage(o: Outbox)
    requires o.InStep() && o.Safe()
    ensures forall key :: key in o.drafts && (forall b :: b in o.markers ==> o.markers[b].attempt.draft != Some(key)) ==>
      !SentFrom(o.Now(), key)
    ensures forall b :: b in o.Now().accepted && b !in o.markers ==> b in o.Now().attempts && Settled(o.Now(), b)
    ensures forall b :: b in o.sent ==> b in o.Now().accepted && b in o.Now().attempts
                                        && o.sent[b] == o.Now().attempts[b].raw
  {
    var k := |o.events|;
    NothingPretended(o.states, o.events, k);
    hide SentFrom, Settled, SoundRun;
    forall key | key in o.drafts && (forall b :: b in o.markers ==> o.markers[b].attempt.draft != Some(key))
      ensures !SentFrom(o.Now(), key)
    {
      UnmarkedDraftNeverSent(o.states, o.events, k, key);
    }
    forall b | b in o.Now().accepted && b !in o.markers ensures b in o.Now().attempts && Settled(o.Now(), b) {
      ClearedMeansSettled(o.states, o.events, k, b);
    }
  }

  lemma {:induction false} Bounded(names: set<nat>) returns (m: nat)
    ensures forall n :: n in names ==> n < m
  {
    m := 0;
    if names != {} {
      var n :| n in names;
      var rest := Bounded(names - {n});
      m := if n >= rest then n + 1 else rest;
      assert names == (names - {n}) + {n};
    }
  }

  ghost method Unused(names: set<nat>) returns (j: nat)
    ensures j !in names
  {
    j := Bounded(names);
  }

  // -- recovering marker by marker -------------------------------------------------------------------------

  /** The markers that were read, by the answers there were. */
  function FoundBy(m: map<string, Marker>, names: seq<string>, got: seq<bool>): seq<Pending>
    requires |got| == |names|
  {
    if names == [] then []
    else
      var n := |names| - 1;
      FoundBy(m, names[..n], got[..n])
      + (if got[n] && names[n] in m then [Pending(names[n], m[names[n]])] else [])
  }

  ghost predicate Granted(got: seq<bool>) {
    forall i :: 0 <= i < |got| ==> got[i]
  }

  lemma GrantedNext(got: seq<bool>, ok: bool)
    ensures ok && Granted(got) ==> Granted(got + [ok])
  {
  }

  lemma NoneFound(m: map<string, Marker>, names: seq<string>)
    ensures FoundBy(m, names[..0], []) == [] && Granted([])
  {
  }

  lemma FoundNext(m: map<string, Marker>, names: seq<string>, got: seq<bool>, i: nat, read: bool)
    requires i < |names| && |got| == i
    ensures FoundBy(m, names[..i + 1], got + [read])
         == FoundBy(m, names[..i], got) + (if read && names[i] in m then [Pending(names[i], m[names[i]])] else [])
    ensures !(read && names[i] in m) ==> FoundBy(m, names[..i + 1], got + [read]) == FoundBy(m, names[..i], got)
  {
    assert names[..i + 1][..i] == names[..i] && (got + [read])[..i] == got;
  }

  lemma {:induction false} FoundInOrder(m: map<string, Marker>, names: seq<string>, got: seq<bool>)
    requires |got| == |names| && Ascending(names)
    ensures Ascending(Bases(FoundBy(m, names, got)))
    ensures forall p :: p in FoundBy(m, names, got) ==> p.base in m && m[p.base] == p.marker && p.base in names
  {
    hide Before;
    if names != [] {
      var n := |names| - 1;
      FoundInOrder(m, names[..n], got[..n]);
      assert names == names[..n] + [names[n]];
      PrefixBefore(names, n);
      var list := FoundBy(m, names[..n], got[..n]);
      if got[n] && names[n] in m {
        OneMorePending(list, Pending(names[n], m[names[n]]), names[..n]);
      } else {
        assert list + [] == list;
      }
    }
  }

  lemma {:induction false} FoundAll(m: map<string, Marker>, names: seq<string>, got: seq<bool>)
    requires |got| == |names| && Granted(got)
    ensures forall b :: b in names && b in m ==> Pending(b, m[b]) in FoundBy(m, names, got)
  {
    if names != [] {
      var n := |names| - 1;
      FoundAll(m, names[..n], got[..n]);
      assert names == names[..n] + [names[n]];
    }
  }

  function Bases(list: seq<Pending>): (bases: seq<string>)
    ensures |bases| == |list|
  {
    seq(|list|, i requires 0 <= i < |list| => list[i].base)
  }

  /** The open ones among the first k. */
  function OpenFirst(list: seq<Pending>, k: nat): seq<Pending>
    requires k <= |list|
  {
    if k == 0 then []
    else OpenFirst(list, k - 1) + (if Decided(list[k - 1].marker) then [] else [list[k - 1]])
  }

  lemma PrefixBefore(names: seq<string>, i: nat)
    requires Ascending(names) && i < |names|
    ensures names[..i + 1] == names[..i] + [names[i]]
    ensures forall n :: n in names[..i] ==> Before(n, names[i])
  {
    hide Before;
  }

  lemma OneMorePending(list: seq<Pending>, p: Pending, before: seq<string>)
    requires Ascending(Bases(list)) && (forall q :: q in list ==> q.base in before) && forall n :: n in before ==> Before(n, p.base)
    ensures Ascending(Bases(list + [p]))
  {
    hide Before;
    var more := Bases(list + [p]);
    forall i, j | 0 <= i < j < |more| ensures Before(more[i], more[j]) {
      if j == |list| {
        assert list[i] in list && more[i] == list[i].base;
      } else {
        assert more[i] == Bases(list)[i] && more[j] == Bases(list)[j];
      }
    }
  }

  ghost predicate ListOf(list: seq<Pending>, m: map<string, Marker>) {
    forall p :: p in list ==> p.base in m && m[p.base] == p.marker
  }

  lemma FoundList(list: seq<Pending>, m: map<string, Marker>)
    requires forall p :: p in list ==> p.base in m && m[p.base] == p.marker
    ensures ListOf(list, m) && OpenFirst(list, 0) == []
  {
  }

  lemma UndecidedOnes(m: map<string, Marker>)
    ensures forall b :: b in Undecided(m) ==> b in m && !Decided(m[b])
  {
  }

  lemma FoundIn(list: seq<Pending>, m: map<string, Marker>)
    requires ListOf(list, m)
    ensures forall k :: 0 <= k < |list| ==> list[k].base in m && m[list[k].base] == list[k].marker
  {
    assert forall k :: 0 <= k < |list| ==> list[k] in list;
  }

  /** From number i on they lie there as they were found. */
  ghost predicate Left(list: seq<Pending>, markers: map<string, Marker>, i: nat) {
    i <= |list| && forall k :: i <= k < |list| ==> list[k].base in markers && markers[list[k].base] == list[k].marker
  }

  lemma AllLeft(list: seq<Pending>, m: map<string, Marker>)
    requires ListOf(list, m)
    ensures Left(list, m, 0)
  {
    FoundIn(list, m);
  }

  lemma NextLeft(list: seq<Pending>, markers: map<string, Marker>, i: nat)
    requires i < |list| && Ascending(Bases(list)) && Left(list, markers, i)
    ensures list[i].base in markers && markers[list[i].base] == list[i].marker
    ensures Left(list, markers, i + 1) && Left(list, markers - {list[i].base}, i + 1)
  {
    Distinct(list);
  }

  lemma OpenNext(list: seq<Pending>, i: nat)
    requires i < |list|
    ensures OpenFirst(list, 0) == []
    ensures OpenFirst(list, i + 1) == if Decided(list[i].marker) then OpenFirst(list, i) else OpenFirst(list, i) + [list[i]]
  {
  }

  lemma Distinct(list: seq<Pending>)
    requires Ascending(Bases(list))
    ensures forall i, j :: 0 <= i < j < |list| ==> list[i].base != list[j].base
  {
    AscendingDistinct(Bases(list));
    forall i, j | 0 <= i < j < |list| ensures list[i].base != list[j].base {
      assert Bases(list)[i] != Bases(list)[j];
    }
  }

  function DoneBases(list: seq<Pending>, k: nat): set<string>
    requires k <= |list|
  {
    if k == 0 then {} else DoneBases(list, k - 1) + (if Decided(list[k - 1].marker) then {list[k - 1].base} else {})
  }

  function DoneCopies(list: seq<Pending>, k: nat): map<string, string>
    requires k <= |list|
  {
    if k == 0 then map[]
    else
      var p := list[k - 1];
      DoneCopies(list, k - 1)
      + (if Decided(p.marker) && p.marker.attempt.raw != "" then map[p.base := p.marker.attempt.raw] else map[])
  }

  function DoneDrafts(list: seq<Pending>, k: nat): set<string>
    requires k <= |list|
  {
    if k == 0 then {}
    else
      var p := list[k - 1];
      DoneDrafts(list, k - 1)
      + (if Decided(p.marker) && p.marker.attempt.draft.Some? then {p.marker.attempt.draft.value} else {})
  }

  /** What is left, and what has come, when the first k are done. */
  function MarkersAfter(m: map<string, Marker>, list: seq<Pending>, k: nat): map<string, Marker>
    requires k <= |list|
  {
    m - DoneBases(list, k)
  }

  function SentAfter(sent: map<string, string>, list: seq<Pending>, k: nat): map<string, string>
    requires k <= |list|
  {
    sent + DoneCopies(list, k)
  }

  function DraftsAfter(drafts: map<string, string>, list: seq<Pending>, k: nat): map<string, string>
    requires k <= |list|
  {
    drafts - DoneDrafts(list, k)
  }

  lemma NothingDone(m: map<string, Marker>, sent: map<string, string>, drafts: map<string, string>, list: seq<Pending>)
    ensures MarkersAfter(m, list, 0) == m && SentAfter(sent, list, 0) == sent && DraftsAfter(drafts, list, 0) == drafts
  {
  }

  lemma OneMoreDone(m: map<string, Marker>, sent: map<string, string>, drafts: map<string, string>, list: seq<Pending>,
                    i: nat)
    requires i < |list|
    ensures var p := list[i];
      var m', sent', drafts' := MarkersAfter(m, list, i), SentAfter(sent, list, i), DraftsAfter(drafts, list, i);
      if Decided(p.marker) then
        && MarkersAfter(m, list, i + 1) == m' - {p.base}
        && SentAfter(sent, list, i + 1)
           == (if p.marker.attempt.raw != "" then sent'[p.base := p.marker.attempt.raw] else sent')
        && DraftsAfter(drafts, list, i + 1) == WithoutDraft(drafts', p.marker.attempt.draft)
      else
        && MarkersAfter(m, list, i + 1) == m' && SentAfter(sent, list, i + 1) == sent'
        && DraftsAfter(drafts, list, i + 1) == drafts'
  {
    var p := list[i];
    TakeAway(m, DoneBases(list, i), p.base);
    PutIn(sent, DoneCopies(list, i), p.base, p.marker.attempt.raw);
    if p.marker.attempt.draft.Some? {
      TakeAway(drafts, DoneDrafts(list, i), p.marker.attempt.draft.value);
    }
    assert forall s: set<string> :: s + {} == s;
    assert DoneCopies(list, i) + map[] == DoneCopies(list, i);
  }

  lemma TakeAway<V>(m: map<string, V>, done: set<string>, k: string)
    ensures m - (done + {k}) == (m - done) - {k}
  {
  }

  lemma PutIn(m: map<string, string>, done: map<string, string>, k: string, v: string)
    ensures m + (done + map[k := v]) == (m + done)[k := v]
  {
  }

  lemma {:induction false} DoneBaseMembers(list: seq<Pending>, k: nat)
    requires k <= |list|
    ensures forall b :: b in DoneBases(list, k) <==>
      exists i :: 0 <= i < k && list[i].base == b && Decided(list[i].marker)
  {
    hide Decided;
    if k > 0 {
      DoneBaseMembers(list, k - 1);
    }
  }

  lemma {:induction false} DoneCopyMembers(list: seq<Pending>, k: nat, m: map<string, Marker>)
    requires k <= |list| && ListOf(list, m)
    ensures forall b :: b in DoneCopies(list, k) <==>
      exists i :: 0 <= i < k && list[i].base == b && Decided(list[i].marker) && list[i].marker.attempt.raw != ""
    ensures forall b :: b in DoneCopies(list, k) ==> b in m && DoneCopies(list, k)[b] == m[b].attempt.raw
  {
    hide Decided;
    if k > 0 {
      DoneCopyMembers(list, k - 1, m);
      assert list[k - 1] in list;
    }
  }

  lemma {:induction false} DoneDraftMembers(list: seq<Pending>, k: nat)
    requires k <= |list|
    ensures forall d :: d in DoneDrafts(list, k) <==>
      exists i :: 0 <= i < k && Decided(list[i].marker) && list[i].marker.attempt.draft == Some(d)
  {
    hide Decided;
    if k > 0 {
      DoneDraftMembers(list, k - 1);
    }
  }

  lemma AllFound(m: map<string, Marker>, list: seq<Pending>)
    requires ListOf(list, m) && forall b :: b in m ==> Pending(b, m[b]) in list
    ensures forall b :: b in m <==> exists i :: 0 <= i < |list| && list[i].base == b && list[i].marker == m[b]
    ensures forall i :: 0 <= i < |list| ==> list[i].base in m && m[list[i].base] == list[i].marker
  {
    FoundIn(list, m);
    forall b | b in m ensures exists i :: 0 <= i < |list| && list[i].base == b && list[i].marker == m[b] {
      var i :| 0 <= i < |list| && list[i] == Pending(b, m[b]);
    }
  }

  lemma AllMarkersDone(m: map<string, Marker>, list: seq<Pending>)
    requires ListOf(list, m) && forall b :: b in m ==> Pending(b, m[b]) in list
    ensures m - DoneBases(list, |list|) == Undecided(m)
  {
    DoneBaseMembers(list, |list|);
    AllFound(m, list);
    hide DoneBases, DoneCopies, DoneDrafts, Decided, ListOf;
  }

  lemma CopyMember(m: map<string, Marker>, b: string)
    ensures b in Copies(m) <==> b in m && Decided(m[b]) && m[b].attempt.raw != ""
    ensures b in Copies(m) ==> Copies(m)[b] == m[b].attempt.raw
  {
  }

  lemma CopyDone(m: map<string, Marker>, list: seq<Pending>, b: string)
    requires ListOf(list, m) && forall b :: b in m ==> Pending(b, m[b]) in list
    ensures b in Copies(m) <==> b in DoneCopies(list, |list|)
    ensures b in Copies(m) ==> Copies(m)[b] == DoneCopies(list, |list|)[b]
  {
    hide DoneCopies, Decided, ListOf, Copies;
    DoneCopyMembers(list, |list|, m);
    CopyMember(m, b);
    AllFound(m, list);
  }

  lemma AllCopiesDone(m: map<string, Marker>, list: seq<Pending>)
    requires ListOf(list, m) && forall b :: b in m ==> Pending(b, m[b]) in list
    ensures DoneCopies(list, |list|) == Copies(m)
  {
    hide DoneCopies, ListOf, Copies;
    forall b ensures b in Copies(m) <==> b in DoneCopies(list, |list|)
      ensures b in Copies(m) ==> Copies(m)[b] == DoneCopies(list, |list|)[b]
    {
      CopyDone(m, list, b);
    }
  }

  lemma SpentMember(m: map<string, Marker>, d: string)
    ensures d in SpentDrafts(m) <==> exists b :: b in m && Decided(m[b]) && m[b].attempt.draft == Some(d)
  {
    if b :| b in m && Decided(m[b]) && m[b].attempt.draft == Some(d) {
      assert m[b].attempt.draft.value in SpentDrafts(m);
    }
  }

  lemma AllDraftsDone(m: map<string, Marker>, list: seq<Pending>)
    requires ListOf(list, m) && forall b :: b in m ==> Pending(b, m[b]) in list
    ensures DoneDrafts(list, |list|) == SpentDrafts(m)
  {
    DoneDraftMembers(list, |list|);
    AllFound(m, list);
    hide DoneBases, DoneCopies, DoneDrafts, Decided, ListOf, SpentDrafts;
    forall d ensures d in SpentDrafts(m) <==> d in DoneDrafts(list, |list|) {
      SpentMember(m, d);
      if b :| b in m && Decided(m[b]) && m[b].attempt.draft == Some(d) {
        var i :| 0 <= i < |list| && list[i].base == b && list[i].marker == m[b];
      }
      if i :| 0 <= i < |list| && Decided(list[i].marker) && list[i].marker.attempt.draft == Some(d) {
        assert list[i].base in m;
      }
    }
  }

  lemma AllDone(m: map<string, Marker>, sent: map<string, string>, drafts: map<string, string>, list: seq<Pending>)
    requires ListOf(list, m) && forall b :: b in m ==> Pending(b, m[b]) in list
    ensures MarkersAfter(m, list, |list|) == Undecided(m)
    ensures SentAfter(sent, list, |list|) == sent + Copies(m)
    ensures DraftsAfter(drafts, list, |list|) == drafts - SpentDrafts(m)
  {
    hide Undecided, Copies, SpentDrafts, DoneBases, DoneCopies, DoneDrafts, ListOf;
    AllMarkersDone(m, list);
    AllCopiesDone(m, list);
    AllDraftsDone(m, list);
  }

  // -- what recovery amounts to ----------------------------------------------------------------------------

  /** A second recovery finds nothing left to do. */
  lemma RecoveryConverges(m: map<string, Marker>, sent: map<string, string>, drafts: map<string, string>)
    ensures var m', sent', drafts' := Undecided(m), sent + Copies(m), drafts - SpentDrafts(m);
      Undecided(m') == m' && sent' + Copies(m') == sent' && drafts' - SpentDrafts(m') == drafts'
  {
    assert Copies(Undecided(m)) == map[];
    assert SpentDrafts(Undecided(m)) == {};
  }

  /** Every decided message has its copy, and neither draft nor marker; if no two markers share a draft, the open ones keep theirs. */
  lemma RecoverySettles(m: map<string, Marker>, sent: map<string, string>, drafts: map<string, string>, b: string)
    requires b in m
    ensures Decided(m[b]) ==>
      && b !in Undecided(m)
      && (m[b].attempt.raw != "" ==> b in sent + Copies(m) && (sent + Copies(m))[b] == m[b].attempt.raw)
      && (m[b].attempt.draft.Some? ==> m[b].attempt.draft.value !in drafts - SpentDrafts(m))
    ensures (!Decided(m[b]) && m[b].attempt.draft.Some?
             && forall c :: c in m && c != b ==> m[c].attempt.draft != m[b].attempt.draft)
      ==> (m[b].attempt.draft.value in drafts - SpentDrafts(m) <==> m[b].attempt.draft.value in drafts)
  {
    if m[b].attempt.draft.Some? {
      assert Decided(m[b]) ==> m[b].attempt.draft.value in SpentDrafts(m);
    }
  }

  lemma {:induction false} OpenMembers(list: seq<Pending>, k: nat)
    requires k <= |list|
    ensures forall p :: p in OpenFirst(list, k) <==> p in list[..k] && !Decided(p.marker)
  {
    hide Decided;
    if k > 0 {
      OpenMembers(list, k - 1);
      assert list[..k] == list[..k - 1] + [list[k - 1]];
    } else {
      assert list[..0] == [];
    }
  }

  lemma {:induction false} OpenAscending(list: seq<Pending>, k: nat)
    requires k <= |list| && Ascending(Bases(list))
    ensures Ascending(Bases(OpenFirst(list, k)))
  {
    hide Ascending, Decided, Bases;
    if k == 0 {
      NoneAscending();
    } else {
      OpenAscending(list, k - 1);
      OpenMembers(list, k - 1);
      OneMoreOpen(list, k - 1);
      assert OpenFirst(list, k - 1) + [] == OpenFirst(list, k - 1);
    }
  }

  lemma OpenOnes(list: seq<Pending>, k: nat)
    requires k == |list| && Ascending(Bases(list))
    ensures Ascending(Bases(OpenFirst(list, k)))
    ensures forall p :: p in OpenFirst(list, k) <==> p in list && !Decided(p.marker)
  {
    OpenAscending(list, k);
    OpenMembers(list, k);
    assert list[..k] == list;
  }

  lemma NoneAscending()
    ensures Ascending(Bases([]))
  {
  }

  lemma OneMoreOpen(list: seq<Pending>, i: nat)
    requires i < |list| && Ascending(Bases(list)) && Ascending(Bases(OpenFirst(list, i)))
    requires forall p :: p in OpenFirst(list, i) ==> p in list[..i]
    ensures Ascending(Bases(OpenFirst(list, i) + [list[i]]))
  {
    hide Before;
    var names := Bases(list);
    PrefixBefore(names, i);
    forall p | p in OpenFirst(list, i) ensures p.base in names[..i] {
      var k :| 0 <= k < i && list[k] == p;
      assert names[..i][k] == p.base;
    }
    OneMorePending(OpenFirst(list, i), list[i], names[..i]);
  }
}
