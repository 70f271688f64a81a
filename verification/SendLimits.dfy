/** Where the send protocol fails: one run for each condition of a sound step, sound but for one event. */
module SendLimits {
  import opened Options
  import opened SendProtocol

  /** A run in which only the event number k is not sound. */
  ghost predicate SoundBut(states: seq<System>, events: seq<Event>, k: nat) {
    && Run(states, events) && states[0] == START && k < |events|
    && forall i :: 0 <= i < |events| && i != k ==> Sound(states[i], events[i])
  }

  /** The draft lies there unmarked although the message went out: it would be sent a second time. */
  ghost predicate SentTwiceSoon(s: System) {
    "d" in s.drafts && "m" !in s.markers && "m" in s.accepted && "m" in s.attempts && s.attempts["m"].draft == Some("d")
  }

  /** The message went out and nothing of it is left. */
  ghost predicate Vanished(s: System) {
    "m" in s.accepted && "m" !in s.markers && "m" !in s.sent && "d" !in s.drafts
  }

  /** The message is filed as sent and its draft is gone, but it never went out. */
  ghost predicate Pretended(s: System) {
    "m" in s.sent && "m" !in s.accepted && "d" !in s.drafts && "d" !in s.discarded
  }

  const ATTEMPT := Attempt(Some("d"), "raw")

  /** A run so far, sound but for the event number k. */
  ghost predicate SoFar(states: seq<System>, events: seq<Event>, k: nat) {
    && Run(states, events) && states[0] == START
    && forall i :: 0 <= i < |events| && i != k ==> Sound(states[i], events[i])
  }

  ghost predicate Reached(states: seq<System>, events: seq<Event>, k: nat, n: nat, s: System) {
    SoFar(states, events, k) && |events| == n && states[n] == s
  }

  /** One more event at the end of a run. */
  lemma Then(states: seq<System>, events: seq<Event>, k: nat, n: nat, s: System, e: Event)
    returns (states': seq<System>, events': seq<Event>, s': System)
    requires Reached(states, events, k, n, s) && Enabled(s, e) && (n != k ==> Sound(s, e))
    ensures Reached(states', events', k, n + 1, s') && s' == Do(s, e) && states <= states'
  {
    hide Sound, Do, Enabled;
    s' := Do(s, e);
    states', events' := states + [s'], events + [e];
    forall i | 0 <= i < |events'| ensures Follows(states'[i], events'[i], states'[i + 1]) {
      if i < |events| {
        assert Follows(states[i], events[i], states[i + 1]);
      }
    }
  }

  lemma Ends(states: seq<System>, events: seq<Event>, k: nat, n: nat, s: System)
    requires Reached(states, events, k, n, s) && k < n
    ensures SoundBut(states, events, k) && states[|events|] == s
  {
  }

  /** A draft saved, and a send begun from it. */
  lemma Begun(k: nat) returns (states: seq<System>, events: seq<Event>, s: System)
    requires k >= 2
    ensures Reached(states, events, k, 2, s)
    ensures s == System(map["d" := "raw"], map[], map[], map["m" := ATTEMPT], {}, {"d"}, {},
                        map["m" := Live(Phase.Begun, false)], map[])
  {
    states, events, s := [START], [], START;
    assert Reached(states, events, k, 0, s);
    hide Reached;
    states, events, s := Then(states, events, k, 0, s, SaveDraft("d", "raw"));
    states, events, s := Then(states, events, k, 1, s, Begin("m", ATTEMPT));
  }

  /** The marker written. */
  lemma MarkerWritten(k: nat) returns (states: seq<System>, events: seq<Event>, s: System)
    requires k >= 3
    ensures Reached(states, events, k, 3, s)
    ensures s == System(map["d" := "raw"], map["m" := Marker("", ATTEMPT)], map[], map["m" := ATTEMPT], {}, {"d"}, {},
                        map["m" := Live(Marked, true)], map[])
  {
    hide Reached;
    states, events, s := Begun(k);
    states, events, s := Then(states, events, k, 2, s, PutMarker("m", true));
  }

  /** The message out and its id recorded in the marker. */
  lemma IdRecorded(k: nat) returns (states: seq<System>, events: seq<Event>, s: System)
    requires k >= 6
    ensures Reached(states, events, k, 6, s)
    ensures s == System(map["d" := "raw"], map["m" := Marker("id", ATTEMPT)], map[], map["m" := ATTEMPT], {"m"},
                        {"d"}, {}, map["m" := Live(Recorded, true)], map[])
  {
    hide Reached;
    states, events, s := MarkerWritten(k);
    states, events, s := Then(states, events, k, 3, s, Answer("m", true));
    states, events, s := Then(states, events, k, 4, s, ReadMarker("m", true));
    states, events, s := Then(states, events, k, 5, s, RecordId("m", "id", true));
  }

  /** The program dead, and recovery begun with the copy. */
  lemma RecoveryBegun(k: nat) returns (states: seq<System>, events: seq<Event>, s: System)
    requires k >= 9
    ensures Reached(states, events, k, 9, s)
    ensures s == System(map["d" := "raw"], map["m" := Marker("id", ATTEMPT)], map["m" := "raw"], map["m" := ATTEMPT],
                        {"m"}, {"d"}, {}, map[], map[0 := Job("m", Marker("id", ATTEMPT), true, false)])
  {
    hide Reached;
    states, events, s := IdRecorded(k);
    states, events, s := Then(states, events, k, 6, s, Die("m"));
    states, events, s := Then(states, events, k, 7, s, Recover(0, "m"));
    states, events, s := Then(states, events, k, 8, s, JobCopy(0, true));
  }

  /** A message goes out although its marker could not be written; if the program dies then, nothing remembers it. */
  lemma UnwrittenMarker() returns (states: seq<System>, events: seq<Event>)
    ensures SoundBut(states, events, 3) && SentTwiceSoon(states[|events|])
  {
    hide Reached, SoundBut;
    var s;
    states, events, s := Begun(3);
    states, events, s := Then(states, events, 3, 2, s, PutMarker("m", false));
    states, events, s := Then(states, events, 3, 3, s, Answer("m", true));
    states, events, s := Then(states, events, 3, 4, s, Die("m"));
    Ends(states, events, 3, 5, s);
  }

  /** The copy not stored, and the draft dropped all the same. */
  lemma CopyFailed(k: nat) returns (states: seq<System>, events: seq<Event>, s: System)
    requires k >= 8
    ensures Reached(states, events, k, 8, s)
    ensures s == System(map[], map["m" := Marker("id", ATTEMPT)], map[], map["m" := ATTEMPT], {"m"},
                        {"d"}, {}, map["m" := Live(Dropped, true)], map[])
  {
    hide Reached;
    states, events, s := IdRecorded(k);
    states, events, s := Then(states, events, k, 6, s, PutCopy("m", false));
    states, events, s := Then(states, events, k, 7, s, DropDraft("m", true));
  }

  /** The handler drops the draft and clears the marker even if the copy could not be stored. */
  lemma UnstoredCopy() returns (states: seq<System>, events: seq<Event>)
    ensures SoundBut(states, events, 8) && Vanished(states[|events|])
  {
    hide Reached, SoundBut;
    var s;
    states, events, s := CopyFailed(8);
    states, events, s := Then(states, events, 8, 8, s, ClearMarker("m", true));
    Ends(states, events, 8, 9, s);
  }

  /** The copy stored, but not the draft dropped. */
  lemma DropFailed(k: nat) returns (states: seq<System>, events: seq<Event>, s: System)
    requires k >= 8
    ensures Reached(states, events, k, 8, s)
    ensures s == System(map["d" := "raw"], map["m" := Marker("id", ATTEMPT)], map["m" := "raw"], map["m" := ATTEMPT],
                        {"m"}, {"d"}, {}, map["m" := Live(Dropped, true)], map[])
  {
    hide Reached;
    states, events, s := IdRecorded(k);
    states, events, s := Then(states, events, k, 6, s, PutCopy("m", true));
    states, events, s := Then(states, events, k, 7, s, DropDraft("m", false));
  }

  /** The handler clears the marker even if it could not drop the draft. */
  lemma DraftLeft() returns (states: seq<System>, events: seq<Event>)
    ensures SoundBut(states, events, 8) && SentTwiceSoon(states[|events|])
  {
    hide Reached, SoundBut;
    var s;
    states, events, s := DropFailed(8);
    states, events, s := Then(states, events, 8, 8, s, ClearMarker("m", true));
    Ends(states, events, 8, 9, s);
  }

  /** The marker written and the message out. */
  lemma MessageOut(k: nat) returns (states: seq<System>, events: seq<Event>, s: System)
    requires k >= 5
    ensures Reached(states, events, k, 5, s)
    ensures s == System(map["d" := "raw"], map["m" := Marker("", ATTEMPT)], map[], map["m" := ATTEMPT], {"m"}, {"d"}, {},
                        map[], map[])
  {
    hide Reached;
    states, events, s := MarkerWritten(k);
    states, events, s := Then(states, events, k, 3, s, Answer("m", true));
    states, events, s := Then(states, events, k, 4, s, Die("m"));
  }

  /** Recovery clears the marker even if the draft could not be dropped. */
  lemma UndroppedDraft() returns (states: seq<System>, events: seq<Event>)
    ensures SoundBut(states, events, 10) && SentTwiceSoon(states[|events|])
  {
    hide Reached, SoundBut;
    var s;
    states, events, s := RecoveryBegun(10);
    states, events, s := Then(states, events, 10, 9, s, JobDrop(0, false));
    states, events, s := Then(states, events, 10, 10, s, JobClear(0, true));
    Ends(states, events, 10, 11, s);
  }

  /** "Not sent" is said of a message that went out. */
  lemma UntruthfulAnswer() returns (states: seq<System>, events: seq<Event>)
    ensures SoundBut(states, events, 5) && SentTwiceSoon(states[|events|])
  {
    hide Reached, SoundBut;
    var s;
    states, events, s := MessageOut(5);
    states, events, s := Then(states, events, 5, 5, s, Resolve(0, "m", false, true));
    Ends(states, events, 5, 6, s);
  }

  /** The marker written, the program dead, and "sent" said. */
  lemma Confirmed(k: nat) returns (states: seq<System>, events: seq<Event>, s: System)
    requires k >= 5
    ensures Reached(states, events, k, 5, s)
    ensures s == System(map["d" := "raw"], map["m" := Marker("", ATTEMPT)], map[], map["m" := ATTEMPT], {}, {"d"}, {},
                        map[], map[0 := Job("m", Marker("", ATTEMPT), false, false)])
  {
    hide Reached;
    states, events, s := MarkerWritten(k);
    states, events, s := Then(states, events, k, 3, s, Die("m"));
    states, events, s := Then(states, events, k, 4, s, Resolve(0, "m", true, true));
  }

  /** "Sent" is said of a message that never went out: it is filed as sent, and its draft is lost. */
  lemma FalselyConfirmed() returns (states: seq<System>, events: seq<Event>)
    ensures SoundBut(states, events, 5) && Pretended(states[|events|])
  {
    hide Reached, SoundBut;
    var s;
    states, events, s := Confirmed(5);
    states, events, s := Then(states, events, 5, 5, s, JobCopy(0, true));
    states, events, s := Then(states, events, 5, 6, s, JobDrop(0, true));
    Ends(states, events, 5, 7, s);
  }

  /** "Not sent" is said truthfully, but while the program still runs: when the message goes out, its marker is gone. */
  lemma AnswerWhileRunning() returns (states: seq<System>, events: seq<Event>)
    ensures SoundBut(states, events, 4) && SentTwiceSoon(states[|events|])
  {
    hide Reached, SoundBut;
    var s;
    states, events, s := MarkerTaken(4);
    states, events, s := Then(states, events, 4, 4, s, Answer("m", true));
    states, events, s := Then(states, events, 4, 5, s, Die("m"));
    Ends(states, events, 4, 6, s);
  }

  lemma MarkerTaken(k: nat) returns (states: seq<System>, events: seq<Event>, s: System)
    requires k >= 4
    ensures Reached(states, events, k, 4, s)
    ensures s == System(map["d" := "raw"], map[], map[], map["m" := ATTEMPT], {}, {"d"}, {},
                        map["m" := Live(Marked, true)], map[])
  {
    hide Reached;
    states, events, s := MarkerWritten(k);
    states, events, s := Then(states, events, k, 3, s, Resolve(0, "m", false, true));
  }

  /** The message out, and neither copy nor drop go through. */
  lemma NothingDone() returns (states: seq<System>, events: seq<Event>, s: System)
    ensures Reached(states, events, 99, 8, s)
    ensures s == System(map["d" := "raw"], map["m" := Marker("id", ATTEMPT)], map[], map["m" := ATTEMPT], {"m"},
                        {"d"}, {}, map["m" := Live(Dropped, true)], map[])
  {
    hide Reached;
    states, events, s := IdRecorded(99);
    states, events, s := Then(states, events, 99, 6, s, PutCopy("m", false));
    states, events, s := Then(states, events, 99, 7, s, DropDraft("m", false));
  }

  const OUTAGE := System(map["d" := "raw"], map["m" := Marker("id", ATTEMPT)], map[], map["m" := ATTEMPT], {"m"},
                         {"d"}, {}, map[], map[])

  /** And the marker cannot be taken away. */
  lemma StorageGone() returns (states: seq<System>, events: seq<Event>)
    ensures Reached(states, events, 99, 9, OUTAGE)
  {
    hide Reached;
    var s;
    states, events, s := NothingDone();
    states, events, s := Then(states, events, 99, 8, s, ClearMarker("m", false));
  }

  /** A later recovery files the message... */
  lemma FiledLater(states: seq<System>, events: seq<Event>) returns (states': seq<System>, events': seq<Event>)
    requires Reached(states, events, 99, 9, OUTAGE)
    ensures states <= states'
    ensures Reached(states', events', 99, 11,
                    OUTAGE.(sent := map["m" := "raw"], jobs := map[0 := Job("m", Marker("id", ATTEMPT), true, false)]))
  {
    hide Reached;
    var s;
    states', events', s := Then(states, events, 99, 9, OUTAGE, Recover(0, "m"));
    states', events', s := Then(states', events', 99, 10, s, JobCopy(0, true));
    assert s.sent == map["m" := "raw"] && s.jobs == map[0 := Job("m", Marker("id", ATTEMPT), true, false)];
  }

  /** ...and does what is left. */
  lemma ClearedLater(states: seq<System>, events: seq<Event>) returns (states': seq<System>, events': seq<Event>)
    requires Reached(states, events, 99, 11,
                     OUTAGE.(sent := map["m" := "raw"], jobs := map[0 := Job("m", Marker("id", ATTEMPT), true, false)]))
    ensures states <= states'
    ensures Reached(states', events', 99, 13, OUTAGE.(sent := map["m" := "raw"], drafts := map[], markers := map[]))
  {
    hide Reached;
    var s := OUTAGE.(sent := map["m" := "raw"], jobs := map[0 := Job("m", Marker("id", ATTEMPT), true, false)]);
    states', events', s := Then(states, events, 99, 11, s, JobDrop(0, true));
    states', events', s := Then(states', events', 99, 12, s, JobClear(0, true));
    assert s.drafts == map[] && s.markers == map[] && s.jobs == map[];
  }

  /** Such an outage does no harm: the marker stays, and recovery settles the message. */
  lemma OutageRecovered() returns (states: seq<System>, events: seq<Event>)
    ensures SoundRun(states, events) && states[0] == START && |events| == 13
    ensures var s := states[9]; s.live == map[] && "m" in s.accepted && "m" in s.markers && "d" in s.drafts && s.sent == map[]
    ensures var s := states[13]; s.markers == map[] && s.drafts == map[] && s.sent == map["m" := "raw"]
  {
    var early, first := StorageGone();
    var late, second := FiledLater(early, first);
    states, events := ClearedLater(late, second);
    hide Sound, Follows;
    assert early[9] == OUTAGE && states[9] == late[9] == early[9];
  }
}
