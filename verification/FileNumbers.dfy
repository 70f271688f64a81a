/**
  The numbering of a load over the machine's own file.  The file is ahead of the snapshot by some ops of the
  log, which are replayed on top of it: when that gives the numbers of a clean replay, and what it does to
  Validity.
  */
module FileNumbers {
  import opened Options
  import opened Numbering
  import opened Document
  import opened DocumentLaws
  import opened Histories
  import opened Merging

  // -- one folder, one message at a time --------------------------------------------------------------

  datatype Turn = Give(mid: string, n: Number) | Take(mid: string)

  function After(f: Folder, t: Turn): Folder {
    match t
    case Give(mid, n) => Assign(f, mid, n)
    case Take(mid) => Retire(f, mid)
  }

  function Run(f: Folder, ts: seq<Turn>): Folder {
    if ts == [] then f else After(Run(f, ts[..|ts| - 1]), ts[|ts| - 1])
  }

  lemma {:induction false} RunConcat(f: Folder, a: seq<Turn>, b: seq<Turn>)
    ensures Run(f, a + b) == Run(Run(f, a), b)
  {
    if b == [] {
      assert a + b == a;
    } else {
      assert (a + b)[..|a + b| - 1] == a + b[..|b| - 1];
      RunConcat(f, a, b[..|b| - 1]);
    }
  }

  lemma {:induction false} RunIndexed(f: Folder, ts: seq<Turn>)
    requires Indexed(f)
    ensures Indexed(Run(f, ts))
  {
    hide Indexed, Assign, Retire;
    if ts != [] {
      RunIndexed(f, ts[..|ts| - 1]);
      TurnIndexed(Run(f, ts[..|ts| - 1]), ts[|ts| - 1]);
    }
  }

  lemma TurnIndexed(f: Folder, t: Turn)
    requires Indexed(f)
    ensures Indexed(After(f, t))
  {
    hide Indexed, Assign, Retire;
    match t
    case Give(mid, n) => AssignIndexed(f, mid, n);
    case Take(mid) => RetireKeeps(f, mid);
  }

  /** How many of the assignments are refused at their turns. */
  function RefusedTurns(f: Folder, ts: seq<Turn>): nat {
    if ts == [] then 0
    else
      var last := ts[|ts| - 1];
      RefusedTurns(f, ts[..|ts| - 1])
      + (if last.Give? && Refused(Run(f, ts[..|ts| - 1]), last.mid, last.n) then 1 else 0)
  }

  lemma {:induction false} ValidityCounts(f: Folder, ts: seq<Turn>)
    ensures Run(f, ts).validity == (f.validity + RefusedTurns(f, ts)) % LIMIT
  {
    hide Indexed;
    if ts != [] {
      ValidityCounts(f, ts[..|ts| - 1]);
      SuccWraps(f.validity + RefusedTurns(f, ts[..|ts| - 1]));
    }
  }

  /** Validity decides nothing: a folder that differs only there stays as far ahead. */
  lemma {:induction false} OnlyValidity(f: Folder, r: nat, ts: seq<Turn>)
    ensures Run(f.(validity := (f.validity + r) % LIMIT), ts)
         == Run(f, ts).(validity := (Run(f, ts).validity + r) % LIMIT)
  {
    if ts != [] {
      var front, last := ts[..|ts| - 1], ts[|ts| - 1];
      OnlyValidity(f, r, front);
      OneMoreValidity(Run(f, front), r, last);
    }
  }

  lemma OneMoreValidity(f: Folder, r: nat, t: Turn)
    ensures After(f.(validity := (f.validity + r) % LIMIT), t)
         == After(f, t).(validity := (After(f, t).validity + r) % LIMIT)
  {
    AddsUp(f.validity, r);
  }

  lemma AddsUp(v: Number, r: nat)
    ensures Succ((v + r) % LIMIT) == (Succ(v) + r) % LIMIT
  {
    SuccWraps(v + r);
    ModSum(v + 1, r);
  }

  lemma ModSum(a: nat, b: nat)
    ensures (a % LIMIT + b) % LIMIT == (a + b) % LIMIT
  {
    var q := a / LIMIT;
    assert a == q * LIMIT + a % LIMIT;
    ModShift(q, a % LIMIT + b);
  }

  lemma {:induction false} ModShift(q: nat, x: nat)
    ensures (q * LIMIT + x) % LIMIT == x % LIMIT
  {
    if q > 0 {
      ModShift(q - 1, x);
    }
  }

  // -- the replay over the file -----------------------------------------------------------------------

  /**
    What the replay has to find in the end, at a turn of the clean one: a number that is given there is on
    nobody else in the end, and is not the last one; and whoever is in the way of a refused assignment has not
    been given another number by the end.
    */
  predicate Fits(c: Folder, end: Folder, t: Turn) {
    t.Give? ==>
      && (TakesEffect(c, t.mid, t.n) ==> t.n < LIMIT - 1 && forall k :: k in end.uids && end.uids[k] == t.n ==> k == t.mid)
      && (Refused(c, t.mid, t.n) ==> forall k :: k in c.uids && c.uids[k] == t.n && k in end.uids ==> end.uids[k] == t.n)
  }

  ghost predicate AllFit(f: Folder, ts: seq<Turn>) {
    forall i :: 0 <= i < |ts| ==> Fits(Run(f, ts[..i]), Run(f, ts), ts[i])
  }

  /** The message is numbered as in the clean replay so far, or already as it will be in the end. */
  ghost predicate Matches(c: Folder, l: Folder, end: Folder, mid: string) {
    || ((mid in l.uids <==> mid in c.uids) && (mid in c.uids ==> l.uids[mid] == c.uids[mid]))
    || (mid in l.uids && mid in end.uids && l.uids[mid] == end.uids[mid])
  }

  ghost predicate AllMatch(c: Folder, l: Folder, end: Folder) {
    && Indexed(c) && Indexed(l) && l.next == end.next
    && forall mid :: Matches(c, l, end, mid)
  }

  /** A number given in the clean replay is in nobody's hands in the other one. */
  lemma FreeThere(c: Folder, l: Folder, end: Folder, t: Turn)
    requires AllMatch(c, l, end) && t.Give? && Fits(c, end, t) && TakesEffect(c, t.mid, t.n)
    ensures forall k :: k in l.uids && l.uids[k] == t.n ==> k == t.mid
  {
    forall k | k in l.uids && l.uids[k] == t.n ensures k == t.mid {
      assert Matches(c, l, end, k);
    }
  }

  lemma GiveMatches(c: Folder, l: Folder, end: Folder, t: Turn)
    requires AllMatch(c, l, end) && t.Give? && Fits(c, end, t) && (TakesEffect(c, t.mid, t.n) ==> t.n < end.next)
    ensures AllMatch(After(c, t), After(l, t), end)
  {
    var c', l' := After(c, t), After(l, t);
    TurnIndexed(c, t);
    TurnIndexed(l, t);
    assert Matches(c, l, end, t.mid);
    if TakesEffect(c, t.mid, t.n) {
      FreeThere(c, l, end, t);
    } else if Refused(c, t.mid, t.n) {
      assert Matches(c, l, end, c.owner[t.n]);
    }
    forall mid ensures Matches(c', l', end, mid) {
      assert Matches(c, l, end, mid);
    }
  }

  lemma TakeMatches(c: Folder, l: Folder, end: Folder, t: Turn)
    requires AllMatch(c, l, end) && t.Take?
    ensures AllMatch(After(c, t), After(l, t), end)
  {
    TurnIndexed(c, t);
    TurnIndexed(l, t);
    forall mid ensures Matches(After(c, t), After(l, t), end, mid) {
      assert Matches(c, l, end, mid);
    }
  }

  lemma OneRise(c: Folder, end: Folder, t: Turn)
    requires Fits(c, end, t)
    ensures c.next <= After(c, t).next
    ensures t.Give? && TakesEffect(c, t.mid, t.n) ==> t.n < After(c, t).next
  {
  }

  lemma OneTurn(f: Folder, ts: seq<Turn>, i: nat)
    requires i < |ts|
    ensures Run(f, ts[..i + 1]) == After(Run(f, ts[..i]), ts[i])
  {
    assert ts[..i + 1][..i] == ts[..i] && |ts[..i + 1]| == i + 1;
  }

  /** Next never falls as long as the last number is not given. */
  lemma {:induction false} NextRises(f: Folder, ts: seq<Turn>, i: nat, k: nat)
    requires i <= k <= |ts| && AllFit(f, ts)
    ensures Run(f, ts[..i]).next <= Run(f, ts[..k]).next
    decreases k
  {
    hide Run, Fits, After;
    if k > i {
      NextRises(f, ts, i, k - 1);
      OneTurn(f, ts, k - 1);
      OneRise(Run(f, ts[..k - 1]), Run(f, ts), ts[k - 1]);
    }
  }

  lemma GivenBelow(f: Folder, ts: seq<Turn>, i: nat)
    requires i < |ts| && AllFit(f, ts) && ts[i].Give? && TakesEffect(Run(f, ts[..i]), ts[i].mid, ts[i].n)
    ensures ts[i].n < Run(f, ts).next
  {
    assert ts[..|ts|] == ts;
    hide Run, Fits, After, TakesEffect;
    OneTurn(f, ts, i);
    OneRise(Run(f, ts[..i]), Run(f, ts), ts[i]);
    NextRises(f, ts, i + 1, |ts|);
  }

  lemma {:induction false} SoFar(f: Folder, ts: seq<Turn>, l: Folder, k: nat)
    requires k <= |ts| && AllFit(f, ts) && AllMatch(f, l, Run(f, ts))
    ensures AllMatch(Run(f, ts[..k]), Run(l, ts[..k]), Run(f, ts))
  {
    if k > 0 {
      hide AllMatch, Fits, After, TakesEffect, Run;
      SoFar(f, ts, l, k - 1);
      OneTurn(f, ts, k - 1);
      OneTurn(l, ts, k - 1);
      var c, m, t := Run(f, ts[..k - 1]), Run(l, ts[..k - 1]), ts[k - 1];
      assert Fits(c, Run(f, ts), t);
      if t.Give? {
        if TakesEffect(c, t.mid, t.n) {
          GivenBelow(f, ts, k - 1);
        }
        GiveMatches(c, m, Run(f, ts), t);
      } else {
        TakeMatches(c, m, Run(f, ts), t);
      }
    }
  }

  /** The merge of the folder with what becomes of it starts as required. */
  lemma StartMatches(f: Folder, ts: seq<Turn>)
    requires Indexed(f) && AllFit(f, ts)
    ensures AllMatch(f, MergedFolder(f, Run(f, ts)), Run(f, ts))
    ensures Run(f, ts).validity >= f.validity ==> MergedFolder(f, Run(f, ts)).validity == Run(f, ts).validity
  {
    assert ts[..0] == [] && ts[..|ts|] == ts && Run(f, []) == f;
    hide AllFit, Run, MergedFolder, Indexed, AllMatch;
    RunIndexed(f, ts);
    NextRises(f, ts, 0, |ts|);
    MergeMatches(f, Run(f, ts));
  }

  lemma MergeMatches(f: Folder, end: Folder)
    requires Indexed(f) && Indexed(end) && f.next <= end.next
    ensures AllMatch(f, MergedFolder(f, end), end)
    ensures end.validity >= f.validity ==> MergedFolder(f, end).validity == end.validity
  {
    MergedFolderIndexed(f, end);
    hide Indexed;
    forall mid ensures Matches(f, MergedFolder(f, end), end, mid) {
    }
  }

  lemma ReplayedFrom(f: Folder, ts: seq<Turn>, l: Folder)
    requires AllFit(f, ts) && AllMatch(f, l, Run(f, ts)) && l.validity == Run(f, ts).validity
    ensures var end := Run(f, ts); Run(l, ts) == end.(validity := (end.validity + RefusedTurns(l, ts)) % LIMIT)
  {
    hide *;
    SoFar(f, ts, l, |ts|);
    ValidityCounts(l, ts);
    assert ts[..|ts|] == ts;
    SameNumbers(Run(f, ts), Run(l, ts));
  }

  /** Merged into the folder it comes from, and replayed: the same numbers; Validity counts what is refused again. */
  lemma ReplayedOver(f: Folder, ts: seq<Turn>)
    requires Indexed(f) && AllFit(f, ts) && Run(f, ts).validity >= f.validity
    ensures var end := Run(f, ts); var l := MergedFolder(f, end);
      Run(l, ts) == end.(validity := (end.validity + RefusedTurns(l, ts)) % LIMIT)
  {
    hide *;
    StartMatches(f, ts);
    ReplayedFrom(f, ts, MergedFolder(f, Run(f, ts)));
  }

  lemma SameNumbers(end: Folder, l: Folder)
    requires AllMatch(end, l, end)
    ensures l.uids == end.uids && l.owner == end.owner && l.next == end.next
  {
    forall mid ensures (mid in l.uids <==> mid in end.uids) && (mid in end.uids ==> l.uids[mid] == end.uids[mid]) {
      assert Matches(end, l, end, mid);
    }
    RebuiltIndex(end, l.owner);
  }

  // -- exactly when the numbers are the same ----------------------------------------------------------

  /** The message is not taken out from this turn on. */
  predicate Stays(ts: seq<Turn>, j: nat, mid: string) {
    forall i :: j <= i < |ts| ==> ts[i] != Take(mid)
  }

  lemma StaysFurther(ts: seq<Turn>, j: nat, mid: string, k: nat)
    requires 0 < k <= |ts|
    ensures Stays(ts[..k], j, mid) <==> Stays(ts[..k - 1], j, mid) && (j < k ==> ts[k - 1] != Take(mid))
  {
    forall i | j <= i < k - 1 ensures ts[..k][i] == ts[..k - 1][i] {
    }
    if j < k && Stays(ts[..k], j, mid) {
      assert ts[..k][k - 1] == ts[k - 1];
    }
  }

  lemma {:induction false} KeepsNumber(l: Folder, ts: seq<Turn>, mid: string, i: nat, k: nat)
    requires i <= k <= |ts| && mid in Run(l, ts[..i]).uids && Stays(ts[..k], i, mid)
    ensures mid in Run(l, ts[..k]).uids && Run(l, ts[..k]).uids[mid] == Run(l, ts[..i]).uids[mid]
    decreases k
  {
    hide Run, Stays;
    if i < k {
      StaysFurther(ts, i, mid, k);
      KeepsNumber(l, ts, mid, i, k - 1);
      OneTurn(l, ts, k - 1);
    }
  }

  /** The turn gives the message a number, which it keeps. */
  ghost predicate GivenAt(l: Folder, ts: seq<Turn>, j: nat, mid: string, n: Number) {
    j < |ts| && ts[j] == Give(mid, n) && TakesEffect(Run(l, ts[..j]), mid, n) && Stays(ts, j, mid)
  }

  ghost predicate GivenSomewhere(l: Folder, ts: seq<Turn>, mid: string, n: Number) {
    exists j: nat :: GivenAt(l, ts, j, mid, n)
  }

  lemma GivenFurther(l: Folder, ts: seq<Turn>, mid: string, n: Number, k: nat)
    requires 0 < k <= |ts| && GivenSomewhere(l, ts[..k - 1], mid, n) && ts[k - 1] != Take(mid)
    ensures GivenSomewhere(l, ts[..k], mid, n)
  {
    hide Run, Stays, TakesEffect;
    var j: nat :| GivenAt(l, ts[..k - 1], j, mid, n);
    assert ts[..k - 1][..j] == ts[..k][..j] && ts[..k - 1][j] == ts[..k][j];
    StaysFurther(ts, j, mid, k);
    assert GivenAt(l, ts[..k], j, mid, n);
  }

  lemma JustGiven(l: Folder, ts: seq<Turn>, k: nat)
    requires 0 < k <= |ts| && ts[k - 1].Give? && TakesEffect(Run(l, ts[..k - 1]), ts[k - 1].mid, ts[k - 1].n)
    ensures GivenSomewhere(l, ts[..k], ts[k - 1].mid, ts[k - 1].n)
  {
    hide Run, TakesEffect;
    assert ts[..k][..k - 1] == ts[..k - 1] && ts[..k][k - 1] == ts[k - 1];
    assert GivenAt(l, ts[..k], k - 1, ts[k - 1].mid, ts[k - 1].n);
  }

  /** Where a number comes from: the folder at the start, or a turn that gave it. */
  lemma {:induction false} NumberFrom(l: Folder, ts: seq<Turn>, mid: string, k: nat)
    requires k <= |ts| && mid in Run(l, ts[..k]).uids
    ensures var n := Run(l, ts[..k]).uids[mid];
      || (mid in l.uids && l.uids[mid] == n && Stays(ts[..k], 0, mid))
      || GivenSomewhere(l, ts[..k], mid, n)
  {
    hide Run, Stays, GivenSomewhere, TakesEffect, After;
    if k == 0 {
      AtTheStart(l, ts, mid);
    } else {
      OneTurn(l, ts, k - 1);
      if mid in Run(l, ts[..k - 1]).uids {
        NumberFrom(l, ts, mid, k - 1);
        HadOrGiven(Run(l, ts[..k - 1]), ts[k - 1], mid);
        StaysFurther(ts, 0, mid, k);
        if GivenSomewhere(l, ts[..k - 1], mid, Run(l, ts[..k]).uids[mid]) {
          GivenFurther(l, ts, mid, Run(l, ts[..k]).uids[mid], k);
        }
      } else {
        HadOrGiven(Run(l, ts[..k - 1]), ts[k - 1], mid);
        JustGiven(l, ts, k);
      }
    }
  }

  lemma AtTheStart(l: Folder, ts: seq<Turn>, mid: string)
    ensures Run(l, ts[..0]) == l && Stays(ts[..0], 0, mid)
  {
    assert ts[..0] == [];
  }

  lemma HadOrGiven(c: Folder, t: Turn, mid: string)
    requires mid in After(c, t).uids
    ensures mid in c.uids ==> t != Take(mid) && After(c, t).uids[mid] == c.uids[mid]
    ensures mid !in c.uids ==> t == Give(mid, After(c, t).uids[mid]) && TakesEffect(c, t.mid, t.n)
  {
  }

  /** The turn gives the message this number, or would, and is not refused. */
  ghost predicate Offered(l: Folder, ts: seq<Turn>, j: nat, mid: string, n: Number) {
    j < |ts| && n != 0 && ts[j] == Give(mid, n) && !Refused(Run(l, ts[..j]), mid, n) && Stays(ts, j, mid)
  }

  ghost predicate OfferedSomewhere(l: Folder, ts: seq<Turn>, mid: string, n: Number) {
    exists j: nat :: Offered(l, ts, j, mid, n)
  }

  /**
    Of the turns after which a message is not taken out any more, none gives it another number than that of
    the goal; and one that gives that number is not refused, unless the message has it from the start.
    */
  ghost predicate GivesOut(l: Folder, ts: seq<Turn>, goal: map<string, Number>) {
    && (forall j: nat, mid, n :: GivenAt(l, ts, j, mid, n) ==> mid in goal && goal[mid] == n)
    && (forall mid :: mid in goal ==> (mid in l.uids && Stays(ts, 0, mid)) || OfferedSomewhere(l, ts, mid, goal[mid]))
  }

  ghost predicate StartsFor(l: Folder, ts: seq<Turn>, goal: map<string, Number>) {
    forall mid :: mid in l.uids && Stays(ts, 0, mid) ==> mid in goal && goal[mid] == l.uids[mid]
  }

  lemma NumberIsGoal(l: Folder, ts: seq<Turn>, goal: map<string, Number>, mid: string)
    requires StartsFor(l, ts, goal) && GivesOut(l, ts, goal) && mid in Run(l, ts).uids
    ensures mid in goal && goal[mid] == Run(l, ts).uids[mid]
  {
    hide Run;
    assert ts[..|ts|] == ts;
    NumberFrom(l, ts, mid, |ts|);
  }

  lemma OfferLeads(l: Folder, ts: seq<Turn>, goal: map<string, Number>, mid: string, j: nat)
    requires StartsFor(l, ts, goal) && GivesOut(l, ts, goal) && mid in goal && Offered(l, ts, j, mid, goal[mid])
    ensures mid in Run(l, ts).uids && Run(l, ts).uids[mid] == goal[mid]
  {
    assert ts[..|ts|] == ts;
    hide Run, GivesOut, StartsFor;
    OneTurn(l, ts, j);
    KeepsNumber(l, ts, mid, j + 1, |ts|);
    NumberIsGoal(l, ts, goal, mid);
  }

  /** Turns end with exactly these numbers if and only if they give them out. */
  lemma NumbersWhen(l: Folder, ts: seq<Turn>, goal: map<string, Number>)
    requires StartsFor(l, ts, goal)
    ensures Run(l, ts).uids == goal <==> GivesOut(l, ts, goal)
  {
    assert ts[..|ts|] == ts && ts[..0] == [] && Run(l, []) == l;
    hide Run;
    if GivesOut(l, ts, goal) {
      forall mid ensures mid in Run(l, ts).uids <==> mid in goal
        ensures mid in goal && mid in Run(l, ts).uids ==> Run(l, ts).uids[mid] == goal[mid]
      {
        if mid in Run(l, ts).uids {
          NumberIsGoal(l, ts, goal, mid);
        } else if mid in goal {
          if j: nat :| Offered(l, ts, j, mid, goal[mid]) {
            OfferLeads(l, ts, goal, mid, j);
          } else {
            KeepsNumber(l, ts, mid, 0, |ts|);
          }
        }
      }
    } else if Run(l, ts).uids == goal {
      EndGivesOut(l, ts);
    }
  }

  lemma EndGivesOut(l: Folder, ts: seq<Turn>)
    ensures GivesOut(l, ts, Run(l, ts).uids)
  {
    assert ts[..|ts|] == ts;
    hide Run;
    var goal := Run(l, ts).uids;
    forall j: nat, mid, n | GivenAt(l, ts, j, mid, n) ensures mid in goal && goal[mid] == n {
      OneTurn(l, ts, j);
      KeepsNumber(l, ts, mid, j + 1, |ts|);
    }
    forall mid | mid in goal ensures (mid in l.uids && Stays(ts, 0, mid)) || OfferedSomewhere(l, ts, mid, goal[mid]) {
      NumberFrom(l, ts, mid, |ts|);
      if j: nat :| GivenAt(l, ts, j, mid, goal[mid]) {
        assert Offered(l, ts, j, mid, goal[mid]);
      }
    }
  }

  /** A folder merged with what becomes of it by the first turns starts for what becomes of it by all. */
  lemma MergeStarts(f: Folder, ts: seq<Turn>, k: nat)
    requires k <= |ts|
    ensures StartsFor(MergedFolder(f, Run(f, ts[..k])), ts, Run(f, ts).uids)
  {
    assert ts[..|ts|] == ts && ts[..0] == [] && Run(f, []) == f;
    hide Run;
    var part := Run(f, ts[..k]);
    forall mid | mid in MergedFolder(f, part).uids && Stays(ts, 0, mid)
      ensures mid in Run(f, ts).uids && Run(f, ts).uids[mid] == MergedFolder(f, part).uids[mid]
    {
      if mid in f.uids {
        KeepsNumber(f, ts, mid, 0, |ts|);
      } else {
        KeepsNumber(f, ts, mid, k, |ts|);
      }
    }
  }

  /** Merged into the folder it comes from, and replayed with whatever follows: exactly when the numbers are the same. */
  lemma ReplayedWhen(f: Folder, ts: seq<Turn>, k: nat)
    requires Indexed(f) && k <= |ts|
    ensures var l, end := MergedFolder(f, Run(f, ts[..k])), Run(f, ts);
      Run(l, ts).uids == end.uids && Run(l, ts).owner == end.owner <==> GivesOut(l, ts, end.uids)
  {
    hide Run, GivesOut, StartsFor, MergedFolder, Indexed;
    var l := MergedFolder(f, Run(f, ts[..k]));
    RunIndexed(f, ts[..k]);
    MergedFolderIndexed(f, Run(f, ts[..k]));
    RunIndexed(f, ts);
    RunIndexed(l, ts);
    MergeStarts(f, ts, k);
    NumbersWhen(l, ts, Run(f, ts).uids);
    if Run(l, ts).uids == Run(f, ts).uids {
      SameOwners(Run(l, ts), Run(f, ts));
    }
  }

  lemma SameOwners(f: Folder, g: Folder)
    requires Indexed(f) && Indexed(g) && f.uids == g.uids
    ensures f.owner == g.owner
  {
    RebuiltIndex(f, g.owner);
  }

  // -- when the turns fit -----------------------------------------------------------------------------

  /** Every assignment that takes effect gives Next or a later number, and none is refused. */
  ghost predicate Peaceful(f: Folder, ts: seq<Turn>) {
    forall i :: 0 <= i < |ts| ==> PeacefulAt(Run(f, ts[..i]), ts[i])
  }

  predicate PeacefulAt(c: Folder, t: Turn) {
    t.Give? ==> InTurn(c, t.mid, t.n) && !Refused(c, t.mid, t.n)
  }

  lemma TurnKeepsLow(c: Folder, t: Turn)
    requires PeacefulAt(c, t)
    ensures c.next <= After(c, t).next
    ensures forall mid :: mid in After(c, t).uids && After(c, t).uids[mid] < c.next ==>
      mid in c.uids && c.uids[mid] == After(c, t).uids[mid]
  {
  }

  /** Who has a low number later has had it since. */
  lemma {:induction false} HeldSince(f: Folder, ts: seq<Turn>, i: nat, k: nat, mid: string)
    requires i <= k <= |ts| && Peaceful(f, ts)
    requires var g := Run(f, ts[..k]); mid in g.uids && g.uids[mid] < Run(f, ts[..i]).next
    ensures Run(f, ts[..i]).next <= Run(f, ts[..k]).next
    ensures var c, g := Run(f, ts[..i]), Run(f, ts[..k]); mid in c.uids && c.uids[mid] == g.uids[mid]
    decreases k
  {
    hide Run, PeacefulAt, After;
    if k > i {
      OneTurn(f, ts, k - 1);
      PeacefulRises(f, ts, i, k - 1);
      TurnKeepsLow(Run(f, ts[..k - 1]), ts[k - 1]);
      HeldSince(f, ts, i, k - 1, mid);
    }
  }

  lemma {:induction false} PeacefulRises(f: Folder, ts: seq<Turn>, i: nat, k: nat)
    requires i <= k <= |ts| && Peaceful(f, ts)
    ensures Run(f, ts[..i]).next <= Run(f, ts[..k]).next
    decreases k
  {
    hide Run, PeacefulAt, After;
    if k > i {
      PeacefulRises(f, ts, i, k - 1);
      OneTurn(f, ts, k - 1);
      TurnKeepsLow(Run(f, ts[..k - 1]), ts[k - 1]);
    }
  }

  /** So it is in a log without conflicts, whatever is retired in it. */
  lemma PeacefulFits(f: Folder, ts: seq<Turn>)
    requires Indexed(f) && Peaceful(f, ts)
    ensures AllFit(f, ts)
  {
    assert ts[..|ts|] == ts;
    forall i | 0 <= i < |ts| ensures Fits(Run(f, ts[..i]), Run(f, ts), ts[i]) {
      assert PeacefulAt(Run(f, ts[..i]), ts[i]);
      RunIndexed(f, ts[..i + 1]);
      OneTurn(f, ts, i);
      hide Run, Indexed;
      var c, t := Run(f, ts[..i]), ts[i];
      if t.Give? && TakesEffect(c, t.mid, t.n) {
        forall k | k in Run(f, ts).uids && Run(f, ts).uids[k] == t.n ensures k == t.mid {
          HeldSince(f, ts, i + 1, |ts|, k);
          OnlyOne(After(c, t), k, t.mid);
        }
      }
    }
  }

  lemma OnlyOne(f: Folder, a: string, b: string)
    requires Indexed(f) && a in f.uids && b in f.uids && f.uids[a] == f.uids[b]
    ensures a == b
  {
  }

  /** And in a log in which nothing is retired, whatever conflicts there are, as long as the last number is not given. */
  lemma GrowingFits(f: Folder, ts: seq<Turn>)
    requires Indexed(f) && (forall t :: t in ts ==> t.Give? && t.n < LIMIT - 1)
    ensures AllFit(f, ts)
  {
    assert ts[..|ts|] == ts;
    RunIndexed(f, ts);
    forall i | 0 <= i < |ts| ensures Fits(Run(f, ts[..i]), Run(f, ts), ts[i]) {
      var c, t := Run(f, ts[..i]), ts[i];
      OneTurn(f, ts, i);
      Grows(f, ts, i, |ts|);
      Grows(f, ts, i + 1, |ts|);
      assert t in ts;
      hide Run;
      if TakesEffect(c, t.mid, t.n) {
        forall k | k in Run(f, ts).uids && Run(f, ts).uids[k] == t.n ensures k == t.mid {
          OnlyOne(Run(f, ts), k, t.mid);
        }
      }
    }
  }

  lemma {:induction false} Grows(f: Folder, ts: seq<Turn>, i: nat, k: nat)
    requires i <= k <= |ts| && forall t :: t in ts ==> t.Give?
    ensures var c, g := Run(f, ts[..i]), Run(f, ts[..k]);
      forall mid :: mid in c.uids ==> mid in g.uids && g.uids[mid] == c.uids[mid]
    decreases k
  {
    hide Run;
    if k > i {
      Grows(f, ts, i, k - 1);
      OneTurn(f, ts, k - 1);
    }
  }

  /** Without conflicts nothing is refused in the second replay either. */
  lemma {:induction false} NothingRefused(f: Folder, ts: seq<Turn>, l: Folder, k: nat)
    requires Indexed(f) && Peaceful(f, ts) && AllMatch(f, l, Run(f, ts)) && k <= |ts|
    ensures RefusedTurns(l, ts[..k]) == 0
  {
    if k > 0 {
      NothingRefused(f, ts, l, k - 1);
      PeacefulFits(f, ts);
      hide AllMatch, Run, AllFit, Indexed;
      SoFar(f, ts, l, k - 1);
      assert ts[..k][..k - 1] == ts[..k - 1];
      assert PeacefulAt(Run(f, ts[..k - 1]), ts[k - 1]) && Fits(Run(f, ts[..k - 1]), Run(f, ts), ts[k - 1]) by {
        assert AllFit(f, ts);
      }
      NotRefusedThere(Run(f, ts[..k - 1]), Run(l, ts[..k - 1]), Run(f, ts), ts[k - 1]);
    }
  }

  lemma NotRefusedThere(c: Folder, l: Folder, end: Folder, t: Turn)
    requires AllMatch(c, l, end) && PeacefulAt(c, t) && Fits(c, end, t)
    ensures t.Give? ==> !Refused(l, t.mid, t.n)
  {
    if t.Give? {
      assert Matches(c, l, end, t.mid);
      if TakesEffect(c, t.mid, t.n) {
        FreeThere(c, l, end, t);
      }
    }
  }

  /** A conflict, and then the one in the way is given another number: the second replay gives its old one away. */
  lemma RenumberedHolder()
    ensures var ts := [Give("k", 1), Give("m", 1), Take("k"), Give("k", 2)];
      var end := Run(FRESH, ts);
      "m" !in end.uids && "m" in Run(MergedFolder(FRESH, end), ts).uids
  {
    var ts := [Give("k", 1), Give("m", 1), Take("k"), Give("k", 2)];
    FourTurns(FRESH, ts);
    var end := Folder(2, 3, map["k" := 2], map[2 := "k"]);
    assert Run(FRESH, ts) == end by { FourFresh(); }
    assert MergedFolder(FRESH, end) == end;
    FourTurns(end, ts);
    FourAgain(end);
  }

  lemma FourFresh()
    ensures After(After(After(After(FRESH, Give("k", 1)), Give("m", 1)), Take("k")), Give("k", 2))
         == Folder(2, 3, map["k" := 2], map[2 := "k"])
  {
  }

  lemma FourAgain(end: Folder)
    requires end == Folder(2, 3, map["k" := 2], map[2 := "k"])
    ensures "m" in After(After(After(After(end, Give("k", 1)), Give("m", 1)), Take("k")), Give("k", 2)).uids
  {
  }

  lemma FourTurns(f: Folder, ts: seq<Turn>)
    requires |ts| == 4
    ensures Run(f, ts) == After(After(After(After(f, ts[0]), ts[1]), ts[2]), ts[3])
  {
    hide After;
    assert ts[..0] == [] && ts[..4] == ts;
    OneTurn(f, ts, 0);
    OneTurn(f, ts, 1);
    OneTurn(f, ts, 2);
    OneTurn(f, ts, 3);
  }

  // -- documents ----------------------------------------------------------------------------------------

  function GiveFirst(mids: seq<string>, nums: seq<Number>, k: nat): seq<Turn>
    requires k <= |mids|
  {
    if k == 0 then []
    else GiveFirst(mids, nums, k - 1) + (if k > |nums| then [] else [Give(mids[k - 1], nums[k - 1])])
  }

  function TakeFirst(mids: seq<string>, k: nat): seq<Turn>
    requires k <= |mids|
  {
    if k == 0 then [] else TakeFirst(mids, k - 1) + [Take(mids[k - 1])]
  }

  lemma OneMoreTurn(f: Folder, ts: seq<Turn>, t: Turn)
    ensures Run(f, ts + [t]) == After(Run(f, ts), t)
  {
    assert (ts + [t])[..|ts|] == ts;
  }

  lemma {:induction false} GivesRun(f: Folder, mids: seq<string>, nums: seq<Number>, k: nat)
    requires k <= |mids|
    ensures Run(f, GiveFirst(mids, nums, k)) == AssignFirst(f, mids, nums, k)
  {
    if k > 0 {
      var front := GiveFirst(mids, nums, k - 1);
      GivesRun(f, mids, nums, k - 1);
      if k > |nums| {
        assert front + [] == front;
      } else {
        OneMoreTurn(f, front, Give(mids[k - 1], nums[k - 1]));
      }
    }
  }

  lemma {:induction false} TakesRun(f: Folder, mids: seq<string>, k: nat)
    requires k <= |mids|
    ensures Run(f, TakeFirst(mids, k)) == RetireFirst(f, mids, k)
  {
    if k > 0 {
      TakesRun(f, mids, k - 1);
      OneMoreTurn(f, TakeFirst(mids, k - 1), Take(mids[k - 1]));
    }
  }

  /** What an op does to one folder. */
  function TurnsOf(op: Op, name: string): seq<Turn> {
    match op
    case Uid(folder, mids, nums) => if folder == name then GiveFirst(mids, nums, |mids|) else []
    case UidRetire(folder, mids) => if folder == name then TakeFirst(mids, |mids|) else []
    case Drop(mids) => TakeFirst(mids, |mids|)
    case _ => []
  }

  function AllTurns(ops: seq<Op>, name: string): seq<Turn> {
    if ops == [] then [] else AllTurns(ops[..|ops| - 1], name) + TurnsOf(ops[|ops| - 1], name)
  }

  lemma {:induction false} TurnsConcat(a: seq<Op>, b: seq<Op>, name: string)
    ensures AllTurns(a + b, name) == AllTurns(a, name) + AllTurns(b, name)
  {
    hide TurnsOf;
    if b == [] {
      assert a + b == a;
    } else {
      var front, last := b[..|b| - 1], TurnsOf(b[|b| - 1], name);
      assert (a + b)[..|a + b| - 1] == a + front;
      TurnsConcat(a, front, name);
      assert AllTurns(a, name) + AllTurns(front, name) + last == AllTurns(a, name) + (AllTurns(front, name) + last);
    }
  }

  lemma {:induction false} NothingTaken(mids: seq<string>, k: nat)
    requires k <= |mids|
    ensures RetireFirst(FRESH, mids, k) == FRESH
  {
    if k > 0 {
      NothingTaken(mids, k - 1);
    }
  }

  lemma OpRun(d: Doc, op: Op, name: string)
    ensures FolderOf(ApplyOp(d, op).uids, name) == Normal(Run(FolderOf(d.uids, name), TurnsOf(op, name)))
  {
    var n := Normalized(d);
    NormalTwice(d, name);
    FreshIsSound();
    match op
    case Uid(folder, mids, nums) =>
      StepOfUid(n, folder, mids, nums);
      GivesRun(FolderOf(d.uids, name), mids, nums, |mids|);
      hide Step, AssignFirst, Normalized, GiveFirst;
    case UidRetire(folder, mids) =>
      StepOfUidRetire(n, folder, mids);
      TakesRun(FolderOf(d.uids, name), mids, |mids|);
      hide Step, RetireFirst, Normalized, TakeFirst;
    case Drop(mids) =>
      StepOfDrop(n, mids);
      TakesRun(FolderOf(d.uids, name), mids, |mids|);
      NothingTaken(mids, |mids|);
      hide Step, RetireFirst, Normalized, TakeFirst;
    case _ =>
      OtherNumbers(d, op);
  }

  /** No counter of the folder wraps around to 0 between the ops, so that nothing has to be filled in. */
  ghost predicate NoFilling(f: Folder, ops: seq<Op>, name: string) {
    forall k :: 0 <= k <= |ops| ==> Filled(Run(f, AllTurns(ops[..k], name)))
  }

  predicate Filled(f: Folder) {
    f.validity != 0 && f.next != 0
  }

  lemma {:induction false} FolderRun(d: Doc, ops: seq<Op>, name: string, f: Folder, k: nat)
    requires f == FolderOf(d.uids, name) && NoFilling(f, ops, name) && k <= |ops|
    ensures FolderOf(ApplyAll(d, ops[..k]).uids, name) == Run(f, AllTurns(ops[..k], name))
  {
    if k == 0 {
      assert ops[..0] == [];
    } else {
      hide FolderOf, TurnsOf, ApplyOp, Run, Normal;
      FolderRun(d, ops, name, f, k - 1);
      assert ops[..k][..k - 1] == ops[..k - 1];
      OpRun(ApplyAll(d, ops[..k - 1]), ops[k - 1], name);
      RunConcat(f, AllTurns(ops[..k - 1], name), TurnsOf(ops[k - 1], name));
      FilledIsNormal(Run(f, AllTurns(ops[..k], name)));
    }
  }

  lemma FilledIsNormal(f: Folder)
    requires Filled(f)
    ensures Normal(f) == f
  {
  }

  /** The folder of the snapshot merged with the file. */
  lemma MergedRun(d: Doc, b: seq<Op>, name: string)
    requires NoFilling(FolderOf(d.uids, name), b, name)
    ensures var f := FolderOf(d.uids, name); var l := MergedFolder(f, Run(f, AllTurns(b, name)));
      FolderOf(MergeMissing(d, Some(ApplyAll(d, b))).uids, name) == Normal(l)
  {
    var f, file := FolderOf(d.uids, name), ApplyAll(d, b);
    FolderRun(d, b, name, f, |b|);
    assert b[..|b|] == b;
    NormalTwice(d, name);
    NamesStay(d, b);
    MergedNumbers(Normalized(d), file) by { NormalizedTwice(d); }
    SameMerge(d, file);
    hide ApplyAll, Run, AllTurns, Normalized, MergeMissing;
    FreshMerge();
  }

  lemma FreshMerge()
    ensures MergedFolder(FRESH, FRESH) == FRESH && Normal(FRESH) == FRESH
  {
  }

  lemma NormalizedTwice(d: Doc)
    ensures Normalized(Normalized(d)) == Normalized(d)
  {
  }

  lemma SameMerge(d: Doc, other: Doc)
    ensures MergeMissing(Normalized(d), Some(other)) == MergeMissing(d, Some(other))
  {
    NormalizedTwice(d);
  }

  lemma {:induction false} NamesStay(d: Doc, ops: seq<Op>)
    ensures d.uids.Keys <= ApplyAll(d, ops).uids.Keys
  {
    hide ApplyOp;
    if ops != [] {
      NamesStay(d, ops[..|ops| - 1]);
      FoldersStay(ApplyAll(d, ops[..|ops| - 1]), ops[|ops| - 1]);
    }
  }

  /**
    A load over the own file, which is ahead of the snapshot by the first ops of the log: the folder has the
    numbers, the reverse index and the Next of a clean replay, and Validity is higher by the number of
    assignments that are refused when these ops come a second time.
    */
  lemma LoadNumbers(d: Doc, b: seq<Op>, rest: seq<Op>, name: string)
    requires AllIndexed(d)
    requires var f, ts := FolderOf(d.uids, name), AllTurns(b, name); var l := MergedFolder(f, Run(f, ts));
      && AllFit(f, ts) && Run(f, ts).validity >= f.validity
      && NoFilling(f, b + rest, name) && NoFilling(l, b + rest, name)
    ensures var f, ts := FolderOf(d.uids, name), AllTurns(b, name); var l := MergedFolder(f, Run(f, ts));
      var loaded := FolderOf(ApplyAll(MergeMissing(d, Some(ApplyAll(d, b))), b + rest).uids, name);
      var clean := FolderOf(ApplyAll(d, b + rest).uids, name);
      loaded == clean.(validity := (clean.validity + RefusedTurns(l, ts)) % LIMIT)
  {
    hide *;
    var f, ts := FolderOf(d.uids, name), AllTurns(b, name);
    var l, merged, all := MergedFolder(f, Run(f, ts)), MergeMissing(d, Some(ApplyAll(d, b))), b + rest;
    FreshIndexed(d, name);
    ReplayedOver(f, ts);
    FirstOps(f, b, rest, name);
    MergedRun(d, b, name);
    NoneFilled(l, all, name);
    FolderRun(merged, all, name, l, |all|);
    FolderRun(d, all, name, f, |all|);
    assert all[..|all|] == all;
    TurnsConcat(b, rest, name);
    TwoRuns(f, l, ts, AllTurns(rest, name), RefusedTurns(l, ts));
  }

  /**
    Whatever conflicts there are and whatever is retired, in these ops and in those that follow: a load over
    the own file gives the folder the numbers of a clean replay if and only if the turns, taken again from the
    merge on, give them out.
    */
  lemma LoadNumbersWhen(d: Doc, b: seq<Op>, rest: seq<Op>, name: string)
    requires AllIndexed(d)
    requires var f := FolderOf(d.uids, name);
      NoFilling(f, b + rest, name) && NoFilling(MergedFolder(f, Run(f, AllTurns(b, name))), b + rest, name)
    ensures var f := FolderOf(d.uids, name);
      var loaded := FolderOf(ApplyAll(MergeMissing(d, Some(ApplyAll(d, b))), b + rest).uids, name);
      var clean := FolderOf(ApplyAll(d, b + rest).uids, name);
      loaded.uids == clean.uids && loaded.owner == clean.owner
      <==> GivesOut(MergedFolder(f, Run(f, AllTurns(b, name))), AllTurns(b + rest, name), clean.uids)
  {
    hide *;
    var f, ts, all := FolderOf(d.uids, name), AllTurns(b, name), b + rest;
    var l, merged := MergedFolder(f, Run(f, ts)), MergeMissing(d, Some(ApplyAll(d, b)));
    FreshIndexed(d, name);
    FirstOps(f, b, rest, name);
    MergedRun(d, b, name);
    NoneFilled(l, all, name);
    FolderRun(merged, all, name, l, |all|);
    FolderRun(d, all, name, f, |all|);
    assert all[..|all|] == all;
    TurnsConcat(b, rest, name);
    assert AllTurns(all, name)[..|ts|] == ts;
    ReplayedWhen(f, AllTurns(all, name), |ts|);
  }

  lemma TwoRuns(f: Folder, l: Folder, ts: seq<Turn>, rest: seq<Turn>, r: nat)
    requires Run(l, ts) == Run(f, ts).(validity := (Run(f, ts).validity + r) % LIMIT)
    ensures Run(l, ts + rest) == Run(f, ts + rest).(validity := (Run(f, ts + rest).validity + r) % LIMIT)
  {
    hide Run;
    RunConcat(l, ts, rest);
    RunConcat(f, ts, rest);
    OnlyValidity(Run(f, ts), r, rest);
  }

  lemma NoneFilled(f: Folder, ops: seq<Op>, name: string)
    requires NoFilling(f, ops, name)
    ensures Normal(f) == f
  {
    assert ops[..0] == [] && Filled(Run(f, AllTurns(ops[..0], name)));
  }

  lemma FirstOps(f: Folder, b: seq<Op>, rest: seq<Op>, name: string)
    requires NoFilling(f, b + rest, name)
    ensures NoFilling(f, b, name)
  {
    hide Run, AllTurns, Filled;
    forall k | 0 <= k <= |b| ensures Filled(Run(f, AllTurns(b[..k], name))) {
      assert b[..k] == (b + rest)[..k];
    }
  }

  /** If there are no conflicts in them, Validity is that of the clean replay, too. */
  lemma PeacefulLoad(d: Doc, b: seq<Op>, rest: seq<Op>, name: string)
    requires AllIndexed(d)
    requires var f, ts := FolderOf(d.uids, name), AllTurns(b, name);
      Peaceful(f, ts) && NoFilling(f, b + rest, name) && NoFilling(MergedFolder(f, Run(f, ts)), b + rest, name)
    ensures FolderOf(ApplyAll(MergeMissing(d, Some(ApplyAll(d, b))), b + rest).uids, name)
         == FolderOf(ApplyAll(d, b + rest).uids, name)
  {
    hide *;
    var f, ts := FolderOf(d.uids, name), AllTurns(b, name);
    FreshIndexed(d, name);
    PeacefulFits(f, ts);
    PeacefulReplay(f, ts);
    LoadNumbers(d, b, rest, name);
    NothingAdded(FolderOf(ApplyAll(d, b + rest).uids, name));
  }

  lemma NothingAdded(f: Folder)
    ensures f.(validity := (f.validity + 0) % LIMIT) == f
  {
  }

  lemma PeacefulReplay(f: Folder, ts: seq<Turn>)
    requires Indexed(f) && Peaceful(f, ts)
    ensures RefusedTurns(MergedFolder(f, Run(f, ts)), ts) == 0 && Run(f, ts).validity == f.validity
  {
    assert ts[..|ts|] == ts;
    PeacefulFits(f, ts);
    hide Run, RefusedTurns, AllFit, Peaceful, AllMatch;
    StartMatches(f, ts);
    ValidityStays(f, ts, |ts|);
    NothingRefused(f, ts, MergedFolder(f, Run(f, ts)), |ts|);
  }

  lemma {:induction false} ValidityStays(f: Folder, ts: seq<Turn>, k: nat)
    requires Peaceful(f, ts) && k <= |ts|
    ensures Run(f, ts[..k]).validity == f.validity
  {
    if k > 0 {
      ValidityStays(f, ts, k - 1);
      OneTurn(f, ts, k - 1);
      assert PeacefulAt(Run(f, ts[..k - 1]), ts[k - 1]);
    }
  }
}
