/**
  One machine's state: changes are applied, queued and written as one object per save; the
  log is loaded again and compacted when enough objects have gathered.
  */
module State {
  import opened Options
  import opened Document
  import opened Merging
  import opened StateLog
  import opened Absorption
  import opened Parts
  import opened Journal

  /** The bucket, seen by one machine.  Every call may fail, unless the bucket is readable or writable throughout. */
  class S3 {
    const readable: bool
    const writable: bool
    var snapshot: Option<Snapshot>
    var ops: map<nat, seq<Op>>

    /** Which of the calls went through, in their order. */
    ghost var answers: seq<bool>

    ghost function Value(): Bucket
      reads `snapshot, `ops
    {
      Bucket(snapshot, ops)
    }

    constructor (readable: bool, writable: bool)
      ensures this.readable == readable && this.writable == writable && snapshot == None && ops == map[]
    {
      this.readable, this.writable := readable, writable;
      snapshot, ops, answers := None, map[], [];
    }

    method Try(works: bool) returns (ok: bool)
      modifies this`answers
      ensures answers == old(answers) + [ok] && (works ==> ok)
    {
      ok := *;
      if works {
        ok := true;
      }
      answers := answers + [ok];
    }

    method PutOps(name: nat, body: seq<Op>) returns (ok: bool)
      modifies this`ops, this`answers
      ensures ops == (if ok then old(ops)[name := body] else old(ops)) && (writable ==> ok)
      ensures answers == old(answers) + [ok]
    {
      ok := Try(writable);
      if ok {
        ops := ops[name := body];
      }
    }

    method PutSnapshot(s: Snapshot) returns (ok: bool)
      modifies this`snapshot, this`answers
      ensures snapshot == (if ok then Some(s) else old(snapshot)) && (writable ==> ok)
      ensures answers == old(answers) + [ok]
    {
      ok := Try(writable);
      if ok {
        snapshot := Some(s);
      }
    }

    method GetSnapshot() returns (s: Option<Snapshot>, ghost ok: bool)
      modifies this`answers
      ensures s == (if ok then snapshot else None) && (readable ==> ok)
      ensures answers == old(answers) + [ok]
    {
      var got := Try(readable);
      ok := got;
      s := if got then snapshot else None;
    }

    method ListOps() returns (names: set<nat>, ghost ok: bool)
      modifies this`answers
      ensures names == (if ok then ops.Keys else {}) && (readable ==> ok)
      ensures answers == old(answers) + [ok]
    {
      var got := Try(readable);
      ok := got;
      names := if got then ops.Keys else {};
    }

    method GetOps(name: nat) returns (body: Option<seq<Op>>, ghost ok: bool)
      modifies this`answers
      ensures body == (if ok && name in ops then Some(ops[name]) else None) && (readable ==> ok)
      ensures answers == old(answers) + [ok]
    {
      var got := Try(readable);
      ok := got;
      body := if got && name in ops then Some(ops[name]) else None;
    }

    method DeleteOps(name: nat) returns (ghost ok: bool)
      modifies this`ops, this`answers
      ensures ops == (if ok then old(ops) - {name} else old(ops)) && (writable ==> ok)
      ensures answers == old(answers) + [ok]
    {
      var done := Try(writable);
      ok := done;
      if done {
        ops := ops - {name};
      }
    }
  }

  ghost predicate Ascending(names: seq<nat>) {
    forall i, j :: 0 <= i < j < |names| ==> names[i] < names[j]
  }

  function NameSet(names: seq<nat>): set<nat> {
    set i | 0 <= i < |names| :: names[i]
  }

  ghost predicate AllTrue(got: seq<bool>) {
    forall i :: 0 <= i < |got| ==> got[i]
  }

  /** The names whose calls went through. */
  function Answered(names: seq<nat>, got: seq<bool>): set<nat>
    requires |got| == |names|
  {
    set i | 0 <= i < |names| && got[i] :: names[i]
  }

  lemma OneAnswered(names: seq<nat>, got: seq<bool>, i: nat, ok: bool)
    requires i < |names| && |got| == i
    ensures Answered(names[..i + 1], got + [ok]) == Answered(names[..i], got) + (if ok then {names[i]} else {})
  {
    var more, all := got + [ok], names[..i + 1];
    forall n | n in Answered(all, more) ensures n in Answered(names[..i], got) + (if ok then {names[i]} else {}) {
      var j :| 0 <= j < |all| && more[j] && all[j] == n;
      assert j < i ==> names[..i][j] == n && got[j];
    }
    forall n | n in Answered(names[..i], got) + (if ok then {names[i]} else {}) ensures n in Answered(all, more) {
      if n in Answered(names[..i], got) {
        var j :| 0 <= j < i && got[j] && names[..i][j] == n;
        assert more[j] && all[j] == n;
      } else {
        assert more[i] && all[i] == n;
      }
    }
  }

  lemma NoneAnswered(names: seq<nat>, there: set<nat>)
    ensures Answered(names[..0], []) * there == {} && AllTrue([])
  {
  }

  lemma AllTrueMore(got: seq<bool>, ok: bool)
    ensures AllTrue(got + [ok]) <==> AllTrue(got) && ok
  {
    assert (got + [ok])[|got|] == ok;
    if AllTrue(got + [ok]) {
      forall i | 0 <= i < |got| ensures got[i] {
        assert (got + [ok])[i];
      }
    }
  }

  /** One more object: its ops come on top, if it could be read. */
  lemma FetchedMore(ops: map<nat, seq<Op>>, base: Doc, doc: Doc, open: seq<nat>, got: seq<bool>, i: nat, ok: bool)
    requires Ascending(open) && i < |open| && |got| == i
    requires doc == ApplyAll(base, Content(ops, Answered(open[..i], got) * ops.Keys))
    ensures (if ok && open[i] in ops then ApplyAll(doc, ops[open[i]]) else doc)
         == ApplyAll(base, Content(ops, Answered(open[..i + 1], got + [ok]) * ops.Keys))
  {
    var fetched := Answered(open[..i], got) * ops.Keys;
    assert forall n :: n in fetched ==> n < open[i];
    OneAnswered(open, got, i, ok);
    var more := Answered(open[..i + 1], got + [ok]) * ops.Keys;
    hide ApplyAll, Content, Last, Answered, Ascending;
    if ok && open[i] in ops {
      assert more == fetched + {open[i]};
      ContentNext(ops, fetched, open[i]);
      ApplyAllConcat(base, Content(ops, fetched), ops[open[i]]);
    } else {
      assert more == fetched;
    }
  }

  /** What could be read is among the names, and all of them if every call went through. */
  lemma FetchedNames(names: seq<nat>, got: seq<bool>, there: set<nat>)
    requires |got| == |names|
    ensures Answered(names, got) * there <= NameSet(names) * there
    ensures AllTrue(got) ==> Answered(names, got) * there == NameSet(names) * there
  {
    if AllTrue(got) {
      AllAnswered(names, got);
    }
  }

  lemma SomeCleared(all: map<nat, seq<Op>>, names: seq<nat>, got: seq<bool>)
    requires |got| == |names|
    ensures SomeOf(all - Answered(names, got), all)
    ensures forall n :: n in all && n !in names ==> n !in Answered(names, got)
    ensures AllTrue(got) ==> Answered(names, got) == NameSet(names)
  {
    if AllTrue(got) {
      AllAnswered(names, got);
    }
  }

  /** What was read, by the answers there were, is a load; all of it, if the bucket can be read. */
  lemma ReadAsLoad(now: Doc, b: Bucket, local: Option<Doc>, pending: seq<Op>, readable: bool, found: bool, listed: bool,
                   open: seq<nat>, got: seq<bool>)
    requires |got| == |open| && (readable ==> found && listed && AllTrue(got))
    requires NameSet(open) == if listed then Above(b.ops.Keys, if found then b.Upto() else 0) else {}
    requires now == ApplyAll(Normalized(BaseOf(if found then b.snapshot else None, local)),
                             Content(b.ops, Answered(open, got) * b.ops.Keys) + pending)
    ensures IsLoad(now, b, local, pending, readable) && NameSet(open) <= b.ops.Keys
    ensures readable ==> NameSet(open) == b.Newer() && LoadedFrom(now, b, local, b.Newer(), pending)
  {
    hide ApplyAll, Content, Normalized, BaseOf, NameSet, Answered, AllTrue;
    var snap := if found then b.snapshot else None;
    var fetched := Answered(open, got) * b.ops.Keys;
    FetchedNames(open, got, b.ops.Keys);
    assert fetched <= Above(b.ops.Keys, Bucket(snap, b.ops).Upto());
    assert LoadedFrom(now, Bucket(snap, b.ops), local, fetched, pending);
    if readable {
      assert NameSet(open) * b.ops.Keys == NameSet(open);
    }
  }

  lemma AllAnswered(names: seq<nat>, got: seq<bool>)
    requires |got| == |names| && AllTrue(got)
    ensures Answered(names, got) == NameSet(names)
  {
  }

  /** The names in ascending order. */
  method Sorted(names: set<nat>) returns (s: seq<nat>)
    ensures Ascending(s) && NameSet(s) == names
  {
    s := [];
    var todo := names;
    while todo != {}
      invariant todo <= names && Ascending(s) && NameSet(s) == names - todo
      invariant forall n, k :: n in s && k in todo ==> n < k
    {
      var n := Least(todo);
      OneMoreName(s, n);
      s := s + [n];
      todo := todo - {n};
    }
  }

  lemma {:induction false} MinExists(names: set<nat>)
    requires names != {}
    ensures exists n: nat :: IsMin(names, n)
  {
    var n :| n in names;
    if names == {n} {
      assert IsMin(names, n);
    } else {
      MinExists(names - {n});
      var m: nat :| IsMin(names - {n}, m);
      var least := if n < m then n else m;
      assert names == (names - {n}) + {n};
      assert IsMin(names, least);
    }
  }

  ghost predicate IsMin(names: set<nat>, n: nat) {
    n in names && forall k :: k in names ==> n <= k
  }

  /** The least of the names. */
  method Least(names: set<nat>) returns (n: nat)
    requires names != {}
    ensures IsMin(names, n)
  {
    MinExists(names);
    n :| n in names && forall k :: k in names ==> n <= k;
  }

  lemma OneMoreName(s: seq<nat>, n: nat)
    requires Ascending(s) && forall k :: k in s ==> k < n
    ensures Ascending(s + [n]) && NameSet(s + [n]) == NameSet(s) + {n}
  {
    var t := s + [n];
    assert t[|s|] == n;
    assert forall i :: 0 <= i < |s| ==> s[i] in s;
    forall k | k in NameSet(s) ensures k in NameSet(t) {
      var i :| 0 <= i < |s| && s[i] == k;
      assert t[i] == k;
    }
    forall k | k in NameSet(t) ensures k in NameSet(s) + {n} {
      var i :| 0 <= i < |t| && t[i] == k;
      assert i < |s| ==> s[i] == k;
    }
  }

  /** One object more, with the newest name. */
  lemma ContentNext(log: map<nat, seq<Op>>, names: set<nat>, n: nat)
    requires n in log && forall k :: k in names ==> k < n
    ensures Content(log, names + {n}) == Content(log, names) + log[n]
  {
    OneMore(log, log, names, n);
  }

  /** The outcome of a load; if the bucket cannot be read, of whatever could. */
  ghost predicate IsLoad(doc: Doc, b: Bucket, local: Option<Doc>, pending: seq<Op>, readable: bool) {
    if readable then LoadedFrom(doc, b, local, b.Newer(), pending)
    else exists snapshot, fetched ::
      (snapshot == b.snapshot || snapshot == None) && LoadedFrom(doc, Bucket(snapshot, b.ops), local, fetched, pending)
  }

  lemma NamesIn(s: seq<nat>)
    ensures forall n :: n in s <==> n in NameSet(s)
    ensures Ascending(s) && s != [] ==> forall n :: n in s ==> n <= s[|s| - 1]
  {
    forall n | n in s && Ascending(s) ensures n <= s[|s| - 1] {
      var i :| 0 <= i < |s| && s[i] == n;
      assert i < |s| - 1 ==> s[i] < s[|s| - 1];
    }
  }

  lemma LastOf(s: seq<nat>)
    requires Ascending(s) && s != []
    ensures Last(NameSet(s)) == s[|s| - 1]
  {
    NamesIn(s);
    assert s[|s| - 1] in s;
    LastIsMax(NameSet(s));
  }

  lemma {:induction false} AsManyNames(s: seq<nat>)
    requires Ascending(s)
    ensures |NameSet(s)| == |s|
  {
    if s != [] {
      var front := s[..|s| - 1];
      AsManyNames(front);
      assert front + [s[|s| - 1]] == s;
      forall k | k in front ensures k < s[|s| - 1] {
        var i :| 0 <= i < |front| && front[i] == k;
        assert s[i] < s[|s| - 1];
      }
      OneMoreName(front, s[|s| - 1]);
      NamesIn(front);
      assert s[|s| - 1] !in NameSet(front);
    }
  }

  class State {
    const s3: S3

    /** Whether there is a local file, and whether it can be written. */
    const cached: bool
    const disk: bool

    var data: Doc
    var pending: seq<Op>
    var upto: nat
    var openOps: nat
    var remoteOK: bool
    var defers: nat
    var dirty: bool
    var lastName: nat
    var localFile: Option<Doc>

    /** Every op that was ever issued, every object that was ever written, and what the local file shows. */
    ghost var issued: seq<Op>
    ghost var hist: map<nat, seq<Op>>
    ghost var saved: seq<Op>

    /** Whether every load found a file that added nothing, and no compaction found ops pending; see Faithful. */
    ghost var plain: bool

    /** Whether every load found a file at least as new as the snapshot, or none. */
    ghost var fit: bool

    ghost function Journal(): Log
      reads `issued, `hist, `pending, s3`snapshot, s3`ops
    {
      Log(issued, hist, pending, s3.Value())
    }

    ghost function Terms(): Setup {
      Setup(cached, disk, s3.readable)
    }

    /** Nothing is lost, doubled or reordered; and what a bucket that can be read shows is what was issued. */
    ghost predicate Valid()
      reads `issued, `hist, `pending, `lastName, `data, `localFile, `saved, `plain, `fit, s3`snapshot, s3`ops
    {
      Sane(Journal(), lastName, data, localFile, saved, plain, fit, Terms())
    }

    constructor (bucket: S3, cached: bool, disk: bool)
      requires bucket.snapshot == None && bucket.ops == map[]
      ensures Valid() && fresh(this) && s3 == bucket && this.cached == cached && this.disk == disk
      ensures data == EMPTY && issued == [] && pending == [] && defers == 0 && plain && fit && openOps == 0
    {
      s3, this.cached, this.disk := bucket, cached, disk;
      data, pending, upto, openOps, remoteOK := EMPTY, [], 0, 0, true;
      defers, dirty, lastName, localFile := 0, false, 0, None;
      issued, hist, saved, plain, fit := [], map[], [], true, true;
      new;
      SaneStart(Terms());
    }

    /** A name later than all names so far. */
    method OpName() returns (name: nat)
      modifies this`lastName
      ensures name == lastName > old(lastName)
    {
      name :| name > lastName;
      lastName := name;
    }

    /** Snapshot, then every op above its watermark whose body can be read, then what is pending. */
    method Load()
      returns (ghost compacted: bool, ghost open: seq<nat>, ghost found: bool, ghost listed: bool, ghost got: seq<bool>)
      requires Valid()
      modifies this`data, this`upto, this`openOps, this`plain, this`fit, s3
      ensures Valid() && (s3.readable ==> upto == s3.Value().Upto())
      ensures old(s3.answers) + [found, listed] + got <= s3.answers && |got| == |open|
      ensures |open| < COMPACT_AFTER ==> !compacted && s3.answers == old(s3.answers) + [found, listed] + got
      ensures Ascending(open)
      ensures NameSet(open) == if listed then Above(old(s3.ops).Keys, if found then old(s3.Value()).Upto() else 0) else {}
      ensures data == ApplyAll(Normalized(BaseOf(if found then old(s3.snapshot) else None, localFile)),
                               Content(old(s3.ops), Answered(open, got) * old(s3.ops).Keys) + pending)
      ensures IsLoad(data, old(s3.Value()), localFile, pending, s3.readable)
      ensures !compacted ==> s3.Value() == old(s3.Value())
      ensures compacted ==> s3.snapshot.Some? && s3.snapshot.value.doc == data && openOps == 0
      ensures s3.readable && s3.writable ==> (compacted <==> |old(s3.Value()).Newer()| >= COMPACT_AFTER)
      ensures s3.readable && |old(s3.Value()).Newer()| < COMPACT_AFTER ==> !compacted
      ensures s3.readable && !compacted ==> openOps == |old(s3.Value()).Newer()|
      ensures s3.readable && s3.writable && compacted ==> var names := old(s3.Value()).Newer();
        upto == Last(names) && s3.ops == old(s3.ops) - names
      ensures s3.readable ==>
        plain == (old(plain) && NothingLocal(old(s3.Value()), localFile) && (compacted ==> pending == []))
    {
      hide IsLoad, Content, ApplyAll, Last, Sane, NothingLocal, Normalized, BaseOf, Answered, NameSet, Ascending, Above;
      var names;
      names, found, listed, got := Reload();
      open := names;
      compacted := false;
      if |names| >= COMPACT_AFTER {
        ghost var cleared;
        compacted, cleared := Compact(names);
        assert s3.answers == old(s3.answers) + [found, listed] + got + ([compacted] + cleared);
      }
    }

    /** The part of Load that only reads: the new document, and the names it listed. */
    method Reload() returns (open: seq<nat>, ghost found: bool, ghost listed: bool, ghost got: seq<bool>)
      requires Valid()
      modifies this`data, this`upto, this`openOps, this`plain, this`fit, s3`answers
      ensures s3.answers == old(s3.answers) + [found, listed] + got && |got| == |open|
      ensures upto == (if found then s3.Value().Upto() else 0)
      ensures Ascending(open) && NameSet(open) == if listed then Above(s3.ops.Keys, upto) else {}
      ensures data == ApplyAll(Normalized(BaseOf(if found then s3.snapshot else None, localFile)),
                               Content(s3.ops, Answered(open, got) * s3.ops.Keys) + pending)
      ensures Valid() && (s3.readable ==> found && listed && AllTrue(got))
      ensures NameSet(open) <= s3.ops.Keys && (s3.readable ==> NameSet(open) == s3.Value().Newer())
      ensures openOps == |open| == |NameSet(open)|
      ensures IsLoad(data, s3.Value(), localFile, pending, s3.readable)
      ensures s3.readable ==> plain == (old(plain) && NothingLocal(s3.Value(), localFile))
    {
      hide ApplyAll, Content, Normalized, BaseOf, Last, Ascending, Sane, NothingLocal, NewEnough, AllTrue, Answered, NameSet,
           IsLoad, LoadedFrom, Above;
      var doc, mark;
      doc, mark, open, found, listed, got := ReadAll();
      AsManyNames(open);
      ghost var l, now := Journal(), ApplyAll(doc, pending);
      ReadAsLoad(now, s3.Value(), localFile, pending, s3.readable, found, listed, open, got);
      SaneLoad(l, lastName, data, localFile, saved, plain, fit, Terms(), now);
      plain, fit := plain && NothingLocal(l.bucket, localFile), fit && NewEnough(l, localFile, saved);
      data, upto, openOps := ApplyAll(doc, pending), mark, |open|;
    }

    /** Everything that is read, before what is pending comes on top. */
    method ReadAll()
      returns (doc: Doc, mark: nat, open: seq<nat>, ghost found: bool, ghost listed: bool, ghost got: seq<bool>)
      modifies s3`answers
      ensures s3.answers == old(s3.answers) + [found, listed] + got && |got| == |open|
      ensures s3.readable ==> found && listed && AllTrue(got)
      ensures mark == (if found then s3.Value().Upto() else 0)
      ensures Ascending(open) && NameSet(open) == if listed then Above(s3.ops.Keys, mark) else {}
      ensures ApplyAll(doc, pending)
           == ApplyAll(Normalized(BaseOf(if found then s3.snapshot else None, localFile)),
                       Content(s3.ops, Answered(open, got) * s3.ops.Keys) + pending)
    {
      hide ApplyAll, Content, Normalized, BaseOf, Ascending, AllTrue, Answered, NameSet, Above;
      var snap;
      snap, found := s3.GetSnapshot();
      var start := Normalized(BaseOf(snap, localFile));
      mark := if snap.Some? then snap.value.upto else 0;
      open, listed := Newer(mark);
      doc, got := FetchOps(open, start);
      ApplyAllConcat(start, Content(s3.ops, Answered(open, got) * s3.ops.Keys), pending);
    }

    /** The names above the mark, oldest first; none if the bucket does not answer. */
    method Newer(mark: nat) returns (open: seq<nat>, ghost ok: bool)
      modifies s3`answers
      ensures Ascending(open) && s3.answers == old(s3.answers) + [ok] && (s3.readable ==> ok)
      ensures NameSet(open) == if ok then Above(s3.ops.Keys, mark) else {}
    {
      var names;
      names, ok := s3.ListOps();
      open := Sorted(Above(names, mark));
      NamesIn(open);
      assert open != [] ==> open[0] in open;
    }

    /**
      Applies the ops of the objects whose bodies can be read, in the order of the names; each body is asked
      for, whatever became of the others.
      */
    method FetchOps(open: seq<nat>, base: Doc) returns (doc: Doc, ghost got: seq<bool>)
      requires Ascending(open)
      modifies s3`answers
      ensures s3.answers == old(s3.answers) + got && |got| == |open| && (s3.readable ==> AllTrue(got))
      ensures doc == ApplyAll(base, Content(s3.ops, Answered(open, got) * s3.ops.Keys))
    {
      doc, got := base, [];
      ContentOfNone(s3.ops, base);
      hide ApplyAll, Content, Last, Answered, Ascending, AllTrue;
      NoneAnswered(open, s3.ops.Keys);
      for i := 0 to |open|
        invariant s3.answers == old(s3.answers) + got && |got| == i && (s3.readable ==> AllTrue(got))
        invariant doc == ApplyAll(base, Content(s3.ops, Answered(open[..i], got) * s3.ops.Keys))
      {
        var body;
        ghost var ok;
        body, ok := s3.GetOps(open[i]);
        FetchedMore(s3.ops, base, doc, open, got, i, ok);
        AllTrueMore(got, ok);
        got := got + [ok];
        if body.Some? {
          doc := ApplyAll(doc, body.value);
        }
      }
      assert open[..|open|] == open;
    }

    /** Puts the snapshot, marked with the last name merged; then deletes what is in it. */
    method Compact(merged: seq<nat>) returns (ghost done: bool, ghost got: seq<bool>)
      requires Valid() && Ascending(merged) && NameSet(merged) <= s3.ops.Keys
      requires s3.readable ==> NameSet(merged) == s3.Value().Newer()
      modifies this`upto, this`openOps, this`plain, s3
      ensures Valid()
      ensures done ==> merged != [] && s3.snapshot == Some(Snapshot(data, Last(NameSet(merged))))
      ensures done ==> upto == s3.Value().Upto() && openOps == 0
      ensures !done ==> s3.Value() == old(s3.Value()) && upto == old(upto) && openOps == old(openOps)
      ensures s3.answers == old(s3.answers) + (if merged == [] then [] else [done]) + got
      ensures done ==> |got| == |merged| && s3.ops == old(s3.ops) - Answered(merged, got)
      ensures !done ==> got == []
      ensures s3.writable && merged != [] ==> done && s3.ops == old(s3.ops) - NameSet(merged)
      ensures forall n :: n in old(s3.ops) && n !in merged ==> n in s3.ops && s3.ops[n] == old(s3.ops)[n]
      ensures plain == (old(plain) && (done ==> pending == []))
    {
      hide Content, Last, Ascending, Sane, SomeOf, NameSet, AllTrue, Answered;
      done, got := false, [];
      if |merged| == 0 {
        return;
      }
      LastOf(merged);
      NamesIn(merged);
      var mark := merged[|merged| - 1];
      ghost var l := Journal();
      var ok := s3.PutSnapshot(Snapshot(data, mark));
      if !ok {
        return;
      }
      done := true;
      upto, openOps := mark, 0;
      ghost var all := s3.ops;
      got := ClearAway(merged);
      SomeCleared(all, merged, got);
      SaneCompact(l, lastName, data, localFile, saved, plain, fit, Terms(), mark, s3.ops);
      plain := plain && pending == [];
    }

    /** Deletes the objects, each of them whatever became of the others; the watermark catches errors. */
    method ClearAway(merged: seq<nat>) returns (ghost got: seq<bool>)
      modifies s3`ops, s3`answers
      ensures s3.answers == old(s3.answers) + got && |got| == |merged| && (s3.writable ==> AllTrue(got))
      ensures s3.ops == old(s3.ops) - Answered(merged, got)
    {
      got := [];
      for i := 0 to |merged|
        invariant s3.answers == old(s3.answers) + got && |got| == i && (s3.writable ==> AllTrue(got))
        invariant s3.ops == old(s3.ops) - Answered(merged[..i], got)
      {
        ghost var ok := s3.DeleteOps(merged[i]);
        OneAnswered(merged, got, i, ok);
        got := got + [ok];
      }
      assert merged[..|merged|] == merged;
    }

    method WriteLocal()
      requires Valid()
      modifies this`localFile, this`saved
      ensures Valid() && (localFile == Some(data) || (localFile == old(localFile) && !(cached && disk)))
      ensures !cached ==> localFile == old(localFile) == None
      ensures disk && localFile.Some? ==> saved == issued
      ensures (localFile == old(localFile) && saved == old(saved)) || saved == issued
    {
      hide Sane;
      var ok: bool := *;
      SaneSave(Journal(), lastName, data, localFile, saved, plain, fit, Terms());
      if cached && (ok || disk) {
        localFile, saved := Some(data), issued;
      }
    }

    // -- changes --------------------------------------------------------------------------------

    /** What one call may have written: nothing, or one object under a new name with all that was pending. */
    ghost predicate AtMostOneObject(hist0: map<nat, seq<Op>>, lastName0: nat, queue: seq<Op>)
      reads this
    {
      || (hist == hist0 && pending == queue)
      || (hist == hist0[lastName := queue] && lastName > lastName0 && pending == [] && queue != [])
    }

    /** Writes the local file, and what is pending as one object, unless a batch is open. */
    method Save() returns (ok: bool)
      requires Valid()
      modifies this, s3
      ensures Valid() && issued == old(issued) && defers == old(defers)
      ensures AtMostOneObject(old(hist), old(lastName), old(pending))
      ensures old(defers) > 0 ==> hist == old(hist) && dirty && ok && data == old(data)
      ensures old(defers) == 0 && ok ==> pending == [] && !dirty
      ensures !ok ==> hist == old(hist) && pending == old(pending) && dirty == old(dirty) && data == old(data) && !remoteOK
      ensures old(defers) == 0 && ok && old(pending) != [] ==> remoteOK
      ensures old(defers) == 0 && cached && disk ==> localFile == Some(old(data))
      ensures old(defers) > 0 || !cached ==> localFile == old(localFile)
      ensures s3.writable ==> ok
      ensures old(defers) > 0 || old(pending) == [] ==>
        ok && s3.Value() == old(s3.Value()) && s3.answers == old(s3.answers) && data == old(data) && openOps == old(openOps)
      ensures old(defers) == 0 && old(pending) != [] ==> old(s3.answers) + [ok] <= s3.answers
      ensures !ok ==> s3.Value() == old(s3.Value()) && s3.answers == old(s3.answers) + [false] && openOps == old(openOps)
      ensures old(openOps) + 1 < COMPACT_AFTER ==> data == old(data) && s3.snapshot == old(s3.snapshot)
      ensures old(defers) == 0 && ok && old(pending) != [] && old(openOps) + 1 < COMPACT_AFTER ==>
        openOps == old(openOps) + 1 && s3.ops == old(s3.ops)[lastName := old(pending)]
      ensures old(defers) == 0 && ok && old(pending) != [] && old(openOps) + 1 >= COMPACT_AFTER ==>
        IsLoad(data, Bucket(old(s3.snapshot), old(s3.ops)[lastName := old(pending)]), localFile, [], s3.readable)
      ensures s3.readable && !cached && old(plain) ==> plain
    {
      hide Valid, IsLoad;
      if defers > 0 {
        dirty := true;
        return true;
      }
      WriteLocal();
      if pending == [] {
        dirty := false;
        return true;
      }
      ok := Flush();
    }

    /** The part of Save that writes to the bucket. */
    method Flush() returns (ok: bool)
      requires Valid() && pending != [] && (disk && localFile.Some? ==> saved == issued)
      modifies this, s3
      ensures Valid() && issued == old(issued) && defers == old(defers) && localFile == old(localFile)
      ensures AtMostOneObject(old(hist), old(lastName), old(pending)) && (s3.writable ==> ok)
      ensures old(s3.answers) + [ok] <= s3.answers
      ensures !ok ==> s3.Value() == old(s3.Value()) && s3.answers == old(s3.answers) + [false] && openOps == old(openOps)
      ensures ok ==> pending == [] && !dirty && remoteOK
      ensures !ok ==> hist == old(hist) && pending == old(pending) && dirty == old(dirty) && data == old(data) && !remoteOK
      ensures old(openOps) + 1 < COMPACT_AFTER ==> data == old(data) && s3.snapshot == old(s3.snapshot)
      ensures ok && old(openOps) + 1 < COMPACT_AFTER ==>
        openOps == old(openOps) + 1 && s3.ops == old(s3.ops)[lastName := old(pending)]
      ensures ok && old(openOps) + 1 >= COMPACT_AFTER ==>
        IsLoad(data, Bucket(old(s3.snapshot), old(s3.ops)[lastName := old(pending)]), localFile, [], s3.readable)
      ensures s3.readable && localFile == None && old(plain) ==> plain
    {
      hide Valid, IsLoad;
      ok := PutPending();
      if !ok {
        remoteOK := false;
        return;
      }
      remoteOK, dirty := true, false;
      OneMoreObject();
    }

    /** One more object lies open; with enough of them the log is loaded again, and merged. */
    method OneMoreObject()
      requires Valid()
      modifies this`data, this`upto, this`openOps, this`plain, this`fit, s3
      ensures Valid() && old(s3.answers) <= s3.answers
      ensures old(openOps) + 1 < COMPACT_AFTER ==>
        data == old(data) && s3.Value() == old(s3.Value()) && openOps == old(openOps) + 1 && s3.answers == old(s3.answers)
      ensures old(openOps) + 1 >= COMPACT_AFTER ==> IsLoad(data, old(s3.Value()), localFile, pending, s3.readable)
      ensures s3.readable && localFile == None && old(plain) && pending == [] ==> plain
    {
      hide Valid, IsLoad, NothingLocal, Answered, NameSet, Ascending, Above, Normalized, BaseOf, ApplyAll, Content, Last;
      openOps := openOps + 1;
      if openOps >= COMPACT_AFTER {
        NoneLocal(s3.Value());
        ghost var _, _, _, _, _ := Load();
      }
    }

    /** One object with everything that is pending; if it cannot be written, everything stays pending. */
    method PutPending() returns (ok: bool)
      requires Valid() && pending != []
      requires disk && localFile.Some? ==> saved == issued
      modifies this`pending, this`lastName, this`hist, s3
      ensures Valid() && s3.snapshot == old(s3.snapshot) && (s3.writable ==> ok)
      ensures s3.answers == old(s3.answers) + [ok]
      ensures ok ==> lastName > old(lastName) && hist == old(hist)[lastName := old(pending)] && pending == []
      ensures ok ==> s3.ops == old(s3.ops)[lastName := old(pending)]
      ensures !ok ==> hist == old(hist) && pending == old(pending) && s3.ops == old(s3.ops)
    {
      hide Content, ApplyAll, Sane;
      ghost var l, before := Journal(), lastName;
      var ops := pending;
      pending := [];
      var name := OpName();
      SanePut(l, before, name, data, localFile, saved, plain, fit, Terms());
      ok := s3.PutOps(name, ops);
      if !ok {
        pending := ops + pending;
        assert Journal() == l;
        return;
      }
      hist := hist[name := ops];
      assert Journal() == Put(l, name);
    }

    /** Applies changes and writes them away. */
    method Mutate(ops: seq<Op>) returns (ok: bool)
      requires Valid()
      modifies this, s3
      ensures Valid() && issued == old(issued) + ops && defers == old(defers)
      ensures AtMostOneObject(old(hist), old(lastName), old(pending) + ops)
      ensures old(defers) > 0 ==> hist == old(hist) && data == ApplyAll(old(data), ops) && dirty && ok
      ensures old(defers) == 0 && cached && disk ==> localFile == Some(ApplyAll(old(data), ops))
      ensures !ok || old(openOps) + 1 < COMPACT_AFTER ==> data == ApplyAll(old(data), ops)
      ensures old(defers) == 0 ==> if ok then pending == [] else pending == old(pending) + ops
      ensures s3.writable ==> ok
      ensures old(defers) > 0 ==> s3.Value() == old(s3.Value()) && s3.answers == old(s3.answers) && localFile == old(localFile)
      ensures old(defers) == 0 && old(pending) + ops != [] ==> old(s3.answers) + [ok] <= s3.answers
      ensures !ok ==> s3.Value() == old(s3.Value()) && s3.answers == old(s3.answers) + [false]
      ensures old(openOps) + 1 < COMPACT_AFTER ==> s3.snapshot == old(s3.snapshot)
      ensures old(openOps) + 1 < COMPACT_AFTER && old(defers) == 0 && ok && old(pending) + ops != [] ==>
        s3.ops == old(s3.ops)[lastName := old(pending) + ops]
      ensures s3.readable && !cached && old(plain) ==> plain
    {
      hide ApplyAll, Content, Sane, IsLoad;
      SaneIssue(Journal(), lastName, data, localFile, saved, plain, fit, Terms(), ops);
      data := ApplyAll(data, ops);
      pending := pending + ops;
      issued := issued + ops;
      dirty := true;
      ok := Save();
    }

    /** The first half of a batch; what follows collects. */
    method Enter()
      requires Valid()
      modifies this`defers
      ensures Valid() && defers == old(defers) + 1
    {
      defers := defers + 1;
    }

    /** The end of a batch: the outermost one writes everything in one object. */
    method Leave() returns (ok: bool)
      requires Valid() && defers > 0
      modifies this, s3
      ensures Valid() && issued == old(issued) && defers == old(defers) - 1
      ensures AtMostOneObject(old(hist), old(lastName), old(pending))
      ensures defers > 0 ==> hist == old(hist)
      ensures defers == 0 && ok && old(dirty) ==> pending == []
      ensures defers > 0 || !old(dirty) ==>
        ok && s3.Value() == old(s3.Value()) && s3.answers == old(s3.answers) && data == old(data) && localFile == old(localFile)
        && pending == old(pending) && hist == old(hist) && dirty == old(dirty)
      ensures defers == 0 && old(dirty) && old(pending) != [] ==> old(s3.answers) + [ok] <= s3.answers
      ensures !ok ==> s3.Value() == old(s3.Value()) && s3.answers == old(s3.answers) + [false] && pending == old(pending)
      ensures defers == 0 && old(dirty) && cached && disk ==> localFile == Some(old(data))
      ensures old(openOps) + 1 < COMPACT_AFTER ==> data == old(data) && s3.snapshot == old(s3.snapshot)
      ensures defers == 0 && ok && old(dirty) && old(pending) != [] && old(openOps) + 1 < COMPACT_AFTER ==>
        s3.ops == old(s3.ops)[lastName := old(pending)]
      ensures s3.writable ==> ok
      ensures s3.readable && !cached && old(plain) ==> plain
    {
      hide Sane;
      defers := defers - 1;
      ok := true;
      if defers == 0 && dirty {
        ok := Save();
      }
    }
  }

  // -- what this comes to ---------------------------------------------------------------------------

  /**
    After any calls with any failures of puts and deletes, on a bucket that can be read: the ops in the
    snapshot, the objects above its watermark in name order and the pending list are exactly the ops
    issued, in the order of issue.  The snapshot is the replay of its part, or has its content apart from
    what is coming; and the document in memory is the replay of all, or has its content.
    */
  lemma IssuedInOrder(s: State)
    requires s.Valid() && s.s3.readable
    ensures var l := s.Journal();
      && s.issued == Covered(l) + Content(l.bucket.ops, l.bucket.Newer()) + s.pending
      && (s.plain ==> SameView(l.bucket.Base(), ApplyAll(EMPTY, Covered(l))) && SameView(s.data, ApplyAll(EMPTY, s.issued)))
      && (s.fit && AllConstant(s.issued) ==>
            && Like(l.bucket.Base(), ApplyAll(EMPTY, Covered(l)), Coming(l))
            && SameContent(s.data, ApplyAll(EMPTY, s.issued)))
  {
    CoveredAndComing(s.Journal(), s.lastName);
    hide Content, ApplyAll, Like, SameView, SameContent, AllConstant;
  }

  /** Even if nothing can be read: what was written, in name order, and what is pending is what was issued. */
  lemma WrittenInOrder(s: State)
    requires s.Valid()
    ensures s.issued == Content(s.hist, s.hist.Keys) + s.pending
    ensures forall n :: n in s.s3.ops ==> n in s.hist && s.s3.ops[n] == s.hist[n]
  {
    hide Content;
  }

  /** What the machine loads next from such a bucket is the replay of everything it ever issued, or has its content. */
  lemma LoadGivesIssued(s: State, doc: Doc)
    requires s.Valid() && s.s3.readable && IsLoad(doc, s.s3.Value(), s.localFile, s.pending, true)
    ensures s.plain && NothingLocal(s.s3.Value(), s.localFile) ==> SameView(doc, ApplyAll(EMPTY, s.issued))
    ensures s.fit && NewEnough(s.Journal(), s.localFile, s.saved) && AllConstant(s.issued) ==>
      SameContent(doc, ApplyAll(EMPTY, s.issued))
  {
    hide Content, ApplyAll, Like, SameView, SameContent, AllConstant, Faithful, InOrder, Stored, NothingLocal, NewEnough;
    LoadFaithful(s.Journal(), s.lastName, s.data, s.localFile, s.saved, s.plain, s.fit, s.disk, doc);
    FaithfulData(s.Journal(), doc, s.localFile, s.saved, s.plain && NothingLocal(s.s3.Value(), s.localFile),
                 s.fit && NewEnough(s.Journal(), s.localFile, s.saved), s.disk);
  }

  lemma FaithfulData(l: Log, data: Doc, file: Option<Doc>, saved: seq<Op>, plain: bool, fit: bool, disk: bool)
    requires Faithful(l, data, file, saved, plain, fit, disk)
    ensures plain ==> SameView(data, ApplyAll(EMPTY, l.issued))
    ensures fit && AllConstant(l.issued) ==> SameContent(data, ApplyAll(EMPTY, l.issued))
  {
  }

  /** If the disk works, or there is no local file, all loads fit. */
  lemma OwnFileFits(s: State)
    requires s.Valid() && s.s3.readable && (s.disk || !s.cached)
    ensures s.fit && NewEnough(s.Journal(), s.localFile, s.saved)
  {
    hide Content, ApplyAll, Like, SameView, SameContent, AllConstant, Faithful, InOrder, Stored, NewEnough;
    if s.disk {
      DiskNewEnough(s.Journal(), s.lastName, s.data, s.localFile, s.saved, s.plain, s.fit);
    } else {
      FileGone(s.Journal(), s.saved);
    }
  }

  /** Another machine, with neither file nor pending ops, sees what was written, apart from what is pending here. */
  lemma OthersSeeWritten(s: State, doc: Doc)
    requires s.Valid() && s.s3.readable && s.fit && AllConstant(s.issued) && IsLoad(doc, s.s3.Value(), None, [], true)
    ensures Like(doc, ApplyAll(EMPTY, Content(s.hist, s.hist.Keys)), s.pending)
  {
    var l := s.Journal();
    CoveredAndComing(l, s.lastName);
    ComingConstant(l);
    NoFile(l.bucket);
    assert SnapshotShows(l);
    FreshLike(l, doc);
  }

  lemma FreshLike(l: Log, doc: Doc)
    requires InOrder(l) && SnapshotShows(l) && l.issued == Covered(l) + Coming(l) && AllConstant(Coming(l))
    requires doc == ApplyAll(Normalized(l.bucket.Base()), Content(l.bucket.ops, l.bucket.Newer()) + [])
    ensures Like(doc, ApplyAll(EMPTY, AllWritten(l)), l.pending)
  {
    var newer := Content(l.bucket.ops, l.bucket.Newer());
    assert newer + [] == newer;
    assert AllWritten(l) == Covered(l) + newer by {
      assert (AllWritten(l) + l.pending)[..|AllWritten(l)|] == AllWritten(l);
      assert (Covered(l) + newer + l.pending)[..|AllWritten(l)|] == Covered(l) + newer;
    }
    assert forall op :: op in newer ==> op in Coming(l);
    hide Content, ApplyAll, Like, Normalized, Constant;
    LikeNormalized(l.bucket.Base(), ApplyAll(EMPTY, Covered(l)), Coming(l));
    LikeReplayed(Normalized(l.bucket.Base()), ApplyAll(EMPTY, Covered(l)), Coming(l), newer, l.pending);
    ApplyAllConcat(EMPTY, Covered(l), newer);
  }

  // -- the limit --------------------------------------------------------------------------------------

  /**
    One machine, everything working: a tag is renamed before any message has it, then a message gets the
    old name.  The next load applies the rename to the machine's own file, and the message has the new one, too.
    */
  method RenameOverOwnFile() returns (s: State)
    ensures fresh(s) && s.Valid() && s.s3.readable && s.s3.writable && s.cached && s.disk && s.pending == []
    ensures s.issued == [TagRen("a", "b", ""), Retag(["m"], ["a"], [])]
    ensures Value(s.data, TagOf("m", "b")) && !Value(ApplyAll(EMPTY, s.issued), TagOf("m", "b"))
  {
    hide *;
    s := RenamedAndTagged();
    ghost var b := s.s3.Value();
    ghost var _, _, _, _, _ := s.Load();
    RenameShows(s.data, b, s.localFile, s.lastName);
  }

  /** The machine before the load. */
  method RenamedAndTagged() returns (s: State)
    ensures fresh(s) && fresh(s.s3) && s.Valid() && s.s3.readable && s.s3.writable && s.cached && s.disk && s.pending == []
    ensures s.issued == [TagRen("a", "b", ""), Retag(["m"], ["a"], [])] && s.lastName > 0
    ensures s.s3.Value() == Bucket(None, map[s.lastName := s.issued]) && s.localFile == Some(ApplyAll(EMPTY, s.issued))
  {
    hide ApplyAll, Content, Sane, IsLoad;
    var bucket := new S3(true, true);
    s := new State(bucket, true, true);
    var ops := [TagRen("a", "b", ""), Retag(["m"], ["a"], [])];
    var ok := s.Mutate(ops);
    assert [] + ops == ops;
  }

  lemma RenameShows(doc: Doc, b: Bucket, local: Option<Doc>, n: nat)
    requires var ops := [TagRen("a", "b", ""), Retag(["m"], ["a"], [])];
      && n > 0 && b == Bucket(None, map[n := ops]) && local == Some(ApplyAll(EMPTY, ops))
      && IsLoad(doc, b, local, [], true)
    ensures var ops := [TagRen("a", "b", ""), Retag(["m"], ["a"], [])];
      Value(doc, TagOf("m", "b")) && !Value(ApplyAll(EMPTY, ops), TagOf("m", "b"))
  {
    var rename, tag := TagRen("a", "b", ""), Retag(["m"], ["a"], []);
    var ops := [rename, tag];
    var file := ApplyAll(EMPTY, ops);
    LoadOfOne(doc, n, ops, file);
    NothingYet(TagOf("m", "a"));
    NothingYet(TagOf("m", "b"));
    NormalizedValue(file, TagOf("m", "a"));
    assert "m" in ["m"] && "a" in ["a"] && "b" !in ["a"];
    hide ApplyOp, ApplyAll, Value, Normalized;
    TwoOps(EMPTY, ops);
    TwoOps(Normalized(file), ops);
    RenameTag(EMPTY, "m", "a", "b", "");
    RenameTag(Normalized(file), "m", "a", "b", "");
    EffectIs(ApplyOp(EMPTY, rename), tag, TagOf("m", "a"));
    EffectIs(ApplyOp(EMPTY, rename), tag, TagOf("m", "b"));
    EffectIs(ApplyOp(Normalized(file), rename), tag, TagOf("m", "b"));
  }

  lemma NormalizedValue(d: Doc, c: Cell)
    ensures Value(Normalized(d), c) == Value(d, c)
  {
  }

  lemma LoadOfOne(doc: Doc, n: nat, ops: seq<Op>, file: Doc)
    requires n > 0 && IsLoad(doc, Bucket(None, map[n := ops]), Some(file), [], true)
    ensures doc == ApplyAll(Normalized(file), ops)
  {
    var b, none: set<nat> := Bucket(None, map[n := ops]), {};
    assert b.Newer() == none + {n};
    OneMore(map[], b.ops, none, n);
    assert Content(map[], none) == [];
    hide ApplyAll, Content;
    assert Content(b.ops, b.Newer()) + [] == ops;
  }

  lemma NoneLocal(b: Bucket)
    ensures NothingLocal(b, None)
  {
  }

  lemma ContentOfNone(log: map<nat, seq<Op>>, d: Doc)
    ensures ApplyAll(d, Content(log, {})) == d
  {
  }
}
