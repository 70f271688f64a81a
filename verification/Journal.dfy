/**
  What one machine has issued, where it lies, and what the snapshot, the local file and the document in
  memory show of it.  Exactly, as long as no local file adds anything and nothing was pending at a
  compaction; otherwise in content, for all ops but real renames, that is, rekey or tagren to another name.
  */
module Journal {
  import opened Options
  import opened Document
  import opened Merging
  import opened Absorption
  import opened Parts
  import opened StateLog

  /** Every op issued, every object ever written, the ops still pending, and the bucket. */
  datatype Log = Log(issued: seq<Op>, hist: map<nat, seq<Op>>, pending: seq<Op>, bucket: Bucket)

  ghost function AllWritten(l: Log): seq<Op> {
    Content(l.hist, l.hist.Keys)
  }

  /** What went into the snapshot. */
  ghost function Covered(l: Log): seq<Op> {
    Content(l.hist, UpTo(l.hist.Keys, l.bucket.Upto()))
  }

  /** What is applied to it. */
  ghost function Coming(l: Log): seq<Op> {
    Content(l.bucket.ops, l.bucket.Newer()) + l.pending
  }

  ghost predicate InOrder(l: Log) {
    l.issued == AllWritten(l) + l.pending
  }

  /** The bucket holds nothing but what was written. */
  ghost predicate Stored(l: Log, lastName: nat) {
    && (forall n :: n in l.hist ==> 0 < n <= lastName)
    && (forall n :: n in l.bucket.ops ==> n in l.hist && l.bucket.ops[n] == l.hist[n])
    && l.bucket.Upto() <= lastName
  }

  /** And all of it above the watermark. */
  ghost predicate Whole(l: Log) {
    forall n :: n in l.hist && n > l.bucket.Upto() ==> n in l.bucket.ops
  }

  /** Snapshot, newer objects and pending ops are what was issued, in the order of issue. */
  lemma CoveredAndComing(l: Log, lastName: nat)
    requires InOrder(l) && Stored(l, lastName) && Whole(l)
    ensures l.issued == Covered(l) + Coming(l)
  {
    var low, high := UpTo(l.hist.Keys, l.bucket.Upto()), Above(l.hist.Keys, l.bucket.Upto());
    assert l.hist.Keys == low + high;
    assert l.bucket.Newer() == high;
    hide Content;
    ContentSame(l.bucket.ops, l.hist, high);
    ContentSplit(l.hist, low, high);
  }

  // -- what is shown ----------------------------------------------------------------------------------

  /** The snapshot is the replay of what went into it. */
  ghost predicate SnapshotExact(l: Log) {
    SameView(l.bucket.Base(), ApplyAll(EMPTY, Covered(l)))
  }

  /** It has the content of that replay, apart from what is coming anyway. */
  ghost predicate SnapshotShows(l: Log) {
    Like(l.bucket.Base(), ApplyAll(EMPTY, Covered(l)), Coming(l))
  }

  /** The local file adds nothing to the snapshot. */
  ghost predicate NothingLocal(b: Bucket, local: Option<Doc>) {
    SameView(BaseOf(b.snapshot, local), BaseOf(b.snapshot, None))
  }

  /** The local file has the content of what was saved, which is at least what went into the snapshot. */
  ghost predicate FileFits(l: Log, file: Option<Doc>, saved: seq<Op>) {
    file.Some? ==> Covered(l) <= saved <= l.issued && SameContent(file.value, ApplyAll(EMPTY, saved))
  }

  /** The document of a load: the base, the objects that could be read in name order, the pending ops. */
  ghost predicate LoadedFrom(doc: Doc, b: Bucket, local: Option<Doc>, fetched: set<nat>, pending: seq<Op>) {
    && fetched <= Above(b.ops.Keys, b.Upto())
    && doc == ApplyAll(Normalized(BaseOf(b.snapshot, local)), Content(b.ops, fetched) + pending)
  }

  /** A load from all newer objects. */
  ghost predicate FullLoad(doc: Doc, l: Log, local: Option<Doc>) {
    LoadedFrom(doc, l.bucket, local, l.bucket.Newer(), l.pending)
  }

  lemma FullLoadIs(doc: Doc, l: Log, local: Option<Doc>)
    requires FullLoad(doc, l, local)
    ensures doc == ApplyAll(Normalized(BaseOf(l.bucket.snapshot, local)), Coming(l))
  {
    hide Normalized, ApplyAll, Content, BaseOf;
  }

  lemma BaseIs(b: Bucket)
    ensures SameView(BaseOf(b.snapshot, None), b.Base())
    ensures b.snapshot.Some? ==> b.Base() == b.snapshot.value.doc
  {
  }

  lemma LoadExact(l: Log, lastName: nat, doc: Doc, local: Option<Doc>)
    requires InOrder(l) && Stored(l, lastName) && Whole(l) && SnapshotExact(l) && NothingLocal(l.bucket, local)
    requires FullLoad(doc, l, local)
    ensures SameView(doc, ApplyAll(EMPTY, l.issued))
  {
    var base := BaseOf(l.bucket.snapshot, local);
    FullLoadIs(doc, l, local);
    BaseIs(l.bucket);
    CoveredAndComing(l, lastName);
    NormalizedView(base);
    hide Normalized, ApplyAll, Content, BaseOf, Coming, Covered;
    ViewChain(Normalized(base), base, ApplyAll(EMPTY, Covered(l)), l.bucket.Base(), BaseOf(l.bucket.snapshot, None));
    ViewReplayed(Normalized(base), ApplyAll(EMPTY, Covered(l)), Coming(l));
    ApplyAllConcat(EMPTY, Covered(l), Coming(l));
  }

  lemma ViewChain(a: Doc, b: Doc, e: Doc, d: Doc, c: Doc)
    requires SameView(a, b) && SameView(b, c) && SameView(c, d) && SameView(d, e)
    ensures SameView(a, e)
  {
    hide Normalized;
  }

  /** A file that shows what was issued so far, up to some point after the watermark. */
  lemma FileLike(l: Log, lastName: nat, file: Doc, saved: seq<Op>)
    requires InOrder(l) && Stored(l, lastName) && Whole(l) && AllConstant(l.issued) && FileFits(l, Some(file), saved)
    ensures Like(file, ApplyAll(EMPTY, Covered(l)), Coming(l))
  {
    CoveredAndComing(l, lastName);
    hide Content, ApplyAll, Coming, Covered, Like, SameContent, AllConstant;
    var more := SavedAfter(Covered(l), saved, Coming(l));
    AheadBy(file, Covered(l), more, Coming(l));
  }

  lemma SavedAfter(covered: seq<Op>, saved: seq<Op>, coming: seq<Op>) returns (more: seq<Op>)
    requires covered <= saved <= covered + coming && AllConstant(covered + coming)
    ensures saved == covered + more && more <= coming && AllConstant(more)
  {
    more := saved[|covered|..];
    assert more == (covered + coming)[|covered|..|saved|];
    assert forall op :: op in coming ==> op in covered + coming;
  }

  lemma AheadBy(file: Doc, covered: seq<Op>, more: seq<Op>, coming: seq<Op>)
    requires SameContent(file, ApplyAll(EMPTY, covered + more)) && more <= coming && AllConstant(more)
    ensures Like(file, ApplyAll(EMPTY, covered), coming)
  {
    hide ApplyAll, Like, SameContent, AllConstant;
    var base := ApplyAll(EMPTY, covered);
    ApplyAllConcat(EMPTY, covered, more);
    SameParts(file, ApplyAll(base, more));
    LikeEarly(base, more);
    LikeMore(ApplyAll(base, more), base, more, coming);
    LikeMore(file, ApplyAll(base, more), [], coming);
    LikeChain(file, ApplyAll(base, more), base, coming);
  }

  /** A load has the content of everything issued, over a local file that fits. */
  lemma LoadContent(l: Log, lastName: nat, doc: Doc, file: Option<Doc>, saved: seq<Op>)
    requires InOrder(l) && Stored(l, lastName) && Whole(l) && AllConstant(l.issued)
    requires SnapshotShows(l) && FileFits(l, file, saved) && FullLoad(doc, l, file)
    ensures SameContent(doc, ApplyAll(EMPTY, l.issued))
  {
    var base, truth := BaseOf(l.bucket.snapshot, file), ApplyAll(EMPTY, Covered(l));
    FullLoadIs(doc, l, file);
    CoveredAndComing(l, lastName);
    BaseLike(l, lastName, file, saved);
    hide *;
    LikeNormalized(base, truth, Coming(l));
    ComingConstant(l);
    LikeReplayed(Normalized(base), truth, Coming(l), Coming(l), []);
    ApplyAllConcat(EMPTY, Covered(l), Coming(l));
    SameParts(doc, ApplyAll(EMPTY, l.issued));
  }

  lemma ComingConstant(l: Log)
    requires AllConstant(l.issued) && l.issued == Covered(l) + Coming(l)
    ensures AllConstant(Coming(l))
  {
    hide Content, Constant, Covered, Coming;
    forall op | op in Coming(l) ensures Constant(op) {
      assert op in l.issued;
    }
  }

  lemma BaseLike(l: Log, lastName: nat, file: Option<Doc>, saved: seq<Op>)
    requires InOrder(l) && Stored(l, lastName) && Whole(l) && AllConstant(l.issued)
    requires SnapshotShows(l) && FileFits(l, file, saved)
    ensures Like(BaseOf(l.bucket.snapshot, file), ApplyAll(EMPTY, Covered(l)), Coming(l))
  {
    var truth := ApplyAll(EMPTY, Covered(l));
    if file.Some? {
      FileLike(l, lastName, file.value, saved);
    }
    hide Like, Content, ApplyAll, Coming, Covered, MergeMissing;
    if file.Some? && l.bucket.snapshot.Some? {
      LikeMerged(l.bucket.Base(), file.value, truth, Coming(l));
    } else if file.None? {
      NoFile(l.bucket);
    }
  }

  lemma NoFile(b: Bucket)
    ensures BaseOf(b.snapshot, None) == b.Base()
  {
  }

  // -- what each step does --------------------------------------------------------------------------

  /** Ops issued go behind what is coming. */
  lemma Issue(l: Log, ops: seq<Op>)
    requires InOrder(l)
    ensures var l' := l.(issued := l.issued + ops, pending := l.pending + ops);
      && InOrder(l') && (Whole(l) ==> Whole(l')) && Covered(l') == Covered(l) && Coming(l') == Coming(l) + ops
      && (SnapshotExact(l) ==> SnapshotExact(l')) && (SnapshotShows(l) ==> SnapshotShows(l'))
  {
    var l' := l.(issued := l.issued + ops, pending := l.pending + ops);
    hide Content, ApplyAll, Like, SameView;
    assert Coming(l') == Coming(l) + ops;
    if SnapshotShows(l) {
      LikeMore(l.bucket.Base(), ApplyAll(EMPTY, Covered(l)), Coming(l), Coming(l'));
    }
  }

  /** The pending ops become the newest object. */
  ghost function Put(l: Log, name: nat): Log {
    Log(l.issued, l.hist[name := l.pending], [], l.bucket.(ops := l.bucket.ops[name := l.pending]))
  }

  lemma PutKeeps(l: Log, lastName: nat, name: nat)
    requires InOrder(l) && Stored(l, lastName) && name > lastName
    ensures var l' := Put(l, name);
      && InOrder(l') && Stored(l', name) && (Whole(l) ==> Whole(l'))
      && AllWritten(l') == l.issued && Covered(l') == Covered(l) && Coming(l') == Coming(l)
      && (SnapshotExact(l) ==> SnapshotExact(l')) && (SnapshotShows(l) ==> SnapshotShows(l'))
  {
    var l', upto := Put(l, name), l.bucket.Upto();
    hide Content, ApplyAll, Like, SameView;
    assert l'.hist.Keys == l.hist.Keys + {name};
    OneMore(l.hist, l'.hist, l.hist.Keys, name);
    assert UpTo(l'.hist.Keys, upto) == UpTo(l.hist.Keys, upto);
    ContentSame(l.hist, l'.hist, UpTo(l.hist.Keys, upto));
    assert l'.bucket.Newer() == l.bucket.Newer() + {name};
    OneMore(l.bucket.ops, l'.bucket.ops, l.bucket.Newer(), name);
    assert Coming(l') == Coming(l);
  }

  lemma OneMore(log: map<nat, seq<Op>>, log': map<nat, seq<Op>>, names: set<nat>, n: nat)
    requires n in log' && log' == log[n := log'[n]] && forall k :: k in names ==> k < n
    ensures Content(log', names + {n}) == Content(log, names) + log'[n]
  {
    ContentSplit(log', names, {n});
    ContentSame(log, log', names);
    var one := {n};
    assert Last(one) == n;
    assert one - {n} == {};
    assert Content(log', one) == Content(log', {}) + log'[n];
    assert Content(log', {}) == [];
  }

  /** A snapshot over everything newer, and any of it deleted. */
  ghost function Compacted(l: Log, doc: Doc, ops: map<nat, seq<Op>>): Log {
    l.(bucket := Bucket(Some(Snapshot(doc, Last(l.bucket.Newer()))), ops))
  }

  ghost predicate SomeOf(ops: map<nat, seq<Op>>, all: map<nat, seq<Op>>) {
    ops.Keys <= all.Keys && forall n :: n in ops ==> ops[n] == all[n]
  }

  lemma CompactCovers(l: Log, lastName: nat, doc: Doc, ops: map<nat, seq<Op>>)
    requires Stored(l, lastName) && Whole(l) && l.bucket.Newer() != {} && SomeOf(ops, l.bucket.ops)
    ensures var l' := Compacted(l, doc, ops); Whole(l') && Covered(l') == AllWritten(l) && Coming(l') == l.pending
  {
    var l', w := Compacted(l, doc, ops), Last(l.bucket.Newer());
    LastIsMax(l.bucket.Newer());
    hide Last;
    assert forall n :: n in l.hist ==> n <= l.bucket.Upto() || n in l.bucket.Newer();
    assert UpTo(l.hist.Keys, w) == l.hist.Keys;
    assert l'.bucket.Newer() == {};
    assert Content(l'.bucket.ops, {}) == [];
  }

  /** If nothing was pending, the snapshot of an exact document is exact. */
  lemma CompactExact(l: Log, lastName: nat, doc: Doc, ops: map<nat, seq<Op>>)
    requires InOrder(l) && Stored(l, lastName) && Whole(l) && l.bucket.Newer() != {} && SomeOf(ops, l.bucket.ops)
    requires SameView(doc, ApplyAll(EMPTY, l.issued)) && l.pending == []
    ensures SnapshotExact(Compacted(l, doc, ops))
  {
    CompactCovers(l, lastName, doc, ops);
    hide Content, ApplyAll, Last, SameView;
    assert l.issued == AllWritten(l);
  }

  /** A snapshot of a document with the content of everything issued shows what was pending, and no more, ahead of time. */
  lemma CompactShows(l: Log, lastName: nat, doc: Doc, ops: map<nat, seq<Op>>)
    requires InOrder(l) && Stored(l, lastName) && Whole(l) && l.bucket.Newer() != {} && SomeOf(ops, l.bucket.ops)
    requires SameContent(doc, ApplyAll(EMPTY, l.issued)) && AllConstant(l.issued)
    ensures SnapshotShows(Compacted(l, doc, ops))
  {
    CompactCovers(l, lastName, doc, ops);
    assert forall op :: op in l.pending ==> op in l.issued;
    hide Content, ApplyAll, Last, Like, SameContent, Constant, Covered, Coming;
    var base := ApplyAll(EMPTY, AllWritten(l));
    ApplyAllConcat(EMPTY, AllWritten(l), l.pending);
    LikeEarly(base, l.pending);
    SameParts(doc, ApplyAll(base, l.pending));
    LikeMore(doc, ApplyAll(base, l.pending), [], l.pending);
    LikeChain(doc, ApplyAll(base, l.pending), base, l.pending);
  }

  // -- all of it --------------------------------------------------------------------------------------

  /**
    What holds of a machine that can read its bucket.  It is plain as long as no load found a local file
    that added anything and no compaction found ops pending; it fits as long as no load found a local file
    older than the snapshot.
    */
  ghost predicate Faithful(l: Log, data: Doc, file: Option<Doc>, saved: seq<Op>, plain: bool, fit: bool, disk: bool) {
    && Whole(l)
    && (plain ==> SnapshotExact(l) && SameView(data, ApplyAll(EMPTY, l.issued)))
    && (fit && AllConstant(l.issued) ==> SnapshotShows(l) && SameContent(data, ApplyAll(EMPTY, l.issued)))
    && (file.Some? ==>
          && saved <= l.issued && (disk ==> AllWritten(l) <= saved)
          && (fit && AllConstant(l.issued) ==> SameContent(file.value, ApplyAll(EMPTY, saved))))
  }

  lemma NothingFaithful(disk: bool)
    ensures var l := Log([], map[], [], Bucket(None, map[]));
      InOrder(l) && Stored(l, 0) && Faithful(l, EMPTY, None, [], true, true, disk)
  {
    var l := Log([], map[], [], Bucket(None, map[]));
    assert UpTo(l.hist.Keys, 0) == {};
    assert Covered(l) == [];
    SameParts(EMPTY, EMPTY);
    LikeMore(EMPTY, EMPTY, [], Coming(l));
    hide At, Touches;
  }

  lemma IssueFaithful(l: Log, data: Doc, file: Option<Doc>, saved: seq<Op>, plain: bool, fit: bool, disk: bool,
                      ops: seq<Op>)
    requires InOrder(l) && Faithful(l, data, file, saved, plain, fit, disk)
    ensures var l' := l.(issued := l.issued + ops, pending := l.pending + ops);
      Faithful(l', ApplyAll(data, ops), file, saved, plain, fit, disk)
  {
    Issue(l, ops);
    ApplyAllConcat(EMPTY, l.issued, ops);
    assert AllConstant(l.issued + ops) ==> AllConstant(l.issued) && AllConstant(ops);
    assert l.issued <= l.issued + ops;
    hide Content, ApplyAll, Like, SameView, SameContent, Constant, AllConstant, SnapshotExact, SnapshotShows, Whole;
    if plain {
      ViewReplayed(data, ApplyAll(EMPTY, l.issued), ops);
    }
    if fit && AllConstant(l.issued + ops) {
      ContentReplayed(data, ApplyAll(EMPTY, l.issued), ops);
    }
  }

  lemma SaveFaithful(l: Log, data: Doc, file: Option<Doc>, saved: seq<Op>, plain: bool, fit: bool, disk: bool)
    requires InOrder(l) && Faithful(l, data, file, saved, plain, fit, disk)
    ensures Faithful(l, data, Some(data), l.issued, plain, fit, disk)
  {
    hide Content, ApplyAll, Like, SameView, SameContent, AllConstant, SnapshotExact, SnapshotShows, Whole;
  }

  lemma PutFaithful(l: Log, lastName: nat, name: nat, data: Doc, file: Option<Doc>, saved: seq<Op>, plain: bool,
                    fit: bool, disk: bool)
    requires InOrder(l) && Stored(l, lastName) && name > lastName && Faithful(l, data, file, saved, plain, fit, disk)
    requires disk && file.Some? ==> l.issued <= saved
    ensures Faithful(Put(l, name), data, file, saved, plain, fit, disk)
  {
    PutKeeps(l, lastName, name);
    hide Content, ApplyAll, Like, SameView, SameContent, AllConstant, SnapshotExact, SnapshotShows, Whole, AllWritten;
  }

  /** A load found a file at least as new as the snapshot, or none. */
  ghost predicate NewEnough(l: Log, file: Option<Doc>, saved: seq<Op>) {
    file.Some? ==> Covered(l) <= saved
  }

  lemma LoadFaithful(l: Log, lastName: nat, data: Doc, file: Option<Doc>, saved: seq<Op>, plain: bool, fit: bool,
                     disk: bool, doc: Doc)
    requires InOrder(l) && Stored(l, lastName) && Faithful(l, data, file, saved, plain, fit, disk) && FullLoad(doc, l, file)
    ensures Faithful(l, doc, file, saved, plain && NothingLocal(l.bucket, file), fit && NewEnough(l, file, saved), disk)
  {
    if plain && NothingLocal(l.bucket, file) {
      LoadExact(l, lastName, doc, file);
    }
    if fit && NewEnough(l, file, saved) && AllConstant(l.issued) {
      LoadContent(l, lastName, doc, file, saved);
    }
    hide Content, ApplyAll, Like, SameView, SameContent, AllConstant, SnapshotExact, SnapshotShows, Whole;
  }

  /** With a disk that works the file is always new enough. */
  lemma DiskNewEnough(l: Log, lastName: nat, data: Doc, file: Option<Doc>, saved: seq<Op>, plain: bool, fit: bool)
    requires InOrder(l) && Stored(l, lastName) && Faithful(l, data, file, saved, plain, fit, true)
    ensures NewEnough(l, file, saved)
  {
    var low, high := UpTo(l.hist.Keys, l.bucket.Upto()), Above(l.hist.Keys, l.bucket.Upto());
    assert l.hist.Keys == low + high;
    ContentSplit(l.hist, low, high);
    hide Content, Like, ApplyAll;
    assert Covered(l) <= AllWritten(l);
  }

  lemma CompactFaithful(l: Log, lastName: nat, data: Doc, file: Option<Doc>, saved: seq<Op>, plain: bool, fit: bool,
                        disk: bool, ops: map<nat, seq<Op>>)
    requires InOrder(l) && Stored(l, lastName) && Faithful(l, data, file, saved, plain, fit, disk)
    requires l.bucket.Newer() != {} && SomeOf(ops, l.bucket.ops)
    ensures Faithful(Compacted(l, data, ops), data, file, saved, plain && l.pending == [], fit, disk)
  {
    CompactCovers(l, lastName, data, ops);
    if plain && l.pending == [] {
      CompactExact(l, lastName, data, ops);
    }
    if fit && AllConstant(l.issued) {
      CompactShows(l, lastName, data, ops);
    }
    hide Content, ApplyAll, Like, SameView, SameContent, AllConstant, SnapshotExact, SnapshotShows, Last;
  }

  /** Whether there is a local file, whether it can be written, and whether the bucket can be read. */
  datatype Setup = Setup(cached: bool, disk: bool, readable: bool)

  /** Nothing is lost, doubled or reordered; and what a bucket that can be read shows is what was issued. */
  ghost predicate Sane(l: Log, lastName: nat, data: Doc, file: Option<Doc>, saved: seq<Op>, plain: bool, fit: bool,
                       c: Setup) {
    && InOrder(l) && Stored(l, lastName) && (!c.cached ==> file == None)
    && (c.readable ==> Faithful(l, data, file, saved, plain, fit, c.disk) && (c.disk || !c.cached ==> fit))
  }

  lemma SaneStart(c: Setup)
    ensures Sane(Log([], map[], [], Bucket(None, map[])), 0, EMPTY, None, [], true, true, c)
  {
    NothingFaithful(c.disk);
    hide Faithful, InOrder, Stored;
  }

  lemma SaneIssue(l: Log, lastName: nat, data: Doc, file: Option<Doc>, saved: seq<Op>, plain: bool, fit: bool, c: Setup,
                  ops: seq<Op>)
    requires Sane(l, lastName, data, file, saved, plain, fit, c)
    ensures Sane(l.(issued := l.issued + ops, pending := l.pending + ops), lastName, ApplyAll(data, ops), file, saved,
                 plain, fit, c)
  {
    Issue(l, ops);
    IssuedStored(l, lastName, ops);
    hide Faithful, InOrder, Stored, ApplyAll, SnapshotExact, SnapshotShows, Whole, Covered, Coming;
    if c.readable {
      IssueFaithful(l, data, file, saved, plain, fit, c.disk, ops);
    }
  }

  lemma IssuedStored(l: Log, lastName: nat, ops: seq<Op>)
    requires Stored(l, lastName)
    ensures Stored(l.(issued := l.issued + ops, pending := l.pending + ops), lastName)
  {
  }

  lemma SaneSave(l: Log, lastName: nat, data: Doc, file: Option<Doc>, saved: seq<Op>, plain: bool, fit: bool, c: Setup)
    requires Sane(l, lastName, data, file, saved, plain, fit, c)
    ensures c.cached ==> Sane(l, lastName, data, Some(data), l.issued, plain, fit, c)
    ensures !c.cached ==> file == None
  {
    hide Faithful, InOrder, Stored;
    if c.readable {
      SaveFaithful(l, data, file, saved, plain, fit, c.disk);
    }
  }

  lemma SanePut(l: Log, lastName: nat, name: nat, data: Doc, file: Option<Doc>, saved: seq<Op>, plain: bool, fit: bool,
                c: Setup)
    requires Sane(l, lastName, data, file, saved, plain, fit, c) && name > lastName
    requires c.disk && file.Some? ==> l.issued <= saved
    ensures Sane(Put(l, name), name, data, file, saved, plain, fit, c)
    ensures Sane(l, name, data, file, saved, plain, fit, c)
  {
    PutKeeps(l, lastName, name);
    LaterStored(l, lastName, name);
    hide Faithful, InOrder, Stored, Put, Whole, Covered, Coming, AllWritten, SnapshotExact, SnapshotShows;
    if c.readable {
      PutFaithful(l, lastName, name, data, file, saved, plain, fit, c.disk);
    }
  }

  lemma LaterStored(l: Log, lastName: nat, later: nat)
    requires Stored(l, lastName) && later >= lastName
    ensures Stored(l, later)
  {
  }

  lemma SaneLoad(l: Log, lastName: nat, data: Doc, file: Option<Doc>, saved: seq<Op>, plain: bool, fit: bool, c: Setup,
                 doc: Doc)
    requires Sane(l, lastName, data, file, saved, plain, fit, c) && (c.readable ==> FullLoad(doc, l, file))
    ensures Sane(l, lastName, doc, file, saved, plain && NothingLocal(l.bucket, file), fit && NewEnough(l, file, saved), c)
  {
    FileGone(l, saved);
    hide Faithful, InOrder, Stored, FullLoad, NothingLocal, NewEnough;
    if c.readable {
      LoadFaithful(l, lastName, data, file, saved, plain, fit, c.disk, doc);
      if c.disk {
        DiskNewEnough(l, lastName, data, file, saved, plain, fit);
      }
    }
  }

  lemma FileGone(l: Log, saved: seq<Op>)
    ensures NewEnough(l, None, saved)
  {
  }

  lemma SaneCompact(l: Log, lastName: nat, data: Doc, file: Option<Doc>, saved: seq<Op>, plain: bool, fit: bool, c: Setup,
                    mark: nat, ops: map<nat, seq<Op>>)
    requires Sane(l, lastName, data, file, saved, plain, fit, c) && mark in l.bucket.ops && SomeOf(ops, l.bucket.ops)
    requires c.readable ==> l.bucket.Newer() != {} && mark == Last(l.bucket.Newer())
    ensures Sane(l.(bucket := Bucket(Some(Snapshot(data, mark)), ops)), lastName, data, file, saved,
                 plain && l.pending == [], fit, c)
  {
    MarkStored(l, lastName, data, mark, ops);
    hide Faithful, InOrder, Stored, Last, SomeOf;
    if c.readable {
      CompactFaithful(l, lastName, data, file, saved, plain, fit, c.disk, ops);
    }
  }

  lemma MarkStored(l: Log, lastName: nat, doc: Doc, mark: nat, ops: map<nat, seq<Op>>)
    requires InOrder(l) && Stored(l, lastName) && mark in l.bucket.ops && SomeOf(ops, l.bucket.ops)
    ensures var l' := l.(bucket := Bucket(Some(Snapshot(doc, mark)), ops)); InOrder(l') && Stored(l', lastName)
  {
    hide Content;
  }
}
