/**
  Replaying part of a log before the log itself: harmless for the ops that write constants,
  visible for the two that read one cell and write another.
  */
module Absorption {
  import opened Options
  import opened Document
  import opened DocumentLaws

  /** One yes-or-no fact of a document. */
  datatype Cell =
    | Here(mid: string)
    | ReadOf(mid: string)
    | StarOf(mid: string)
    | RuledOf(mid: string)
    | TagOf(mid: string, tag: string)
    | Known(tag: string)

  predicate Value(d: Doc, c: Cell) {
    match c
    case Here(mid) => mid in d.messages
    case ReadOf(mid) => Get(d.messages, mid).read
    case StarOf(mid) => Get(d.messages, mid).star
    case RuledOf(mid) => Get(d.messages, mid).ruled
    case TagOf(mid, tag) => tag in Get(d.messages, mid).tags
    case Known(tag) => tag in d.tags
  }

  /** Ops whose effect does not depend on what they find: all but real renames.  Creating a tag renames it to itself. */
  predicate Constant(op: Op) {
    op.Rekey? || op.TagRen? ==> op.was == op.now
  }

  /** What an op writes into a cell, if anything. */
  function Effect(op: Op, c: Cell): Option<bool> {
    match op
    case Flags(mids, read, star) =>
      if c.Here? && c.mid in mids then Some(true)
      else if c.ReadOf? && c.mid in mids then read
      else if c.StarOf? && c.mid in mids then star
      else None
    case Retag(mids, add, remove) =>
      if c.Here? && c.mid in mids then Some(true)
      else if c.TagOf? && c.mid in mids && c.tag in add then Some(true)
      else if c.TagOf? && c.mid in mids && c.tag in remove then Some(false)
      else if c.Known? && c.tag in add then Some(true)
      else None
    case Ruled(mids) =>
      if (c.Here? || c.RuledOf?) && c.mid in mids then Some(true) else None
    case Drop(mids) =>
      if !c.Known? && c.mid in mids then Some(false) else None
    case TagDel(name) =>
      if (c.TagOf? || c.Known?) && c.tag == name then Some(false) else None
    case TagRen(was, now, _) =>
      if was == now && c == Known(now) then Some(true) else None
    case _ => None
  }

  /** Nothing is known about a message without an entry, nor about a tag that is not registered. */
  lemma Unmentioned(d: Doc, c: Cell)
    requires if c.Known? then c.tag !in d.tags else c.mid !in d.messages
    ensures !Value(d, c)
  {
  }

  function Or(effect: Option<bool>, value: bool): bool {
    if effect.Some? then effect.value else value
  }

  lemma RetagEffect(d: Doc, op: Op, c: Cell)
    requires op.Retag?
    ensures Value(Step(d, op), c) == Or(Effect(op, c), Value(d, c))
  {
    RegisteredKeys(d.tags, op.add, |op.add|);
    RetaggedAt(d.messages, op.mids, |op.mids|, op.add, op.remove);
    assert op.add[..|op.add|] == op.add && op.mids[..|op.mids|] == op.mids;
    hide Registered, RetaggedFirst, Retagged;
  }

  lemma TagDelEffect(d: Doc, op: Op, c: Cell)
    requires op.TagDel?
    ensures Value(Step(d, op), c) == Or(Effect(op, c), Value(d, c))
  {
    if c.TagOf? {
      WithoutMembers(Get(d.messages, c.mid).tags, [op.name]);
    }
    hide Without;
  }

  lemma SelfRenameEffect(d: Doc, op: Op, c: Cell)
    requires op.TagRen? && op.was == op.now
    ensures Value(Step(d, op), c) == Or(Effect(op, c), Value(d, c))
  {
    if c.TagOf? {
      RenamedMembers(Get(d.messages, c.mid).tags, op.was, op.now);
    }
    hide Renamed;
  }

  lemma EffectIs(d: Doc, op: Op, c: Cell)
    requires Constant(op)
    ensures Value(ApplyOp(d, op), c) == Or(Effect(op, c), Value(d, c))
  {
    hide Registered, RetaggedFirst, Without, Renamed;
    var n := Normalized(d);
    if op.Retag? {
      RetagEffect(n, op, c);
    } else if op.TagDel? {
      TagDelEffect(n, op, c);
    } else if op.TagRen? {
      SelfRenameEffect(n, op, c);
    }
  }

  // -- whole sequences ---------------------------------------------------------------------------

  function LastEffect(ops: seq<Op>, c: Cell): Option<bool> {
    if ops == [] then None
    else
      var effect := Effect(ops[|ops| - 1], c);
      if effect.Some? then effect else LastEffect(ops[..|ops| - 1], c)
  }

  function LastRules(ops: seq<Op>): Option<seq<Rule>> {
    if ops == [] then None
    else if ops[|ops| - 1].SetRules? then Some(ops[|ops| - 1].rules)
    else LastRules(ops[..|ops| - 1])
  }

  function LastFilters(ops: seq<Op>): Option<seq<Filter>> {
    if ops == [] then None
    else if ops[|ops| - 1].SetFilters? then Some(ops[|ops| - 1].filters)
    else LastFilters(ops[..|ops| - 1])
  }

  ghost predicate AllConstant(ops: seq<Op>) {
    forall op :: op in ops ==> Constant(op)
  }

  lemma {:induction false} ReplayCell(d: Doc, ops: seq<Op>, c: Cell)
    requires AllConstant(ops)
    ensures Value(ApplyAll(d, ops), c) == Or(LastEffect(ops, c), Value(d, c))
  {
    hide ApplyOp, Value, Effect;
    if ops != [] {
      var last := |ops| - 1;
      ReplayCell(d, ops[..last], c);
      EffectIs(ApplyAll(d, ops[..last]), ops[last], c);
    }
  }

  lemma RulesStep(d: Doc, op: Op)
    ensures ApplyOp(d, op).rules == (if op.SetRules? then op.rules else d.rules)
    ensures ApplyOp(d, op).filters == (if op.SetFilters? then op.filters else d.filters)
  {
    hide Registered, RetaggedFirst, Without, Renamed;
  }

  lemma {:induction false} ReplayRules(d: Doc, ops: seq<Op>)
    ensures ApplyAll(d, ops).rules == (if LastRules(ops).Some? then LastRules(ops).value else d.rules)
    ensures ApplyAll(d, ops).filters == (if LastFilters(ops).Some? then LastFilters(ops).value else d.filters)
  {
    hide ApplyOp;
    if ops != [] {
      ReplayRules(d, ops[..|ops| - 1]);
      RulesStep(ApplyAll(d, ops[..|ops| - 1]), ops[|ops| - 1]);
    }
  }

  /** What an op of the sequence writes, the sequence writes. */
  lemma {:induction false} Written(ops: seq<Op>, op: Op, c: Cell)
    requires op in ops
    ensures Effect(op, c).Some? ==> LastEffect(ops, c).Some?
    ensures op.SetRules? ==> LastRules(ops).Some?
    ensures op.SetFilters? ==> LastFilters(ops).Some?
  {
    hide Effect;
    var last := |ops| - 1;
    if ops[last] != op {
      Written(ops[..last], op, c);
    }
  }

  lemma {:induction false} WriterOf(ops: seq<Op>, c: Cell) returns (op: Op)
    requires LastEffect(ops, c).Some?
    ensures op in ops && Effect(op, c).Some?
  {
    hide Effect;
    var last := |ops| - 1;
    op := ops[last];
    if Effect(op, c).None? {
      op := WriterOf(ops[..last], c);
    }
  }

  /** The same entries, tag sets, registered tags, rules and filters; colours and list order aside. */
  ghost predicate SameContent(a: Doc, b: Doc) {
    (forall c :: Value(a, c) == Value(b, c)) && a.rules == b.rules && a.filters == b.filters
  }

  lemma {:induction false} RulesWritten(some: seq<Op>, log: seq<Op>)
    requires forall op :: op in some ==> op in log
    ensures LastRules(some).Some? ==> LastRules(log).Some?
    ensures LastFilters(some).Some? ==> LastFilters(log).Some?
  {
    if some != [] {
      var last := |some| - 1;
      RulesWritten(some[..last], log);
      Written(log, some[last], Known(""));
    }
  }

  /** Replaying some ops of a log and then the log gives what the log alone gives. */
  lemma Absorbed(d: Doc, some: seq<Op>, log: seq<Op>)
    requires AllConstant(log) && forall op :: op in some ==> op in log
    ensures SameContent(ApplyAll(ApplyAll(d, some), log), ApplyAll(d, log))
  {
    hide ApplyAll, Value, Effect, LastEffect, Constant;
    var early := ApplyAll(d, some);
    forall c ensures Value(ApplyAll(early, log), c) == Value(ApplyAll(d, log), c) {
      ReplayCell(d, some, c);
      ReplayCell(early, log, c);
      ReplayCell(d, log, c);
      if LastEffect(some, c).Some? {
        var op := WriterOf(some, c);
        Written(log, op, c);
      }
    }
    ReplayRules(d, some);
    ReplayRules(early, log);
    ReplayRules(d, log);
    RulesWritten(some, log);
  }

  // -- one op shown early ------------------------------------------------------------------------------

  /** Over no document, and before no log of constant ops that has it in it, can the op be seen early. */
  ghost predicate NeverShows(op: Op) {
    forall d, before :: AllConstant(before) ==> Unseen(op, d, before)
  }

  ghost predicate Unseen(op: Op, d: Doc, before: seq<Op>) {
    SameContent(ApplyAll(ApplyOp(d, op), before + [op]), ApplyAll(d, before + [op]))
  }

  /** That is so for exactly the ops that write constants. */
  lemma NeverShowsWhen(op: Op)
    ensures NeverShows(op) <==> Constant(op)
  {
    hide ApplyOp, ApplyAll, Value, SameContent;
    if Constant(op) {
      forall d, before | AllConstant(before) ensures Unseen(op, d, before) {
        OneOp(d, op);
        Absorbed(d, [op], before + [op]);
      }
    } else if op.Rekey? {
      RekeyIsSeenEarly(op.was, op.now);
      SeenEarly(op, ApplyOp(EMPTY, Ruled([op.was])), Drop([op.was]), Here(op.now));
    } else {
      RenameIsSeenEarly("", op.was, op.now, op.color);
      SeenEarly(op, ApplyOp(EMPTY, Retag([""], [op.was], [])), Retag([""], [], [op.was]), TagOf("", op.now));
    }
  }

  lemma SeenEarly(op: Op, d: Doc, first: Op, c: Cell)
    requires Constant(first)
    requires Value(ApplyAll(ApplyAll(d, [op]), [first, op]), c) && !Value(ApplyAll(d, [first, op]), c)
    ensures !NeverShows(op)
  {
    hide ApplyOp, ApplyAll, Value;
    OneOp(d, op);
    assert [first] + [op] == [first, op];
    assert AllConstant([first]) && !Unseen(op, d, [first]);
  }

  /** A copied entry comes back although its source was dropped first: rekey is not absorbed. */
  lemma RekeyIsSeenEarly(was: string, now: string)
    requires was != now
    ensures var d := ApplyOp(EMPTY, Ruled([was]));
      var log := [Drop([was]), Rekey(was, now)];
      && Value(ApplyAll(ApplyAll(d, [Rekey(was, now)]), log), Here(now))
      && !Value(ApplyAll(d, log), Here(now))
  {
    NothingYet(Here(now));
    hide ApplyOp, ApplyAll, Value;
    var drop, rekey := Drop([was]), Rekey(was, now);
    var d := ApplyOp(EMPTY, Ruled([was]));
    OneOp(d, rekey);
    TwoOps(d, [drop, rekey]);
    TwoOps(ApplyOp(d, rekey), [drop, rekey]);
    EffectIs(EMPTY, Ruled([was]), Here(was));
    EffectIs(EMPTY, Ruled([was]), Here(now));
    CopyEntry(d, was, now);
    EffectIs(ApplyOp(d, rekey), drop, Here(now));
    CopyEntry(ApplyOp(ApplyOp(d, rekey), drop), was, now);
    EffectIs(d, drop, Here(was));
    EffectIs(d, drop, Here(now));
    CopyEntry(ApplyOp(d, drop), was, now);
  }

  lemma NothingYet(c: Cell)
    ensures !Value(EMPTY, c)
  {
  }

  lemma CopyEntry(d: Doc, was: string, now: string)
    ensures Value(ApplyOp(d, Rekey(was, now)), Here(now)) == (Value(d, Here(now)) || Value(d, Here(was)))
  {
  }

  lemma OneOp(d: Doc, op: Op)
    ensures ApplyAll(d, [op]) == ApplyOp(d, op)
  {
    assert [op][..0] == [];
  }

  lemma TwoOps(d: Doc, ops: seq<Op>)
    requires |ops| == 2
    ensures ApplyAll(d, ops) == ApplyOp(ApplyOp(d, ops[0]), ops[1])
  {
    assert ops[..1] == [ops[0]];
    OneOp(d, ops[0]);
  }

  /** A tag renamed before it is taken away survives under its new name: tagren is not absorbed. */
  lemma RenameIsSeenEarly(mid: string, was: string, now: string, color: string)
    requires was != now
    ensures var d := ApplyOp(EMPTY, Retag([mid], [was], []));
      var log := [Retag([mid], [], [was]), TagRen(was, now, color)];
      && Value(ApplyAll(ApplyAll(d, [TagRen(was, now, color)]), log), TagOf(mid, now))
      && !Value(ApplyAll(d, log), TagOf(mid, now))
  {
    NothingYet(TagOf(mid, now));
    hide ApplyOp, ApplyAll, Value;
    var take, rename := Retag([mid], [], [was]), TagRen(was, now, color);
    var d := ApplyOp(EMPTY, Retag([mid], [was], []));
    var log := [take, rename];
    OneOp(d, rename);
    TwoOps(d, log);
    TwoOps(ApplyOp(d, rename), log);
    EffectIs(EMPTY, Retag([mid], [was], []), TagOf(mid, was));
    EffectIs(EMPTY, Retag([mid], [was], []), TagOf(mid, now));
    RenameTag(d, mid, was, now, color);
    var early := ApplyOp(d, rename);
    EffectIs(early, take, TagOf(mid, now));
    RenameTag(ApplyOp(early, take), mid, was, now, color);
    EffectIs(d, take, TagOf(mid, was));
    EffectIs(d, take, TagOf(mid, now));
    RenameTag(ApplyOp(d, take), mid, was, now, color);
  }

  lemma RenameTag(d: Doc, mid: string, was: string, now: string, color: string)
    ensures var d' := ApplyOp(d, TagRen(was, now, color));
      Value(d', TagOf(mid, now)) == (Value(d, TagOf(mid, now)) || Value(d, TagOf(mid, was)))
  {
    RenamedMembers(Get(d.messages, mid).tags, was, now);
    hide Renamed, RenamedTags;
  }
}
