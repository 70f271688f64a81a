/**
  A document taken apart into its facts, its rules and its filters, and documents that are alike but
  for what certain ops will write anyway: how far a local file, or ops that are shown before they are
  written, can be seen in a replay.
  */
module Parts {
  import opened Options
  import opened Document
  import opened Merging
  import opened Absorption

  datatype Part = OfCell(cell: Cell) | TheRules | TheFilters

  datatype Setting = Bit(bit: bool) | RuleList(rules: seq<Rule>) | FilterList(filters: seq<Filter>)

  function At(d: Doc, p: Part): Setting {
    match p
    case OfCell(c) => Bit(Value(d, c))
    case TheRules => RuleList(d.rules)
    case TheFilters => FilterList(d.filters)
  }

  predicate Touches(op: Op, p: Part) {
    match p
    case OfCell(c) => Effect(op, c).Some?
    case TheRules => op.SetRules?
    case TheFilters => op.SetFilters?
  }

  ghost predicate Touched(ops: seq<Op>, p: Part) {
    exists op :: op in ops && Touches(op, p)
  }

  /** The documents are alike, apart from what the late ops write. */
  ghost predicate Like(d: Doc, e: Doc, late: seq<Op>) {
    forall p :: At(d, p) == At(e, p) || Touched(late, p)
  }

  lemma SameParts(d: Doc, e: Doc)
    ensures SameContent(d, e) <==> forall p :: At(d, p) == At(e, p)
    ensures SameContent(d, e) <==> Like(d, e, [])
  {
    hide Value;
    if forall p :: At(d, p) == At(e, p) {
      assert At(d, TheRules) == At(e, TheRules) && At(d, TheFilters) == At(e, TheFilters);
      forall c ensures Value(d, c) == Value(e, c) {
        assert At(d, OfCell(c)) == At(e, OfCell(c));
      }
    }
  }

  lemma StepPart(d: Doc, e: Doc, op: Op, p: Part)
    requires Constant(op)
    ensures if Touches(op, p) then At(ApplyOp(d, op), p) == At(ApplyOp(e, op), p) else At(ApplyOp(d, op), p) == At(d, p)
  {
    hide ApplyOp, Value, Effect;
    RulesStep(d, op);
    RulesStep(e, op);
    if p.OfCell? {
      EffectIs(d, op, p.cell);
      EffectIs(e, op, p.cell);
    }
  }

  /** A replay makes equal what it touches, and leaves the rest. */
  lemma {:induction false} ReplayPart(d: Doc, e: Doc, ops: seq<Op>, p: Part)
    requires AllConstant(ops)
    ensures if Touched(ops, p) then At(ApplyAll(d, ops), p) == At(ApplyAll(e, ops), p) else At(ApplyAll(d, ops), p) == At(d, p)
  {
    hide ApplyOp, At, Touches, Constant;
    if ops != [] {
      var front, last := ops[..|ops| - 1], ops[|ops| - 1];
      assert ops == front + [last];
      ReplayPart(d, e, front, p);
      StepPart(ApplyAll(d, front), ApplyAll(e, front), last, p);
      StepPart(ApplyAll(e, front), ApplyAll(d, front), last, p);
      assert Touched(ops, p) <==> Touched(front, p) || Touches(last, p);
    }
  }

  /** Two documents come to the same content by a replay if and only if it writes all they differ in. */
  lemma ReplayWhen(d: Doc, e: Doc, log: seq<Op>)
    requires AllConstant(log)
    ensures SameContent(ApplyAll(d, log), ApplyAll(e, log)) <==> Like(d, e, log)
  {
    SameParts(ApplyAll(d, log), ApplyAll(e, log));
    hide At, ApplyAll, Touched, Constant;
    forall p
      ensures At(ApplyAll(d, log), p) == At(ApplyAll(e, log), p) <==> At(d, p) == At(e, p) || Touched(log, p)
    {
      ReplayPart(d, e, log, p);
      ReplayPart(e, d, log, p);
    }
  }

  /** Likeness after a replay: the late ops that have been replayed are no longer late. */
  lemma LikeReplayed(d: Doc, e: Doc, late: seq<Op>, now: seq<Op>, later: seq<Op>)
    requires Like(d, e, late) && AllConstant(now) && forall op :: op in late ==> op in now || op in later
    ensures Like(ApplyAll(d, now), ApplyAll(e, now), later)
  {
    hide At, ApplyAll, Touches, Constant;
    forall p ensures At(ApplyAll(d, now), p) == At(ApplyAll(e, now), p) || Touched(later, p) {
      ReplayPart(d, e, now, p);
      ReplayPart(e, d, now, p);
      if Touched(late, p) {
        var op :| op in late && Touches(op, p);
        assert op in now ==> Touched(now, p);
      }
    }
  }

  lemma ContentReplayed(d: Doc, e: Doc, ops: seq<Op>)
    requires SameContent(d, e) && AllConstant(ops)
    ensures SameContent(ApplyAll(d, ops), ApplyAll(e, ops))
  {
    SameParts(d, e);
    hide SameContent, Like, ApplyAll, Constant;
    LikeReplayed(d, e, [], ops, []);
    SameParts(ApplyAll(d, ops), ApplyAll(e, ops));
  }

  lemma LikeMore(d: Doc, e: Doc, late: seq<Op>, more: seq<Op>)
    requires Like(d, e, late) && forall op :: op in late ==> op in more
    ensures Like(d, e, more)
  {
    hide At, Touches;
  }

  /** Ops that are shown before their time. */
  lemma LikeEarly(d: Doc, ops: seq<Op>)
    requires AllConstant(ops)
    ensures Like(ApplyAll(d, ops), d, ops)
  {
    hide At, ApplyAll, Touched, Constant;
    forall p ensures At(ApplyAll(d, ops), p) == At(d, p) || Touched(ops, p) {
      ReplayPart(d, d, ops, p);
    }
  }

  lemma LikeChain(d: Doc, e: Doc, f: Doc, late: seq<Op>)
    requires Like(d, e, late) && Like(e, f, late)
    ensures Like(d, f, late)
  {
    hide At, Touched;
  }

  lemma LikeNormalized(d: Doc, e: Doc, late: seq<Op>)
    ensures Like(Normalized(d), e, late) <==> Like(d, e, late)
    ensures Like(e, Normalized(d), late) <==> Like(e, d, late)
  {
    assert forall p :: At(Normalized(d), p) == At(d, p);
    hide At, Touched, Normalized;
  }

  // -- local files ----------------------------------------------------------------------------------

  /** A merge takes every part from the one document or from the other. */
  lemma MergedPart(base: Doc, other: Doc, p: Part)
    ensures var m := MergeMissing(base, Some(other)); At(m, p) == At(base, p) || At(m, p) == At(other, p)
  {
    hide MergedFolder;
  }

  lemma LikeMerged(base: Doc, other: Doc, e: Doc, late: seq<Op>)
    requires Like(base, e, late) && Like(other, e, late)
    ensures Like(MergeMissing(base, Some(other)), e, late)
  {
    hide At, Touched, MergeMissing;
    forall p ensures At(MergeMissing(base, Some(other)), p) == At(e, p) || Touched(late, p) {
      MergedPart(base, other, p);
    }
  }

  /** A file that is ahead of the snapshot by some ops of the log does not show in the replay of the log. */
  lemma FileAbsorbed(a: seq<Op>, b: seq<Op>, rest: seq<Op>)
    requires AllConstant(b) && AllConstant(rest)
    ensures var snapshot, file := ApplyAll(EMPTY, a), ApplyAll(EMPTY, a + b);
      SameContent(ApplyAll(MergeMissing(snapshot, Some(file)), b + rest), ApplyAll(snapshot, b + rest))
  {
    var snapshot := ApplyAll(EMPTY, a);
    ApplyAllConcat(EMPTY, a, b);
    hide ApplyAll, MergeMissing;
    LikeEarly(snapshot, b);
    LikeMore(ApplyAll(snapshot, b), snapshot, b, b + rest);
    SameParts(snapshot, snapshot);
    LikeMore(snapshot, snapshot, [], b + rest);
    LikeMerged(snapshot, ApplyAll(snapshot, b), snapshot, b + rest);
    ReplayWhen(MergeMissing(snapshot, Some(ApplyAll(snapshot, b))), snapshot, b + rest);
  }
}
