/**
  Logs with real renames.  Each fact after a replay goes back to facts before it; what it goes back to
  can be worked out from the log alone, and says exactly which differences a replay shows.
  */
module Tracing {
  import opened Options
  import opened Document
  import opened DocumentLaws
  import opened Absorption
  import opened Merging
  import opened StateLog

  /** A fact as a combination of other facts. */
  datatype Source = Lit(bit: bool) | Of(cell: Cell) | If(guard: Source, yes: Source, no: Source)

  predicate Holds(s: Source, d: Doc) {
    match s
    case Lit(bit) => bit
    case Of(c) => Value(d, c)
    case If(guard, yes, no) => if Holds(guard, d) then Holds(yes, d) else Holds(no, d)
  }

  /** The message a fact is about. */
  function MidOf(c: Cell): Option<string> {
    match c
    case Known(_) => None
    case Here(mid) => Some(mid)
    case ReadOf(mid) => Some(mid)
    case StarOf(mid) => Some(mid)
    case RuledOf(mid) => Some(mid)
    case TagOf(mid, _) => Some(mid)
  }

  /** The same fact about another message. */
  function WithMid(c: Cell, mid: string): Cell {
    match c
    case Known(_) => c
    case Here(_) => Here(mid)
    case ReadOf(_) => ReadOf(mid)
    case StarOf(_) => StarOf(mid)
    case RuledOf(_) => RuledOf(mid)
    case TagOf(_, tag) => TagOf(mid, tag)
  }

  /** What a fact after an op goes back to. */
  function Before(op: Op, c: Cell): Source {
    if Constant(op) then
      if Effect(op, c).Some? then Lit(Effect(op, c).value) else Of(c)
    else if op.Rekey? then
      if MidOf(c) == Some(op.now) then If(Of(Here(op.was)), Of(WithMid(c, op.was)), Of(c)) else Of(c)
    else
      match c
      case TagOf(mid, tag) =>
        if tag == op.now then If(Of(TagOf(mid, op.was)), Lit(true), Of(c))
        else if tag == op.was then Lit(false)
        else Of(c)
      case Known(tag) => if tag == op.now then Lit(true) else if tag == op.was then Lit(false) else Of(c)
      case _ => Of(c)
  }

  lemma BeforeIs(d: Doc, op: Op, c: Cell)
    ensures Value(ApplyOp(d, op), c) == Holds(Before(op, c), d)
  {
    if Constant(op) {
      hide ApplyOp, Effect, Value;
      EffectIs(d, op, c);
    } else if op.Rekey? {
      RekeyBefore(d, op, c);
    } else {
      RenameBefore(d, op, c);
    }
  }

  lemma RekeyBefore(d: Doc, op: Op, c: Cell)
    requires op.Rekey? && !Constant(op)
    ensures Value(ApplyOp(d, op), c) == Holds(Before(op, c), d)
  {
    var e := ApplyOp(d, op);
    assert forall m ::
      Get(e.messages, m) == if m == op.now && op.was in d.messages then d.messages[op.was] else Get(d.messages, m);
  }

  lemma RenameBefore(d: Doc, op: Op, c: Cell)
    requires op.TagRen? && !Constant(op)
    ensures Value(ApplyOp(d, op), c) == Holds(Before(op, c), d)
  {
    if c.TagOf? {
      RenamedMembers(Get(d.messages, c.mid).tags, op.was, op.now);
    }
    hide Renamed;
  }

  /** What a combination of facts after a log goes back to. */
  function Traced(s: Source, log: seq<Op>): Source
    decreases |log|, s
  {
    match s
    case Lit(_) => s
    case Of(c) => if log == [] then s else Traced(Before(log[|log| - 1], c), log[..|log| - 1])
    case If(guard, yes, no) => If(Traced(guard, log), Traced(yes, log), Traced(no, log))
  }

  lemma {:induction false} TracedIs(s: Source, log: seq<Op>, d: Doc)
    ensures Holds(s, ApplyAll(d, log)) == Holds(Traced(s, log), d)
    decreases |log|, s
  {
    hide ApplyOp, Value, Before;
    match s
    case Lit(_) =>
    case Of(c) =>
      if log != [] {
        var front, last := log[..|log| - 1], log[|log| - 1];
        BeforeIs(ApplyAll(d, front), last, c);
        TracedIs(Before(last, c), front, d);
      }
    case If(guard, yes, no) =>
      TracedIs(guard, log, d);
      TracedIs(yes, log, d);
      TracedIs(no, log, d);
  }

  /** The documents agree on all that the log makes facts of. */
  ghost predicate AgreeUnder(d: Doc, e: Doc, log: seq<Op>) {
    && (forall c :: Holds(Traced(Of(c), log), d) == Holds(Traced(Of(c), log), e))
    && (d.rules == e.rules || LastRules(log).Some?) && (d.filters == e.filters || LastFilters(log).Some?)
  }

  /** Whatever the log: two documents come to the same content if and only if they agree on what its facts go back to. */
  lemma AnyReplayWhen(d: Doc, e: Doc, log: seq<Op>)
    ensures SameContent(ApplyAll(d, log), ApplyAll(e, log)) <==> AgreeUnder(d, e, log)
  {
    forall c
      ensures Value(ApplyAll(d, log), c) == Holds(Traced(Of(c), log), d)
      ensures Value(ApplyAll(e, log), c) == Holds(Traced(Of(c), log), e)
    {
      TracedIs(Of(c), log, d);
      TracedIs(Of(c), log, e);
    }
    hide ApplyAll, Value, Traced, Holds;
    ReplayRules(d, log);
    ReplayRules(e, log);
  }

  /** Some ops shown early, and then any log: exactly when it does not show, from the document before. */
  lemma EarlyReplayWhen(d: Doc, some: seq<Op>, log: seq<Op>)
    ensures SameContent(ApplyAll(ApplyAll(d, some), log), ApplyAll(d, log))
        <==> && (forall c :: Holds(Traced(Traced(Of(c), log), some), d) == Holds(Traced(Of(c), log), d))
             && (LastRules(log).Some? || LastRules(some).None? || LastRules(some).value == d.rules)
             && (LastFilters(log).Some? || LastFilters(some).None? || LastFilters(some).value == d.filters)
  {
    AnyReplayWhen(ApplyAll(d, some), d, log);
    forall c ensures Holds(Traced(Of(c), log), ApplyAll(d, some)) == Holds(Traced(Traced(Of(c), log), some), d) {
      TracedIs(Traced(Of(c), log), some, d);
    }
    hide ApplyAll, Value, Traced, Holds;
    ReplayRules(d, some);
  }

  /** Over any snapshot, or none, and for any log: exactly when a local file does not show in the content of a load. */
  lemma AnyFileHarmlessWhen(snapshot: Option<Snapshot>, local: Option<Doc>, log: seq<Op>)
    ensures SameContent(ApplyAll(Normalized(BaseOf(snapshot, local)), log), ApplyAll(Normalized(BaseOf(snapshot, None)), log))
        <==> AgreeUnder(Normalized(BaseOf(snapshot, local)), Normalized(BaseOf(snapshot, None)), log)
  {
    AnyReplayWhen(Normalized(BaseOf(snapshot, local)), Normalized(BaseOf(snapshot, None)), log);
  }

  // -- renames of tags only --------------------------------------------------------------------------

  ghost predicate NoRekey(log: seq<Op>) {
    forall op :: op in log && op.Rekey? ==> op.was == op.now
  }

  /**
    The names under which a tag that lies on the message after the log may have lain there before; none if
    the log puts it there, or takes it away, whatever was there.
    */
  function FormerNames(log: seq<Op>, mid: string, tag: string): (names: Option<set<string>>) {
    if log == [] then Some({tag})
    else
      var front, op := log[..|log| - 1], log[|log| - 1];
      if Constant(op) then
        match Effect(op, TagOf(mid, tag))
        case Some(true) => None
        case Some(false) => Some({})
        case None => FormerNames(front, mid, tag)
      else if op.TagRen? && tag == op.was then Some({})
      else if op.TagRen? && tag == op.now then
        var a, b := FormerNames(front, mid, op.was), FormerNames(front, mid, tag);
        if a.None? || b.None? then None else Some(a.value + b.value)
      else FormerNames(front, mid, tag)
  }

  predicate HasOneOf(d: Doc, mid: string, names: set<string>) {
    exists t :: t in names && Value(d, TagOf(mid, t))
  }

  /** After the log a message has a tag exactly if the log puts it there, or it had the tag under a former name. */
  lemma {:induction false} TagAfter(d: Doc, log: seq<Op>, mid: string, tag: string)
    requires NoRekey(log)
    ensures var names := FormerNames(log, mid, tag);
      Value(ApplyAll(d, log), TagOf(mid, tag)) <==> names.None? || HasOneOf(d, mid, names.value)
  {
    if log != [] {
      var front, op := log[..|log| - 1], log[|log| - 1];
      assert op in log;
      TagAfter(d, front, mid, tag);
      BeforeIs(ApplyAll(d, front), op, TagOf(mid, tag));
      if !Constant(op) {
        TagAfter(d, front, mid, op.was);
      }
      hide ApplyOp, Value;
    }
  }

  /** Every other fact after such a log is what the log says last about it, or what it was. */
  function LastSaid(log: seq<Op>, c: Cell): Option<bool> {
    if log == [] then None
    else
      var b := Before(log[|log| - 1], c);
      if b.Lit? then Some(b.bit) else LastSaid(log[..|log| - 1], c)
  }

  lemma {:induction false} OtherAfter(d: Doc, log: seq<Op>, c: Cell)
    requires NoRekey(log) && !c.TagOf?
    ensures Value(ApplyAll(d, log), c) == Or(LastSaid(log, c), Value(d, c))
  {
    hide ApplyOp, Value;
    if log != [] {
      var front, op := log[..|log| - 1], log[|log| - 1];
      assert op in log;
      OtherAfter(d, front, c);
      BeforeIs(ApplyAll(d, front), op, c);
    }
  }

  /** The documents differ only in facts the log settles, and in tags that lie there under another former name anyway. */
  ghost predicate AgreeUnderRenames(d: Doc, e: Doc, log: seq<Op>) {
    && (forall c: Cell :: !c.TagOf? ==> Value(d, c) == Value(e, c) || LastSaid(log, c).Some?)
    && (forall mid, tag :: var names := FormerNames(log, mid, tag);
         names.Some? ==> (HasOneOf(d, mid, names.value) <==> HasOneOf(e, mid, names.value)))
    && (d.rules == e.rules || LastRules(log).Some?) && (d.filters == e.filters || LastFilters(log).Some?)
  }

  /** Without real rekeys: the same content if and only if, for each tag, both have it under some former name or neither has. */
  lemma RenamesReplayWhen(d: Doc, e: Doc, log: seq<Op>)
    requires NoRekey(log)
    ensures SameContent(ApplyAll(d, log), ApplyAll(e, log)) <==> AgreeUnderRenames(d, e, log)
  {
    hide ApplyAll, Value, FormerNames, HasOneOf, LastSaid;
    ReplayRules(d, log);
    ReplayRules(e, log);
    forall mid, tag
      ensures var names := FormerNames(log, mid, tag);
        Value(ApplyAll(d, log), TagOf(mid, tag)) == Value(ApplyAll(e, log), TagOf(mid, tag))
        <==> (names.Some? ==> (HasOneOf(d, mid, names.value) <==> HasOneOf(e, mid, names.value)))
    {
      TagAfter(d, log, mid, tag);
      TagAfter(e, log, mid, tag);
    }
    forall c: Cell | !c.TagOf?
      ensures Value(ApplyAll(d, log), c) == Value(ApplyAll(e, log), c)
        <==> Value(d, c) == Value(e, c) || LastSaid(log, c).Some?
    {
      OtherAfter(d, log, c);
      OtherAfter(e, log, c);
    }
  }
}
