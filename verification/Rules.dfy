/** Filing: which messages the rules touch, and what is to be done with them. */
module Rules {
  import opened Options
  import opened Document
  import opened Mail
  import opened Order

  /** The verdict of the rules on a message, which is marked as ruled in any case. */
  datatype RuleAction = RuleAction(mid: string, key: string, addTags: seq<string>, setRead: Option<bool>,
                                   setStar: Option<bool>, moveTo: Option<string>)

  type Matcher = (Rule, Message) -> bool

  /** Folders in which rules do not act. */
  predicate SkipsRules(folder: string) {
    folder == "trash" || folder == "spam" || folder == "sent" || folder == "drafts"
  }

  /** The enabled rules, in order. */
  function Active(rules: seq<Rule>): seq<Rule> {
    if rules == [] then []
    else Active(rules[..|rules| - 1]) + (if rules[|rules| - 1].enabled then [rules[|rules| - 1]] else [])
  }

  /** The rule wins: it matches, and none before it does. */
  ghost predicate Wins(hits: Matcher, active: seq<Rule>, m: Message, i: nat) {
    i < |active| && hits(active[i], m) && forall j :: 0 <= j < i ==> !hits(active[j], m)
  }

  function Nothing(m: Message): RuleAction {
    RuleAction(m.mid, m.key, [], None, None, None)
  }

  /** What a rule asks for. */
  function ActionOf(r: Rule, m: Message): RuleAction {
    RuleAction(m.mid, m.key, r.tags, if r.read then Some(true) else None, if r.star then Some(true) else None,
               if r.folder.Some? && r.folder.value != m.folder then r.folder else None)
  }

  /** The action is what the first matching rule asks for, or nothing but the mark. */
  ghost predicate Decides(hits: Matcher, active: seq<Rule>, m: Message, force: bool, a: RuleAction) {
    if SkipsRules(m.folder) && !force then a == Nothing(m)
    else
      || (a == Nothing(m) && forall i :: 0 <= i < |active| ==> !hits(active[i], m))
      || (exists i: nat :: Wins(hits, active, m, i) && a == ActionOf(active[i], m))
  }

  predicate IsRuled(d: Doc, mid: string) {
    Get(d.messages, mid).ruled
  }

  /** One action for every message that has not been ruled yet - for every message, if forced. */
  ghost predicate IsPlan(hits: Matcher, active: seq<Rule>, pool: seq<Message>, d: Doc, force: bool, plan: seq<RuleAction>) {
    if pool == [] then plan == []
    else
      var m, rest := pool[|pool| - 1], pool[..|pool| - 1];
      if IsRuled(d, m.mid) && !force then IsPlan(hits, active, rest, d, force, plan)
      else
        && plan != [] && Decides(hits, active, m, force, plan[|plan| - 1])
        && IsPlan(hits, active, rest, d, force, plan[..|plan| - 1])
  }

  method EnabledRules(rules: seq<Rule>) returns (active: seq<Rule>)
    ensures active == Active(rules)
  {
    active := [];
    for i := 0 to |rules|
      invariant active == Active(rules[..i])
    {
      assert rules[..i + 1][..i] == rules[..i];
      if rules[i].enabled {
        active := active + [rules[i]];
      }
    }
    assert rules[..|rules|] == rules;
  }

  /** Decides for every message of the pool. */
  method PlanRules(hits: Matcher, pool: seq<Message>, d: Doc, force: bool) returns (plan: seq<RuleAction>)
    ensures Active(d.rules) == [] ==> plan == []
    ensures Active(d.rules) != [] ==> IsPlan(hits, Active(d.rules), pool, d, force, plan)
  {
    var active := EnabledRules(d.rules);
    plan := [];
    if active == [] {
      return;
    }
    hide Decides, Active;
    for i := 0 to |pool|
      invariant IsPlan(hits, active, pool[..i], d, force, plan)
    {
      var m := pool[i];
      PlanGrows(hits, active, pool, d, force, plan, i);
      if IsRuled(d, m.mid) && !force {
        continue;
      }
      var action := Decide(hits, active, m, force);
      plan := plan + [action];
    }
    assert pool[..|pool|] == pool;
  }

  lemma PlanGrows(hits: Matcher, active: seq<Rule>, pool: seq<Message>, d: Doc, force: bool, plan: seq<RuleAction>, i: nat)
    requires i < |pool| && IsPlan(hits, active, pool[..i], d, force, plan)
    ensures IsRuled(d, pool[i].mid) && !force ==> IsPlan(hits, active, pool[..i + 1], d, force, plan)
    ensures !(IsRuled(d, pool[i].mid) && !force) ==> forall a :: Decides(hits, active, pool[i], force, a) ==>
      IsPlan(hits, active, pool[..i + 1], d, force, plan + [a])
  {
    hide Decides, IsRuled;
    assert pool[..i + 1][..i] == pool[..i];
    assert forall a :: (plan + [a])[..|plan|] == plan;
  }

  method Decide(hits: Matcher, active: seq<Rule>, m: Message, force: bool) returns (action: RuleAction)
    ensures Decides(hits, active, m, force, action)
    ensures !force && m.folder in {"trash", "spam", "sent", "drafts"} ==> action == RuleAction(m.mid, m.key, [], None, None, None)
    ensures (force || m.folder !in {"trash", "spam", "sent", "drafts"}) && (forall i :: 0 <= i < |active| ==> !hits(active[i], m)) ==>
      action == RuleAction(m.mid, m.key, [], None, None, None)
    ensures force || m.folder !in {"trash", "spam", "sent", "drafts"} ==> forall i: nat :: Wins(hits, active, m, i) ==>
      var r := active[i];
      && action.mid == m.mid && action.key == m.key && action.addTags == r.tags
      && action.setRead == (if r.read then Some(true) else None) && action.setStar == (if r.star then Some(true) else None)
      && action.moveTo == (if r.folder == Some(m.folder) then None else r.folder)
  {
    action := Nothing(m);
    if SkipsRules(m.folder) && !force {
      return;
    }
    for i := 0 to |active|
      invariant action == Nothing(m) && forall j :: 0 <= j < i ==> !hits(active[j], m)
    {
      var r := active[i];
      if !hits(r, m) {
        continue;
      }
      if |r.tags| > 0 {
        action := action.(addTags := r.tags);
      }
      if r.read {
        action := action.(setRead := Some(true));
      }
      if r.star {
        action := action.(setStar := Some(true));
      }
      if r.folder.Some? && r.folder.value != m.folder {
        action := action.(moveTo := r.folder);
      }
      assert Wins(hits, active, m, i) && action == ActionOf(r, m);
      assert forall j: nat :: Wins(hits, active, m, j) ==> j == i;
      return;
    }
  }

  // -- the order of a plan ------------------------------------------------------------------------------

  /** Rules set flags and add tags; they take nothing away. */
  predicate OnlyAdds(a: RuleAction) {
    a.setRead != Some(false) && a.setStar != Some(false)
  }

  ghost predicate ForOneOf(pool: seq<Message>, a: RuleAction) {
    exists m :: m in pool && a.key == m.key && a.mid == m.mid
  }

  lemma ForItsMessage(hits: Matcher, active: seq<Rule>, m: Message, force: bool, a: RuleAction)
    requires Decides(hits, active, m, force, a)
    ensures a.key == m.key && a.mid == m.mid && OnlyAdds(a)
  {
  }

  lemma ForMore(pool: seq<Message>, m: Message)
    ensures forall a: RuleAction :: ForOneOf(pool, a) ==> ForOneOf(pool + [m], a)
    ensures forall a: RuleAction :: a.key == m.key && a.mid == m.mid ==> ForOneOf(pool + [m], a)
  {
    assert (pool + [m])[|pool|] == m;
    forall a: RuleAction | ForOneOf(pool, a) ensures ForOneOf(pool + [m], a) {
      var q :| q in pool && a.key == q.key && a.mid == q.mid;
      assert q in pool + [m];
    }
  }

  /** The actions are in the order of their messages, and each is for one of them. */
  lemma {:induction false} PlanInOrder(hits: Matcher, active: seq<Rule>, pool: seq<Message>, d: Doc, force: bool,
                                       plan: seq<RuleAction>)
    requires IsPlan(hits, active, pool, d, force, plan)
    requires forall i, j :: 0 <= i < j < |pool| ==> Before(pool[i].key, pool[j].key)
    ensures forall i, j :: 0 <= i < j < |plan| ==> Before(plan[i].key, plan[j].key)
    ensures forall i :: 0 <= i < |plan| ==> ForOneOf(pool, plan[i]) && OnlyAdds(plan[i])
  {
    hide IsRuled, Before, Decides, OnlyAdds, ForOneOf;
    if pool != [] {
      var m, rest := pool[|pool| - 1], pool[..|pool| - 1];
      assert pool == rest + [m];
      ForMore(rest, m);
      if IsRuled(d, m.mid) && !force {
        PlanInOrder(hits, active, rest, d, force, plan);
      } else {
        var front, a := plan[..|plan| - 1], plan[|plan| - 1];
        PlanInOrder(hits, active, rest, d, force, front);
        ForItsMessage(hits, active, m, force, a);
        forall i | 0 <= i < |front| ensures Before(plan[i].key, a.key) {
          assert ForOneOf(rest, front[i]);
          KeyBefore(rest, front[i], m);
        }
      }
    }
  }

  lemma KeyBefore(rest: seq<Message>, a: RuleAction, m: Message)
    requires ForOneOf(rest, a) && forall i :: 0 <= i < |rest| ==> Before(rest[i].key, m.key)
    ensures Before(a.key, m.key)
  {
  }

  // -- once filed, never again ---------------------------------------------------------------------------

  /** Messages that are all ruled leave nothing to plan. */
  lemma {:induction false} NothingToFile(hits: Matcher, active: seq<Rule>, pool: seq<Message>, d: Doc, plan: seq<RuleAction>)
    requires IsPlan(hits, active, pool, d, false, plan) && forall m :: m in pool ==> IsRuled(d, m.mid)
    ensures plan == []
  {
    hide Decides, IsRuled;
    if pool != [] {
      NothingToFile(hits, active, pool[..|pool| - 1], d, plan);
    }
  }

  /** Every message that is not ruled yet has an action under its key. */
  lemma {:induction false} PlanCovers(hits: Matcher, active: seq<Rule>, pool: seq<Message>, d: Doc, plan: seq<RuleAction>)
    requires IsPlan(hits, active, pool, d, false, plan)
    ensures forall m :: m in pool ==> IsRuled(d, m.mid) || exists a :: a in plan && a.key == m.key && a.mid == m.mid
    ensures forall a :: a in plan ==> exists m :: m in pool && a.key == m.key && a.mid == m.mid
  {
    hide IsRuled;
    if pool != [] {
      var last, rest := pool[|pool| - 1], pool[..|pool| - 1];
      assert pool == rest + [last];
      if IsRuled(d, last.mid) {
        PlanCovers(hits, active, rest, d, plan);
      } else {
        var a, front := plan[|plan| - 1], plan[..|plan| - 1];
        assert plan == front + [a];
        assert a.key == last.key && a.mid == last.mid;
        PlanCovers(hits, active, rest, d, front);
      }
    }
  }
}
