/** Exactly when the order of a tag list survives a replay of an op that adds and removes. */
module Retagging {
  import opened Document
  import opened DocumentLaws

  /** The added tags that are new to a list, in the order in which they are appended. */
  function News(kept: seq<string>, add: seq<string>, k: nat): seq<string>
    requires k <= |add|
  {
    if k == 0 then []
    else
      var before := News(kept, add, k - 1);
      if add[k - 1] in kept || add[k - 1] in before then before else before + [add[k - 1]]
  }

  lemma {:induction false} AppendedNews(kept: seq<string>, add: seq<string>, k: nat)
    requires k <= |add|
    ensures Appended(kept, add, k) == kept + News(kept, add, k)
  {
    if k > 0 {
      AppendedNews(kept, add, k - 1);
    }
  }

  /** The tags of the list that are in the other one. */
  function Within(tags: seq<string>, gone: seq<string>): seq<string> {
    if tags == [] then []
    else
      var last := tags[|tags| - 1];
      Within(tags[..|tags| - 1], gone) + (if last in gone then [last] else [])
  }

  lemma {:induction false} WithinMembers(tags: seq<string>, gone: seq<string>)
    ensures forall t :: t in Within(tags, gone) <==> t in tags && t in gone
  {
    if tags != [] {
      var front := tags[..|tags| - 1];
      assert tags == front + [tags[|tags| - 1]];
      WithinMembers(front, gone);
    }
  }

  /** None that is outside follows one that is inside. */
  ghost predicate NoneFollows(tags: seq<string>, gone: seq<string>) {
    forall i, j :: 0 <= i < j < |tags| && tags[i] in gone ==> tags[j] in gone
  }

  /** Taking some out and appending them again restores the list exactly if they were at its end. */
  lemma AtTheEnd(tags: seq<string>, gone: seq<string>)
    ensures Without(tags, gone) + Within(tags, gone) == tags <==> NoneFollows(tags, gone)
  {
    WithoutMembers(tags, gone);
    WithinMembers(tags, gone);
    if NoneFollows(tags, gone) {
      EndStays(tags, gone);
    }
    if Without(tags, gone) + Within(tags, gone) == tags {
      Halves(tags, Without(tags, gone), Within(tags, gone), gone);
    }
  }

  lemma Halves(tags: seq<string>, a: seq<string>, b: seq<string>, gone: seq<string>)
    requires tags == a + b && (forall t :: t in a ==> t !in gone) && forall t :: t in b ==> t in gone
    ensures NoneFollows(tags, gone)
  {
    assert forall i :: 0 <= i < |a| ==> tags[i] == a[i] && a[i] !in gone;
    assert forall j :: |a| <= j < |tags| ==> tags[j] == b[j - |a|] && b[j - |a|] in gone;
  }

  lemma {:induction false} NoneWithin(tags: seq<string>, gone: seq<string>)
    requires forall t :: t in tags ==> t !in gone
    ensures Within(tags, gone) == [] && Without(tags, gone) == tags
  {
    if tags != [] {
      NoneWithin(tags[..|tags| - 1], gone);
    }
  }

  lemma {:induction false} EndStays(tags: seq<string>, gone: seq<string>)
    requires NoneFollows(tags, gone)
    ensures Without(tags, gone) + Within(tags, gone) == tags
  {
    if tags != [] {
      var front, last := tags[..|tags| - 1], tags[|tags| - 1];
      if last in gone {
        EndStays(front, gone);
        assert Without(front, gone) + Within(front, gone) + [last] == tags;
      } else {
        NoneWithin(tags, gone);
      }
    }
  }

  lemma {:induction false} WithoutConcat(a: seq<string>, b: seq<string>, gone: seq<string>)
    ensures Without(a + b, gone) == Without(a, gone) + Without(b, gone)
  {
    if b == [] {
      assert a + b == a;
    } else {
      var front := b[..|b| - 1];
      assert (a + b)[..|a + b| - 1] == a + front;
      WithoutConcat(a, front, gone);
    }
  }

  /** Replayed over a list without the removed ones, exactly these are appended again, in the same order. */
  lemma {:induction false} AppendedAgain(rest: seq<string>, kept: seq<string>, add: seq<string>, gone: seq<string>, k: nat)
    requires k <= |add| && forall t :: t in kept ==> t in rest
    requires forall t :: t in add && t !in gone ==> t in rest
    requires forall t :: t in rest ==> t in kept || t !in gone
    ensures Appended(rest, add, k) == rest + Within(News(kept, add, k), gone)
  {
    if k > 0 {
      AppendedAgain(rest, kept, add, gone, k - 1);
      var before, a := News(kept, add, k - 1), add[k - 1];
      WithinMembers(before, gone);
      if a !in kept && a !in before {
        assert (before + [a])[..|before|] == before;
      }
    }
  }

  lemma {:induction false} NewsMembers(kept: seq<string>, add: seq<string>, k: nat)
    requires k <= |add|
    ensures forall t :: t in News(kept, add, k) <==> t in add[..k] && t !in kept
  {
    if k > 0 {
      NewsMembers(kept, add, k - 1);
      assert add[..k] == add[..k - 1] + [add[k - 1]];
    }
  }

  // -- entries ----------------------------------------------------------------------------------------

  /** What an entry gets that it did not keep. */
  function NewTags(e: Entry, add: seq<string>, remove: seq<string>): seq<string> {
    News(Without(e.tags, remove), add, |add|)
  }

  lemma TagsOnce(e: Entry, add: seq<string>, remove: seq<string>)
    ensures Retagged(e, add, remove).tags == Without(e.tags, remove) + NewTags(e, add, remove)
  {
    AppendedNews(Without(e.tags, remove), add, |add|);
  }

  /** The list after two replays: kept, then new and not removed, then new and removed. */
  lemma TagsTwice(e: Entry, add: seq<string>, remove: seq<string>)
    ensures var kept, news := Without(e.tags, remove), NewTags(e, add, remove);
      Retagged(Retagged(e, add, remove), add, remove).tags == kept + Without(news, remove) + Within(news, remove)
  {
    var kept, news := Without(e.tags, remove), NewTags(e, add, remove);
    TagsOnce(e, add, remove);
    WithoutConcat(kept, news, remove);
    WithoutTwice(e.tags, remove);
    WithoutMembers(e.tags, remove);
    WithoutMembers(news, remove);
    NewsMembers(kept, add, |add|);
    assert add[..|add|] == add;
    hide News, Appended, Without, Within;
    AppendedAgain(kept + Without(news, remove), kept, add, remove, |add|);
  }

  lemma TwiceWhen(e: Entry, add: seq<string>, remove: seq<string>)
    ensures Retagged(Retagged(e, add, remove), add, remove) == Retagged(e, add, remove)
        <==> NoneFollows(NewTags(e, add, remove), remove)
  {
    var kept, news := Without(e.tags, remove), NewTags(e, add, remove);
    TagsOnce(e, add, remove);
    TagsTwice(e, add, remove);
    AtTheEnd(news, remove);
    hide News, Appended, Without, Within, NoneFollows, NewTags;
    SameTail(kept, Without(news, remove), Within(news, remove), news);
    var once := Retagged(e, add, remove);
    assert Retagged(once, add, remove) == once <==> Retagged(once, add, remove).tags == once.tags;
  }

  lemma SameTail(front: seq<string>, a: seq<string>, b: seq<string>, tail: seq<string>)
    ensures front + a + b == front + tail <==> a + b == tail
  {
    assert front + a + b == front + (a + b);
    assert (front + (a + b))[|front|..] == a + b && (front + tail)[|front|..] == tail;
  }

  /** From the second time on the order stays. */
  lemma ThriceIsTwice(e: Entry, add: seq<string>, remove: seq<string>)
    ensures var twice := Retagged(Retagged(e, add, remove), add, remove); Retagged(twice, add, remove) == twice
  {
    var once := Retagged(e, add, remove);
    var kept, news := Without(e.tags, remove), NewTags(e, add, remove);
    TagsOnce(e, add, remove);
    TwiceWhen(once, add, remove);
    WithoutConcat(kept, news, remove);
    WithoutTwice(e.tags, remove);
    NewsMembers(Without(once.tags, remove), add, |add|);
    assert add[..|add|] == add;
    NewsMembers(kept, add, |add|);
    WithoutMembers(news, remove);
    WithoutMembers(once.tags, remove);
    forall t | t in NewTags(once, add, remove) ensures t in remove {
    }
  }

  /** The same change, n times. */
  function Again(e: Entry, add: seq<string>, remove: seq<string>, n: nat): Entry {
    if n == 0 then e else Retagged(Again(e, add, remove, n - 1), add, remove)
  }

  lemma {:induction false} AgainMore(e: Entry, add: seq<string>, remove: seq<string>, a: nat, b: nat)
    ensures Again(Again(e, add, remove, a), add, remove, b) == Again(e, add, remove, a + b)
  {
    hide Retagged;
    if b > 0 {
      AgainMore(e, add, remove, a, b - 1);
    }
  }

  lemma {:induction false} AgainStays(e: Entry, add: seq<string>, remove: seq<string>, n: nat)
    requires n >= 2
    ensures Again(e, add, remove, n) == Retagged(Retagged(e, add, remove), add, remove)
  {
    hide Retagged;
    if n == 2 {
      assert Again(e, add, remove, 1) == Retagged(e, add, remove);
    } else {
      AgainStays(e, add, remove, n - 1);
      ThriceIsTwice(e, add, remove);
    }
  }

  // -- whole ops --------------------------------------------------------------------------------------

  /** How often the message is among the first k. */
  function Times(mids: seq<string>, k: nat, mid: string): nat
    requires k <= |mids|
  {
    if k == 0 then 0 else Times(mids, k - 1, mid) + (if mids[k - 1] == mid then 1 else 0)
  }

  lemma {:induction false} TimesPositive(mids: seq<string>, k: nat, mid: string)
    requires k <= |mids|
    ensures Times(mids, k, mid) > 0 <==> mid in mids[..k]
  {
    if k > 0 {
      TimesPositive(mids, k - 1, mid);
      assert mids[..k] == mids[..k - 1] + [mids[k - 1]];
    }
  }

  lemma {:induction false} RetaggedTimes(messages: map<string, Entry>, mids: seq<string>, k: nat, add: seq<string>,
                                         remove: seq<string>, mid: string)
    requires k <= |mids|
    ensures var r := RetaggedFirst(messages, mids, k, add, remove); var n := Times(mids, k, mid);
      && (mid in r <==> mid in messages || n > 0)
      && Get(r, mid) == Again(Get(messages, mid), add, remove, n)
  {
    hide Retagged;
    if k > 0 {
      RetaggedTimes(messages, mids, k - 1, add, remove, mid);
    }
  }

  lemma EntryTwice(e: Entry, add: seq<string>, remove: seq<string>, n: nat)
    ensures Again(e, add, remove, n + n) == Again(e, add, remove, n)
        <==> (n == 1 ==> NoneFollows(NewTags(e, add, remove), remove))
  {
    hide Retagged, NoneFollows, NewTags;
    if n == 1 {
      TwiceWhen(e, add, remove);
      assert Again(e, add, remove, 1) == Retagged(e, add, remove);
      AgainStays(e, add, remove, 2);
    } else if n >= 2 {
      AgainStays(e, add, remove, n);
      AgainStays(e, add, remove, n + n);
    }
  }

  /** The op named the message n times; replaying it names it n times more. */
  lemma MessageTwice(messages: map<string, Entry>, mids: seq<string>, add: seq<string>, remove: seq<string>, mid: string)
    ensures var once := RetaggedFirst(messages, mids, |mids|, add, remove);
      var twice := RetaggedFirst(once, mids, |mids|, add, remove);
      && (mid in twice <==> mid in once)
      && (Get(twice, mid) == Get(once, mid)
          <==> (Times(mids, |mids|, mid) == 1 ==> NoneFollows(NewTags(Get(messages, mid), add, remove), remove)))
  {
    hide Retagged, RetaggedFirst, NoneFollows, NewTags, Again, Times, Get;
    var once := RetaggedFirst(messages, mids, |mids|, add, remove);
    var n, e := Times(mids, |mids|, mid), Get(messages, mid);
    RetaggedTimes(messages, mids, |mids|, add, remove, mid);
    RetaggedTimes(once, mids, |mids|, add, remove, mid);
    AgainMore(e, add, remove, n, n);
    EntryTwice(e, add, remove, n);
  }

  /**
    Replaying a tags op changes nothing at all, list orders included, if and only if for every message it names
    exactly once, among the added tags that the message did not keep none outside the removed ones follows one
    that is removed, too.
    */
  lemma RetagReplayWhen(d: Doc, op: Op)
    requires op.Retag?
    ensures var once := ApplyOp(d, op);
      ApplyOp(once, op) == Normalized(once)
      <==> forall mid :: Times(op.mids, |op.mids|, mid) == 1 ==>
             NoneFollows(NewTags(Get(d.messages, mid), op.add, op.remove), op.remove)
  {
    var once := ApplyOp(d, op);
    var twice := ApplyOp(once, op);
    RegisteredKeys(d.tags, op.add, |op.add|);
    assert op.add[..|op.add|] == op.add;
    RegisteredTwice(Registered(d.tags, op.add, |op.add|), op.add, |op.add|);
    hide Registered, RetaggedFirst, NoneFollows, NewTags, Times;
    OtherNumbers(once, op);
    assert once.messages == RetaggedFirst(d.messages, op.mids, |op.mids|, op.add, op.remove);
    assert twice == Normalized(once).(messages := RetaggedFirst(once.messages, op.mids, |op.mids|, op.add, op.remove));
    forall mid
      ensures (mid in twice.messages <==> mid in once.messages)
      ensures Get(twice.messages, mid) == Get(once.messages, mid)
          <==> (Times(op.mids, |op.mids|, mid) == 1 ==>
                  NoneFollows(NewTags(Get(d.messages, mid), op.add, op.remove), op.remove))
    {
      MessageTwice(d.messages, op.mids, op.add, op.remove, mid);
    }
    SameLookups(twice.messages, once.messages);
  }

  lemma SameLookups(a: map<string, Entry>, b: map<string, Entry>)
    requires a.Keys == b.Keys
    ensures a == b <==> forall mid :: Get(a, mid) == Get(b, mid)
  {
    if forall mid :: Get(a, mid) == Get(b, mid) {
      forall mid | mid in a ensures a[mid] == b[mid] {
        assert Get(a, mid) == Get(b, mid);
      }
    }
  }
}
