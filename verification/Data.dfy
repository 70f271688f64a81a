/** The document as it is changed in place. */
module Data {
  import opened Options
  import opened Numbering
  import opened Document
  import opened Merging
  import opened DocumentLaws
  import opened Histories

  class Data {
    var Messages: map<string, Entry>
    var Tags: map<string, string>
    var Rules: seq<Rule>
    var Filters: seq<Filter>
    var UIDs: map<string, Folder>

    ghost function Value(): Doc
      reads this
    {
      Doc(Messages, Tags, Rules, Filters, UIDs)
    }

    constructor ()
      ensures Value() == EMPTY
    {
      Messages, Tags, Rules, Filters, UIDs := map[], map[], [], [], map[];
    }

    /** Fills in missing fields. */
    method Normalize()
      modifies this
      ensures Value() == Normalized(old(Value()))
    {
      var todo := UIDs.Keys;
      while todo != {}
        invariant todo <= UIDs.Keys == old(UIDs).Keys
        invariant Value() == old(Value()).(uids := UIDs)
        invariant forall name :: name in UIDs ==>
          UIDs[name] == if name in todo then old(UIDs)[name] else Normal(old(UIDs)[name])
      {
        var name :| name in todo;
        UIDs := UIDs[name := Normal(UIDs[name])];
        todo := todo - {name};
      }
    }

    /** The numbering of a folder, created on first use. */
    method FolderState(name: string) returns (f: Folder)
      modifies this`UIDs
      ensures f == FolderOf(old(UIDs), name) && UIDs == old(UIDs)[name := f]
    {
      if name !in UIDs {
        UIDs := UIDs[name := Folder(0, 0, map[], map[])];
      }
      f := Normal(UIDs[name]);
      UIDs := UIDs[name := f];
    }

    /** Applies one change. */
    method Apply(op: Op)
      modifies this
      ensures Value() == ApplyOp(old(Value()), op)
    {
      Normalize();
      hide FlaggedAll, RuledAll, Registered, RetaggedFirst, AssignFirst, RetireFirst, RenamedTags, FolderOf, Normalized,
           Without, Renamed;
      match op
      case Flags(mids, read, star) => SetFlags(mids, read, star);
      case Retag(mids, add, remove) =>
        Register(add);
        ChangeTags(mids, add, remove);
      case Ruled(mids) => MarkRuled(mids);
      case Drop(mids) =>
        Forget(mids);
        DropUIDs(mids);
      case Uid(folder, mids, nums) => ApplyUID(folder, mids, nums);
      case UidRetire(folder, mids) => RetireUID(folder, mids);
      case Rekey(was, now) =>
        if was in Messages {
          Messages := Messages[now := Messages[was]];
        }
      case TagDel(name) =>
        Tags := Tags - {name};
        StripTag(name);
      case TagRen(was, now, color) =>
        RenameTag(was, now, color);
      case SetRules(rules) => Rules := rules;
      case SetFilters(filters) => Filters := filters;
      case Unknown =>
    }

    method SetFlags(mids: seq<string>, read: Option<bool>, star: Option<bool>)
      modifies this`Messages
      ensures Messages == FlaggedAll(old(Messages), mids, read, star)
    {
      NothingFlagged(Messages, read, star);
      assert mids[..0] == [];
      hide FlaggedAll;
      for i := 0 to |mids|
        invariant Messages == FlaggedAll(old(Messages), mids[..i], read, star)
      {
        var e := Get(Messages, mids[i]);
        if read.Some? {
          e := e.(read := read.value);
        }
        if star.Some? {
          e := e.(star := star.value);
        }
        OneMoreFlagged(old(Messages), mids, i, read, star);
        Messages := Messages[mids[i] := e];
      }
      assert mids[..|mids|] == mids;
    }

    method Register(add: seq<string>)
      modifies this`Tags
      ensures Tags == Registered(old(Tags), add, |add|)
    {
      for i := 0 to |add|
        invariant Tags == Registered(old(Tags), add, i)
      {
        if add[i] !in Tags {
          Tags := Tags[add[i] := TagColor(|Tags|)];
        }
      }
    }

    method ChangeTags(mids: seq<string>, add: seq<string>, remove: seq<string>)
      modifies this`Messages
      ensures Messages == RetaggedFirst(old(Messages), mids, |mids|, add, remove)
    {
      for i := 0 to |mids|
        invariant Messages == RetaggedFirst(old(Messages), mids, i, add, remove)
      {
        var e := Get(Messages, mids[i]);
        var cur := NewTags(e.tags, add, remove);
        Messages := Messages[mids[i] := e.(tags := cur)];
      }
    }

    /** The tags that stay, then the new ones. */
    static method NewTags(tags: seq<string>, add: seq<string>, remove: seq<string>) returns (cur: seq<string>)
      ensures cur == Appended(Without(tags, remove), add, |add|)
    {
      cur := [];
      for i := 0 to |tags|
        invariant cur == Without(tags[..i], remove)
      {
        WithoutStep(tags, i, remove);
        if tags[i] !in remove {
          cur := cur + [tags[i]];
        }
      }
      assert tags[..|tags|] == tags;
      ghost var kept := cur;
      for i := 0 to |add|
        invariant cur == Appended(kept, add, i)
      {
        if add[i] !in cur {
          cur := cur + [add[i]];
        }
      }
    }

    method MarkRuled(mids: seq<string>)
      modifies this`Messages
      ensures Messages == RuledAll(old(Messages), mids)
    {
      NothingRuled(Messages);
      assert mids[..0] == [];
      hide RuledAll;
      for i := 0 to |mids|
        invariant Messages == RuledAll(old(Messages), mids[..i])
      {
        OneMoreRuled(old(Messages), mids, i);
        Messages := Messages[mids[i] := Get(Messages, mids[i]).(ruled := true)];
      }
      assert mids[..|mids|] == mids;
    }

    method Forget(mids: seq<string>)
      modifies this`Messages
      ensures Messages == old(Messages) - SetOf(mids)
    {
      for i := 0 to |mids|
        invariant Messages == old(Messages) - SetOf(mids[..i])
      {
        Messages := Messages - {mids[i]};
        assert SetOf(mids[..i + 1]) == SetOf(mids[..i]) + {mids[i]};
      }
      assert mids[..|mids|] == mids;
    }

    /** Numbers the messages of an op; the first assignment wins. */
    method ApplyUID(folder: string, mids: seq<string>, nums: seq<Number>)
      modifies this`UIDs
      ensures UIDs == old(UIDs)[folder := AssignFirst(FolderOf(old(UIDs), folder), mids, nums, |mids|)]
    {
      var f := FolderState(folder);
      ghost var start := f;
      hide FolderOf;
      for i := 0 to |mids|
        invariant UIDs == old(UIDs)[folder := f] && f == AssignFirst(start, mids, nums, i)
      {
        if i >= |nums| {
          RestIgnored(start, mids, nums, i, |mids|);
          return;
        }
        var mid: string, n: Number := mids[i], nums[i];
        if n == 0 {
          continue;
        }
        if mid in f.uids {
          continue;
        }
        if n in f.owner && f.owner[n] != mid {
          f := f.(validity := Succ(f.validity));
          UIDs := UIDs[folder := f];
          continue;
        }
        f := f.(uids := f.uids[mid := n], owner := f.owner[n := mid]);
        if n >= f.next {
          f := f.(next := Succ(n));
        }
        UIDs := UIDs[folder := f];
      }
    }

    method RetireUID(folder: string, mids: seq<string>)
      modifies this`UIDs
      ensures UIDs == old(UIDs)[folder := RetireFirst(FolderOf(old(UIDs), folder), mids, |mids|)]
    {
      var f := FolderState(folder);
      f := RetireNames(f, mids);
      UIDs := UIDs[folder := f];
    }

    static method RetireNames(f: Folder, mids: seq<string>) returns (g: Folder)
      ensures g == RetireFirst(f, mids, |mids|)
    {
      g := f;
      for i := 0 to |mids|
        invariant g == RetireFirst(f, mids, i)
      {
        if mids[i] in g.uids {
          g := g.(uids := g.uids - {mids[i]}, owner := g.owner - {g.uids[mids[i]]});
        }
      }
    }

    /** Takes messages out of every folder's numbering. */
    method DropUIDs(mids: seq<string>)
      modifies this`UIDs
      ensures UIDs == map name | name in old(UIDs) :: RetireFirst(FolderOf(old(UIDs), name), mids, |mids|)
    {
      hide RetireFirst, FolderOf;
      var todo := UIDs.Keys;
      while todo != {}
        invariant todo <= UIDs.Keys == old(UIDs).Keys
        invariant forall name :: name in UIDs ==>
          UIDs[name] == if name in todo then old(UIDs)[name]
                        else RetireFirst(FolderOf(old(UIDs), name), mids, |mids|)
      {
        var name :| name in todo;
        SameFolder(UIDs, old(UIDs), name);
        var f := FolderState(name);
        f := RetireNames(f, mids);
        UIDs := UIDs[name := f];
        todo := todo - {name};
      }
    }

    method StripTag(name: string)
      modifies this`Messages
      ensures Messages == map mid | mid in old(Messages) ::
        old(Messages)[mid].(tags := Without(old(Messages)[mid].tags, [name]))
    {
      hide Without;
      var todo := Messages.Keys;
      while todo != {}
        invariant todo <= Messages.Keys == old(Messages).Keys
        invariant forall mid :: mid in Messages ==>
          Messages[mid] == if mid in todo then old(Messages)[mid]
                           else old(Messages)[mid].(tags := Without(old(Messages)[mid].tags, [name]))
      {
        var mid :| mid in todo;
        var e := Messages[mid];
        var rest := Stripped(e.tags, name);
        Messages := Messages[mid := e.(tags := rest)];
        todo := todo - {mid};
      }
    }

    static method Stripped(tags: seq<string>, name: string) returns (rest: seq<string>)
      ensures rest == Without(tags, [name])
    {
      if name !in tags {
        NothingStripped(tags, name);
        return tags;
      }
      rest := [];
      for i := 0 to |tags|
        invariant rest == Without(tags[..i], [name])
      {
        WithoutStep(tags, i, [name]);
        if tags[i] != name {
          rest := rest + [tags[i]];
        }
      }
      assert tags[..|tags|] == tags;
    }

    method RenameTag(was: string, now: string, color: string)
      modifies this`Tags, this`Messages
      ensures Tags == RenamedTags(old(Tags), was, now, color)
      ensures Messages == map mid | mid in old(Messages) ::
        old(Messages)[mid].(tags := Renamed(old(Messages)[mid].tags, was, now))
    {
      if was != now {
        if was in Tags {
          var present := Tags[was];
          Tags := Tags - {was};
          if color != "" {
            Tags := Tags[now := color];
          } else {
            Tags := Tags[now := present];
          }
        } else {
          Tags := Tags[now := ColorOr(Tags, now, color)];
        }
        RenameEverywhere(was, now);
      } else {
        if now !in Tags || color != "" {
          Tags := Tags[now := ColorOr(Tags, now, color)];
        }
        SameNames(Messages, now);
      }
    }

    method RenameEverywhere(was: string, now: string)
      modifies this`Messages
      ensures Messages == map mid | mid in old(Messages) ::
        old(Messages)[mid].(tags := Renamed(old(Messages)[mid].tags, was, now))
    {
      hide Renamed;
      var todo := Messages.Keys;
      while todo != {}
        invariant todo <= Messages.Keys == old(Messages).Keys
        invariant forall mid :: mid in Messages ==>
          Messages[mid] == if mid in todo then old(Messages)[mid]
                           else old(Messages)[mid].(tags := Renamed(old(Messages)[mid].tags, was, now))
      {
        var mid :| mid in todo;
        var e := Messages[mid];
        var tags := RenameIn(e.tags, was, now);
        Messages := Messages[mid := e.(tags := tags)];
        todo := todo - {mid};
      }
    }

    static method RenameIn(tags: seq<string>, was: string, now: string) returns (r: seq<string>)
      ensures r == Renamed(tags, was, now)
    {
      r := tags;
      for i := 0 to |tags|
        invariant |r| == |tags|
        invariant forall k :: 0 <= k < |tags| ==> r[k] == if k < i && tags[k] == was then now else tags[k]
      {
        if r[i] == was {
          r := r[i := now];
        }
      }
    }

    /** Takes over what the other document has and this one does not know. */
    method MergeMissing(other: Option<Doc>)
      modifies this
      ensures Value() == Merging.MergeMissing(old(Value()), other).(uids := UIDs)
      ensures (other.Some? ==> AllIndexed(other.value)) ==> Value() == Merging.MergeMissing(old(Value()), other)
      ensures other.Some? ==> AllTakenOver(Normalized(old(Value())).uids, other.value.uids, UIDs)
    {
      hide AllIndexed, AllTakenOver, Merged, Normalized;
      if other.Some? {
        MergeDoc(other.value);
      }
    }

    method MergeDoc(other: Doc)
      modifies this
      ensures Value() == Merging.MergeMissing(old(Value()), Some(other)).(uids := UIDs)
      ensures AllIndexed(other) ==> Value() == Merging.MergeMissing(old(Value()), Some(other))
      ensures AllTakenOver(Normalized(old(Value())).uids, other.uids, UIDs)
    {
      hide AllTakenOver, UidsMerged, Merging.MergeMissing, Merged, Normalized, AllIndexed;
      ghost var d := Value();
      MergeShape(d, other);
      Normalize();
      MergeEntries(other.messages);
      MergeTags(other.tags);
      if |Rules| == 0 && |other.rules| > 0 {
        Rules := other.rules;
      }
      MergeUIDs(other.uids);
      AllFoldersIndexed(other);
    }

    method MergeEntries(messages: map<string, Entry>)
      modifies this`Messages
      ensures Messages == messages + old(Messages)
    {
      var todo := messages.Keys;
      while todo != {}
        invariant todo <= messages.Keys
        invariant Messages.Keys == old(Messages).Keys + (messages.Keys - todo)
        invariant forall mid :: mid in Messages ==>
          Messages[mid] == if mid in old(Messages) then old(Messages)[mid] else messages[mid]
      {
        var mid :| mid in todo;
        if mid !in Messages {
          Messages := Messages[mid := messages[mid]];
        }
        todo := todo - {mid};
      }
    }

    method MergeTags(tags: map<string, string>)
      modifies this`Tags
      ensures Tags == tags + old(Tags)
    {
      var todo := tags.Keys;
      while todo != {}
        invariant todo <= tags.Keys
        invariant Tags.Keys == old(Tags).Keys + (tags.Keys - todo)
        invariant forall tag :: tag in Tags ==> Tags[tag] == if tag in old(Tags) then old(Tags)[tag] else tags[tag]
      {
        var tag :| tag in todo;
        if tag !in Tags {
          Tags := Tags[tag := tags[tag]];
        }
        todo := todo - {tag};
      }
    }

    method MergeUIDs(others: map<string, Folder>)
      modifies this`UIDs
      ensures AllTakenOver(old(UIDs), others, UIDs)
      ensures FoldersIndexed(others) ==> UIDs == UidsMerged(old(UIDs), others)
    {
      hide MergedFolder, Indexed, FolderOf, TakesOver;
      var todo := others.Keys;
      while todo != {}
        invariant todo <= others.Keys
        invariant UIDs.Keys == old(UIDs).Keys + (others.Keys - todo)
        invariant forall name :: name in UIDs && (name !in others || name in todo) ==> UIDs[name] == old(UIDs)[name]
        invariant forall name :: name in others && name !in todo ==>
          && TakesOver(FolderOf(old(UIDs), name), Normal(others[name]), UIDs[name])
          && (Indexed(others[name]) ==> UIDs[name] == MergedFolder(FolderOf(old(UIDs), name), Normal(others[name])))
      {
        var name :| name in todo;
        NewOrSame(UIDs, old(UIDs), name);
        NormalIndexed(others[name]);
        var f := FolderState(name);
        f := MergeFolder(f, Normal(others[name]));
        UIDs := UIDs[name := f];
        todo := todo - {name};
      }
    }

    /** Walks the other folder's numbers in whatever order. */
    static method MergeFolder(f: Folder, other: Folder) returns (g: Folder)
      ensures TakesOver(f, other, g)
      ensures Indexed(other) ==> g == MergedFolder(f, other)
    {
      hide PartlyMerged, Indexed, TakesSome;
      g := f;
      var todo := other.uids.Keys;
      NothingMerged(f, other);
      while todo != {}
        invariant todo <= other.uids.Keys && TakesSome(f, other, todo, g)
        invariant Indexed(other) ==> PartlyMerged(f, other, todo, g)
      {
        var mid :| mid in todo;
        var n := other.uids[mid];
        if Indexed(other) {
          MergeStep(f, other, todo, mid, g);
        }
        TakeStep(f, other, todo, mid, g);
        if mid !in g.uids && n !in g.owner {
          g := g.(uids := g.uids[mid := n], owner := g.owner[n := mid]);
        }
        todo := todo - {mid};
      }
      if Indexed(other) {
        AllMerged(f, other, g);
      }
      AllTaken(f, other, g);
      if other.next > g.next {
        g := g.(next := other.next);
      }
      if other.validity > g.validity {
        g := g.(validity := other.validity);
      }
    }

    /** The op that numbers what has no number yet.  It also creates the folder's numbering if there is none. */
    method AssignUIDs(folder: string, mids: seq<string>) returns (op: Op)
      modifies this`UIDs
      ensures op == AssignOp(old(Value()), folder, mids)
      ensures UIDs == old(UIDs)[folder := FolderOf(old(UIDs), folder)]
    {
      var f := FolderState(folder);
      var todo: seq<string>, nums: seq<Number> := [], [];
      var next := f.next;
      hide FolderOf;
      for i := 0 to |mids|
        invariant todo == Unnumbered(f, mids[..i]) && nums == Consecutive(f.next, |todo|)
        invariant next == (f.next + |todo|) % LIMIT
        invariant UIDs == old(UIDs)[folder := f]
      {
        assert mids[..i + 1][..i] == mids[..i];
        if mids[i] !in f.uids {
          todo := todo + [mids[i]];
          nums := nums + [next];
          NextWraps(f.next, |todo| - 1);
          next := Succ(next);
        }
      }
      assert mids[..|mids|] == mids;
      return Uid(folder, todo, nums);
    }
  }

  lemma NextWraps(next: Number, k: nat)
    ensures Succ((next + k) % LIMIT) == (next + k + 1) % LIMIT
  {
  }

  /** Some of the other folder's numbers are taken over, the ones in todo are not looked at yet. */
  ghost predicate PartlyMerged(f: Folder, other: Folder, todo: set<string>, g: Folder) {
    && g.next == f.next && g.validity == f.validity
    && (forall mid :: mid in g.uids <==>
          mid in f.uids || (mid in other.uids && mid !in todo && other.uids[mid] !in f.owner))
    && (forall mid :: mid in g.uids ==> g.uids[mid] == if mid in f.uids then f.uids[mid] else other.uids[mid])
    && (forall n :: n in g.owner <==>
          n in f.owner || (n in other.owner && other.owner[n] !in todo && other.owner[n] !in f.uids))
    && (forall n :: n in g.owner ==> g.owner[n] == if n in f.owner then f.owner[n] else other.owner[n])
  }

  function UidsMerged(uids: map<string, Folder>, others: map<string, Folder>): map<string, Folder> {
    map name | name in uids.Keys + others.Keys ::
      if name in others then MergedFolder(FolderOf(uids, name), Normal(others[name])) else uids[name]
  }

  ghost predicate FoldersIndexed(folders: map<string, Folder>) {
    forall name :: name in folders ==> Indexed(folders[name])
  }

  lemma AllFoldersIndexed(d: Doc)
    ensures AllIndexed(d) <==> FoldersIndexed(d.uids)
  {
    hide Indexed;
  }

  /** Every folder of the other document is taken over into the one of the same name, the rest stays. */
  ghost predicate AllTakenOver(was: map<string, Folder>, others: map<string, Folder>, now: map<string, Folder>) {
    && now.Keys == was.Keys + others.Keys
    && (forall name :: name in others ==> TakesOver(FolderOf(was, name), Normal(others[name]), now[name]))
    && (forall name :: name in was && name !in others ==> now[name] == was[name])
  }

  lemma MergeShape(d: Doc, other: Doc)
    ensures var n, m := Normalized(d), Merging.MergeMissing(d, Some(other));
      && n.messages == d.messages && n.tags == d.tags && n.rules == d.rules && n.filters == d.filters
      && m == Doc(other.messages + d.messages, other.tags + d.tags,
                  if |d.rules| == 0 && |other.rules| > 0 then other.rules else d.rules, d.filters,
                  UidsMerged(n.uids, other.uids))
  {
    hide MergedFolder, FolderOf, Normal;
  }

  /** Numbers taken over so far: old ones stay, new ones are the other folder's, and what is left out meets a number taken. */
  ghost predicate TakesSome(f: Folder, other: Folder, todo: set<string>, g: Folder) {
    && g.next == f.next && g.validity == f.validity && (Indexed(f) ==> Indexed(g))
    && (forall mid :: mid in f.uids ==> mid in g.uids && g.uids[mid] == f.uids[mid])
    && (forall mid :: mid in g.uids && mid !in f.uids ==> mid in other.uids && g.uids[mid] == other.uids[mid])
    && (forall mid :: mid in other.uids && mid !in todo ==> mid in g.uids || other.uids[mid] in g.owner)
  }

  /** The same for all of them, whatever numbers the other folder has; Next and Validity are the larger ones. */
  ghost predicate TakesOver(f: Folder, other: Folder, g: Folder) {
    && g.next == Larger(f.next, other.next) && g.validity == Larger(f.validity, other.validity)
    && TakesSome(f, other, {}, g.(next := f.next, validity := f.validity))
  }

  lemma NothingMerged(f: Folder, other: Folder)
    ensures TakesSome(f, other, other.uids.Keys, f)
    ensures Indexed(other) ==> PartlyMerged(f, other, other.uids.Keys, f)
  {
  }

  lemma TakeStep(f: Folder, other: Folder, todo: set<string>, mid: string, g: Folder)
    requires mid in todo && mid in other.uids && TakesSome(f, other, todo, g)
    ensures var n := other.uids[mid];
      TakesSome(f, other, todo - {mid},
                if mid !in g.uids && n !in g.owner then g.(uids := g.uids[mid := n], owner := g.owner[n := mid]) else g)
  {
  }

  lemma AllTaken(f: Folder, other: Folder, g: Folder)
    requires TakesSome(f, other, {}, g)
    ensures TakesOver(f, other, g.(next := Larger(f.next, other.next), validity := Larger(f.validity, other.validity)))
    ensures g.next == f.next && g.validity == f.validity
  {
    assert g.(next := f.next, validity := f.validity) == g;
  }

  lemma MergeStep(f: Folder, other: Folder, todo: set<string>, mid: string, g: Folder)
    requires Indexed(other) && mid in todo && mid in other.uids && PartlyMerged(f, other, todo, g)
    ensures var n := other.uids[mid];
      PartlyMerged(f, other, todo - {mid},
                   if mid !in g.uids && n !in g.owner then g.(uids := g.uids[mid := n], owner := g.owner[n := mid])
                   else g)
  {
    var n := other.uids[mid];
    assert n in other.owner && other.owner[n] == mid;
  }

  lemma AllMergedNumbers(f: Folder, other: Folder, g: Folder)
    requires PartlyMerged(f, other, {}, g)
    ensures g.uids == f.uids + map mid | mid in other.uids && mid !in f.uids && other.uids[mid] !in f.owner ::
      other.uids[mid]
  {
  }

  lemma AllMergedOwners(f: Folder, other: Folder, g: Folder)
    requires PartlyMerged(f, other, {}, g)
    ensures g.owner == f.owner + map n | n in other.owner && n !in f.owner && other.owner[n] !in f.uids ::
      other.owner[n]
  {
  }

  lemma AllMerged(f: Folder, other: Folder, g: Folder)
    requires PartlyMerged(f, other, {}, g)
    ensures g.(next := Larger(f.next, other.next), validity := Larger(f.validity, other.validity))
         == MergedFolder(f, other)
    ensures g.next == f.next && g.validity == f.validity
  {
    AllMergedNumbers(f, other, g);
    AllMergedOwners(f, other, g);
    assert g.next == f.next && g.validity == f.validity;
    hide PartlyMerged;
  }

  lemma NewOrSame(uids: map<string, Folder>, was: map<string, Folder>, name: string)
    requires name in uids <==> name in was
    requires name in uids ==> uids[name] == was[name]
    ensures FolderOf(uids, name) == FolderOf(was, name)
  {
  }

  lemma NormalIndexed(f: Folder)
    ensures Indexed(f) <==> Indexed(Normal(f))
  {
  }

  // -- the loops, one step at a time ---------------------------------------------------------------

  lemma NothingFlagged(messages: map<string, Entry>, read: Option<bool>, star: Option<bool>)
    ensures FlaggedAll(messages, [], read, star) == messages
  {
  }

  lemma PrefixNames(mids: seq<string>, i: nat)
    requires i < |mids|
    ensures forall mid :: mid in mids[..i + 1] <==> mid in mids[..i] || mid == mids[i]
    ensures SetOf(mids[..i + 1]) == SetOf(mids[..i]) + {mids[i]}
  {
    assert mids[..i + 1] == mids[..i] + [mids[i]];
    assert mids[..i + 1][i] == mids[i];
    forall mid | mid in SetOf(mids[..i + 1]) ensures mid in SetOf(mids[..i]) + {mids[i]} {
      var k :| 0 <= k < i + 1 && mids[..i + 1][k] == mid;
      assert k < i ==> mids[..i][k] == mid;
    }
    forall mid | mid in SetOf(mids[..i]) ensures mid in SetOf(mids[..i + 1]) {
      var k :| 0 <= k < i && mids[..i][k] == mid;
      assert mids[..i + 1][k] == mid;
    }
  }

  lemma NamesOf(mids: seq<string>)
    ensures forall mid :: mid in mids <==> mid in SetOf(mids)
  {
  }

  lemma OneMoreFlagged(messages: map<string, Entry>, mids: seq<string>, i: nat, read: Option<bool>, star: Option<bool>)
    requires i < |mids|
    ensures var before := FlaggedAll(messages, mids[..i], read, star);
      FlaggedAll(messages, mids[..i + 1], read, star)
      == before[mids[i] := Flagged(Get(before, mids[i]), read, star)]
  {
    PrefixNames(mids, i);
    NamesOf(mids[..i]);
    hide SetOf;
  }

  lemma NothingRuled(messages: map<string, Entry>)
    ensures RuledAll(messages, []) == messages
  {
  }

  lemma OneMoreRuled(messages: map<string, Entry>, mids: seq<string>, i: nat)
    requires i < |mids|
    ensures var before := RuledAll(messages, mids[..i]);
      RuledAll(messages, mids[..i + 1]) == before[mids[i] := Get(before, mids[i]).(ruled := true)]
  {
    PrefixNames(mids, i);
    NamesOf(mids[..i]);
    hide SetOf;
  }

  lemma WithoutStep(tags: seq<string>, i: nat, gone: seq<string>)
    requires i < |tags|
    ensures Without(tags[..i + 1], gone) == Without(tags[..i], gone) + (if tags[i] in gone then [] else [tags[i]])
  {
    assert tags[..i + 1][..i] == tags[..i];
  }

  lemma {:induction false} NothingStripped(tags: seq<string>, name: string)
    requires name !in tags
    ensures Without(tags, [name]) == tags
  {
    if tags != [] {
      NothingStripped(tags[..|tags| - 1], name);
    }
  }

  lemma {:induction false} RestIgnored(f: Folder, mids: seq<string>, nums: seq<Number>, i: nat, k: nat)
    requires |nums| <= i <= k <= |mids|
    ensures AssignFirst(f, mids, nums, k) == AssignFirst(f, mids, nums, i)
  {
    if i < k {
      RestIgnored(f, mids, nums, i, k - 1);
    }
  }

  lemma SameFolder(uids: map<string, Folder>, was: map<string, Folder>, name: string)
    requires name in uids && name in was && uids[name] == was[name]
    ensures FolderOf(uids, name) == FolderOf(was, name)
  {
  }

  lemma SameNames(messages: map<string, Entry>, name: string)
    ensures messages == map mid | mid in messages ::
      messages[mid].(tags := Renamed(messages[mid].tags, name, name))
  {
    forall mid | mid in messages ensures Renamed(messages[mid].tags, name, name) == messages[mid].tags {
    }
  }
}
