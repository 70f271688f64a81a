/** The index over the bucket: moving mail in bulk, refreshing, filing by rules. */
module Mailbox {
  import opened Options
  import opened Numbering
  import opened Document
  import opened DocumentLaws
  import opened Absorption
  import opened Keys
  import opened Mail
  import opened Order
  import opened Rules

  datatype MoveResult = MoveResult(key: string, newKey: string, skipped: bool, failed: bool)

  const MOVES_GIVE_UP_AFTER := 10

  /** How many moves failed since the last one that went through; skipped ones do not count. */
  function Streak(out: seq<MoveResult>): nat {
    if out == [] then 0
    else
      var r := out[|out| - 1];
      if r.failed then Streak(out[..|out| - 1]) + 1
      else if r.skipped then Streak(out[..|out| - 1])
      else 0
  }

  /** The entry has the key and the base name of an object that is mail and is there. */
  ghost predicate Agrees(root: string, index: map<string, Message>, objects: map<string, Object>) {
    forall k :: k in index ==>
      && k in objects && Own(root, k) && Mid(k) != "" && index[k].key == k && index[k].mid == Mid(k)
  }

  /** The entry names the folder its key lies in. */
  ghost predicate FoldersAgree(root: string, index: map<string, Message>) {
    forall k :: k in index ==> index[k].folder == FolderIn(root, k)
  }

  /** A key of the program's own files, or of a folder marker. */
  predicate NotMail(root: string, key: string) {
    !Own(root, key) || EndsWith(key, "/")
  }

  /** Folder markers, empty objects and the program's own files are not mail. */
  predicate Listed(root: string, key: string, o: Object) {
    !NotMail(root, key) && o.body != ""
  }

  /** All mail in the bucket is in the index. */
  ghost predicate CoversMail(root: string, index: map<string, Message>, objects: map<string, Object>) {
    forall k :: k in objects && Listed(root, k, objects[k]) ==> k in index
  }

  /** All mail in the bucket is in the index, or its body is also at a key that is. */
  ghost predicate Backed(root: string, index: map<string, Message>, objects: map<string, Object>) {
    forall k :: k in objects && Listed(root, k, objects[k]) ==> k in index || HasTwin(index, objects, objects[k].body)
  }

  ghost predicate HasTwin(index: map<string, Message>, objects: map<string, Object>, body: string) {
    exists k :: k in index && k in objects && objects[k].body == body
  }

  /** A body is still at its key, or at the new key that was reported for it - and then it is in the index there. */
  ghost predicate Conserved(before: map<string, Object>, objects: map<string, Object>, index: map<string, Message>,
                            out: seq<MoveResult>, k: string)
    requires k in before
  {
    || (k in objects && objects[k] == before[k])
    || exists r :: r in out && r.key == k && MovedTo(r, objects, index, before[k].body)
  }

  ghost predicate MovedTo(r: MoveResult, objects: map<string, Object>, index: map<string, Message>, body: string) {
    !r.skipped && !r.failed && r.newKey in index && r.newKey in objects && objects[r.newKey].body == body
  }

  /** An empty object under the name of a message is the only one a copy may overwrite. */
  predicate Matters(root: string, key: string, o: Object) {
    NotMail(root, key) || o.body != ""
  }

  /** What a bulk move keeps, seen from the bucket and the index it started with. */
  ghost predicate MoveKeeps(root: string, target: string, keys: seq<string>, before: map<string, Object>,
                            index0: map<string, Message>, objects: map<string, Object>, index: map<string, Message>,
                            out: seq<MoveResult>) {
    && Agrees(root, index, objects)
    && (forall k :: k in before && before[k].body != "" ==> Conserved(before, objects, index, out, k))
    && (forall k :: k in before && k !in keys ==> k in objects)
    && (forall k :: k in before && k in objects && Matters(root, k, before[k]) ==> objects[k] == before[k])
    && (forall k :: k in objects && k !in before ==> exists r :: r in out && r.newKey == k)
    && (forall k :: k in index0 && FolderIn(root, k) == target ==> k in index)
    && (forall k :: k in index0 && k !in index ==> k !in objects)
    && (forall k :: k in index && k !in index0 ==> FolderIn(root, k) == target)
    && (forall r :: r in out && !r.skipped && !r.failed ==> FolderIn(root, r.newKey) == target)
    && (forall r :: r in out ==> r.key in keys)
    && (forall k :: k in index && k in index0 ==> index[k] == index0[k])
    && (forall k :: k in index && k !in index0 ==> exists r :: r in out && r.newKey == k && !r.skipped && !r.failed)
  }

  /** Every entry is as it was, or lies at a new key that was reported. */
  ghost predicate Follows(index0: map<string, Message>, index: map<string, Message>, keys: seq<string>, out: seq<MoveResult>) {
    && (forall k :: k in index ==> (k in index0 && index[k] == index0[k]) || MovedHere(out, k))
    && (forall r :: r in out ==> r.key in keys)
  }

  ghost predicate MovedHere(out: seq<MoveResult>, key: string) {
    exists r :: r in out && !r.skipped && !r.failed && r.newKey == key
  }

  ghost predicate NoneMoved(out: seq<MoveResult>) {
    forall r :: r in out ==> r.skipped || r.failed
  }

  predicate Went(r: MoveResult) {
    !r.skipped && !r.failed
  }

  /** The answers behind a result: of the copy, and then of the delete. */
  function Calls(r: MoveResult): seq<bool> {
    if r.skipped then [] else if !r.failed then [true, true] else if r.newKey == "" then [false] else [true, false]
  }

  function AllCalls(out: seq<MoveResult>): seq<bool> {
    if out == [] then [] else AllCalls(out[..|out| - 1]) + Calls(out[|out| - 1])
  }

  lemma CallsNext(start: seq<bool>, out: seq<MoveResult>, r: MoveResult)
    ensures start + AllCalls(out + [r]) == start + AllCalls(out) + Calls(r)
    ensures r.skipped ==> start + AllCalls(out + [r]) == start + AllCalls(out)
  {
    assert (out + [r])[..|out|] == out;
    assert AllCalls(out + [r]) == AllCalls(out) + Calls(r);
    hide AllCalls;
  }

  /** Where the results take the message that lay at the key at first. */
  function Final(out: seq<MoveResult>, key: string): string {
    if out == [] then key
    else
      var f, r := Final(out[..|out| - 1], key), out[|out| - 1];
      if Went(r) && r.key == f then r.newKey else f
  }

  /** The entry of a message that went to another key: nothing else in it changes. */
  function Moved(m: Message, key: string, target: string): Message {
    m.(key := key, mid := Mid(key), folder := target)
  }

  /** The message of the one key is at the other: with its own entry, or in the folder of the move. */
  ghost predicate Arrived(root: string, target: string, home: string, was: map<string, Object>, index0: map<string, Message>,
                          objects: map<string, Object>, index: map<string, Message>, k: string, f: string) {
    && k in was && k in index0 && f in objects && f in index && objects[f].body == was[k].body
    && ((f == k && index[f] == index0[k]) || (FolderIn(root, f) == home && index[f] == Moved(index0[k], f, target)))
  }

  /** The message at the key was not moved. */
  ghost predicate NotMoved(out: seq<MoveResult>, key: string) {
    forall r :: r in out && Went(r) ==> r.key != key
  }

  /** The copy of a message lies at the key, or was meant to. */
  ghost predicate CopiedTo(out: seq<MoveResult>, key: string) {
    exists r :: r in out && !r.skipped && r.newKey == key
  }

  /** Every message of the index is where the results take it, no two at the same key, and the index has nothing else. */
  ghost predicate Led(root: string, target: string, home: string, was: map<string, Object>, index0: map<string, Message>,
                      objects: map<string, Object>, index: map<string, Message>, out: seq<MoveResult>) {
    && (forall k :: k in index0 ==> Arrived(root, target, home, was, index0, objects, index, k, Final(out, k)))
    && (forall a, b :: a in index0 && b in index0 && Final(out, a) == Final(out, b) ==> a == b)
    && (forall f :: f in index ==> exists k :: k in index0 && Final(out, k) == f)
    && (forall k :: k in index0 && NotMoved(out, k) ==> k in index && index[k] == index0[k])
    && (forall k :: k in objects ==> (k in was && objects[k] == was[k]) || CopiedTo(out, k))
    && (forall k :: k in was && k !in index0 ==> k in objects || CopiedTo(out, k))
  }

  /** What one result does to the messages of the index. */
  ghost predicate Shifts(root: string, target: string, home: string, was: map<string, Object>, index0: map<string, Message>,
                         objects: map<string, Object>, index: map<string, Message>, r: MoveResult) {
    && (forall k :: k in index0 && !(Went(r) && k == r.key) ==> k in was && k in objects && objects[k].body == was[k].body)
    && (forall k :: k in objects ==> (k in was && objects[k] == was[k]) || (k == r.newKey && !r.skipped))
    && (forall k :: k in was && k !in index0 ==> k in objects)
    && (!Went(r) ==> index == index0)
    && (Went(r) ==>
          && r.key in was && r.key in index0 && r.newKey !in index0 && r.newKey in objects
          && objects[r.newKey].body == was[r.key].body && FolderIn(root, r.newKey) == home
          && index == (index0 - {r.key})[r.newKey := Moved(index0[r.key], r.newKey, target)])
  }

  /** The message that lay at the key is in the folder of the move. */
  ghost predicate Reached(root: string, target: string, home: string, index: map<string, Message>, out: seq<MoveResult>,
                          k: string) {
    var f := Final(out, k);
    f in index && FolderIn(root, f) == home && index[f].folder == target
  }

  /** Only messages that were asked for, and do not lie in the folder yet, are moved. */
  ghost predicate OnlyThose(root: string, target: string, keys: seq<string>, out: seq<MoveResult>) {
    forall r :: r in out && Went(r) ==> r.key in keys && FolderIn(root, r.key) != target
  }

  /** Which of the first i keys have been moved: all but those that lie in the folder, if every call goes through. */
  ghost predicate Passed(root: string, target: string, home: string, keys: seq<string>, i: nat, index0: map<string, Message>,
                         index: map<string, Message>, out: seq<MoveResult>, working: bool) {
    && |out| <= i <= |keys|
    && (forall j :: 0 <= j < i ==> Own(root, keys[j]))
    && OnlyThose(root, target, keys, out)
    && (working ==> forall j :: 0 <= j < i && keys[j] in index0 && FolderIn(root, keys[j]) != target ==>
          Reached(root, target, home, index, out, keys[j]))
  }

  /** It stops after ten failures in a row, or at a key that is not its own. */
  ghost predicate GivesUp(root: string, keys: seq<string>, out: seq<MoveResult>, err: bool) {
    && Streak(out) <= MOVES_GIVE_UP_AFTER && (Streak(out) == MOVES_GIVE_UP_AFTER ==> err)
    && (err ==> Streak(out) == MOVES_GIVE_UP_AFTER || exists k :: k in keys && !Own(root, k))
  }

  ghost predicate SameButNumbers(d: Doc, d': Doc) {
    d' == d.(uids := d'.uids)
  }

  /** The message has no number in the folder. */
  ghost predicate NoNumber(d: Doc, folder: string, mid: string) {
    folder in d.uids && mid !in d.uids[folder].uids
  }

  ghost predicate HasNumber(d: Doc, folder: string, mid: string, n: Number) {
    folder in d.uids && mid in d.uids[folder].uids && d.uids[folder].uids[mid] == n
  }

  /** A move took the message out of the folder. */
  ghost predicate LeftFolder(root: string, out: seq<MoveResult>, folder: string, mid: string) {
    exists r :: r in out && !r.skipped && !r.failed && FolderIn(root, r.key) == folder && Mid(r.key) == mid
  }

  /** There is a result for the key. */
  ghost predicate Reported(out: seq<MoveResult>, key: string) {
    exists r :: r in out && r.key == key
  }

  // -- the index and the listing -------------------------------------------------------------------------

  datatype RefreshResult = RefreshResult(checked: nat, new_: nat, removed: nat)

  function EntryOf(root: string, summarize: string -> string, key: string, o: Object): Message {
    Message(key, Mid(key), FolderIn(root, key), o.etag, summarize(o.body))
  }

  /** The entry of a message that could not be fetched: it carries the etag all the same. */
  function Placeholder(root: string, key: string, o: Object): Message {
    Message(key, Mid(key), FolderIn(root, key), o.etag, "unreadable")
  }

  /** What is shown of a message, by whether it could be fetched. */
  function Fetched(root: string, summarize: string -> string, key: string, o: Object, fetched: bool): Message {
    Message(key, Mid(key), FolderIn(root, key), o.etag, if fetched then summarize(o.body) else "unreadable")
  }

  /** The entries under these keys, by which of them could be fetched. */
  ghost predicate FetchedAs(root: string, summarize: string -> string, names: seq<string>, got: seq<bool>,
                            objects: map<string, Object>, index: map<string, Message>) {
    |got| == |names|
    && forall i :: 0 <= i < |names| ==>
         && names[i] in objects && names[i] in index
         && index[names[i]] == Fetched(root, summarize, names[i], objects[names[i]], got[i])
  }

  lemma StillFetched(root: string, summarize: string -> string, names: seq<string>, got: seq<bool>,
                     objects: map<string, Object>, entries: map<string, Message>, kept: map<string, Message>)
    requires FetchedAs(root, summarize, names, got, objects, entries)
    ensures FetchedAs(root, summarize, names, got, objects, kept + entries)
  {
    hide Fetched;
  }

  lemma OutdatedThere(listed: set<string>, index: map<string, Message>, objects: map<string, Object>)
    ensures forall k :: k in Outdated(listed, index, objects) ==> k in objects
  {
  }

  lemma NamedOutdated(root: string, before: map<string, Message>, objects: map<string, Object>, listed: set<string>,
                      names: seq<string>)
    requires forall k :: k in listed <==> k in objects && Listed(root, k, objects[k])
    requires forall k :: k in names <==> k in Outdated(listed, before - (before.Keys - listed), objects)
    ensures forall k :: k in names <==>
      && k in objects && Own(root, k) && !EndsWith(k, "/") && objects[k].body != ""
      && !(k in before && before[k].etag == objects[k].etag)
  {
    hide Own, EndsWith;
  }

  lemma OldEntries(before: map<string, Message>, listed: set<string>, entries: map<string, Message>)
    ensures var index := (before - (before.Keys - listed)) + entries;
      forall k :: k in index && k !in entries ==> k in before && index[k] == before[k]
  {
  }

  predicate UpToDate(index: map<string, Message>, key: string, o: Object) {
    key in index && index[key].etag == o.etag
  }

  /** A fetched entry, or the placeholder of one that could not be fetched. */
  predicate IsFetched(root: string, summarize: string -> string, key: string, o: Object, m: Message) {
    m == EntryOf(root, summarize, key, o) || m == Placeholder(root, key, o)
  }

  /** What has to be fetched. */
  function Outdated(listed: set<string>, index: map<string, Message>, objects: map<string, Object>): set<string> {
    set k | k in listed && k in objects && !UpToDate(index, k, objects[k])
  }

  /** Exactly the listed keys; what had not changed its etag is as it was, the rest was fetched. */
  ghost predicate IsRefreshed(root: string, summarize: string -> string, index0: map<string, Message>,
                              objects: map<string, Object>, index: map<string, Message>) {
    && (forall k :: k in index <==> k in objects && Listed(root, k, objects[k]))
    && forall k :: k in index ==>
         if UpToDate(index0, k, objects[k]) then index[k] == index0[k]
         else IsFetched(root, summarize, k, objects[k], index[k])
  }

  /** The entries carry their keys and base names. */
  ghost predicate Named(index: map<string, Message>) {
    forall k :: k in index ==> index[k].key == k && index[k].mid == Mid(k)
  }

  /** A refreshed index covers the mail, whatever folder markers, empty objects and own files lie in the bucket. */
  lemma RefreshCovers(root: string, summarize: string -> string, index0: map<string, Message>,
                      objects: map<string, Object>, index: map<string, Message>)
    requires IsRefreshed(root, summarize, index0, objects, index) && Named(index0) && "" !in objects
    ensures Agrees(root, index, objects) && CoversMail(root, index, objects) && Backed(root, index, objects)
    ensures FoldersAgree(root, index0) ==> FoldersAgree(root, index)
  {
    hide Own, Mid, FolderIn, NotMail, Listed, IsFetched, UpToDate, Backed;
    forall k | k in index
      ensures Own(root, k) && Mid(k) != "" && index[k].key == k && index[k].mid == Mid(k)
      ensures index[k].folder == FolderIn(root, k) || (k in index0 && index[k] == index0[k])
    {
      ListedIsNamed(root, k, objects[k]);
      if UpToDate(index0, k, objects[k]) {
        assert k in index0 by { KnownEntry(index0, k, objects[k]); }
      } else {
        FetchedIsNamed(root, summarize, k, objects[k], index[k]);
      }
    }
    CoveredIsBacked(root, index, objects);
  }

  lemma KnownEntry(index: map<string, Message>, key: string, o: Object)
    requires UpToDate(index, key, o)
    ensures key in index
  {
  }

  lemma FetchedIsNamed(root: string, summarize: string -> string, key: string, o: Object, m: Message)
    requires IsFetched(root, summarize, key, o, m)
    ensures m.key == key && m.mid == Mid(key) && m.folder == FolderIn(root, key)
  {
  }

  lemma ListedIsNamed(root: string, key: string, o: Object)
    requires Listed(root, key, o) && key != ""
    ensures Own(root, key) && Mid(key) != ""
  {
    hide Own;
  }

  lemma NewIndex(root: string, summarize: string -> string, before: map<string, Message>, objects: map<string, Object>,
                 listed: set<string>, entries: map<string, Message>)
    requires forall k :: k in listed <==> k in objects && Listed(root, k, objects[k])
    requires var kept := before - (before.Keys - listed);
      entries.Keys == Outdated(listed, kept, objects)
      && forall k :: k in entries ==> IsFetched(root, summarize, k, objects[k], entries[k])
    ensures var kept := before - (before.Keys - listed);
      && Outdated(listed, kept, objects) == Outdated(listed, before, objects)
      && IsRefreshed(root, summarize, before, objects, kept + entries)
      && ((forall k :: k in entries ==> entries[k] == EntryOf(root, summarize, k, objects[k])) ==>
            kept + entries == Refreshed(root, summarize, before, objects))
  {
    hide EntryOf, Placeholder, Listed, IsFetched;
    var kept := before - (before.Keys - listed);
    forall k | k in listed ensures UpToDate(kept, k, objects[k]) == UpToDate(before, k, objects[k]) {
    }
  }

  /** What refreshing makes of an index if every fetch goes through: only what changed its etag is fetched. */
  function Refreshed(root: string, summarize: string -> string, index: map<string, Message>,
                     objects: map<string, Object>): map<string, Message> {
    map k | k in objects && Listed(root, k, objects[k]) ::
      if UpToDate(index, k, objects[k]) then index[k] else EntryOf(root, summarize, k, objects[k])
  }

  /** The index built from scratch. */
  function Rebuilt(root: string, summarize: string -> string, objects: map<string, Object>): map<string, Message> {
    map k | k in objects && Listed(root, k, objects[k]) :: EntryOf(root, summarize, k, objects[k])
  }

  /** If an etag fixes the body and every entry is the summary of its etag's body, refreshing is rebuilding. */
  lemma RefreshIsRebuild(root: string, summarize: string -> string, index: map<string, Message>,
                         objects: map<string, Object>, bodyOf: string -> string)
    requires forall k :: k in objects ==> objects[k].body == bodyOf(objects[k].etag)
    requires forall k :: k in index ==> index[k] == EntryOf(root, summarize, k, Object(index[k].etag, bodyOf(index[k].etag)))
    ensures Refreshed(root, summarize, index, objects) == Rebuilt(root, summarize, objects)
  {
    hide Mid, FolderIn, Listed;
    forall k | k in objects && UpToDate(index, k, objects[k])
      ensures index[k] == EntryOf(root, summarize, k, objects[k])
    {
      assert objects[k] == Object(index[k].etag, bodyOf(index[k].etag));
    }
  }

  /** A message that could not be fetched once stays unreadable until its etag changes. */
  lemma PlaceholderStays(root: string, summarize: string -> string, index: map<string, Message>,
                         objects: map<string, Object>, key: string)
    requires key in objects && Listed(root, key, objects[key])
    requires key in index && index[key] == Placeholder(root, key, objects[key])
    ensures key in Refreshed(root, summarize, index, objects)
    ensures Refreshed(root, summarize, index, objects)[key].summary == "unreadable"
  {
    hide Mid, FolderIn, Listed;
  }

  // -- filing ----------------------------------------------------------------------------------------------

  /** Every message in the index is ruled. */
  ghost predicate Filed(index: map<string, Message>, d: Doc) {
    forall k :: k in index ==> IsRuled(d, index[k].mid)
  }

  /** Every message in the index is ruled, or still has an action to come. */
  ghost predicate Queued(index: map<string, Message>, d: Doc, plan: seq<RuleAction>, i: nat) {
    forall k :: k in index ==> IsRuled(d, index[k].mid) || HasAction(plan, i, k, index[k].mid)
  }

  ghost predicate HasAction(plan: seq<RuleAction>, i: nat, key: string, mid: string) {
    exists j :: i <= j < |plan| && plan[j].key == key && plan[j].mid == mid
  }

  /** A filed mailbox leaves the rules nothing to plan. */
  lemma FiledMeansNoPlan(index: map<string, Message>, d: Doc, list: seq<Message>, hits: Matcher, plan: seq<RuleAction>)
    requires Filed(index, d) && (forall m :: m in list ==> m in index.Values)
    requires IsPlan(hits, Active(d.rules), list, d, false, plan)
    ensures plan == []
  {
    hide IsRuled, IsPlan, Active;
    NothingToFile(hits, Active(d.rules), list, d, plan);
  }

  lemma AllQueued(root: string, objects: map<string, Object>, index: map<string, Message>, d: Doc, list: seq<Message>,
                  hits: Matcher, plan: seq<RuleAction>)
    requires Agrees(root, index, objects) && (forall m :: m in list <==> m in index.Values)
    requires IsPlan(hits, Active(d.rules), list, d, false, plan)
    ensures Queued(index, d, plan, 0) && NamedByKey(plan)
  {
    PlanCovers(hits, Active(d.rules), list, d, plan);
    hide IsRuled, IsPlan, Active, Own, Mid, FolderIn;
    forall k | k in index ensures IsRuled(d, index[k].mid) || HasAction(plan, 0, k, index[k].mid) {
      var m := index[k];
      assert m in index.Values && m.key == k;
      if !IsRuled(d, m.mid) {
        var a :| a in plan && a.key == m.key && a.mid == m.mid;
        var j :| 0 <= j < |plan| && plan[j] == a;
      }
    }
    forall i | 0 <= i < |plan| ensures plan[i].mid == Mid(plan[i].key) {
      assert plan[i] in plan;
      var m :| m in list && plan[i].key == m.key && plan[i].mid == m.mid;
      var k :| k in index && index[k] == m;
    }
  }

  /** Every action carries the base name of its key. */
  ghost predicate NamedByKey(plan: seq<RuleAction>) {
    forall i :: 0 <= i < |plan| ==> plan[i].mid == Mid(plan[i].key)
  }

  lemma NoneQueued(index: map<string, Message>, d: Doc, plan: seq<RuleAction>, i: nat)
    requires Queued(index, d, plan, i) && i >= |plan|
    ensures Filed(index, d)
  {
    hide IsRuled;
  }

  lemma MarkedQueue(index: map<string, Message>, d: Doc, d': Doc, plan: seq<RuleAction>, i: nat)
    requires Queued(index, d, plan, i) && forall mid :: IsRuled(d, mid) ==> IsRuled(d', mid)
    ensures Queued(index, d', plan, i)
  {
    hide IsRuled, HasAction;
  }

  /** The action that is done leaves its message ruled. */
  lemma NextQueued(index: map<string, Message>, d: Doc, plan: seq<RuleAction>, i: nat)
    requires Queued(index, d, plan, i) && i < |plan| && IsRuled(d, plan[i].mid)
    ensures Queued(index, d, plan, i + 1)
  {
    hide IsRuled;
    forall k | k in index && !IsRuled(d, index[k].mid) ensures HasAction(plan, i + 1, k, index[k].mid) {
      var j :| i <= j < |plan| && plan[j].key == k && plan[j].mid == index[k].mid;
      assert j != i;
    }
  }

  /** What an action changes in the state, apart from the move. */
  function MarkOps(a: RuleAction): seq<Op> {
    [Ruled([a.mid])]
    + (if |a.addTags| > 0 then [Retag([a.mid], a.addTags, [])] else [])
    + (if a.setRead.Some? || a.setStar.Some? then [Flags([a.mid], a.setRead, a.setStar)] else [])
  }

  /** What an action says about a fact, if anything. */
  function Says(a: RuleAction, c: Cell): Option<bool> {
    match c
    case Here(mid) => if mid == a.mid then Some(true) else None
    case RuledOf(mid) => if mid == a.mid then Some(true) else None
    case ReadOf(mid) => if mid == a.mid then a.setRead else None
    case StarOf(mid) => if mid == a.mid then a.setStar else None
    case TagOf(mid, tag) => if mid == a.mid && tag in a.addTags then Some(true) else None
    case Known(tag) => if tag in a.addTags then Some(true) else None
  }

  /** Its message is marked, tagged and flagged as the action says; every other fact stays as it was. */
  lemma MarkSays(d: Doc, a: RuleAction, c: Cell)
    ensures Value(ApplyAll(d, MarkOps(a)), c) == Or(Says(a, c), Value(d, c))
  {
    MarkEffect(a, c);
    hide Says, LastEffect, Value, ApplyAll;
    ReplayCell(d, MarkOps(a), c);
  }

  lemma MarkEffect(a: RuleAction, c: Cell)
    ensures LastEffect(MarkOps(a), c) == Says(a, c)
  {
    RuledSays(a, c);
    TagsSay(a, c);
    FlagsSay(a, c);
    NothingWritten(c);
    hide Effect, LastEffect, Says, Or;
    var one := [Ruled([a.mid])];
    var two := one + if |a.addTags| > 0 then [Retag([a.mid], a.addTags, [])] else [];
    LastOfMore([], one, Ruled([a.mid]), c);
    LastOfMore(one, two, Retag([a.mid], a.addTags, []), c);
    LastOfMore(two, MarkOps(a), Flags([a.mid], a.setRead, a.setStar), c);
    if |a.addTags| == 0 {
      assert two == one;
    }
    if a.setRead.None? && a.setStar.None? {
      assert MarkOps(a) == two;
    }
  }

  lemma NothingWritten(c: Cell)
    ensures LastEffect([], c) == None
  {
  }

  lemma RuledSays(a: RuleAction, c: Cell)
    ensures Effect(Ruled([a.mid]), c) == (if c.Here? || c.RuledOf? then Says(a, c) else None)
  {
  }

  lemma TagsSay(a: RuleAction, c: Cell)
    ensures Effect(Retag([a.mid], a.addTags, []), c)
         == (if c.Here? || c.TagOf? || c.Known? then Says(a, c) else None)
    ensures |a.addTags| == 0 && (c.TagOf? || c.Known?) ==> Says(a, c) == None
  {
  }

  lemma FlagsSay(a: RuleAction, c: Cell)
    ensures Effect(Flags([a.mid], a.setRead, a.setStar), c)
         == (if c.Here? || c.ReadOf? || c.StarOf? then Says(a, c) else None)
    ensures a.setRead.None? && a.setStar.None? && (c.ReadOf? || c.StarOf?) ==> Says(a, c) == None
  {
  }

  lemma LastOfMore(ops: seq<Op>, more: seq<Op>, op: Op, c: Cell)
    requires more == ops + [op] || more == ops
    ensures more == ops + [op] ==>
      LastEffect(more, c) == if Effect(op, c).Some? then Effect(op, c) else LastEffect(ops, c)
  {
    if more == ops + [op] {
      assert more[..|more| - 1] == ops && more[|more| - 1] == op;
    }
  }

  // -- carrying out a plan -----------------------------------------------------------------------------

  /** What the mailbox consists of at some moment. */
  datatype Moment = Moment(state: Doc, index: map<string, Message>, objects: map<string, Object>)

  /** The moved messages have no number where they were, and nobody else lost one. */
  ghost predicate NumbersFollow(root: string, before: Doc, after: Doc, out: seq<MoveResult>) {
    && (forall r :: r in out && Went(r) ==> NoNumber(after, FolderIn(root, r.key), Mid(r.key)))
    && (forall name, mid, n :: HasNumber(before, name, mid, n) && !LeftFolder(root, out, name, mid) ==>
          HasNumber(after, name, mid, n))
  }

  /**
    The action has been carried out, with these results of its move: marks, tags and flags first; then the
    message goes, and its entry in the state follows.  Without a move, or without a folder to move to, nothing
    else changes.
    */
  ghost predicate Carries(root: string, classes: Classes, a: RuleAction, was: Moment, now: Moment, out: seq<MoveResult>) {
    && SameButNumbers(ApplyAll(ApplyAll(was.state, MarkOps(a)), Rekeys(out)), now.state)
    && if a.moveTo.None? || ValidFolder(a.moveTo.value, classes).None? then
         out == [] && now == was.(state := ApplyAll(was.state, MarkOps(a)))
       else
         var target := ValidFolder(a.moveTo.value, classes).value;
         && |out| <= 1 && OnlyThose(root, target, [a.key], out)
         && Led(root, target, Home(target, classes), was.objects, was.index, now.objects, now.index, out)
         && NumbersFollow(root, ApplyAll(was.state, MarkOps(a)), now.state, out)
  }

  /** The action asks for a move that cannot be made: there is no such folder, or the key is not the mailbox's own. */
  predicate Unfit(root: string, classes: Classes, a: RuleAction) {
    a.moveTo.Some? && (ValidFolder(a.moveTo.value, classes).None? || !Own(root, a.key))
  }

  /** A message of the index that was to be moved lies in the folder it was to be moved to. */
  ghost predicate Arrives(root: string, classes: Classes, a: RuleAction, was: Moment, now: Moment, out: seq<MoveResult>) {
    a.moveTo.Some? && ValidFolder(a.moveTo.value, classes).Some? ==>
      var target := ValidFolder(a.moveTo.value, classes).value;
      a.key in was.index && FolderIn(root, a.key) != target ==>
        Reached(root, target, Home(target, classes), now.index, out, a.key)
  }

  /** The actions of the plan, one after the other; the first so many of them without an error. */
  ghost predicate Trail(root: string, classes: Classes, working: bool, plan: seq<RuleAction>, moments: seq<Moment>,
                        outs: seq<seq<MoveResult>>, done: nat) {
    && |moments| == |outs| + 1 && done <= |outs| <= |plan|
    && (forall i :: 0 <= i < |outs| ==> Carries(root, classes, plan[i], moments[i], moments[i + 1], outs[i]))
    && (forall i :: 0 <= i < done ==>
          !Unfit(root, classes, plan[i]) && (working ==> Arrives(root, classes, plan[i], moments[i], moments[i + 1], outs[i])))
  }

  /** The answers behind the moves of a plan. */
  function PlanCalls(outs: seq<seq<MoveResult>>): seq<bool> {
    if outs == [] then [] else PlanCalls(outs[..|outs| - 1]) + AllCalls(outs[|outs| - 1])
  }

  lemma PlanCallsNext(outs: seq<seq<MoveResult>>, out: seq<MoveResult>)
    ensures PlanCalls(outs + [out]) == PlanCalls(outs) + AllCalls(out)
  {
    assert (outs + [out])[..|outs|] == outs;
  }

  lemma NoCalls()
    ensures PlanCalls([]) == [] && AllCalls([]) == []
  {
  }

  lemma TrailStarts(root: string, classes: Classes, working: bool, plan: seq<RuleAction>, m: Moment)
    ensures Trail(root, classes, working, plan, [m], [], 0)
  {
  }

  lemma TrailMore(root: string, classes: Classes, working: bool, plan: seq<RuleAction>, moments: seq<Moment>,
                  outs: seq<seq<MoveResult>>, i: nat, now: Moment, out: seq<MoveResult>, err: bool)
    requires Trail(root, classes, working, plan, moments, outs, i) && |outs| == i < |plan|
    requires Carries(root, classes, plan[i], moments[i], now, out)
    requires !err ==> !Unfit(root, classes, plan[i]) && (working ==> Arrives(root, classes, plan[i], moments[i], now, out))
    ensures Trail(root, classes, working, plan, moments + [now], outs + [out], if err then i else i + 1)
  {
    hide Carries, Unfit, Arrives;
    var moments', outs' := moments + [now], outs + [out];
    forall j | 0 <= j < |outs'| ensures Carries(root, classes, plan[j], moments'[j], moments'[j + 1], outs'[j]) {
      if j < i {
        assert moments'[j + 1] == moments[j + 1];
      }
    }
    forall j | 0 <= j < (if err then i else i + 1)
      ensures !Unfit(root, classes, plan[j]) && (working ==> Arrives(root, classes, plan[j], moments'[j], moments'[j + 1], outs'[j]))
    {
      if j < i {
        assert moments'[j + 1] == moments[j + 1];
      }
    }
  }

  /** The entries of the index in the order of their keys, each once. */
  ghost predicate Lists(list: seq<Message>, index: map<string, Message>) {
    && (forall i :: 0 <= i < |list| ==> list[i].key in index && index[list[i].key] == list[i])
    && (forall k :: k in index ==> index[k] in list)
    && forall i, j :: 0 <= i < j < |list| ==> Before(list[i].key, list[j].key)
  }

  /** How many of the first i actions move their message. */
  function MovesIn(plan: seq<RuleAction>, i: nat): nat
    requires i <= |plan|
  {
    if i == 0 then 0 else MovesIn(plan, i - 1) + (if plan[i - 1].moveTo.Some? then 1 else 0)
  }

  lemma NoMoves(plan: seq<RuleAction>)
    ensures MovesIn(plan, 0) == 0
  {
  }

  lemma MovesStep(plan: seq<RuleAction>, i: nat)
    requires i < |plan|
    ensures MovesIn(plan, i + 1) == MovesIn(plan, i) + (if plan[i].moveTo.Some? then 1 else 0)
  {
  }

  /** Every body is still stored, wherever, and what is not mail is untouched. */
  ghost predicate BodiesKept(root: string, before: map<string, Object>, objects: map<string, Object>) {
    && (forall k :: k in before && before[k].body != "" ==> Stored(objects, before[k].body))
    && (forall k :: k in before && NotMail(root, k) ==> k in objects && objects[k] == before[k])
  }

  ghost predicate Stored(objects: map<string, Object>, body: string) {
    exists k :: k in objects && objects[k].body == body
  }

  lemma AllStored(root: string, objects: map<string, Object>)
    ensures BodiesKept(root, objects, objects)
  {
    hide NotMail;
  }

  lemma StillStored(root: string, before: map<string, Object>, objects: map<string, Object>, after: map<string, Object>)
    requires BodiesKept(root, before, objects) && BodiesKept(root, objects, after)
    ensures BodiesKept(root, before, after)
  {
    hide NotMail;
    forall k | k in before && before[k].body != "" ensures Stored(after, before[k].body) {
      var j :| j in objects && objects[j].body == before[k].body;
      assert Stored(after, objects[j].body);
    }
  }

  lemma RuledMarks(d: Doc, mids: seq<string>)
    ensures var d' := ApplyOp(d, Ruled(mids));
      && (forall i :: 0 <= i < |mids| ==> IsRuled(d', mids[i]))
      && (forall mid :: IsRuled(d, mid) ==> IsRuled(d', mid)) && d'.rules == d.rules
  {
    assert forall i :: 0 <= i < |mids| ==> mids[i] in SetOf(mids);
  }

  lemma TagsKeepRuled(d: Doc, mids: seq<string>, add: seq<string>)
    ensures var d' := ApplyOp(d, Retag(mids, add, []));
      (forall mid :: IsRuled(d, mid) ==> IsRuled(d', mid)) && d'.rules == d.rules
  {
    RetaggedAt(d.messages, mids, |mids|, add, []);
    assert mids[..|mids|] == mids;
    hide Registered, RetaggedFirst;
  }

  lemma FlagsKeepRuled(d: Doc, mids: seq<string>, read: Option<bool>, star: Option<bool>)
    ensures var d' := ApplyOp(d, Flags(mids, read, star));
      (forall mid :: IsRuled(d, mid) ==> IsRuled(d', mid)) && d'.rules == d.rules
  {
    assert forall i :: 0 <= i < |mids| ==> mids[i] in SetOf(mids);
  }

  /** A copied entry is as ruled as its source. */
  lemma RekeyKeepsRuled(d: Doc, was: string, now: string)
    requires IsRuled(d, was)
    ensures var d' := ApplyOp(d, Rekey(was, now));
      (forall mid :: IsRuled(d, mid) ==> IsRuled(d', mid)) && IsRuled(d', now)
  {
  }

  lemma {:induction false} RekeysKeepRules(d: Doc, out: seq<MoveResult>)
    ensures ApplyAll(d, Rekeys(out)).rules == d.rules
    ensures (forall r :: r in out ==> IsRuled(d, Mid(r.key))) ==>
      && (forall mid :: IsRuled(d, mid) ==> IsRuled(ApplyAll(d, Rekeys(out)), mid))
      && (forall r :: r in out && !r.skipped && !r.failed ==> IsRuled(ApplyAll(d, Rekeys(out)), Mid(r.newKey)))
  {
    hide Mid, IsRuled, ApplyOp;
    if out == [] {
      NoRekeys(d);
    } else {
      var front, r := out[..|out| - 1], out[|out| - 1];
      assert out == front + [r];
      RekeysKeepRules(d, front);
      RekeyStepRules(d, front, r);
    }
  }

  lemma RekeyStepRules(d: Doc, front: seq<MoveResult>, r: MoveResult)
    ensures var before, after := ApplyAll(d, Rekeys(front)), ApplyAll(d, Rekeys(front + [r]));
      && after.rules == before.rules
      && (IsRuled(before, Mid(r.key)) ==>
            && (forall mid :: IsRuled(before, mid) ==> IsRuled(after, mid))
            && (!r.skipped && !r.failed ==> IsRuled(after, Mid(r.newKey))))
  {
    var before := ApplyAll(d, Rekeys(front));
    hide Mid, IsRuled, ApplyAll, Rekeys;
    if r.skipped {
      SkippedRekeys(front, r);
    } else {
      RekeysStep(d, front, r);
      if IsRuled(before, Mid(r.key)) {
        RekeyKeepsRuled(before, Mid(r.key), Mid(r.newKey));
      }
    }
  }

  lemma SkippedRekeys(out: seq<MoveResult>, r: MoveResult)
    requires r.skipped
    ensures Rekeys(out + [r]) == Rekeys(out)
  {
    hide Mid;
    assert (out + [r])[..|out|] == out;
    assert Rekeys(out) + [] == Rekeys(out);
  }

  /** After the move of one message, whatever is in the index was there before, or is that message. */
  lemma MovedQueue(root: string, index0: map<string, Message>, objects: map<string, Object>,
                   index: map<string, Message>, out: seq<MoveResult>, d: Doc, d': Doc, plan: seq<RuleAction>, i: nat)
    requires i < |plan| && Queued(index0, d, plan, i) && IsRuled(d, plan[i].mid)
    requires Mid(plan[i].key) == plan[i].mid
    requires Agrees(root, index, objects) && Follows(index0, index, [plan[i].key], out)
    requires SameButNumbers(ApplyAll(d, Rekeys(out)), d')
    ensures Queued(index, d', plan, i + 1)
  {
    NextQueued(index0, d, plan, i);
    forall r | r in out ensures IsRuled(d, Mid(r.key)) {
      assert r.key in [plan[i].key];
    }
    RekeysKeepRules(d, out);
    hide Mid, ApplyAll, Rekeys, Own, FolderIn, HasAction;
    forall k | k in index ensures IsRuled(d', index[k].mid) || HasAction(plan, i + 1, k, index[k].mid) {
      if !(k in index0 && index[k] == index0[k]) {
        assert MovedHere(out, k);
        var r :| r in out && r.newKey == k && !r.skipped && !r.failed;
        assert index[k].mid == Mid(k);
      }
    }
  }

  class Mailbox {
    const root: string
    const working: bool
    const classes: Classes
    const summarize: string -> string
    const hits: Matcher
    var objects: map<string, Object>
    var index: map<string, Message>
    var state: Doc

    /** Which of the calls to the bucket went through, in their order. */
    ghost var answers: seq<bool>

    constructor (root: string, working: bool, classes: Classes, summarize: string -> string, hits: Matcher)
      requires IsRoot(root) && Sensible(classes)
      ensures this.root == root && this.working == working && this.classes == classes
      ensures Valid() && objects == map[] && index == map[] && state == EMPTY
    {
      this.root, this.working, this.classes, this.summarize, this.hits := root, working, classes, summarize, hits;
      objects, index, state, answers := map[], map[], EMPTY, [];
    }

    ghost predicate Valid()
      reads this
    {
      && IsRoot(root) && Sensible(classes)
      && Agrees(root, index, objects) && CoversMail(root, index, objects) && FoldersAgree(root, index)
    }

    method Try() returns (ok: bool)
      modifies this`answers
      ensures answers == old(answers) + [ok] && (working ==> ok)
    {
      ok := *;
      if working {
        ok := true;
      }
      answers := answers + [ok];
    }

    method Copy(source: string, target: string) returns (ok: bool)
      modifies this`objects, this`answers
      ensures ok ==>
        && source in old(objects) && target in objects && objects == old(objects)[target := objects[target]]
        && objects[target].body == old(objects)[source].body
      ensures !ok ==> objects == old(objects)
      ensures source in old(objects) ==> answers == old(answers) + [ok] && (working ==> ok)
    {
      ok := Try();
      ok := ok && source in objects;
      if ok {
        var etag: string := *;
        objects := objects[target := Object(etag, objects[source].body)];
      }
    }

    method Delete(key: string) returns (ok: bool)
      modifies this`objects, this`answers
      ensures objects == (if ok then old(objects) - {key} else old(objects)) && (working ==> ok)
      ensures answers == old(answers) + [ok]
    {
      ok := Try();
      if ok {
        objects := objects - {key};
      }
    }

    // -- refreshing --------------------------------------------------------------------------------------

    /** The entries in the order of their keys. */
    method Index() returns (list: seq<Message>)
      ensures forall m :: m in list <==> m in index.Values
      ensures (forall k :: k in index ==> index[k].key == k) ==> Lists(list, index)
    {
      hide Before;
      var names := Sorted(index.Keys);
      list := [];
      for i := 0 to |names|
        invariant |list| == i && forall j :: 0 <= j < i ==> list[j] == index[names[j]]
      {
        list := list + [index[names[i]]];
      }
      forall m ensures m in list <==> m in index.Values {
        if k :| k in index && index[k] == m {
          var j :| 0 <= j < |names| && names[j] == k;
          assert list[j] == m;
        }
      }
    }

    /**
      Lists the bucket and fetches every new or changed message, in the order of the keys; one that cannot be
      fetched gets a placeholder, and the others are fetched all the same.
      */
    method Refresh() returns (r: Option<RefreshResult>, ghost names: seq<string>)
      modifies this`index, this`answers
      ensures r.None? ==> index == old(index) && answers == old(answers) + [false]
      ensures r.Some? ==> Ascending(names) && |answers| == |old(answers)| + 1 + |names| && old(answers) + [true] <= answers
      ensures r.Some? ==> forall k :: k in names <==>
        && k in objects && Own(root, k) && !EndsWith(k, "/") && objects[k].body != ""
        && !(k in old(index) && old(index)[k].etag == objects[k].etag)
      ensures r.Some? ==> FetchedAs(root, summarize, names, answers[|old(answers)| + 1..], objects, index)
      ensures r.Some? ==> forall k :: k in index && k !in names ==> k in old(index) && index[k] == old(index)[k]
      ensures r.Some? ==> IsRefreshed(root, summarize, old(index), objects, index)
      ensures r.Some? ==> r.value == RefreshResult(|ListedKeys()|, |Outdated(ListedKeys(), old(index), objects)|,
                                                   |old(index).Keys - ListedKeys()|)
      ensures working ==> r.Some? && index == Refreshed(root, summarize, old(index), objects)
      ensures r.Some? && Named(old(index)) && "" !in objects ==>
        Agrees(root, index, objects) && CoversMail(root, index, objects) && Backed(root, index, objects)
      ensures r.Some? && Named(old(index)) && FoldersAgree(root, old(index)) && "" !in objects ==> FoldersAgree(root, index)
    {
      hide Agrees, CoversMail, Backed, FoldersAgree, Named, Own, EndsWith;
      hide IsRefreshed, Refreshed, IsFetched, FetchedAs, Ascending, Outdated, EntryOf, Listed, NotMail;
      names := [];
      var ok := Try();
      if !ok {
        return None, [];
      }
      ghost var before := index;
      var listed := ListedKeys();
      var gone := index.Keys - listed;
      index := index - gone;
      var todo := Outdated(listed, index, objects);
      OutdatedThere(listed, index, objects);
      var entries;
      entries, names := FetchAll(todo);
      NewIndex(root, summarize, before, objects, listed, entries);
      OldEntries(before, listed, entries);
      NamedOutdated(root, before, objects, listed, names);
      StillFetched(root, summarize, names, answers[|old(answers)| + 1..], objects, entries, index);
      index := index + entries;
      if Named(before) && "" !in objects {
        RefreshCovers(root, summarize, before, objects, index);
      }
      return Some(RefreshResult(|listed|, |todo|, |gone|)), names;
    }

    /** The new entries, fetched in the order of their keys. */
    method FetchAll(todo: set<string>) returns (entries: map<string, Message>, ghost names: seq<string>)
      requires forall k :: k in todo ==> k in objects
      modifies this`answers
      ensures entries.Keys == todo && Ascending(names) && forall k :: k in names <==> k in todo
      ensures |answers| == |old(answers)| + |names| && old(answers) <= answers
      ensures FetchedAs(root, summarize, names, answers[|old(answers)|..], objects, entries)
      ensures forall k :: k in todo ==> IsFetched(root, summarize, k, objects[k], entries[k])
      ensures working ==> forall k :: k in todo ==> entries[k] == EntryOf(root, summarize, k, objects[k])
    {
      hide Mid, FolderIn, Ascending;
      var order := Sorted(todo);
      names := order;
      AscendingDistinct(names);
      entries := map[];
      ghost var got: seq<bool> := [];
      for i := 0 to |order|
        invariant answers == old(answers) + got && |got| == i
        invariant forall k :: k in entries <==> k in order[..i]
        invariant forall j :: 0 <= j < i ==>
          && order[j] in entries && order[j] in objects
          && entries[order[j]] == Fetched(root, summarize, order[j], objects[order[j]], got[j])
        invariant working ==> forall j :: 0 <= j < i ==> got[j]
      {
        var k := order[i];
        var fetched := Try();
        got := got + [fetched];
        entries := entries[k := if fetched then EntryOf(root, summarize, k, objects[k])
                                else Placeholder(root, k, objects[k])];
        assert order[..i + 1] == order[..i] + [k];
      }
      assert order[..|order|] == order && answers[|old(answers)|..] == got;
      forall k | k in todo ensures IsFetched(root, summarize, k, objects[k], entries[k])
        ensures working ==> entries[k] == EntryOf(root, summarize, k, objects[k])
      {
        var j :| 0 <= j < |order| && order[j] == k;
      }
    }

    function ListedKeys(): set<string>
      reads this`objects
    {
      set k | k in objects && Listed(root, k, objects[k])
    }

    // -- moving ------------------------------------------------------------------------------------------

    /**
      Moves mail into a folder: copy, then delete.  If the index covers the mail in the bucket, then
      whatever fails, no body is lost and nothing else is touched.  After ten failures in a row it
      stops.  A moved message keeps no number where it was.
      */
    method Move(keys: seq<string>, folder: string) returns (out: seq<MoveResult>, err: bool)
      requires IsRoot(root) && Sensible(classes) && Agrees(root, index, objects)
      modifies this
      ensures Agrees(root, index, objects) && Follows(old(index), index, keys, out)
      ensures Backed(root, old(index), old(objects)) ==> Backed(root, index, objects) && BodiesKept(root, old(objects), objects)
      ensures ValidFolder(folder, classes).None? ==>
        out == [] && err && objects == old(objects) && index == old(index) && state == old(state)
      ensures ValidFolder(folder, classes).Some? ==> GivesUp(root, keys, out, err)
      ensures ValidFolder(folder, classes).Some? && FoldersAgree(root, old(index)) ==>
        (FoldersAgree(root, index) <==> !EndsInSpace(ValidFolder(folder, classes).value, classes) || NoneMoved(out))
      ensures Steady(folder) && CoversMail(root, old(index), old(objects)) ==>
        MoveKeeps(root, ValidFolder(folder, classes).value, keys, old(objects), old(index), objects, index, out)
      ensures var valid := ValidFolder(folder, classes);
        valid.Some? ==>
          && Led(root, valid.value, Home(valid.value, classes), old(objects), old(index), objects, index, out)
          && OnlyThose(root, valid.value, keys, out)
          && (!err ==> AllPassed(root, valid.value, Home(valid.value, classes), keys, old(index), index, out, working))
      ensures |out| <= |keys| && answers == old(answers) + AllCalls(out)
      ensures SameButNumbers(ApplyAll(old(state), Rekeys(out)), state)
      ensures working && CoversMail(root, old(index), old(objects)) ==> CoversMail(root, index, objects)
      ensures forall r :: r in out && !r.skipped && !r.failed ==> NoNumber(state, FolderIn(root, r.key), Mid(r.key))
      ensures forall name, mid, n :: HasNumber(old(state), name, mid, n) && !LeftFolder(root, out, name, mid) ==>
        HasNumber(state, name, mid, n)
      ensures !err ==> forall k :: k in keys && k in old(index) ==> Reported(out, k)
      ensures working ==> forall r :: r in out ==> !r.failed
      ensures working && !err && Steady(folder) ==> forall k :: k in keys && k in old(index) ==>
        k !in index || Some(FolderIn(root, k)) == ValidFolder(folder, classes)
    {
      var valid := ValidFolder(folder, classes);
      out, err := [], true;
      NoRekeys(state);
      AllStored(root, objects);
      if valid.None? {
        return;
      }
      ValidAgain(folder, classes);
      hide ValidFolder, GivesUp, MoveKeeps, Agrees, CoversMail, Mid, FolderIn, SameButNumbers, NamedIn, NoNumber,
           HasNumber, LeftFolder, Reported, ApplyAll, Rekeys, Backed, BodiesKept, Follows, FoldersAgree, NoneMoved,
           EndsInSpace, FolderName, Sensible, Led, AllPassed, Final, OnlyThose, AllCalls;
      var retire;
      out, err, retire := MoveAll(keys, valid.value);
      RekeysKeepNumbers(old(state), out);
      RetireAll(retire);
      RetiredNames(root, out);
      OnlyRetired(root, out);
    }

    /** The name is accepted and does not end in a space. */
    predicate Steady(folder: string) {
      var t := ValidFolder(folder, classes);
      t.Some? && !EndsInSpace(t.value, classes)
    }

    /** The loop of Move; retire lists, by folder, the names that leave it. */
    method MoveAll(keys: seq<string>, target: string)
      returns (out: seq<MoveResult>, err: bool, retire: map<string, seq<string>>)
      requires IsRoot(root) && ValidFolder(target, classes).Some? && Agrees(root, index, objects)
      requires FolderName(ValidFolder(target, classes).value)
      modifies this
      ensures Agrees(root, index, objects) && Follows(old(index), index, keys, out) && GivesUp(root, keys, out, err)
      ensures Backed(root, old(index), old(objects)) ==> Backed(root, index, objects) && BodiesKept(root, old(objects), objects)
      ensures FoldersAgree(root, old(index)) ==>
        (FoldersAgree(root, index) <==> ValidFolder(target, classes) == Some(target) || NoneMoved(out))
      ensures ValidFolder(target, classes) == Some(target) && CoversMail(root, old(index), old(objects)) ==>
        MoveKeeps(root, target, keys, old(objects), old(index), objects, index, out)
      ensures Led(root, target, ValidFolder(target, classes).value, old(objects), old(index), objects, index, out)
      ensures answers == old(answers) + AllCalls(out)
      ensures |out| <= |keys| && OnlyThose(root, target, keys, out)
      ensures !err ==> AllPassed(root, target, ValidFolder(target, classes).value, keys, old(index), index, out, working)
      ensures state == ApplyAll(old(state), Rekeys(out)) && retire == Retirements(root, out)
      ensures working && CoversMail(root, old(index), old(objects)) ==> CoversMail(root, index, objects)
      ensures !err ==> forall k :: k in keys && k in old(index) ==> Reported(out, k)
      ensures working ==> forall r :: r in out ==> !r.failed
      ensures working && !err && ValidFolder(target, classes) == Some(target) ==>
        forall k :: k in keys && k in old(index) ==> k !in index || FolderIn(root, k) == target
    {
      hide Reported, Agrees, CoversMail, MoveKeeps, Own, FolderIn, IsRoot, FolderName, ApplyAll, Rekeys, Streak,
           Retirements, Mid, WithName, ValidFolder, Backed, BodiesKept, Follows, FoldersAgree, NoneMoved, Reports,
           Led, Shifts, Progress, AllPassed, Final, OnlyThose, AllCalls, Calls;
      ghost var home := ValidFolder(target, classes).value;
      out, err, retire := [], false, map[];
      var failedInARow := 0;
      ghost var covered := home == target && CoversMail(root, index, objects);
      MoveStarts(root, target, keys, objects, index);
      ProgressStarts(root, target, home, keys, objects, index, working);
      NoRekeys(state);
      NoCalls();
      for i := 0 to |keys|
        invariant Agrees(root, index, objects)
        invariant Backed(root, old(index), old(objects)) ==> Backed(root, index, objects) && BodiesKept(root, old(objects), objects)
        invariant covered ==> MoveKeeps(root, target, keys, old(objects), old(index), objects, index, out)
        invariant failedInARow == Streak(out) < MOVES_GIVE_UP_AFTER
        invariant state == ApplyAll(old(state), Rekeys(out)) && retire == Retirements(root, out)
        invariant working && CoversMail(root, old(index), old(objects)) ==> CoversMail(root, index, objects)
        invariant answers == old(answers) + AllCalls(out)
        invariant Progress(root, target, home, keys, i, old(objects), old(index), objects, index, out, working)
      {
        var key := keys[i];
        if !Own(root, key) {
          ProgressSays(root, target, home, keys, i, old(objects), old(index), objects, index, out, working);
          err := true;
          return;
        }
        if key !in index {
          ProgressStays(root, target, home, keys, i, old(objects), old(index), objects, index, out, working);
          continue;
        }
        if FolderIn(root, key) == target {
          var same := MoveResult(key, key, true, false);
          if covered {
            Skips(root, target, keys, old(objects), old(index), objects, index, out, same);
          }
          RekeysSkip(root, out, same);
          CallsNext(old(answers), out, same);
          ProgressSkips(root, target, home, keys, i, old(objects), old(index), objects, index, out, same, working);
          out := out + [same];
          continue;
        }
        ghost var before, was := objects, index;
        var r := MoveOne(key, target, keys, old(objects), old(index), out, covered);
        if Backed(root, old(index), old(objects)) {
          StillStored(root, old(objects), before, objects);
        }
        OneMoreResult(root, out, r);
        CallsNext(old(answers), out, r);
        RekeysStep(old(state), out, r);
        ProgressOn(root, target, home, keys, i, old(objects), old(index), before, was, objects, index, out, r, working);
        out := out + [r];
        if r.failed {
          failedInARow := failedInARow + 1;
          if failedInARow >= MOVES_GIVE_UP_AFTER {
            ProgressSays(root, target, home, keys, i + 1, old(objects), old(index), objects, index, out, working);
            err := true;
            return;
          }
          continue;
        }
        failedInARow := 0;
        retire := WithName(retire, FolderIn(root, key), Mid(key));
      }
      ProgressSays(root, target, home, keys, |keys|, old(objects), old(index), objects, index, out, working);
    }

    /** Takes the moved messages out of their folders' numbering, folder by folder in whatever order. */
    method RetireAll(retire: map<string, seq<string>>)
      modifies this`state
      ensures SameButNumbers(old(state), state)
      ensures forall folder, mid :: NamedIn(retire, folder, mid) ==> NoNumber(state, folder, mid)
      ensures forall folder, mid, n :: HasNumber(old(state), folder, mid, n) && !NamedIn(retire, folder, mid) ==>
        HasNumber(state, folder, mid, n)
    {
      hide ApplyOp, NoNumber, HasNumber;
      var todo := retire.Keys;
      while todo != {}
        invariant todo <= retire.Keys && SameButNumbers(old(state), state)
        invariant forall folder, mid :: folder !in todo && NamedIn(retire, folder, mid) ==> NoNumber(state, folder, mid)
        invariant forall folder, mid, n :: HasNumber(old(state), folder, mid, n) && !NamedIn(retire, folder, mid) ==>
          HasNumber(state, folder, mid, n)
      {
        var folder :| folder in todo;
        RetireOp(state, folder, retire[folder]);
        RetireOthers(state, folder, retire[folder]);
        state := ApplyOp(state, UidRetire(folder, retire[folder]));
        todo := todo - {folder};
      }
    }

    // -- filing --------------------------------------------------------------------------------------------

    /**
      Plans by the rules, over the pool or else the whole index, and carries the plan out.  If every
      call goes through, everything in the index is ruled afterwards, so nothing will be filed again.
      */
    method ApplyRules(pool: Option<seq<Message>>, force: bool)
      returns (moved: nat, err: bool, ghost list: seq<Message>, ghost plan: seq<RuleAction>,
               ghost moments: seq<Moment>, ghost outs: seq<seq<MoveResult>>)
      requires IsRoot(root) && Sensible(classes) && Agrees(root, index, objects)
      modifies this
      ensures Agrees(root, index, objects) && state.rules == old(state.rules)
      ensures if pool.Some? then list == pool.value else Lists(list, old(index))
      ensures Active(old(state).rules) == [] ==> plan == []
      ensures Active(old(state).rules) != [] ==> IsPlan(hits, Active(old(state).rules), list, old(state), force, plan)
      ensures |moments| == |outs| + 1 && |outs| <= |plan| && (if err then |outs| > 0 else |outs| == |plan|)
      ensures Trail(root, classes, working, plan, moments, outs, if err then |outs| - 1 else |plan|)
      ensures moments[0] == Moment(old(state), old(index), old(objects)) && moments[|outs|] == Moment(state, index, objects)
      ensures err ==> Unfit(root, classes, plan[|outs| - 1])
      ensures moved == MovesIn(plan, if err then |outs| - 1 else |plan|)
      ensures answers == old(answers) + PlanCalls(outs)
      ensures working && !err && pool.None? ==> AllFiled(root, classes, plan, moments[0], moments[|outs|], outs)
      ensures pool.None? && !force && !err && Active(state.rules) != [] ==> Filed(index, state)
      ensures working && CoversMail(root, old(index), old(objects)) ==> CoversMail(root, index, objects)
      ensures Backed(root, old(index), old(objects)) ==> Backed(root, index, objects) && BodiesKept(root, old(objects), objects)
    {
      hide *;
      moved, err := 0, false;
      moments, outs := [Moment(state, index, objects)], [];
      AllStored(root, objects);
      KeysByEntry(root, index, objects);
      list := [];
      var messages := [];
      if pool.Some? {
        messages := pool.value;
      } else {
        messages := Index();
      }
      list := messages;
      var actions := PlanRules(hits, messages, state, force);
      plan := actions;
      NoMoves(plan);
      TrailStarts(root, classes, working, plan, moments[0]);
      NoCalls();
      ghost var follow := pool.None? && !force && Active(state.rules) != [];
      if follow {
        AllQueued(root, objects, index, state, list, hits, plan);
      }
      for i := 0 to |actions|
        invariant Agrees(root, index, objects) && state.rules == old(state.rules) && moved == MovesIn(plan, i)
        invariant Backed(root, old(index), old(objects)) ==> Backed(root, index, objects) && BodiesKept(root, old(objects), objects)
        invariant working && CoversMail(root, old(index), old(objects)) ==> CoversMail(root, index, objects)
        invariant follow ==> Queued(index, state, plan, i) && NamedByKey(plan)
        invariant answers == old(answers) + PlanCalls(outs)
        invariant |outs| == i && |moments| == i + 1 && Trail(root, classes, working, plan, moments, outs, i)
        invariant moments[0] == Moment(old(state), old(index), old(objects)) && moments[i] == Moment(state, index, objects)
      {
        ghost var before := objects;
        ghost var out;
        MovesStep(actions, i);
        moved, err, out := CarryOut(actions, i, moved, follow);
        TrailMore(root, classes, working, plan, moments, outs, i, Moment(state, index, objects), out, err);
        PlanCallsNext(outs, out);
        moments, outs := moments + [Moment(state, index, objects)], outs + [out];
        if Backed(root, old(index), old(objects)) {
          StillStored(root, old(objects), before, objects);
        }
        if err {
          return;
        }
      }
      if follow {
        NoneQueued(index, state, plan, |plan|);
      }
      if working && pool.None? {
        PlanFiled(root, classes, hits, Active(old(state).rules), list, force, plan, moments, outs);
      }
    }

    /** Carries out one action. */
    method CarryOut(plan: seq<RuleAction>, i: nat, count: nat, ghost follow: bool)
      returns (moved: nat, err: bool, ghost out: seq<MoveResult>)
      requires i < |plan| && IsRoot(root) && Sensible(classes) && Agrees(root, index, objects)
      requires follow ==> Queued(index, state, plan, i) && NamedByKey(plan)
      modifies this
      ensures Agrees(root, index, objects) && state.rules == old(state.rules)
      ensures working && CoversMail(root, old(index), old(objects)) ==> CoversMail(root, index, objects)
      ensures follow && !err ==> Queued(index, state, plan, i + 1)
      ensures Backed(root, old(index), old(objects)) ==> Backed(root, index, objects) && BodiesKept(root, old(objects), objects)
      ensures Carries(root, classes, plan[i], Moment(old(state), old(index), old(objects)), Moment(state, index, objects), out)
      ensures err <==> Unfit(root, classes, plan[i])
      ensures answers == old(answers) + AllCalls(out)
      ensures working && !err ==>
        Arrives(root, classes, plan[i], Moment(old(state), old(index), old(objects)), Moment(state, index, objects), out)
      ensures moved == count + (if plan[i].moveTo.Some? && !err then 1 else 0)
      ensures plan[i].moveTo.None? ==> !err && out == [] && index == old(index) && objects == old(objects)
      ensures plan[i].moveTo.Some? ==>
        match ValidFolder(plan[i].moveTo.value, classes)
        case None => err && index == old(index) && objects == old(objects)
        case Some(target) => !EndsInSpace(target, classes) && CoversMail(root, old(index), old(objects)) ==>
          MoveKeeps(root, target, [plan[i].key], old(objects), old(index), objects, index, out)
    {
      hide Agrees, CoversMail, IsRuled, Queued, ApplyOp, ApplyAll, Rekeys, MarkOps, MoveKeeps, Mid, FolderIn, ValidFolder,
           BodiesKept, Backed, Follows, FoldersAgree, NoneMoved, EndsInSpace, Sensible, Led, AllPassed, OnlyThose,
           NoNumber, HasNumber, LeftFolder, Own, Carries, Arrives, GivesUp, NumbersFollow, Home;
      ghost var was := Moment(state, index, objects);
      var a := plan[i];
      moved, err, out := count, false, [];
      AllStored(root, objects);
      Mark(a);
      NoRekeys(state);
      if follow {
        MarkedQueue(index, old(state), state, plan, i);
      }
      StaysPut(root, classes, a, was, Moment(state, index, objects));
      if a.moveTo.None? {
        if follow {
          NextQueued(index, state, plan, i);
        }
        return;
      }
      ghost var marked := state;
      ghost var index0 := index;
      var results;
      results, err := Move([a.key], a.moveTo.value);
      out := results;
      if !err {
        moved := moved + 1;
      }
      RekeysKeepRules(marked, out);
      if ValidFolder(a.moveTo.value, classes).Some? {
        GoesAway(root, classes, working, a, was, marked, Moment(state, index, objects), out, err);
      }
      if follow && !err {
        MovedQueue(root, index0, objects, index, out, marked, state, plan, i);
      }
    }

    /** The marks, tags and flags of an action. */
    method Mark(a: RuleAction)
      modifies this`state
      ensures IsRuled(state, a.mid) && state.rules == old(state.rules)
      ensures forall mid :: IsRuled(old(state), mid) ==> IsRuled(state, mid)
      ensures state == ApplyAll(old(state), MarkOps(a))
    {
      hide ApplyOp, IsRuled;
      ghost var ops := [Ruled([a.mid])];
      OneOp(state, ops[0]);
      RuledMarks(state, [a.mid]);
      assert [a.mid][0] == a.mid;
      state := ApplyOp(state, Ruled([a.mid]));
      if |a.addTags| > 0 {
        TagsKeepRuled(state, [a.mid], a.addTags);
        state := ApplyOp(state, Retag([a.mid], a.addTags, []));
        ApplyOneMore(old(state), ops, Retag([a.mid], a.addTags, []));
        ops := ops + [Retag([a.mid], a.addTags, [])];
      }
      if a.setRead.Some? || a.setStar.Some? {
        FlagsKeepRuled(state, [a.mid], a.setRead, a.setStar);
        state := ApplyOp(state, Flags([a.mid], a.setRead, a.setStar));
        ApplyOneMore(old(state), ops, Flags([a.mid], a.setRead, a.setStar));
        ops := ops + [Flags([a.mid], a.setRead, a.setStar)];
      }
      assert ops == MarkOps(a);
    }

    /** One message: the copy, the delete, the index and the state. */
    method MoveOne(key: string, target: string, ghost keys: seq<string>, ghost before: map<string, Object>,
                   ghost index0: map<string, Message>, ghost out: seq<MoveResult>, ghost covered: bool)
      returns (r: MoveResult)
      requires IsRoot(root) && ValidFolder(target, classes).Some? && Agrees(root, index, objects)
      requires FolderName(ValidFolder(target, classes).value)
      requires covered ==> ValidFolder(target, classes) == Some(target)
      requires covered ==> CoversMail(root, index0, before) && Agrees(root, index0, before)
      requires covered ==> MoveKeeps(root, target, keys, before, index0, objects, index, out)
      requires key in keys && key in index && FolderIn(root, key) != target
      modifies this
      ensures Agrees(root, index, objects)
      ensures Backed(root, old(index), old(objects)) ==> Backed(root, index, objects) && BodiesKept(root, old(objects), objects)
      ensures covered ==> MoveKeeps(root, target, keys, before, index0, objects, index, out + [r])
      ensures !r.skipped && r.key == key && (working ==> !r.failed)
      ensures r.failed ==> index == old(index) && state == old(state)
      ensures !r.failed ==> r.newKey != key && index == (old(index) - {key})[r.newKey := Moved(old(index)[key], r.newKey, target)]
      ensures !r.failed ==> Some(FolderIn(root, r.newKey)) == ValidFolder(target, classes)
      ensures Shifts(root, target, ValidFolder(target, classes).value, old(objects), old(index), objects, index, r)
      ensures !r.failed ==> FirstFree(root, old(index).Keys, Mid(key), FolderIn(root, r.newKey), Mid(r.newKey))
      ensures answers == old(answers) + Calls(r)
      ensures working && CoversMail(root, old(index), old(objects)) ==> CoversMail(root, index, objects)
      ensures state == if !r.failed && Mid(r.newKey) != Mid(key) then ApplyOp(old(state), Rekey(Mid(key), Mid(r.newKey)))
                       else old(state)
    {
      hide Agrees, CoversMail, MoveKeeps, Own, IsRoot, ApplyOp, KeyIn, Candidate, Tried, FolderName, Mid, FolderIn,
           ValidFolder, Backed, BodiesKept, NotMail, Shifts;
      ghost var home := ValidFolder(target, classes).value;
      MailNamesIn(root, home, objects, index, key);
      AllStored(root, objects);
      var entry := index[key];
      var mid := Mid(key);
      var newKey, newMid := FreeKey(root, index.Keys, mid, target, classes);
      ghost var n: nat :| newMid == Candidate(mid, n);
      hide FirstFree;
      NewKeyIsOwn(root, home, objects, index, key, newKey, newMid, n);
      NamedIsMail(root, newKey);
      NoName();
      if covered {
        NewKeyIsFree(root, target, keys, before, index0, objects, index, out, newKey);
      }
      ghost var was := objects;
      var ok := Copy(key, newKey);
      if !ok {
        r := MoveResult(key, "", false, true);
        if covered {
          Skips(root, target, keys, before, index0, objects, index, out, r);
        }
        NotShifted(root, target, home, was, index, objects, newKey, r);
        return;
      }
      CopyAgrees(root, was, index, newKey, objects);
      KeysAreMail(root, index, was, key);
      CopyBacked(root, index, was, key, newKey, objects);
      r := MoveResult(key, newKey, false, true);
      ghost var copied := objects;
      if covered {
        Copied(root, target, keys, before, index0, was, index, out, r, copied);
      }
      ok := Delete(key);
      if !ok {
        NotShifted(root, target, home, was, index, objects, newKey, r);
        return; // source and copy both stay
      }
      r := MoveResult(key, newKey, false, false);
      var moved := entry.(key := newKey, mid := newMid, folder := target);
      if covered {
        Copied(root, target, keys, before, index0, was, index, out, r, copied);
        Deleted(root, target, keys, before, index0, copied, index, out, r, moved);
      }
      StillCovers(root, index, was, key, newKey, objects, moved);
      DeleteAgrees(root, copied, index, key, newKey, moved);
      DeleteBacked(root, index, copied, key, newKey, moved);
      if Backed(root, old(index), old(objects)) {
        StillStored(root, was, copied, objects);
      }
      Shifted(root, target, home, was, index, copied, r, moved);
      index := (index - {key})[newKey := moved];
      if newMid != mid {
        state := ApplyOp(state, Rekey(mid, newMid));
      }
    }
  }

  /** A key with a base name is not that of a folder marker. */
  // -- the actions of a plan ----------------------------------------------------------------------------

  lemma KeysByEntry(root: string, index: map<string, Message>, objects: map<string, Object>)
    requires Agrees(root, index, objects)
    ensures forall k :: k in index ==> index[k].key == k
  {
    hide Own, Mid;
  }

  /** An action without a move, or without a folder to move to. */
  lemma StaysPut(root: string, classes: Classes, a: RuleAction, was: Moment, now: Moment)
    requires now == was.(state := ApplyAll(was.state, MarkOps(a)))
    ensures a.moveTo.None? || ValidFolder(a.moveTo.value, classes).None? ==>
      Carries(root, classes, a, was, now, []) && Arrives(root, classes, a, was, now, [])
    ensures a.moveTo.None? ==> !Unfit(root, classes, a)
    ensures a.moveTo.Some? && ValidFolder(a.moveTo.value, classes).None? ==> Unfit(root, classes, a)
  {
    hide ValidFolder, MarkOps, Own, Led;
    NoRekeys(now.state);
  }

  lemma {:induction false} StreakBound(out: seq<MoveResult>)
    ensures Streak(out) <= |out|
  {
    if out != [] {
      StreakBound(out[..|out| - 1]);
    }
  }

  /** An action with a move. */
  lemma GoesAway(root: string, classes: Classes, working: bool, a: RuleAction, was: Moment, marked: Doc, now: Moment,
                 out: seq<MoveResult>, err: bool)
    requires a.moveTo.Some? && ValidFolder(a.moveTo.value, classes).Some?
    requires var target := ValidFolder(a.moveTo.value, classes).value;
      && marked == ApplyAll(was.state, MarkOps(a)) && SameButNumbers(ApplyAll(marked, Rekeys(out)), now.state)
      && |out| <= 1 && OnlyThose(root, target, [a.key], out) && GivesUp(root, [a.key], out, err)
      && Led(root, target, Home(target, classes), was.objects, was.index, now.objects, now.index, out)
      && (!err ==> AllPassed(root, target, Home(target, classes), [a.key], was.index, now.index, out, working))
    requires forall r :: r in out && !r.skipped && !r.failed ==> NoNumber(now.state, FolderIn(root, r.key), Mid(r.key))
    requires forall name, mid, n :: HasNumber(marked, name, mid, n) && !LeftFolder(root, out, name, mid) ==>
      HasNumber(now.state, name, mid, n)
    ensures Carries(root, classes, a, was, now, out) && (err <==> Unfit(root, classes, a))
    ensures working && !err ==> Arrives(root, classes, a, was, now, out)
  {
    hide ValidFolder, MarkOps, Own, Led, Rekeys, ApplyAll, FolderIn, Mid, NoNumber, HasNumber, LeftFolder, Home, Streak, Reached;
    StreakBound(out);
    assert a.key in [a.key];
    assert err ==> !Own(root, a.key) by {
      if err {
        var k :| k in [a.key] && !Own(root, k);
      }
    }
  }

  // -- what a whole plan leaves ----------------------------------------------------------------------------

  /** The message of the action, as it was at first, is at the key now: where it was, or moved as the action says. */
  ghost predicate FiledAt(root: string, classes: Classes, a: RuleAction, first: Moment, now: Moment, f: string) {
    && a.key in first.index && a.key in first.objects && f in now.index && f in now.objects
    && now.objects[f].body == first.objects[a.key].body
    && if a.moveTo.None? || ValidFolder(a.moveTo.value, classes) == Some(FolderIn(root, a.key)) then
         f == a.key && now.index[f] == first.index[f]
       else
         && ValidFolder(a.moveTo.value, classes).Some?
         && var target := ValidFolder(a.moveTo.value, classes).value;
         FolderIn(root, f) == Home(target, classes) && now.index[f] == Moved(first.index[a.key], f, target)
  }

  /** All that the action asks for is on the entry. */
  predicate Asked(a: RuleAction, e: Entry) {
    && e.ruled && (a.setRead.Some? ==> e.read == a.setRead.value) && (a.setStar.Some? ==> e.star == a.setStar.value)
    && forall t :: t in a.addTags ==> t in e.tags
  }

  /** The entry is what the action makes of the other: nothing more is set, nothing is taken away. */
  ghost predicate Treated(a: RuleAction, was: Entry, e: Entry) {
    && e.ruled && e.read == (if a.setRead.Some? then a.setRead.value else was.read)
    && e.star == (if a.setStar.Some? then a.setStar.value else was.star)
    && forall t :: t in e.tags <==> t in a.addTags || t in was.tags
  }

  /** The results rename no other message to this. */
  ghost predicate NoneRenamedTo(out: seq<MoveResult>, mid: string) {
    forall r :: r in out && Went(r) && Mid(r.newKey) == mid ==> Mid(r.key) == mid
  }

  /** The message is still untouched. */
  ghost predicate Untouched(first: Moment, now: Moment, k: string) {
    && k in first.index && k in now.index && now.index[k] == first.index[k]
    && k in first.objects && k in now.objects && now.objects[k].body == first.objects[k].body
  }

  /** An action leaves the messages under other keys alone. */
  lemma OthersStayPut(root: string, classes: Classes, b: RuleAction, was: Moment, now: Moment, out: seq<MoveResult>, k: string)
    requires Carries(root, classes, b, was, now, out) && k != b.key && k in was.index && k in was.objects
    ensures Untouched(was, now, k)
    ensures NotMoved(out, k)
  {
    hide SameButNumbers, Rekeys, ApplyAll, MarkOps, ValidFolder, NumbersFollow, FolderIn, Home;
    if !(b.moveTo.None? || ValidFolder(b.moveTo.value, classes).None?) {
      var target := ValidFolder(b.moveTo.value, classes).value;
      LedStays(root, target, Home(target, classes), was.objects, was.index, now.objects, now.index, out, [b.key], k);
    }
  }

  lemma LedStays(root: string, target: string, home: string, start: map<string, Object>, index0: map<string, Message>,
                 objects: map<string, Object>, index: map<string, Message>, out: seq<MoveResult>, keys: seq<string>, k: string)
    requires Led(root, target, home, start, index0, objects, index, out) && OnlyThose(root, target, keys, out)
    requires k !in keys && k in index0
    ensures NotMoved(out, k) && k in index && index[k] == index0[k]
    ensures k in start && k in objects && objects[k].body == start[k].body
  {
    hide FolderIn, Final, CopiedTo, Moved;
    FinalStays(out, k);
    assert Arrived(root, target, home, start, index0, objects, index, k, Final(out, k));
  }

  /** An action moves its message, which was untouched before. */
  lemma FiledNow(root: string, classes: Classes, a: RuleAction, first: Moment, was: Moment, now: Moment, out: seq<MoveResult>)
    requires Carries(root, classes, a, was, now, out) && Arrives(root, classes, a, was, now, out)
    requires !Unfit(root, classes, a) && Untouched(first, was, a.key)
    requires first.index[a.key].key == a.key && first.index[a.key].mid == Mid(a.key)
    ensures FiledAt(root, classes, a, first, now, Final(out, a.key))
  {
    hide SameButNumbers, Rekeys, ApplyAll, MarkOps, ValidFolder, NumbersFollow, FolderIn, Home, Mid, Own;
    if a.moveTo.Some? {
      var target := ValidFolder(a.moveTo.value, classes).value;
      if FolderIn(root, a.key) == target {
        InFolder(root, target, a.key, out);
        LedThere(root, target, Home(target, classes), was.objects, was.index, now.objects, now.index, out, a.key);
      } else {
        LedTo(root, target, Home(target, classes), was.objects, was.index, now.objects, now.index, out, a.key);
      }
    }
  }

  lemma InFolder(root: string, target: string, key: string, out: seq<MoveResult>)
    requires OnlyThose(root, target, [key], out) && FolderIn(root, key) == target
    ensures NotMoved(out, key)
  {
    hide FolderIn;
  }

  lemma LedThere(root: string, target: string, home: string, start: map<string, Object>, index0: map<string, Message>,
                 objects: map<string, Object>, index: map<string, Message>, out: seq<MoveResult>, k: string)
    requires Led(root, target, home, start, index0, objects, index, out) && NotMoved(out, k) && k in index0
    ensures Final(out, k) == k && k in index && index[k] == index0[k]
    ensures k in start && k in objects && objects[k].body == start[k].body
  {
    hide FolderIn, Final, CopiedTo, Moved;
    FinalStays(out, k);
    assert Arrived(root, target, home, start, index0, objects, index, k, Final(out, k));
  }

  lemma LedTo(root: string, target: string, home: string, start: map<string, Object>, index0: map<string, Message>,
              objects: map<string, Object>, index: map<string, Message>, out: seq<MoveResult>, k: string)
    requires Led(root, target, home, start, index0, objects, index, out) && k in index0
    requires Reached(root, target, home, index, out, k) && index0[k].key == k && index0[k].mid == Mid(k)
    ensures var f := Final(out, k);
      && f in index && FolderIn(root, f) == home && index[f] == Moved(index0[k], f, target)
      && k in start && f in objects && objects[f].body == start[k].body
  {
    hide FolderIn, Final, CopiedTo, NotMoved, Mid;
    assert Arrived(root, target, home, start, index0, objects, index, k, Final(out, k));
  }

  /** It does not come to lie where another message waits for its action. */
  lemma FiledApart(root: string, classes: Classes, a: RuleAction, was: Moment, now: Moment, out: seq<MoveResult>, k: string)
    requires Carries(root, classes, a, was, now, out) && a.key in was.index && k in was.index && k != a.key
    ensures Final(out, a.key) != k
  {
    hide SameButNumbers, Rekeys, ApplyAll, MarkOps, ValidFolder, NumbersFollow, FolderIn, Home;
    if !(a.moveTo.None? || ValidFolder(a.moveTo.value, classes).None?) {
      var target := ValidFolder(a.moveTo.value, classes).value;
      LedStays(root, target, Home(target, classes), was.objects, was.index, now.objects, now.index, out, [a.key], k);
      FinalStays(out, k);
    }
  }

  /** A plan over a whole index: each action is for another key, and that is in the index. */
  ghost predicate Spread(plan: seq<RuleAction>, first: Moment) {
    && (forall i, j :: 0 <= i < j < |plan| ==> plan[i].key != plan[j].key)
    && forall i :: 0 <= i < |plan| ==>
         && Untouched(first, first, plan[i].key) && OnlyAdds(plan[i]) && plan[i].mid == Mid(plan[i].key)
         && first.index[plan[i].key].key == plan[i].key && first.index[plan[i].key].mid == Mid(plan[i].key)
  }

  lemma PlanSpread(root: string, hits: Matcher, active: seq<Rule>, list: seq<Message>, force: bool, plan: seq<RuleAction>,
                   first: Moment)
    requires Agrees(root, first.index, first.objects) && Lists(list, first.index)
    requires IsPlan(hits, active, list, first.state, force, plan)
    ensures Spread(plan, first)
  {
    hide Own, Mid, Before, IsPlan, OnlyAdds;
    PlanInOrder(hits, active, list, first.state, force, plan);
    forall i, j | 0 <= i < j < |plan| ensures plan[i].key != plan[j].key {
      Trichotomy(plan[i].key, plan[j].key);
    }
    forall i | 0 <= i < |plan|
      ensures Untouched(first, first, plan[i].key) && OnlyAdds(plan[i]) && plan[i].mid == Mid(plan[i].key)
      ensures first.index[plan[i].key].key == plan[i].key && first.index[plan[i].key].mid == Mid(plan[i].key)
    {
      assert ForOneOf(list, plan[i]);
      var m :| m in list && plan[i].key == m.key && plan[i].mid == m.mid;
      var j :| 0 <= j < |list| && list[j] == m;
    }
  }

  /** Until its action comes, every message of the plan is untouched. */
  lemma {:induction false} Waits(root: string, classes: Classes, plan: seq<RuleAction>, moments: seq<Moment>,
                                 outs: seq<seq<MoveResult>>, i: nat, l: nat)
    requires Trail(root, classes, true, plan, moments, outs, |plan|) && Spread(plan, moments[0]) && i <= l < |plan|
    ensures Untouched(moments[0], moments[i], plan[l].key)
  {
    hide Carries, Arrives, Unfit, OnlyAdds, Mid, Untouched;
    if i > 0 {
      Waits(root, classes, plan, moments, outs, i - 1, l);
      assert Carries(root, classes, plan[i - 1], moments[i - 1], moments[i - 1 + 1], outs[i - 1]);
      WaitsOn(root, classes, plan[i - 1], moments[0], moments[i - 1], moments[i], outs[i - 1], plan[l].key);
    } else {
      assert Untouched(moments[0], moments[0], plan[l].key);
    }
  }

  lemma WaitsOn(root: string, classes: Classes, b: RuleAction, first: Moment, was: Moment, now: Moment,
                out: seq<MoveResult>, k: string)
    requires Untouched(first, was, k) && Carries(root, classes, b, was, now, out) && k != b.key
    ensures Untouched(first, now, k)
  {
    hide Carries;
    OthersStayPut(root, classes, b, was, now, out, k);
  }

  /** From its action on, it is filed. */
  lemma {:induction false} FiledSince(root: string, classes: Classes, plan: seq<RuleAction>, moments: seq<Moment>,
                                      outs: seq<seq<MoveResult>>, i: nat, k: nat)
    requires Trail(root, classes, true, plan, moments, outs, |plan|) && Spread(plan, moments[0]) && i < k <= |plan|
    ensures FiledAt(root, classes, plan[i], moments[0], moments[k], Final(outs[i], plan[i].key))
    decreases k
  {
    hide Carries, Unfit, FiledAt, OnlyAdds, Mid, Final, Arrives;
    var f := Final(outs[i], plan[i].key);
    assert Carries(root, classes, plan[i], moments[i], moments[i + 1], outs[i]);
    Waits(root, classes, plan, moments, outs, i, i);
    if k == i + 1 {
      FiledNow(root, classes, plan[i], moments[0], moments[i], moments[i + 1], outs[i]);
    } else {
      FiledSince(root, classes, plan, moments, outs, i, k - 1);
      Waits(root, classes, plan, moments, outs, i, k - 1);
      FiledApart(root, classes, plan[i], moments[i], moments[i + 1], outs[i], plan[k - 1].key);
      assert Carries(root, classes, plan[k - 1], moments[k - 1], moments[k - 1 + 1], outs[k - 1]);
      FiledStill(root, classes, plan[i], plan[k - 1], moments[0], moments[k - 1], moments[k], outs[k - 1], f);
    }
  }

  lemma FiledStill(root: string, classes: Classes, a: RuleAction, b: RuleAction, first: Moment, was: Moment, now: Moment,
                   out: seq<MoveResult>, f: string)
    requires FiledAt(root, classes, a, first, was, f) && Carries(root, classes, b, was, now, out) && f != b.key
    ensures FiledAt(root, classes, a, first, now, f)
  {
    hide Carries, ValidFolder, FolderIn, Home, Moved;
    OthersStayPut(root, classes, b, was, now, out, f);
  }

  // -- the state ---------------------------------------------------------------------------------------------

  lemma MarksTreat(d: Doc, a: RuleAction)
    ensures Treated(a, Get(d.messages, a.mid), Get(ApplyAll(d, MarkOps(a)).messages, a.mid))
    ensures a.mid in ApplyAll(d, MarkOps(a)).messages
  {
    var e := ApplyAll(d, MarkOps(a));
    MarkSays(d, a, RuledOf(a.mid));
    MarkSays(d, a, ReadOf(a.mid));
    MarkSays(d, a, StarOf(a.mid));
    MarkSays(d, a, Here(a.mid));
    forall t ensures t in Get(e.messages, a.mid).tags <==> t in a.addTags || t in Get(d.messages, a.mid).tags {
      MarkSays(d, a, TagOf(a.mid, t));
    }
    hide ApplyAll, MarkOps;
  }

  /** Other entries stay as they are, in content. */
  lemma MarksSpare(d: Doc, a: RuleAction, mid: string)
    requires mid != a.mid
    ensures var e, g := Get(d.messages, mid), Get(ApplyAll(d, MarkOps(a)).messages, mid);
      g.ruled == e.ruled && g.read == e.read && g.star == e.star && forall t :: t in g.tags <==> t in e.tags
  {
    var g := ApplyAll(d, MarkOps(a));
    MarkSays(d, a, RuledOf(mid));
    MarkSays(d, a, ReadOf(mid));
    MarkSays(d, a, StarOf(mid));
    forall t ensures t in Get(g.messages, mid).tags <==> t in Get(d.messages, mid).tags {
      MarkSays(d, a, TagOf(mid, t));
    }
    hide ApplyAll, MarkOps;
  }

  /** One move renames at most its own message. */
  lemma OneRename(key: string, out: seq<MoveResult>)
    requires |out| <= 1 && forall r :: r in out && Went(r) ==> r.key == key
    ensures var n := Mid(Final(out, key));
      Rekeys(out) == if n == Mid(key) then [] else [Rekey(Mid(key), n)]
  {
    hide Mid;
    if out != [] {
      assert out[..0] == [];
      assert Final([], key) == key && Rekeys([]) == [];
    }
  }

  lemma Renames(d: Doc, was: string, now: string)
    requires was in d.messages
    ensures var e := ApplyAll(d, if now == was then [] else [Rekey(was, now)]);
      Get(e.messages, now) == Get(d.messages, was) && forall mid :: mid != now ==> Get(e.messages, mid) == Get(d.messages, mid)
  {
    if now == was {
      assert ApplyAll(d, []) == d;
    } else {
      OneOp(d, Rekey(was, now));
    }
  }

  lemma MovesOfOne(root: string, classes: Classes, a: RuleAction, was: Moment, now: Moment, out: seq<MoveResult>)
    requires Carries(root, classes, a, was, now, out)
    ensures |out| <= 1 && forall r :: r in out && Went(r) ==> r.key == a.key
  {
    hide SameButNumbers, Rekeys, ApplyAll, MarkOps, ValidFolder, NumbersFollow, FolderIn, Home, Led;
  }

  /** An action makes of the entry of its message what it says, under the name the message has then. */
  lemma ActionTreats(root: string, classes: Classes, a: RuleAction, was: Moment, now: Moment, out: seq<MoveResult>)
    requires Carries(root, classes, a, was, now, out) && a.mid == Mid(a.key)
    ensures Treated(a, Get(was.state.messages, a.mid), Get(now.state.messages, Mid(Final(out, a.key))))
  {
    hide Carries, ApplyAll, MarkOps, Mid, Final, Treated, Get;
    MarksTreat(was.state, a);
    AfterMarks(root, classes, a, was, now, out);
  }

  /** What is asked for stays asked for, if rules only add, and no other message gets the name. */
  lemma AskedStill(root: string, classes: Classes, a: RuleAction, b: RuleAction, was: Moment, now: Moment,
                   out: seq<MoveResult>, mid: string)
    requires Asked(a, Get(was.state.messages, mid)) && OnlyAdds(a) && OnlyAdds(b) && b.mid == Mid(b.key)
    requires Carries(root, classes, b, was, now, out) && NoneRenamedTo(out, mid)
    ensures Asked(a, Get(now.state.messages, mid))
  {
    hide Carries, Asked, Mid, Final, NoneRenamedTo, Get;
    MovesOfOne(root, classes, b, was, now, out);
    var n := Mid(Final(out, b.key));
    RenameSeen(out, b.key, mid);
    AfterMarks(root, classes, b, was, now, out);
    AskedMarked(a, b, was.state, mid);
  }

  /** The state after an action is that after its marks, with the entry of its message copied to the new name. */
  lemma AfterMarks(root: string, classes: Classes, a: RuleAction, was: Moment, now: Moment, out: seq<MoveResult>)
    requires Carries(root, classes, a, was, now, out) && a.mid == Mid(a.key)
    ensures var marked, n := ApplyAll(was.state, MarkOps(a)), Mid(Final(out, a.key));
      && Get(now.state.messages, n) == Get(marked.messages, a.mid)
      && forall mid :: mid != n ==> Get(now.state.messages, mid) == Get(marked.messages, mid)
  {
    MovesOfOne(root, classes, a, was, now, out);
    hide Rekeys, ApplyAll, MarkOps, ValidFolder, NumbersFollow, FolderIn, Home, Led, Mid, Final, OnlyThose, Treated, Get;
    MarksTreat(was.state, a);
    OneRename(a.key, out);
    Renames(ApplyAll(was.state, MarkOps(a)), a.mid, Mid(Final(out, a.key)));
  }

  lemma AskedMarked(a: RuleAction, b: RuleAction, d: Doc, mid: string)
    requires Asked(a, Get(d.messages, mid)) && OnlyAdds(a) && OnlyAdds(b)
    ensures Asked(a, Get(ApplyAll(d, MarkOps(b)).messages, mid))
  {
    hide ApplyAll, MarkOps, Get;
    if mid == b.mid {
      MarksTreat(d, b);
    } else {
      MarksSpare(d, b, mid);
    }
  }

  lemma RenameSeen(out: seq<MoveResult>, key: string, mid: string)
    requires |out| <= 1 && (forall r :: r in out && Went(r) ==> r.key == key) && NoneRenamedTo(out, mid)
    ensures Mid(Final(out, key)) == mid ==> Mid(key) == mid
  {
    hide Mid;
    if out != [] {
      assert out[0] in out && out[..0] == [] && Final([], key) == key;
    }
  }

  ghost predicate NameStays(outs: seq<seq<MoveResult>>, i: nat, mid: string) {
    forall j :: i < j < |outs| ==> NoneRenamedTo(outs[j], mid)
  }

  lemma {:induction false} AskedSince(root: string, classes: Classes, plan: seq<RuleAction>, moments: seq<Moment>,
                                      outs: seq<seq<MoveResult>>, i: nat, k: nat)
    requires Trail(root, classes, true, plan, moments, outs, |plan|) && Spread(plan, moments[0]) && i < k <= |plan|
    requires NameStays(outs, i, Mid(Final(outs[i], plan[i].key)))
    ensures Asked(plan[i], Get(moments[k].state.messages, Mid(Final(outs[i], plan[i].key))))
    decreases k
  {
    hide Carries, Unfit, OnlyAdds, Mid, Final, Arrives, Get, NoneRenamedTo;
    var n := Mid(Final(outs[i], plan[i].key));
    if k == i + 1 {
      assert Carries(root, classes, plan[i], moments[i], moments[i + 1], outs[i]);
      ActionTreats(root, classes, plan[i], moments[i], moments[i + 1], outs[i]);
    } else {
      AskedSince(root, classes, plan, moments, outs, i, k - 1);
      hide Asked, Treated;
      assert Carries(root, classes, plan[k - 1], moments[k - 1], moments[k - 1 + 1], outs[k - 1]);
      AskedStill(root, classes, plan[i], plan[k - 1], moments[k - 1], moments[k], outs[k - 1], n);
    }
  }

  /**
    The message of every action is filed in the end: where it was, or in the folder of the action, with its
    body and its entry; and all that was asked for is on its entry in the state, unless a later move gave its
    name to another message.
    */
  ghost predicate AllFiled(root: string, classes: Classes, plan: seq<RuleAction>, first: Moment, last: Moment,
                           outs: seq<seq<MoveResult>>) {
    |outs| == |plan|
    && forall i :: 0 <= i < |plan| ==>
         var f := Final(outs[i], plan[i].key);
         && FiledAt(root, classes, plan[i], first, last, f)
         && (NameStays(outs, i, Mid(f)) ==> Asked(plan[i], Get(last.state.messages, Mid(f))))
  }

  lemma PlanFiled(root: string, classes: Classes, hits: Matcher, active: seq<Rule>, list: seq<Message>, force: bool,
                  plan: seq<RuleAction>, moments: seq<Moment>, outs: seq<seq<MoveResult>>)
    requires Trail(root, classes, true, plan, moments, outs, |plan|)
    requires Agrees(root, moments[0].index, moments[0].objects) && Lists(list, moments[0].index)
    requires plan == [] || IsPlan(hits, active, list, moments[0].state, force, plan)
    ensures AllFiled(root, classes, plan, moments[0], moments[|plan|], outs)
  {
    assert |outs| == |plan| && |moments| == |plan| + 1;
    hide Trail, Agrees, IsPlan, Lists, Spread, FiledAt, Asked, Mid, Final, NameStays, Get;
    if plan != [] {
      PlanSpread(root, hits, active, list, force, plan, moments[0]);
    }
    forall i | 0 <= i < |plan|
      ensures FiledAt(root, classes, plan[i], moments[0], moments[|plan|], Final(outs[i], plan[i].key))
      ensures var n := Mid(Final(outs[i], plan[i].key));
        NameStays(outs, i, n) ==> Asked(plan[i], Get(moments[|plan|].state.messages, n))
    {
      FiledSince(root, classes, plan, moments, outs, i, |plan|);
      if NameStays(outs, i, Mid(Final(outs[i], plan[i].key))) {
        AskedSince(root, classes, plan, moments, outs, i, |plan|);
      }
    }
  }

  lemma NoName()
    ensures Mid("") == ""
  {
  }

  lemma NamedIsMail(root: string, key: string)
    requires Own(root, key) && Mid(key) != ""
    ensures !NotMail(root, key)
  {
  }

  /** The copy overwrites at most an empty object, or one whose body is also at an indexed key. */
  lemma CopyBacked(root: string, index: map<string, Message>, was: map<string, Object>, key: string, newKey: string,
                   objects: map<string, Object>)
    requires key in index && key in was && newKey !in index && !NotMail(root, newKey)
    requires newKey in objects && objects == was[newKey := objects[newKey]] && objects[newKey].body == was[key].body
    ensures Backed(root, index, was) ==> Backed(root, index, objects) && BodiesKept(root, was, objects)
  {
    hide NotMail;
    if Backed(root, index, was) {
      forall k | k in objects && Listed(root, k, objects[k]) ensures k in index || HasTwin(index, objects, objects[k].body) {
        TwinStays(index, was, key, newKey, objects, if k == newKey then key else k);
      }
      forall k | k in was && was[k].body != "" ensures Stored(objects, was[k].body) {
        TwinStays(index, was, key, newKey, objects, k);
        assert k != newKey ==> k in objects && objects[k].body == was[k].body;
      }
    }
  }

  lemma TwinStays(index: map<string, Message>, was: map<string, Object>, key: string, newKey: string,
                  objects: map<string, Object>, k: string)
    requires key in index && key in was && newKey !in index && k in was
    requires newKey in objects && objects == was[newKey := objects[newKey]]
    ensures k in index || HasTwin(index, was, was[k].body) ==> HasTwin(index, objects, was[k].body)
    ensures HasTwin(index, objects, was[k].body) ==> Stored(objects, was[k].body)
  {
    if k in index {
      assert objects[k].body == was[k].body;
    } else if HasTwin(index, was, was[k].body) {
      var j :| j in index && j in was && was[j].body == was[k].body;
      assert objects[j].body == was[k].body;
    }
  }

  /** What goes with the source is at the new key. */
  lemma DeleteBacked(root: string, index: map<string, Message>, copied: map<string, Object>, key: string, newKey: string,
                     moved: Message)
    requires key in copied && newKey in copied && newKey != key && copied[newKey].body == copied[key].body
    requires !NotMail(root, key)
    ensures Backed(root, index, copied) ==>
      Backed(root, (index - {key})[newKey := moved], copied - {key}) && BodiesKept(root, copied, copied - {key})
  {
    hide NotMail;
    var index', objects := (index - {key})[newKey := moved], copied - {key};
    forall k | k in copied ensures Stored(objects, copied[k].body) {
      assert (if k == key then newKey else k) in objects;
    }
    if Backed(root, index, copied) {
      forall k | k in objects && Listed(root, k, objects[k]) ensures k in index' || HasTwin(index', objects, objects[k].body) {
        if k !in index {
          var j :| j in index && j in copied && copied[j].body == copied[k].body;
          assert (if j == key then newKey else j) in index';
        }
      }
    }
  }

  /** An index that covers the mail backs it. */
  lemma CoveredIsBacked(root: string, index: map<string, Message>, objects: map<string, Object>)
    requires CoversMail(root, index, objects)
    ensures Backed(root, index, objects)
  {
    hide NotMail;
  }

  lemma KeysAreMail(root: string, index: map<string, Message>, objects: map<string, Object>, key: string)
    requires Agrees(root, index, objects) && key in index
    ensures !NotMail(root, key) && key in objects
  {
    NamedIsMail(root, key);
    hide Own, Mid;
  }

  lemma StillFollows(index0: map<string, Message>, index: map<string, Message>, keys: seq<string>, out: seq<MoveResult>,
                     r: MoveResult)
    requires Follows(index0, index, keys, out) && r.key in keys && (r.skipped || r.failed)
    ensures Follows(index0, index, keys, out + [r]) && (NoneMoved(out + [r]) <==> NoneMoved(out))
  {
    forall k | MovedHere(out, k) ensures MovedHere(out + [r], k) {
      var q :| q in out && !q.skipped && !q.failed && q.newKey == k;
      assert q in out + [r];
    }
    forall q | q in out ensures q in out + [r] {
    }
  }

  lemma FollowsNext(index0: map<string, Message>, was: map<string, Message>, index: map<string, Message>,
                    keys: seq<string>, out: seq<MoveResult>, r: MoveResult)
    requires Follows(index0, was, keys, out) && r.key in keys && !r.skipped && !r.failed
    requires r.newKey in index && index == (was - {r.key})[r.newKey := index[r.newKey]]
    ensures Follows(index0, index, keys, out + [r]) && !NoneMoved(out + [r])
  {
    assert (out + [r])[|out|] == r && r in out + [r];
    forall k | MovedHere(out, k) ensures MovedHere(out + [r], k) {
      var q :| q in out && !q.skipped && !q.failed && q.newKey == k;
      assert q in out + [r];
    }
  }

  /** The new entry names the target; its key lies in the folder the target is trimmed to. */
  lemma FolderNext(root: string, was: map<string, Message>, index: map<string, Message>, target: string, key: string,
                   newKey: string)
    requires newKey in index && index == (was - {key})[newKey := index[newKey]] && index[newKey].folder == target
    ensures FolderIn(root, newKey) != target ==> !FoldersAgree(root, index)
    ensures FolderIn(root, newKey) == target && FoldersAgree(root, was) ==> FoldersAgree(root, index)
  {
    hide FolderIn;
  }

  /** What the results say about the first i keys. */
  ghost predicate Reports(root: string, target: string, keys: seq<string>, i: nat, index0: map<string, Message>,
                          index: map<string, Message>, out: seq<MoveResult>, working: bool, steady: bool) {
    && i <= |keys|
    && (forall k :: k in index0 ==> k in index || Reported(out, k))
    && (forall j :: 0 <= j < i && keys[j] in index0 ==> Reported(out, keys[j]))
    && (working ==> forall r :: r in out ==> !r.failed)
    && (working && steady ==> forall j :: 0 <= j < i && keys[j] in index0 ==>
          keys[j] !in index || FolderIn(root, keys[j]) == target)
  }

  lemma NoneReported(root: string, target: string, keys: seq<string>, index: map<string, Message>, working: bool,
                     steady: bool)
    ensures Reports(root, target, keys, 0, index, index, [], working, steady)
  {
  }

  lemma StillReports(root: string, target: string, keys: seq<string>, i: nat, index0: map<string, Message>,
                     index: map<string, Message>, out: seq<MoveResult>, working: bool, steady: bool)
    requires i < |keys| && keys[i] !in index && Reports(root, target, keys, i, index0, index, out, working, steady)
    ensures Reports(root, target, keys, i + 1, index0, index, out, working, steady)
  {
  }

  lemma ReportsMore(root: string, target: string, keys: seq<string>, i: nat, index0: map<string, Message>,
                    was: map<string, Message>, index: map<string, Message>, out: seq<MoveResult>, r: MoveResult,
                    working: bool, steady: bool)
    requires i < |keys| && r.key == keys[i] && (working ==> !r.failed)
    requires Reports(root, target, keys, i, index0, was, out, working, steady)
    requires r.failed || r.skipped ==> index == was
    requires r.skipped ==> FolderIn(root, r.key) == target
    requires !r.failed && !r.skipped ==>
      r.newKey in index && r.newKey != r.key && index == (was - {r.key})[r.newKey := index[r.newKey]]
      && (steady ==> FolderIn(root, r.newKey) == target)
    ensures Reports(root, target, keys, i + 1, index0, index, out + [r], working, steady)
  {
    OneMoreReport(out, r);
    hide Reported, FolderIn;
  }

  lemma AllReported(root: string, target: string, keys: seq<string>, index0: map<string, Message>,
                    index: map<string, Message>, out: seq<MoveResult>, working: bool, steady: bool)
    requires Reports(root, target, keys, |keys|, index0, index, out, working, steady)
    ensures forall k :: k in keys && k in index0 ==> Reported(out, k)
    ensures working ==> forall r :: r in out ==> !r.failed
    ensures working && steady ==> forall k :: k in keys && k in index0 ==> k !in index || FolderIn(root, k) == target
  {
  }

  lemma NoFailure(root: string, target: string, keys: seq<string>, i: nat, index0: map<string, Message>,
                  index: map<string, Message>, out: seq<MoveResult>, working: bool, steady: bool)
    requires Reports(root, target, keys, i, index0, index, out, working, steady)
    ensures working ==> forall r :: r in out ==> !r.failed
  {
  }

  lemma NoneLed(root: string, target: string, home: string, objects: map<string, Object>, index: map<string, Message>)
    requires Agrees(root, index, objects)
    ensures Led(root, target, home, objects, index, objects, index, [])
  {
    hide Own, Mid, FolderIn;
    forall f | f in index ensures exists k :: k in index && Final([], k) == f {
      assert Final([], f) == f;
    }
  }

  lemma FinalNext(out: seq<MoveResult>, r: MoveResult, k: string)
    ensures Final(out + [r], k) == if Went(r) && r.key == Final(out, k) then r.newKey else Final(out, k)
  {
    assert (out + [r])[..|out|] == out;
  }

  lemma StillLed(root: string, target: string, home: string, start: map<string, Object>, index0: map<string, Message>,
                 objects: map<string, Object>, index: map<string, Message>, out: seq<MoveResult>, r: MoveResult)
    requires Led(root, target, home, start, index0, objects, index, out) && !Went(r)
    ensures Led(root, target, home, start, index0, objects, index, out + [r])
  {
    hide Arrived, Final;
    forall k ensures Final(out + [r], k) == Final(out, k) && (NotMoved(out + [r], k) <==> NotMoved(out, k)) {
      FinalNext(out, r, k);
      NotMovedNext(out, r, k);
    }
    MoreCopied(out, r);
  }

  lemma MoreCopied(out: seq<MoveResult>, r: MoveResult)
    ensures forall k :: CopiedTo(out, k) ==> CopiedTo(out + [r], k)
    ensures !r.skipped ==> CopiedTo(out + [r], r.newKey)
  {
    assert (out + [r])[|out|] == r;
    forall k | CopiedTo(out, k) ensures CopiedTo(out + [r], k) {
      var q :| q in out && !q.skipped && q.newKey == k;
      assert q in out + [r];
    }
  }

  /** Where the results took the messages, one of them is taken on. */
  lemma LedOn(root: string, target: string, home: string, start: map<string, Object>, index0: map<string, Message>,
              was: map<string, Object>, before: map<string, Message>, objects: map<string, Object>,
              index: map<string, Message>, out: seq<MoveResult>, r: MoveResult)
    requires Led(root, target, home, start, index0, was, before, out) && Shifts(root, target, home, was, before, objects, index, r)
    ensures Led(root, target, home, start, index0, objects, index, out + [r])
  {
    hide Final, Arrived, Shifts, Went;
    forall k | k in index0 ensures Arrived(root, target, home, start, index0, objects, index, k, Final(out + [r], k)) {
      FinalNext(out, r, k);
      ArrivedOn(root, target, home, start, index0, was, before, objects, index, k, Final(out, k), r);
    }
    forall a, b | a in index0 && b in index0 && Final(out + [r], a) == Final(out + [r], b) ensures a == b {
      FinalNext(out, r, a);
      FinalNext(out, r, b);
      InIndex(root, target, home, start, index0, was, before, a, Final(out, a));
      InIndex(root, target, home, start, index0, was, before, b, Final(out, b));
      Apart(root, target, home, was, before, objects, index, r);
    }
    forall f | f in index ensures exists k :: k in index0 && Final(out + [r], k) == f {
      var g := Origin(root, target, home, was, before, objects, index, r, f);
      var k :| k in index0 && Final(out, k) == g;
      FinalNext(out, r, k);
    }
    forall k | k in index0 && NotMoved(out + [r], k) ensures k in index && index[k] == index0[k] {
      NotMovedNext(out, r, k);
      SameEntry(root, target, home, was, before, objects, index, r, k);
    }
    MoreCopied(out, r);
    OthersOn(root, target, home, start, index0, was, before, objects, index, out, r);
  }

  lemma OthersOn(root: string, target: string, home: string, start: map<string, Object>, index0: map<string, Message>,
                 was: map<string, Object>, before: map<string, Message>, objects: map<string, Object>,
                 index: map<string, Message>, out: seq<MoveResult>, r: MoveResult)
    requires Led(root, target, home, start, index0, was, before, out) && Shifts(root, target, home, was, before, objects, index, r)
    ensures forall k :: k in objects ==> (k in start && objects[k] == start[k]) || CopiedTo(out + [r], k)
    ensures forall k :: k in start && k !in index0 ==> k in objects || CopiedTo(out + [r], k)
  {
    MoreCopied(out, r);
    hide Final, FolderIn, Moved, CopiedTo, Arrived;
    forall k | k in start && k !in index0 ensures k in objects || CopiedTo(out + [r], k) {
      if Went(r) && k == r.key {
        var a :| a in index0 && Final(out, a) == k;
        FinalCopied(out, a);
      }
    }
  }

  lemma {:induction false} FinalCopied(out: seq<MoveResult>, k: string)
    ensures Final(out, k) == k || CopiedTo(out, Final(out, k))
  {
    if out != [] {
      var front, r := out[..|out| - 1], out[|out| - 1];
      FinalCopied(front, k);
      assert out == front + [r];
      MoreCopied(front, r);
    }
  }

  lemma InIndex(root: string, target: string, home: string, start: map<string, Object>, index0: map<string, Message>,
                was: map<string, Object>, before: map<string, Message>, k: string, f: string)
    requires Arrived(root, target, home, start, index0, was, before, k, f)
    ensures f in before
  {
  }

  lemma SameEntry(root: string, target: string, home: string, was: map<string, Object>, before: map<string, Message>,
                  objects: map<string, Object>, index: map<string, Message>, r: MoveResult, k: string)
    requires Shifts(root, target, home, was, before, objects, index, r) && k in before && !(Went(r) && r.key == k)
    ensures k in index && index[k] == before[k]
  {
    hide FolderIn, Moved;
  }

  lemma Apart(root: string, target: string, home: string, was: map<string, Object>, before: map<string, Message>,
              objects: map<string, Object>, index: map<string, Message>, r: MoveResult)
    requires Shifts(root, target, home, was, before, objects, index, r)
    ensures Went(r) ==> r.newKey !in before
  {
  }

  lemma Origin(root: string, target: string, home: string, was: map<string, Object>, before: map<string, Message>,
               objects: map<string, Object>, index: map<string, Message>, r: MoveResult, f: string) returns (g: string)
    requires Shifts(root, target, home, was, before, objects, index, r) && f in index
    ensures g in before && f == if Went(r) && r.key == g then r.newKey else g
  {
    g := if Went(r) && f == r.newKey then r.key else f;
  }

  lemma ArrivedOn(root: string, target: string, home: string, start: map<string, Object>, index0: map<string, Message>,
                  was: map<string, Object>, before: map<string, Message>, objects: map<string, Object>,
                  index: map<string, Message>, k: string, f: string, r: MoveResult)
    requires Arrived(root, target, home, start, index0, was, before, k, f)
    requires Shifts(root, target, home, was, before, objects, index, r)
    ensures Arrived(root, target, home, start, index0, objects, index, k, if Went(r) && r.key == f then r.newKey else f)
  {
    hide FolderIn;
  }

  lemma NotShifted(root: string, target: string, home: string, was: map<string, Object>, index: map<string, Message>,
                   objects: map<string, Object>, newKey: string, r: MoveResult)
    requires Agrees(root, index, was) && !Went(r) && newKey !in index && !r.skipped
    requires objects == was || (r.newKey == newKey && newKey in objects && objects == was[newKey := objects[newKey]])
    ensures Shifts(root, target, home, was, index, objects, index, r)
  {
    hide Own, Mid, FolderIn;
  }

  lemma Shifted(root: string, target: string, home: string, was: map<string, Object>, index: map<string, Message>,
                copied: map<string, Object>, r: MoveResult, moved: Message)
    requires Agrees(root, index, was) && Went(r) && r.key in index && r.newKey !in index && r.newKey in copied
    requires copied == was[r.newKey := copied[r.newKey]] && copied[r.newKey].body == was[r.key].body
    requires FolderIn(root, r.newKey) == home && moved == Moved(index[r.key], r.newKey, target)
    ensures Shifts(root, target, home, was, index, copied - {r.key}, (index - {r.key})[r.newKey := moved], r)
  {
    hide Own, Mid, FolderIn;
  }

  /** What the results say about the first i keys, about the index and about the folders. */
  ghost predicate Progress(root: string, target: string, home: string, keys: seq<string>, i: nat, start: map<string, Object>,
                           index0: map<string, Message>, objects: map<string, Object>, index: map<string, Message>,
                           out: seq<MoveResult>, working: bool) {
    && Follows(index0, index, keys, out)
    && (FoldersAgree(root, index0) ==> (FoldersAgree(root, index) <==> home == target || NoneMoved(out)))
    && Reports(root, target, keys, i, index0, index, out, working, home == target)
    && Led(root, target, home, start, index0, objects, index, out)
    && Passed(root, target, home, keys, i, index0, index, out, working)
  }

  lemma NonePassed(root: string, target: string, home: string, keys: seq<string>, index: map<string, Message>, working: bool)
    ensures Passed(root, target, home, keys, 0, index, index, [], working)
  {
    hide Own, FolderIn;
  }

  /** A key whose message went before. */
  lemma StillPassed(root: string, target: string, home: string, keys: seq<string>, i: nat, start: map<string, Object>,
                    index0: map<string, Message>, objects: map<string, Object>, index: map<string, Message>,
                    out: seq<MoveResult>, working: bool)
    requires Passed(root, target, home, keys, i, index0, index, out, working)
    requires Led(root, target, home, start, index0, objects, index, out)
    requires i < |keys| && Own(root, keys[i]) && keys[i] !in index
    ensures Passed(root, target, home, keys, i + 1, index0, index, out, working)
  {
    hide Own, FolderIn, Led, Reached, OnlyThose;
    if keys[i] in index0 {
      GoneReached(root, target, home, start, index0, objects, index, out, keys[i]);
    }
  }

  /** A message that is not where it was is in the folder. */
  lemma GoneReached(root: string, target: string, home: string, start: map<string, Object>, index0: map<string, Message>,
                    objects: map<string, Object>, index: map<string, Message>, out: seq<MoveResult>, k: string)
    requires Led(root, target, home, start, index0, objects, index, out) && k in index0
    requires k !in index || Final(out, k) != k
    ensures Reached(root, target, home, index, out, k)
  {
    hide FolderIn, Final, CopiedTo, NotMoved;
    assert Arrived(root, target, home, start, index0, objects, index, k, Final(out, k));
  }

  lemma SkipPassed(root: string, target: string, home: string, keys: seq<string>, i: nat, index0: map<string, Message>,
                   index: map<string, Message>, out: seq<MoveResult>, r: MoveResult, working: bool)
    requires Passed(root, target, home, keys, i, index0, index, out, working) && !Went(r)
    requires i < |keys| && Own(root, keys[i]) && FolderIn(root, keys[i]) == target
    ensures Passed(root, target, home, keys, i + 1, index0, index, out + [r], working)
  {
    hide Own, FolderIn, Final, Went, OnlyThose;
    OnlyMore(root, target, keys, out, r);
    forall k ensures Final(out + [r], k) == Final(out, k) {
      FinalNext(out, r, k);
    }
  }

  lemma NotMovedNext(out: seq<MoveResult>, r: MoveResult, k: string)
    ensures NotMoved(out + [r], k) <==> NotMoved(out, k) && !(Went(r) && r.key == k)
  {
    assert (out + [r])[|out|] == r;
    if NotMoved(out + [r], k) {
      forall q | q in out && Went(q) ensures q.key != k {
        assert q in out + [r];
      }
    }
  }

  lemma {:induction false} FinalStays(out: seq<MoveResult>, k: string)
    requires NotMoved(out, k)
    ensures Final(out, k) == k
  {
    if out != [] {
      var front, r := out[..|out| - 1], out[|out| - 1];
      assert out == front + [r];
      NotMovedNext(front, r, k);
      FinalStays(front, k);
    }
  }

  lemma OnlyMore(root: string, target: string, keys: seq<string>, out: seq<MoveResult>, r: MoveResult)
    requires OnlyThose(root, target, keys, out) && (Went(r) ==> r.key in keys && FolderIn(root, r.key) != target)
    ensures OnlyThose(root, target, keys, out + [r])
  {
    hide FolderIn;
  }

  lemma ReachedOn(root: string, target: string, home: string, was: map<string, Object>, before: map<string, Message>,
                  objects: map<string, Object>, index: map<string, Message>, out: seq<MoveResult>, r: MoveResult, k: string)
    requires Shifts(root, target, home, was, before, objects, index, r)
    requires Reached(root, target, home, before, out, k) || (Went(r) && Final(out, k) == r.key)
    ensures Reached(root, target, home, index, out + [r], k)
  {
    hide FolderIn, Final;
    FinalNext(out, r, k);
  }

  lemma PassedOn(root: string, target: string, home: string, keys: seq<string>, i: nat, start: map<string, Object>,
                 index0: map<string, Message>, was: map<string, Object>, before: map<string, Message>,
                 objects: map<string, Object>, index: map<string, Message>, out: seq<MoveResult>, r: MoveResult,
                 working: bool)
    requires Passed(root, target, home, keys, i, index0, before, out, working)
    requires Led(root, target, home, start, index0, was, before, out)
    requires Shifts(root, target, home, was, before, objects, index, r)
    requires i < |keys| && Own(root, keys[i]) && r.key == keys[i] && FolderIn(root, r.key) != target
    requires !r.skipped && (working ==> !r.failed)
    ensures Passed(root, target, home, keys, i + 1, index0, index, out + [r], working)
  {
    hide Own, FolderIn, Final, Shifts, Led, Reached;
    OnlyMore(root, target, keys, out, r);
    if working {
      forall j | 0 <= j < i + 1 && keys[j] in index0 && FolderIn(root, keys[j]) != target
        ensures Reached(root, target, home, index, out + [r], keys[j])
      {
        if j == i && Final(out, keys[i]) != keys[i] {
          GoneReached(root, target, home, start, index0, was, before, out, keys[i]);
        }
        ReachedOn(root, target, home, was, before, objects, index, out, r, keys[j]);
      }
    }
  }

  lemma ProgressStarts(root: string, target: string, home: string, keys: seq<string>, objects: map<string, Object>,
                       index: map<string, Message>, working: bool)
    requires Agrees(root, index, objects)
    ensures Progress(root, target, home, keys, 0, objects, index, objects, index, [], working)
  {
    hide Agrees, FoldersAgree, Led;
    NoneReported(root, target, keys, index, working, home == target);
    NoneLed(root, target, home, objects, index);
    NonePassed(root, target, home, keys, index, working);
  }

  lemma ProgressStays(root: string, target: string, home: string, keys: seq<string>, i: nat, start: map<string, Object>,
                      index0: map<string, Message>, objects: map<string, Object>, index: map<string, Message>,
                      out: seq<MoveResult>, working: bool)
    requires Progress(root, target, home, keys, i, start, index0, objects, index, out, working)
    requires i < |keys| && keys[i] !in index && Own(root, keys[i])
    ensures Progress(root, target, home, keys, i + 1, start, index0, objects, index, out, working)
  {
    hide Follows, FoldersAgree, NoneMoved, Led, Reports, Passed, Own;
    StillPassed(root, target, home, keys, i, start, index0, objects, index, out, working);
    StillReports(root, target, keys, i, index0, index, out, working, home == target);
  }

  lemma ProgressSkips(root: string, target: string, home: string, keys: seq<string>, i: nat, start: map<string, Object>,
                      index0: map<string, Message>, objects: map<string, Object>, index: map<string, Message>,
                      out: seq<MoveResult>, r: MoveResult, working: bool)
    requires Progress(root, target, home, keys, i, start, index0, objects, index, out, working)
    requires i < |keys| && r == MoveResult(keys[i], keys[i], true, false) && FolderIn(root, keys[i]) == target
    requires Own(root, keys[i])
    ensures Progress(root, target, home, keys, i + 1, start, index0, objects, index, out + [r], working)
  {
    hide Follows, FoldersAgree, Led, Reports, FolderIn, Passed, Own;
    SkipPassed(root, target, home, keys, i, index0, index, out, r, working);
    ReportsMore(root, target, keys, i, index0, index, index, out, r, working, home == target);
    StillFollows(index0, index, keys, out, r);
    StillLed(root, target, home, start, index0, objects, index, out, r);
  }

  lemma ProgressOn(root: string, target: string, home: string, keys: seq<string>, i: nat, start: map<string, Object>,
                   index0: map<string, Message>, was: map<string, Object>, before: map<string, Message>,
                   objects: map<string, Object>, index: map<string, Message>, out: seq<MoveResult>, r: MoveResult,
                   working: bool)
    requires Progress(root, target, home, keys, i, start, index0, was, before, out, working)
    requires i < |keys| && r.key == keys[i] && !r.skipped && (working ==> !r.failed)
    requires Own(root, r.key) && FolderIn(root, r.key) != target
    requires Shifts(root, target, home, was, before, objects, index, r)
    ensures Progress(root, target, home, keys, i + 1, start, index0, objects, index, out + [r], working)
  {
    hide *;
    ShiftSays(root, target, home, was, before, objects, index, r);
    ProgressSplit(root, target, home, keys, i, start, index0, was, before, out, working);
    ReportsMore(root, target, keys, i, index0, before, index, out, r, working, home == target);
    IndexFollows(root, index0, before, index, target, keys, out, r, home == target);
    LedOn(root, target, home, start, index0, was, before, objects, index, out, r);
    PassedOn(root, target, home, keys, i, start, index0, was, before, objects, index, out, r, working);
    ProgressMade(root, target, home, keys, i + 1, start, index0, objects, index, out + [r], working);
  }

  lemma ShiftSays(root: string, target: string, home: string, was: map<string, Object>, before: map<string, Message>,
                  objects: map<string, Object>, index: map<string, Message>, r: MoveResult)
    requires Shifts(root, target, home, was, before, objects, index, r) && !r.skipped
    ensures r.failed ==> index == before
    ensures !r.failed ==>
      r.newKey != r.key && r.newKey in index && index[r.newKey].folder == target && index == (before - {r.key})[r.newKey := index[r.newKey]]
      && FolderIn(root, r.newKey) == home
  {
    hide FolderIn;
  }

  lemma ProgressSplit(root: string, target: string, home: string, keys: seq<string>, i: nat, start: map<string, Object>,
                      index0: map<string, Message>, objects: map<string, Object>, index: map<string, Message>,
                      out: seq<MoveResult>, working: bool)
    requires Progress(root, target, home, keys, i, start, index0, objects, index, out, working)
    ensures Follows(index0, index, keys, out) && Led(root, target, home, start, index0, objects, index, out)
    ensures FoldersAgree(root, index0) ==> (FoldersAgree(root, index) <==> home == target || NoneMoved(out))
    ensures Reports(root, target, keys, i, index0, index, out, working, home == target)
    ensures Passed(root, target, home, keys, i, index0, index, out, working)
  {
    hide Follows, FoldersAgree, NoneMoved, Reports, Led, Passed;
  }

  lemma ProgressMade(root: string, target: string, home: string, keys: seq<string>, i: nat, start: map<string, Object>,
                     index0: map<string, Message>, objects: map<string, Object>, index: map<string, Message>,
                     out: seq<MoveResult>, working: bool)
    requires Follows(index0, index, keys, out) && Led(root, target, home, start, index0, objects, index, out)
    requires FoldersAgree(root, index0) ==> (FoldersAgree(root, index) <==> home == target || NoneMoved(out))
    requires Reports(root, target, keys, i, index0, index, out, working, home == target)
    requires Passed(root, target, home, keys, i, index0, index, out, working)
    ensures Progress(root, target, home, keys, i, start, index0, objects, index, out, working)
  {
    hide Follows, FoldersAgree, NoneMoved, Reports, Led, Passed;
  }

  /** All keys are the mailbox's own, and if every call went through, all are in the folder. */
  ghost predicate AllPassed(root: string, target: string, home: string, keys: seq<string>, index0: map<string, Message>,
                            index: map<string, Message>, out: seq<MoveResult>, working: bool) {
    && (forall k :: k in keys ==> Own(root, k))
    && (working ==> forall k :: k in keys && k in index0 && FolderIn(root, k) != target ==>
          Reached(root, target, home, index, out, k))
  }

  lemma PassedSays(root: string, target: string, home: string, keys: seq<string>, i: nat, index0: map<string, Message>,
                   index: map<string, Message>, out: seq<MoveResult>, working: bool)
    requires Passed(root, target, home, keys, i, index0, index, out, working)
    ensures |out| <= |keys| && OnlyThose(root, target, keys, out)
    ensures i == |keys| ==> AllPassed(root, target, home, keys, index0, index, out, working)
  {
    hide Own, FolderIn, Final, Reached, OnlyThose;
  }

  lemma ProgressSays(root: string, target: string, home: string, keys: seq<string>, i: nat, start: map<string, Object>,
                     index0: map<string, Message>, objects: map<string, Object>, index: map<string, Message>,
                     out: seq<MoveResult>, working: bool)
    requires Progress(root, target, home, keys, i, start, index0, objects, index, out, working)
    ensures Follows(index0, index, keys, out) && Led(root, target, home, start, index0, objects, index, out)
    ensures FoldersAgree(root, index0) ==> (FoldersAgree(root, index) <==> home == target || NoneMoved(out))
    ensures working ==> forall r :: r in out ==> !r.failed
    ensures i == |keys| ==> forall k :: k in keys && k in index0 ==> Reported(out, k)
    ensures i == |keys| && working && home == target ==>
      forall k :: k in keys && k in index0 ==> k !in index || FolderIn(root, k) == target
    ensures |out| <= |keys| && OnlyThose(root, target, keys, out)
    ensures i == |keys| ==> AllPassed(root, target, home, keys, index0, index, out, working)
  {
    hide *;
    ProgressSplit(root, target, home, keys, i, start, index0, objects, index, out, working);
    NoFailure(root, target, keys, i, index0, index, out, working, home == target);
    PassedSays(root, target, home, keys, i, index0, index, out, working);
    if i == |keys| {
      AllReported(root, target, keys, index0, index, out, working, home == target);
    }
  }

  /** One more result, and the index as it is then. */
  lemma IndexFollows(root: string, index0: map<string, Message>, was: map<string, Message>, index: map<string, Message>,
                     target: string, keys: seq<string>, out: seq<MoveResult>, r: MoveResult, steady: bool)
    requires Follows(index0, was, keys, out) && r.key in keys && !r.skipped
    requires r.failed ==> index == was
    requires !r.failed ==>
      && r.newKey in index && index[r.newKey].folder == target && index == (was - {r.key})[r.newKey := index[r.newKey]]
      && (steady <==> FolderIn(root, r.newKey) == target)
    ensures Follows(index0, index, keys, out + [r])
    ensures (FoldersAgree(root, was) <==> steady || NoneMoved(out)) ==>
      (FoldersAgree(root, index) <==> steady || NoneMoved(out + [r]))
  {
    hide Follows, FoldersAgree, NoneMoved, FolderIn;
    if r.failed {
      StillFollows(index0, index, keys, out, r);
    } else {
      FollowsNext(index0, was, index, keys, out, r);
      FolderNext(root, was, index, target, r.key, r.newKey);
    }
  }

  /** Which entry a message has after a move gave the moved one a new base name. */
  function Renaming(d: Doc, mid: string, newMid: string): Doc {
    if newMid == mid then d else ApplyOp(d, Rekey(mid, newMid))
  }

  /**
    Entries go by base name alone, and the new name is only known to be free in the target folder.  All
    other messages keep their entries if and only if the name did not change, the moved message has no
    entry, no other message has the new name, or its entry is the same anyway.
    */
  lemma MoveSparesWhen(root: string, index: map<string, Message>, objects: map<string, Object>, d: Doc, key: string,
                       newMid: string)
    requires Agrees(root, index, objects) && key in index
    ensures (forall k :: k in index && k != key && Mid(k) != Mid(key) ==>
               Get(Renaming(d, Mid(key), newMid).messages, Mid(k)) == Get(d.messages, Mid(k)))
        <==> newMid == Mid(key) || Mid(key) !in d.messages || Get(d.messages, newMid) == d.messages[Mid(key)]
             || !NameInUse(index, key, newMid)
  {
    var mid := Mid(key);
    if newMid != mid {
      RekeyGives(d, mid, newMid);
      hide ApplyOp, Own, Mid;
      if NameInUse(index, key, newMid) {
        var k :| k in index && k != key && Mid(k) == newMid;
        assert Get(Renaming(d, mid, newMid).messages, Mid(k)) == if mid in d.messages then d.messages[mid] else Get(d.messages, newMid);
      }
    }
  }

  ghost predicate NameInUse(index: map<string, Message>, key: string, mid: string) {
    exists k :: k in index && k != key && Mid(k) == mid
  }

  lemma RekeyGives(d: Doc, was: string, now: string)
    ensures var d' := ApplyOp(d, Rekey(was, now));
      forall m :: Get(d'.messages, m) == if m == now && was in d.messages then d.messages[was] else Get(d.messages, m)
  {
  }

  function Stub(key: string, mid: string, folder: string): Message {
    Message(key, mid, folder, "", "")
  }

  /** An object and an entry for the key. */
  function Objects3(a: string, b: string, c: string): map<string, Object> {
    map[a := Object("", "1"), b := Object("", "2"), c := Object("", "3")]
  }

  function Index3(a: Message, b: Message, c: Message): map<string, Message> {
    map[a.key := a, b.key := b, c.key := c]
  }

  /** The mailbox of the example: the name in the folders a and b, its first variant in c. */
  lemma ThreeAgree(a: Message, b: Message, c: Message)
    requires forall m :: m in {a, b, c} ==> Own("", m.key) && Mid(m.key) == m.mid != ""
    ensures Agrees("", Index3(a, b, c), Objects3(a.key, b.key, c.key))
  {
    hide Own, Mid;
  }

  lemma Placed(folder: string, mid: string)
    requires FolderName(folder) && folder != "" && MailName(mid) && mid != ""
    ensures var key := KeyIn("", mid, folder); Own("", key) && Mid(key) == mid && FolderIn("", key) == folder
  {
    KeyInReads("", mid, folder);
    NameOwn("", mid, folder);
  }

  /** The three messages, and the key the first will move to. */
  ghost predicate Arranged(x: Message, y: Message, z: Message, mid: string, variant: string, a: string, b: string, c: string) {
    && x == Stub(KeyIn("", mid, a), mid, a) && y == Stub(KeyIn("", mid, b), mid, b)
    && z == Stub(KeyIn("", variant, c), variant, c)
    && x.key != y.key && z.key != x.key && z.key != y.key && KeyIn("", variant, b) !in {x.key, y.key, z.key}
    && Agrees("", Index3(x, y, z), Objects3(x.key, y.key, z.key))
    && Mid(x.key) == mid && FolderIn("", x.key) == a
  }

  lemma OtherName(mid: string)
    ensures Candidate(mid, 1) != mid
  {
    hide Candidate;
    FirstCandidate(mid);
    if Candidate(mid, 1) == Candidate(mid, 0) {
      CandidatesDiffer(mid, 1, 0);
    }
  }

  lemma Arrange(mid: string, a: string, b: string, c: string)
    requires b !in {"", a, c} && FolderName(a) && FolderName(b) && FolderName(c) && a != "" && c != ""
    requires MailName(mid) && mid != ""
    ensures var variant := Candidate(mid, 1);
      && variant != mid
      && Arranged(Stub(KeyIn("", mid, a), mid, a), Stub(KeyIn("", mid, b), mid, b),
                  Stub(KeyIn("", variant, c), variant, c), mid, variant, a, b, c)
  {
    hide Candidate, KeyIn, Own, Mid, FolderIn, Agrees, MailName, FolderName;
    var variant := Candidate(mid, 1);
    CandidateMail(mid, 1);
    OtherName(mid);
    Placed(a, mid);
    Placed(b, mid);
    Placed(b, variant);
    Placed(c, variant);
    ThreeAgree(Stub(KeyIn("", mid, a), mid, a), Stub(KeyIn("", mid, b), mid, b), Stub(KeyIn("", variant, c), variant, c));
  }

  /**
    A name lies in the folders a and b, and its first variant in c.  Moving it from a to b renames it to the
    variant, and the message in c, which nobody touched, loses its entry to it.
    */
  method ThirdFolder(a: string, b: string, c: string, mid: string, classes: Classes, state: Doc)
    returns (m: Mailbox, r: MoveResult)
    requires Sensible(classes) && ValidFolder(b, classes) == Some(b) && b !in {"", a, c}
    requires FolderName(a) && FolderName(b) && FolderName(c) && a != "" && c != ""
    requires MailName(mid) && mid != "" && mid in state.messages
    ensures fresh(m) && m.working
    ensures var variant := Candidate(mid, 1); var third := KeyIn("", variant, c);
      && r == MoveResult(KeyIn("", mid, a), KeyIn("", variant, b), false, false)
      && third in m.index && m.index[third] == Stub(third, variant, c)
      && m.state == ApplyOp(state, Rekey(mid, variant)) && Get(m.state.messages, variant) == state.messages[mid]
  {
    hide ApplyOp, Candidate, KeyIn, Own, Mid, FolderIn, ValidFolder, Agrees, MailName, FolderName, Sensible;
    var variant := Candidate(mid, 1);
    var x, y, z := Stub(KeyIn("", mid, a), mid, a), Stub(KeyIn("", mid, b), mid, b), Stub(KeyIn("", variant, c), variant, c);
    Arrange(mid, a, b, c);
    RekeyGives(state, mid, variant);
    m := WithMessages(classes, Objects3(x.key, y.key, z.key), Index3(x, y, z), state);
    r := MoveFirst(m, x.key, b, mid, {x.key, y.key, z.key});
  }

  method WithMessages(classes: Classes, objects: map<string, Object>, index: map<string, Message>, state: Doc)
    returns (m: Mailbox)
    requires Sensible(classes)
    ensures fresh(m) && m.working && m.root == "" && m.classes == classes
    ensures m.objects == objects && m.index == index && m.state == state
  {
    m := new Mailbox("", true, classes, s => s, (rule, msg) => false);
    m.objects, m.index, m.state := objects, index, state;
  }

  /** Moves the first of them on its way. */
  method MoveFirst(m: Mailbox, from: string, b: string, mid: string, ghost taken: set<string>) returns (r: MoveResult)
    requires m.working && m.root == "" && Agrees("", m.index, m.objects) && ValidFolder(b, m.classes) == Some(b) != Some("")
    requires FolderName(b) && from in m.index && FolderIn("", from) != b && Mid(from) == mid && m.index.Keys == taken
    requires KeyIn("", mid, b) in taken && KeyIn("", Candidate(mid, 1), b) !in taken && Candidate(mid, 1) != mid
    modifies m
    ensures r == MoveResult(from, KeyIn("", Candidate(mid, 1), b), false, false)
    ensures m.state == ApplyOp(old(m.state), Rekey(mid, Candidate(mid, 1)))
    ensures forall k :: k in old(m.index) && k != from && k != r.newKey ==> k in m.index && m.index[k] == old(m.index)[k]
  {
    hide *;
    assert IsRoot("") by { NoRoot(); }
    r := m.MoveOne(from, b, [from], map[], map[], [], false);
    NewKey(taken, mid, b, r.newKey);
  }

  lemma NoRoot()
    ensures IsRoot("")
  {
  }

  lemma NewKey(taken: set<string>, mid: string, b: string, key: string)
    requires FirstFree("", taken, mid, b, Mid(key)) && FolderIn("", key) == b != ""
    requires KeyIn("", mid, b) in taken && KeyIn("", Candidate(mid, 1), b) !in taken
    ensures Mid(key) == Candidate(mid, 1) && key == KeyIn("", Candidate(mid, 1), b)
  {
    hide Candidate, KeyIn, Mid, FolderIn, FirstFree;
    SecondCandidate("", taken, mid, b, Mid(key));
    KeyInFolder(key, b);
  }

  lemma KeyInFolder(key: string, folder: string)
    requires folder != "" && FolderIn("", key) == folder
    ensures key == KeyIn("", Mid(key), folder)
  {
    KeyInWrites("", key);
    assert key[0..] == key;
  }

  lemma CopyAgrees(root: string, was: map<string, Object>, index: map<string, Message>, newKey: string,
                   objects: map<string, Object>)
    requires Agrees(root, index, was) && newKey in objects && objects == was[newKey := objects[newKey]]
    ensures Agrees(root, index, objects)
  {
  }

  lemma DeleteAgrees(root: string, copied: map<string, Object>, index: map<string, Message>, key: string, newKey: string,
                     moved: Message)
    requires Agrees(root, index, copied) && newKey in copied && newKey != key
    requires Own(root, newKey) && Mid(newKey) != ""
    requires moved.key == newKey && moved.mid == Mid(newKey)
    ensures Agrees(root, (index - {key})[newKey := moved], copied - {key})
  {
    hide Own, Mid, FolderIn;
  }

  lemma MoveStarts(root: string, target: string, keys: seq<string>, objects: map<string, Object>, index: map<string, Message>)
    requires Agrees(root, index, objects)
    ensures MoveKeeps(root, target, keys, objects, index, objects, index, [])
    ensures Streak([]) == 0 && Retirements(root, []) == map[] && BodiesKept(root, objects, objects)
    ensures Follows(index, index, keys, []) && NoneMoved([])
  {
  }

  lemma ConservedGrows(before: map<string, Object>, objects: map<string, Object>, index: map<string, Message>,
                       out: seq<MoveResult>, r: MoveResult, k: string)
    requires k in before && Conserved(before, objects, index, out, k)
    ensures Conserved(before, objects, index, out + [r], k)
  {
    if q :| q in out && q.key == k && MovedTo(q, objects, index, before[k].body) {
      assert q in out + [r];
    }
  }

  /** One more result, and nothing done. */
  lemma Skips(root: string, target: string, keys: seq<string>, before: map<string, Object>, index0: map<string, Message>,
              objects: map<string, Object>, index: map<string, Message>, out: seq<MoveResult>, r: MoveResult)
    requires MoveKeeps(root, target, keys, before, index0, objects, index, out)
    requires (r.skipped || r.failed || FolderIn(root, r.newKey) == target) && r.key in keys
    ensures MoveKeeps(root, target, keys, before, index0, objects, index, out + [r])
  {
    hide Conserved, Agrees, FolderIn, NotMail;
    forall k | k in before && before[k].body != "" ensures Conserved(before, objects, index, out + [r], k) {
      ConservedGrows(before, objects, index, out, r, k);
    }
    forall k | k in objects && k !in before ensures exists q :: q in out + [r] && q.newKey == k {
      var q :| q in out && q.newKey == k;
      assert q in out + [r];
    }
    forall k | k in index && k !in index0 ensures exists q :: q in out + [r] && q.newKey == k && !q.skipped && !q.failed {
      var q :| q in out && q.newKey == k && !q.skipped && !q.failed;
      assert q in out + [r];
    }
  }

  /** A new key in the target folder is mail. */
  lemma NewKeyIsOwn(root: string, target: string, objects: map<string, Object>, index: map<string, Message>, key: string,
                    newKey: string, newMid: string, n: nat)
    requires IsRoot(root) && FolderName(target) && key in index && Agrees(root, index, objects)
    requires newMid == Candidate(Mid(key), n) && newKey == KeyIn(root, newMid, target)
    ensures Own(root, newKey) && Mid(newKey) == newMid && newMid != "" && FolderIn(root, newKey) == target
  {
    hide KeyIn, Candidate, Mid, FolderIn, Own, MailName;
    OwnMailName(root, key);
    CandidateMail(Mid(key), n);
    NameOwn(root, newMid, target);
    NamesAreFlat(newMid, target);
    KeyInReads(root, newMid, target);
  }

  /** It is no message's: neither in the index, nor, unless an empty object lies there, in the bucket. */
  lemma NewKeyIsFree(root: string, target: string, keys: seq<string>, before: map<string, Object>,
                     index0: map<string, Message>, objects: map<string, Object>, index: map<string, Message>,
                     out: seq<MoveResult>, newKey: string)
    requires CoversMail(root, index0, before)
    requires MoveKeeps(root, target, keys, before, index0, objects, index, out)
    requires newKey !in index && !NotMail(root, newKey) && FolderIn(root, newKey) == target
    ensures newKey in before ==> !Matters(root, newKey, before[newKey])
  {
    hide Conserved, Mid, FolderIn, Own, NotMail;
  }

  lemma NamesAreFlat(mid: string, folder: string)
    requires MailName(mid) && FolderName(folder)
    ensures Flat(mid) && Flat(folder)
  {
  }

  lemma StillCovers(root: string, index: map<string, Message>, was: map<string, Object>, key: string, newKey: string,
                    objects: map<string, Object>, moved: Message)
    requires newKey in objects && objects == was[newKey := objects[newKey]] - {key}
    ensures CoversMail(root, index, was) ==> CoversMail(root, (index - {key})[newKey := moved], objects)
  {
  }

  lemma MailNamesIn(root: string, target: string, objects: map<string, Object>, index: map<string, Message>, key: string)
    requires IsRoot(root) && FolderName(target) && key in index && Agrees(root, index, objects)
    ensures Flat(Mid(key)) && Flat(target) && key in objects
  {
    hide Mid, Own, IsRoot, MailName;
    OwnMailName(root, key);
    NamesAreFlat(Mid(key), target);
  }

  lemma CopyConserves(before: map<string, Object>, objects: map<string, Object>, index: map<string, Message>,
                      out: seq<MoveResult>, newKey: string, copied: map<string, Object>, k: string)
    requires k in before && Conserved(before, objects, index, out, k) && newKey !in index && newKey != k
    requires newKey in copied && copied == objects[newKey := copied[newKey]]
    ensures Conserved(before, copied, index, out, k)
  {
    if q :| q in out && q.key == k && MovedTo(q, objects, index, before[k].body) {
      assert MovedTo(q, copied, index, before[k].body);
    }
  }

  /** The copy lies at a free key, so it overwrites nothing that matters. */
  lemma Copied(root: string, target: string, keys: seq<string>, before: map<string, Object>, index0: map<string, Message>,
               objects: map<string, Object>, index: map<string, Message>, out: seq<MoveResult>, r: MoveResult,
               copied: map<string, Object>)
    requires MoveKeeps(root, target, keys, before, index0, objects, index, out)
    requires r.newKey !in index && FolderIn(root, r.newKey) == target
    requires r.newKey in before ==> !Matters(root, r.newKey, before[r.newKey])
    requires r.newKey in copied && copied == objects[r.newKey := copied[r.newKey]] && r.key in keys
    ensures MoveKeeps(root, target, keys, before, index0, copied, index, out + [r])
  {
    hide FolderIn, Own, Mid, Conserved, NotMail;
    Skips(root, target, keys, before, index0, objects, index, out, r);
    forall k | k in before && before[k].body != "" ensures Conserved(before, copied, index, out + [r], k) {
      CopyConserves(before, objects, index, out + [r], r.newKey, copied, k);
    }
    assert (out + [r])[|out|] == r;
    assert r in out + [r];
  }

  lemma DeleteConserves(root: string, target: string, before: map<string, Object>, copied: map<string, Object>,
                        index: map<string, Message>, out: seq<MoveResult>, r: MoveResult, moved: Message, k: string)
    requires k in before && before[k].body != "" && Conserved(before, copied, index, out, k)
    requires r in out && r.newKey in copied && !r.skipped && !r.failed && FolderIn(root, r.key) != target
    requires r.key in before && before[r.key].body != "" ==> copied[r.newKey].body == before[r.key].body
    requires forall q :: q in out && !q.skipped && !q.failed ==> FolderIn(root, q.newKey) == target
    ensures Conserved(before, copied - {r.key}, (index - {r.key})[r.newKey := moved], out, k)
  {
    hide FolderIn;
    var objects, index' := copied - {r.key}, (index - {r.key})[r.newKey := moved];
    assert FolderIn(root, r.newKey) == target;
    if k == r.key {
      assert MovedTo(r, objects, index', before[k].body);
    } else if q :| q in out && q.key == k && MovedTo(q, copied, index, before[k].body) {
      assert q.newKey != r.key;
      assert MovedTo(q, objects, index', before[k].body);
    }
  }

  /** Deleting the source leaves its body at the new key, which is now in the index. */
  lemma Deleted(root: string, target: string, keys: seq<string>, before: map<string, Object>, index0: map<string, Message>,
                copied: map<string, Object>, index: map<string, Message>, out: seq<MoveResult>, r: MoveResult,
                moved: Message)
    requires MoveKeeps(root, target, keys, before, index0, copied, index, out + [r]) && Agrees(root, index0, before)
    requires r.key in keys && r.key in index && FolderIn(root, r.key) != target
    requires !r.skipped && !r.failed && r.newKey !in index && FolderIn(root, r.newKey) == target
    requires r.newKey in copied && copied[r.newKey].body == copied[r.key].body
    requires Own(root, r.newKey) && Mid(r.newKey) != ""
    requires moved.key == r.newKey && moved.mid == Mid(r.newKey) && moved.folder == target
    ensures MoveKeeps(root, target, keys, before, index0, copied - {r.key}, (index - {r.key})[r.newKey := moved], out + [r])
  {
    hide FolderIn, Own, Mid, Conserved, NotMail;
    var objects, index' := copied - {r.key}, (index - {r.key})[r.newKey := moved];
    assert r.key in index0 && r.key in before && r.key in copied;
    assert (out + [r])[|out|] == r && r in out + [r];
    forall k | k in before && before[k].body != "" ensures Conserved(before, objects, index', out + [r], k) {
      DeleteConserves(root, target, before, copied, index, out + [r], r, moved, k);
    }
  }

  // -- results -------------------------------------------------------------------------------------------

  /** The state follows the messages that got a new name. */
  function Rekeys(out: seq<MoveResult>): seq<Op> {
    if out == [] then []
    else
      var r := out[|out| - 1];
      Rekeys(out[..|out| - 1])
      + (if !r.failed && !r.skipped && Mid(r.newKey) != Mid(r.key) then [Rekey(Mid(r.key), Mid(r.newKey))] else [])
  }

  function WithName(retire: map<string, seq<string>>, folder: string, mid: string): map<string, seq<string>> {
    retire[folder := (if folder in retire then retire[folder] else []) + [mid]]
  }

  /** The names that left their folders, by folder. */
  function Retirements(root: string, out: seq<MoveResult>): map<string, seq<string>> {
    if out == [] then map[]
    else
      var r := out[|out| - 1];
      var before := Retirements(root, out[..|out| - 1]);
      if r.failed || r.skipped then before else WithName(before, FolderIn(root, r.key), Mid(r.key))
  }

  predicate NamedIn(retire: map<string, seq<string>>, folder: string, mid: string) {
    folder in retire && mid in retire[folder]
  }

  lemma NamedAfter(retire: map<string, seq<string>>, folder: string, mid: string)
    ensures NamedIn(WithName(retire, folder, mid), folder, mid)
    ensures forall f, m :: NamedIn(retire, f, m) ==> NamedIn(WithName(retire, folder, mid), f, m)
  {
    var names := (if folder in retire then retire[folder] else []) + [mid];
    assert names[|names| - 1] == mid;
  }

  lemma {:induction false} RetiredNames(root: string, out: seq<MoveResult>)
    ensures forall r :: r in out && !r.skipped && !r.failed ==>
      NamedIn(Retirements(root, out), FolderIn(root, r.key), Mid(r.key))
  {
    hide FolderIn, Mid, NamedIn, WithName;
    if out != [] {
      var last := |out| - 1;
      RetiredNames(root, out[..last]);
      assert out == out[..last] + [out[last]];
      NamedAfter(Retirements(root, out[..last]), FolderIn(root, out[last].key), Mid(out[last].key));
    }
  }

  lemma {:induction false} RetiredHere(f: Folder, mids: seq<string>, k: nat)
    requires k <= |mids|
    ensures RetireFirst(f, mids, k).uids.Keys <= f.uids.Keys
    ensures forall i :: 0 <= i < k ==> mids[i] !in RetireFirst(f, mids, k).uids
  {
    if k > 0 {
      RetiredHere(f, mids, k - 1);
    }
  }

  /** Retiring names in one folder gives none back in another. */
  lemma RetireOp(d: Doc, folder: string, mids: seq<string>)
    ensures var d' := ApplyOp(d, UidRetire(folder, mids));
      && SameButNumbers(d, d')
      && (forall mid :: mid in mids ==> NoNumber(d', folder, mid))
      && (forall other, mid :: NoNumber(d, other, mid) ==> NoNumber(d', other, mid))
  {
    RetiredHere(FolderOf(Normalized(d).uids, folder), mids, |mids|);
    StepOfUidRetire(Normalized(d), folder, mids);
    hide Step, RetireFirst;
  }

  lemma {:induction false} OthersStay(f: Folder, mids: seq<string>, k: nat)
    requires k <= |mids|
    ensures var g := RetireFirst(f, mids, k);
      forall mid :: mid in f.uids && mid !in mids[..k] ==> mid in g.uids && g.uids[mid] == f.uids[mid]
  {
    if k > 0 {
      OthersStay(f, mids, k - 1);
      assert mids[..k] == mids[..k - 1] + [mids[k - 1]];
    }
  }

  /** All other messages keep their numbers. */
  lemma RetireOthers(d: Doc, folder: string, mids: seq<string>)
    ensures var d' := ApplyOp(d, UidRetire(folder, mids));
      forall other, mid, n :: HasNumber(d, other, mid, n) && (other != folder || mid !in mids) ==>
        HasNumber(d', other, mid, n)
  {
    OthersStay(FolderOf(Normalized(d).uids, folder), mids, |mids|);
    assert mids[..|mids|] == mids;
    StepOfUidRetire(Normalized(d), folder, mids);
    hide Step, RetireFirst;
  }

  lemma {:induction false} RekeysKeepNumbers(d: Doc, out: seq<MoveResult>)
    ensures forall folder, mid, n :: HasNumber(d, folder, mid, n) ==>
      HasNumber(ApplyAll(d, Rekeys(out)), folder, mid, n)
  {
    if out == [] {
      NoRekeys(d);
    } else {
      var front, r := out[..|out| - 1], out[|out| - 1];
      assert out == front + [r];
      RekeysKeepNumbers(d, front);
      hide ApplyAll, Rekeys, Mid;
      if r.skipped {
        SkippedRekeys(front, r);
      } else {
        RekeysStep(d, front, r);
        RekeyKeepsNumbers(ApplyAll(d, Rekeys(front)), Mid(r.key), Mid(r.newKey));
      }
    }
  }

  lemma RekeyKeepsNumbers(d: Doc, was: string, now: string)
    ensures forall folder, mid, n :: HasNumber(d, folder, mid, n) ==>
      HasNumber(ApplyOp(d, Rekey(was, now)), folder, mid, n)
  {
  }

  /** No other name is retired. */
  lemma {:induction false} OnlyRetired(root: string, out: seq<MoveResult>)
    ensures forall folder, mid :: NamedIn(Retirements(root, out), folder, mid) ==> LeftFolder(root, out, folder, mid)
  {
    hide FolderIn, Mid;
    if out != [] {
      var last := |out| - 1;
      var front, r := out[..last], out[last];
      OnlyRetired(root, front);
      assert out == front + [r];
      forall folder, mid | NamedIn(Retirements(root, out), folder, mid) ensures LeftFolder(root, out, folder, mid) {
        if NamedIn(Retirements(root, front), folder, mid) {
          var q :| q in front && !q.skipped && !q.failed && FolderIn(root, q.key) == folder && Mid(q.key) == mid;
          assert q in out;
        } else {
          assert r in out;
        }
      }
    }
  }

  lemma OneMoreReport(out: seq<MoveResult>, r: MoveResult)
    ensures Reported(out + [r], r.key) && forall k :: Reported(out, k) ==> Reported(out + [r], k)
  {
    assert (out + [r])[|out|] == r;
    forall k | Reported(out, k) ensures Reported(out + [r], k) {
      var q :| q in out && q.key == k;
      assert q in out + [r];
    }
  }

  lemma ApplyOneMore(d: Doc, ops: seq<Op>, op: Op)
    ensures ApplyAll(d, ops + [op]) == ApplyOp(ApplyAll(d, ops), op)
  {
    hide ApplyOp;
    assert (ops + [op])[..|ops|] == ops;
  }

  lemma NoRekeys(d: Doc)
    ensures d == ApplyAll(d, Rekeys([]))
  {
  }

  lemma RekeysSkip(root: string, out: seq<MoveResult>, r: MoveResult)
    requires r.skipped && !r.failed
    ensures Rekeys(out + [r]) == Rekeys(out) && Streak(out + [r]) == Streak(out)
    ensures Retirements(root, out + [r]) == Retirements(root, out)
  {
    assert (out + [r])[..|out|] == out;
    assert Rekeys(out) + [] == Rekeys(out);
  }

  lemma OneMoreResult(root: string, out: seq<MoveResult>, r: MoveResult)
    requires !r.skipped
    ensures Streak(out + [r]) == if r.failed then Streak(out) + 1 else 0
    ensures Retirements(root, out + [r])
         == if r.failed then Retirements(root, out) else WithName(Retirements(root, out), FolderIn(root, r.key), Mid(r.key))
  {
    hide FolderIn, Mid, WithName;
    assert (out + [r])[..|out|] == out;
  }

  lemma RekeysStep(d: Doc, out: seq<MoveResult>, r: MoveResult)
    requires !r.skipped
    ensures ApplyAll(d, Rekeys(out + [r]))
         == if !r.failed && Mid(r.newKey) != Mid(r.key)
            then ApplyOp(ApplyAll(d, Rekeys(out)), Rekey(Mid(r.key), Mid(r.newKey))) else ApplyAll(d, Rekeys(out))
  {
    hide ApplyOp, Mid;
    assert (out + [r])[..|out|] == out;
    assert Rekeys(out) + [] == Rekeys(out);
    if !r.failed && Mid(r.newKey) != Mid(r.key) {
      var ops := Rekeys(out) + [Rekey(Mid(r.key), Mid(r.newKey))];
      assert ops[..|ops| - 1] == Rekeys(out);
    }
  }
}
