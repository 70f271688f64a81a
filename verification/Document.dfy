/** The shared document - flags, tags, rules, numbering - and what one op does to it. */
module Document {
  import opened Options
  import opened Numbering

  datatype Rule = Rule(name: string, field: string, contains: string, folder: Option<string>,
                       tags: seq<string>, star: bool, read: bool, enabled: bool)

  datatype Filter = Filter(name: string, query: string)

  datatype Entry = Entry(read: bool, star: bool, tags: seq<string>, ruled: bool)

  const BLANK := Entry(false, false, [], false)

  datatype Doc = Doc(messages: map<string, Entry>, tags: map<string, string>, rules: seq<Rule>,
                     filters: seq<Filter>, uids: map<string, Folder>)

  const EMPTY := Doc(map[], map[], [], [], map[])

  /** A single change. A flag that is None is left as it is. */
  datatype Op =
    | Flags(mids: seq<string>, read: Option<bool>, star: Option<bool>)
    | Retag(mids: seq<string>, add: seq<string>, remove: seq<string>)
    | Ruled(mids: seq<string>)
    | Drop(mids: seq<string>)
    | Uid(folder: string, mids: seq<string>, nums: seq<Number>)
    | UidRetire(folder: string, mids: seq<string>)
    | Rekey(was: string, now: string)
    | TagDel(name: string)
    | TagRen(was: string, now: string, color: string)
    | SetRules(rules: seq<Rule>)
    | SetFilters(filters: seq<Filter>)
    | Unknown

  // -- the parts of an op -------------------------------------------------------------------

  /** A tag gets its colour by how many tags there were before it. */
  function TagColor(n: nat): string {
    ["#4c8dff", "#38b48b", "#e0a33e", "#d9534f", "#a06ee1", "#3ea8c4", "#e07a5f", "#7f9c3a"][n % 8]
  }

  function Get(messages: map<string, Entry>, mid: string): Entry {
    if mid in messages then messages[mid] else BLANK
  }

  function Flagged(e: Entry, read: Option<bool>, star: Option<bool>): Entry {
    e.(read := if read.Some? then read.value else e.read, star := if star.Some? then star.value else e.star)
  }

  function FlaggedAll(messages: map<string, Entry>, mids: seq<string>, read: Option<bool>,
                      star: Option<bool>): map<string, Entry> {
    map mid | mid in messages.Keys + SetOf(mids) ::
      if mid in mids then Flagged(Get(messages, mid), read, star) else messages[mid]
  }

  function RuledAll(messages: map<string, Entry>, mids: seq<string>): map<string, Entry> {
    map mid | mid in messages.Keys + SetOf(mids) ::
      if mid in mids then Get(messages, mid).(ruled := true) else messages[mid]
  }

  function SetOf(mids: seq<string>): set<string> {
    set i | 0 <= i < |mids| :: mids[i]
  }

  /** Registers the first k tags; a tag that is known keeps its colour. */
  function Registered(tags: map<string, string>, add: seq<string>, k: nat): map<string, string>
    requires k <= |add|
  {
    if k == 0 then tags
    else
      var before := Registered(tags, add, k - 1);
      if add[k - 1] in before then before else before[add[k - 1] := TagColor(|before|)]
  }

  function Without(tags: seq<string>, gone: seq<string>): seq<string> {
    if tags == [] then []
    else
      var last := tags[|tags| - 1];
      Without(tags[..|tags| - 1], gone) + (if last in gone then [] else [last])
  }

  /** Appends the first k tags that are not there yet. */
  function Appended(tags: seq<string>, add: seq<string>, k: nat): seq<string>
    requires k <= |add|
  {
    if k == 0 then tags
    else
      var before := Appended(tags, add, k - 1);
      if add[k - 1] in before then before else before + [add[k - 1]]
  }

  function Retagged(e: Entry, add: seq<string>, remove: seq<string>): Entry {
    e.(tags := Appended(Without(e.tags, remove), add, |add|))
  }

  /** The tags of the first k messages are changed, one after the other. */
  function RetaggedFirst(messages: map<string, Entry>, mids: seq<string>, k: nat, add: seq<string>,
                         remove: seq<string>): map<string, Entry>
    requires k <= |mids|
  {
    if k == 0 then messages
    else
      var before := RetaggedFirst(messages, mids, k - 1, add, remove);
      before[mids[k - 1] := Retagged(Get(before, mids[k - 1]), add, remove)]
  }

  function Renamed(tags: seq<string>, was: string, now: string): (r: seq<string>)
    ensures |r| == |tags|
  {
    seq(|tags|, i requires 0 <= i < |tags| => if tags[i] == was then now else tags[i])
  }

  function ColorOr(tags: map<string, string>, tag: string, color: string): string {
    if color != "" then color else if tag in tags then tags[tag] else TagColor(|tags|)
  }

  /** The registered tags after a rename. */
  function RenamedTags(tags: map<string, string>, was: string, now: string, color: string): map<string, string> {
    if was != now then
      if was in tags then (tags - {was})[now := if color != "" then color else tags[was]]
      else tags[now := ColorOr(tags, now, color)]
    else if now !in tags || color != "" then tags[now := ColorOr(tags, now, color)]
    else tags
  }

  /** The numbering of a folder, new or as it is. */
  function FolderOf(uids: map<string, Folder>, name: string): Folder {
    if name in uids then Normal(uids[name]) else FRESH
  }

  function Normalized(d: Doc): Doc {
    d.(uids := map name | name in d.uids :: Normal(d.uids[name]))
  }

  // -- one op ----------------------------------------------------------------------------------

  /** What an op does to a document whose missing fields have been filled in. */
  function Step(d: Doc, op: Op): Doc {
    match op
    case Flags(mids, read, star) =>
      d.(messages := FlaggedAll(d.messages, mids, read, star))
    case Retag(mids, add, remove) =>
      d.(tags := Registered(d.tags, add, |add|),
         messages := RetaggedFirst(d.messages, mids, |mids|, add, remove))
    case Ruled(mids) =>
      d.(messages := RuledAll(d.messages, mids))
    case Drop(mids) =>
      d.(messages := d.messages - SetOf(mids),
         uids := map name | name in d.uids :: RetireFirst(FolderOf(d.uids, name), mids, |mids|))
    case Uid(folder, mids, nums) =>
      d.(uids := d.uids[folder := AssignFirst(FolderOf(d.uids, folder), mids, nums, |mids|)])
    case UidRetire(folder, mids) =>
      d.(uids := d.uids[folder := RetireFirst(FolderOf(d.uids, folder), mids, |mids|)])
    case Rekey(was, now) =>
      if was in d.messages then d.(messages := d.messages[now := d.messages[was]]) else d
    case TagDel(name) =>
      d.(tags := d.tags - {name},
         messages := map mid | mid in d.messages ::
           d.messages[mid].(tags := Without(d.messages[mid].tags, [name])))
    case TagRen(was, now, color) =>
      d.(tags := RenamedTags(d.tags, was, now, color),
         messages := map mid | mid in d.messages ::
           d.messages[mid].(tags := Renamed(d.messages[mid].tags, was, now)))
    case SetRules(rules) => d.(rules := rules)
    case SetFilters(filters) => d.(filters := filters)
    case Unknown => d
  }

  lemma StepOfUid(d: Doc, folder: string, mids: seq<string>, nums: seq<Number>)
    ensures Step(d, Uid(folder, mids, nums))
         == d.(uids := d.uids[folder := AssignFirst(FolderOf(d.uids, folder), mids, nums, |mids|)])
  {
    hide AssignFirst, FolderOf;
  }

  lemma StepOfUidRetire(d: Doc, folder: string, mids: seq<string>)
    ensures Step(d, UidRetire(folder, mids))
         == d.(uids := d.uids[folder := RetireFirst(FolderOf(d.uids, folder), mids, |mids|)])
  {
    hide RetireFirst, FolderOf;
  }

  lemma StepOfDrop(d: Doc, mids: seq<string>)
    ensures Step(d, Drop(mids))
         == d.(messages := d.messages - SetOf(mids),
               uids := map name | name in d.uids :: RetireFirst(FolderOf(d.uids, name), mids, |mids|))
  {
    hide RetireFirst, FolderOf, SetOf;
  }

  function ApplyOp(d: Doc, op: Op): Doc {
    Step(Normalized(d), op)
  }

  function ApplyAll(d: Doc, ops: seq<Op>): Doc {
    if ops == [] then d else ApplyOp(ApplyAll(d, ops[..|ops| - 1]), ops[|ops| - 1])
  }

  lemma {:induction false} ApplyAllConcat(d: Doc, a: seq<Op>, b: seq<Op>)
    ensures ApplyAll(d, a + b) == ApplyAll(ApplyAll(d, a), b)
  {
    hide ApplyOp;
    if b == [] {
      assert a + b == a;
    } else {
      ApplyAllConcat(d, a, b[..|b| - 1]);
      assert (a + b)[..|a + b| - 1] == a + b[..|b| - 1];
    }
  }
}
