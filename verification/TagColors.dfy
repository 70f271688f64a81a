/** The colours of tags: what gives a tag its colour, and what leaves it alone. */
module TagColors {
  import opened Options
  import opened Numbering
  import opened Document
  import opened DocumentLaws
  import opened Merging

  /** The tag is registered with this colour. */
  predicate HasColor(d: Doc, tag: string, color: string) {
    tag in d.tags && d.tags[tag] == color
  }

  predicate SameTag(d: Doc, e: Doc, tag: string) {
    (tag in d.tags <==> tag in e.tags) && (tag in d.tags ==> d.tags[tag] == e.tags[tag])
  }

  /** There are eight colours, which take turns. */
  lemma EightColors(a: nat, b: nat)
    ensures TagColor(a) == TagColor(b) <==> a % 8 == b % 8
  {
    var colors := ["#4c8dff", "#38b48b", "#e0a33e", "#d9534f", "#a06ee1", "#3ea8c4", "#e07a5f", "#7f9c3a"];
    assert forall i, j :: 0 <= i < j < 8 ==> colors[i] != colors[j] by {
      ColorsDiffer();
    }
    assert TagColor(a) == colors[a % 8] && TagColor(b) == colors[b % 8];
  }

  lemma ColorsDiffer()
    ensures var colors := ["#4c8dff", "#38b48b", "#e0a33e", "#d9534f", "#a06ee1", "#3ea8c4", "#e07a5f", "#7f9c3a"];
      forall i, j :: 0 <= i < j < 8 ==> colors[i] != colors[j]
  {
    var firsts := ['4', '3', 'e', 'd', 'a', '3', 'e', '7'];
    var seconds := ['c', '8', '0', '9', '0', 'e', '0', 'f'];
    var thirds := ['8', 'b', 'a', '5', '6', 'a', '7', '9'];
    var colors := ["#4c8dff", "#38b48b", "#e0a33e", "#d9534f", "#a06ee1", "#3ea8c4", "#e07a5f", "#7f9c3a"];
    forall i, j | 0 <= i < j < 8 ensures colors[i] != colors[j] {
      assert colors[i][1] == firsts[i] && colors[i][2] == seconds[i] && colors[i][3] == thirds[i];
      assert colors[j][1] == firsts[j] && colors[j][2] == seconds[j] && colors[j][3] == thirds[j];
    }
  }

  // -- renames ------------------------------------------------------------------------------------------

  /**
    A rename gives the new name the colour asked for; if none is asked for, that of the old name, or the new
    name's own, or the next in turn.  The old name is gone, and no other tag changes.
    */
  lemma RenameColors(d: Doc, was: string, now: string, color: string)
    ensures var e := ApplyOp(d, TagRen(was, now, color));
      && (color != "" ==> HasColor(e, now, color))
      && (color == "" && was != now && was in d.tags ==> HasColor(e, now, d.tags[was]))
      && (color == "" && (was == now || was !in d.tags) && now in d.tags ==> HasColor(e, now, d.tags[now]))
      && (color == "" && was !in d.tags && now !in d.tags ==> HasColor(e, now, TagColor(|d.tags|)))
      && (was != now ==> was !in e.tags)
      && forall t :: t != was && t != now ==> SameTag(d, e, t)
  {
    TagsRenamed(d, was, now, color);
    hide ApplyOp;
    RegistryRenamed(d.tags, was, now, color);
  }

  lemma TagsRenamed(d: Doc, was: string, now: string, color: string)
    ensures ApplyOp(d, TagRen(was, now, color)).tags == RenamedTags(d.tags, was, now, color)
  {
    hide RenamedTags, Renamed;
  }

  lemma RegistryRenamed(tags: map<string, string>, was: string, now: string, color: string)
    ensures var e := RenamedTags(tags, was, now, color);
      && now in e && (was != now ==> was !in e)
      && (color != "" ==> e[now] == color)
      && (color == "" && was != now && was in tags ==> e[now] == tags[was])
      && (color == "" && (was == now || was !in tags) && now in tags ==> e[now] == tags[now])
      && (color == "" && was !in tags && now !in tags ==> e[now] == TagColor(|tags|))
      && forall t :: t != was && t != now ==> (t in tags <==> t in e) && (t in tags ==> tags[t] == e[t])
  {
    hide TagColor;
  }

  // -- all other ops -------------------------------------------------------------------------------------

  /** The tags an op registers, renames, recolours or removes. */
  predicate Concerns(op: Op, tag: string) {
    match op
    case TagRen(was, now, _) => tag == was || tag == now
    case TagDel(name) => tag == name
    case _ => false
  }

  /** A registered tag keeps its colour under every op that neither renames nor removes it. */
  lemma ColorStays(d: Doc, op: Op, tag: string, color: string)
    requires HasColor(d, tag, color) && !Concerns(op, tag)
    ensures HasColor(ApplyOp(d, op), tag, color)
  {
    if op.Retag? {
      RegisteredKeys(d.tags, op.add, |op.add|);
      hide Registered, RetaggedFirst;
    } else if op.TagRen? {
      RenameColors(d, op.was, op.now, op.color);
    }
  }

  /** A tag that an op registers without a colour of its own gets the next in turn, by how many tags there were before it. */
  lemma NewColor(d: Doc, mids: seq<string>, add: seq<string>, remove: seq<string>, i: nat)
    requires i < |add| && add[i] !in d.tags && add[i] !in add[..i]
    ensures HasColor(ApplyOp(d, Retag(mids, add, remove)), add[i], TagColor(|d.tags.Keys + SetOf(add[..i])|))
  {
    RegisteredKeys(d.tags, add, i);
    NextColor(d.tags, add, i, |add|);
    assert |Registered(d.tags, add, i)| == |Registered(d.tags, add, i).Keys|;
    assert Registered(d.tags, add, i).Keys == d.tags.Keys + SetOf(add[..i]);
    hide Registered, RetaggedFirst;
  }

  lemma {:induction false} NextColor(tags: map<string, string>, add: seq<string>, i: nat, k: nat)
    requires i < k <= |add| && add[i] !in Registered(tags, add, i)
    ensures add[i] in Registered(tags, add, k)
    ensures Registered(tags, add, k)[add[i]] == TagColor(|Registered(tags, add, i)|)
    decreases k
  {
    hide TagColor;
    if k > i + 1 {
      NextColor(tags, add, i, k - 1);
    }
  }

  // -- logs ------------------------------------------------------------------------------------------------

  /** Along a log that neither renames nor removes it, too. */
  lemma {:induction false} ColorLasts(d: Doc, log: seq<Op>, tag: string, color: string)
    requires HasColor(d, tag, color) && forall op :: op in log ==> !Concerns(op, tag)
    ensures HasColor(ApplyAll(d, log), tag, color)
  {
    hide ApplyOp, HasColor, Concerns;
    if log != [] {
      ColorLasts(d, log[..|log| - 1], tag, color);
      ColorStays(ApplyAll(d, log[..|log| - 1]), log[|log| - 1], tag, color);
    }
  }

  /** The last colour that was asked for is the colour of the tag, whatever came before it in the log. */
  lemma LastColorWins(d: Doc, log: seq<Op>, k: nat, tag: string, color: string)
    requires k < |log| && log[k].TagRen? && log[k].now == tag && log[k].color == color != ""
    requires forall i :: k < i < |log| ==> !Concerns(log[i], tag)
    ensures HasColor(ApplyAll(d, log), tag, color)
  {
    var before, after := log[..k + 1], log[k + 1..];
    assert log == before + after && before[..k] == log[..k] && |before| == k + 1;
    RenameColors(ApplyAll(d, log[..k]), log[k].was, tag, color);
    hide ApplyOp, HasColor, Concerns;
    assert ApplyAll(d, before) == ApplyOp(ApplyAll(d, log[..k]), log[k]);
    assert forall op :: op in after ==> !Concerns(op, tag);
    ApplyAllConcat(d, before, after);
    ColorLasts(ApplyAll(d, before), after, tag, color);
  }

  // -- merges ------------------------------------------------------------------------------------------------

  /** In a merge the base's colour wins; a tag that only the copy knows comes with the copy's. */
  lemma MergedColors(base: Doc, other: Doc, tag: string)
    ensures var m := MergeMissing(base, Some(other));
      && (tag in m.tags <==> tag in base.tags || tag in other.tags)
      && (tag in base.tags ==> HasColor(m, tag, base.tags[tag]))
      && (tag !in base.tags && tag in other.tags ==> HasColor(m, tag, other.tags[tag]))
  {
  }

  /** And so it is with the entries of messages, whole; rules are taken over only by a base that has none. */
  lemma MergedEntries(base: Doc, other: Doc, mid: string)
    ensures var m := MergeMissing(base, Some(other));
      && (mid in m.messages <==> mid in base.messages || mid in other.messages)
      && (mid in base.messages ==> m.messages[mid] == base.messages[mid])
      && (mid !in base.messages && mid in other.messages ==> m.messages[mid] == other.messages[mid])
      && m.rules == (if base.rules != [] then base.rules else other.rules) && m.filters == base.filters
  {
  }
}
