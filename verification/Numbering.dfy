/**
  IMAP numbering of one folder: every message a number, no number twice, and the
  numbers only ever grow (section 2.3.1.1 of RFC 3501).
  */
module Numbering {

  const LIMIT := 0x1_0000_0000

  /** An unsigned 32-bit number. */
  type Number = n: int | 0 <= n < 0x1_0000_0000

  /** One more, wrapping around. */
  function Succ(n: Number): Number {
    (n + 1) % LIMIT
  }

  lemma SuccWraps(v: nat)
    ensures Succ(v % LIMIT) == (v + 1) % LIMIT
  {
  }

  datatype Folder = Folder(validity: Number, next: Number, uids: map<string, Number>, owner: map<Number, string>)

  const FRESH := Folder(1, 1, map[], map[])

  /** Fields that are missing in a stored document get their starting values. */
  function Normal(f: Folder): Folder {
    f.(validity := if f.validity == 0 then 1 else f.validity, next := if f.next == 0 then 1 else f.next)
  }

  /** Missing fields are those that are 0; both counters start at 1, and nothing else changes. */
  lemma NormalIs(f: Folder)
    ensures Normal(f).validity == if f.validity > 0 then f.validity else 1
    ensures Normal(f).next == if f.next > 0 then f.next else 1
    ensures Normal(f).uids == f.uids && Normal(f).owner == f.owner && FRESH == Folder(1, 1, map[], map[])
  {
  }

  /** The reverse index is the exact inverse of the numbering, so no number is given twice. */
  ghost predicate Indexed(f: Folder) {
    && (forall mid :: mid in f.uids ==> f.uids[mid] in f.owner && f.owner[f.uids[mid]] == mid)
    && (forall n :: n in f.owner ==> f.owner[n] in f.uids && f.uids[f.owner[n]] == n)
  }

  /** Every number is at least 1 and below Next. */
  ghost predicate InOrder(f: Folder) {
    f.next >= 1 && forall mid :: mid in f.uids ==> 1 <= f.uids[mid] < f.next
  }

  /** What the numbering of a folder keeps. */
  ghost predicate Sound(f: Folder) {
    Indexed(f) && f.validity >= 1 && InOrder(f)
  }

  /** Rebuilds the reverse index, which is never stored. */
  method Rebuild(uids: map<string, Number>) returns (owner: map<Number, string>)
    ensures forall mid :: mid in uids ==> uids[mid] in owner
    ensures forall n :: n in owner ==> owner[n] in uids && uids[owner[n]] == n
  {
    owner := map[];
    var todo := uids.Keys;
    while todo != {}
      invariant todo <= uids.Keys
      invariant forall mid :: mid in uids && mid !in todo ==> uids[mid] in owner
      invariant forall n :: n in owner ==> owner[n] in uids && uids[owner[n]] == n
    {
      var mid :| mid in todo;
      owner := owner[uids[mid] := mid];
      todo := todo - {mid};
    }
  }

  /** Nothing is lost by not storing the index: whatever the order of the walk, the same one comes back. */
  lemma RebuiltIndex(f: Folder, owner: map<Number, string>)
    requires Indexed(f)
    requires forall mid :: mid in f.uids ==> f.uids[mid] in owner
    requires forall n :: n in owner ==> owner[n] in f.uids && f.uids[owner[n]] == n
    ensures owner == f.owner
  {
    forall n | n in owner ensures n in f.owner && f.owner[n] == owner[n] {
      assert f.uids[owner[n]] == n;
    }
  }

  // -- giving and taking numbers ---------------------------------------------------------

  /** The number is already somebody else's. */
  predicate Taken(f: Folder, mid: string, n: Number) {
    n in f.owner && f.owner[n] != mid
  }

  /** One assignment: the first one for a message wins, a taken number is refused. */
  function Assign(f: Folder, mid: string, n: Number): Folder {
    if n == 0 || mid in f.uids then f
    else if Taken(f, mid, n) then f.(validity := Succ(f.validity))
    else f.(uids := f.uids[mid := n], owner := f.owner[n := mid], next := if n >= f.next then Succ(n) else f.next)
  }

  /** The first k assignments of an op; names without a number are ignored. */
  function AssignFirst(f: Folder, mids: seq<string>, nums: seq<Number>, k: nat): Folder
    requires k <= |mids|
  {
    if k == 0 then f
    else if k > |nums| then AssignFirst(f, mids, nums, k - 1)
    else Assign(AssignFirst(f, mids, nums, k - 1), mids[k - 1], nums[k - 1])
  }

  function Retire(f: Folder, mid: string): Folder {
    if mid in f.uids then f.(uids := f.uids - {mid}, owner := f.owner - {f.uids[mid]}) else f
  }

  function RetireFirst(f: Folder, mids: seq<string>, k: nat): Folder
    requires k <= |mids|
  {
    if k == 0 then f else Retire(RetireFirst(f, mids, k - 1), mids[k - 1])
  }

  // -- what every step keeps ---------------------------------------------------------------

  lemma AssignIndexed(f: Folder, mid: string, n: Number)
    requires Indexed(f)
    ensures Indexed(Assign(f, mid, n))
    ensures forall m :: m in f.uids ==> m in Assign(f, mid, n).uids && Assign(f, mid, n).uids[m] == f.uids[m]
  {
  }

  /** The assignment meets a number that is somebody else's. */
  predicate Refused(f: Folder, mid: string, n: Number) {
    n != 0 && mid !in f.uids && Taken(f, mid, n)
  }

  /** The assignment gives the number, and there is no next one. */
  predicate Exhausts(f: Folder, mid: string, n: Number) {
    n == LIMIT - 1 && mid !in f.uids && !Taken(f, mid, n)
  }

  lemma AssignCounts(f: Folder, mid: string, n: Number)
    ensures Assign(f, mid, n).validity == if Refused(f, mid, n) then Succ(f.validity) else f.validity
  {
  }

  /** One assignment keeps the folder sound, except that the last number or the last Validity wraps around. */
  lemma AssignSoundWhen(f: Folder, mid: string, n: Number)
    requires Sound(f)
    ensures Sound(Assign(f, mid, n)) <==> !Exhausts(f, mid, n) && !(Refused(f, mid, n) && f.validity == LIMIT - 1)
  {
    AssignIndexed(f, mid, n);
    AssignInOrder(f, mid, n);
    hide Indexed, InOrder;
  }

  lemma AssignInOrder(f: Folder, mid: string, n: Number)
    requires InOrder(f)
    ensures InOrder(Assign(f, mid, n)) <==> !Exhausts(f, mid, n)
    ensures Exhausts(f, mid, n) ==> LIMIT - 1 in Assign(f, mid, n).owner
    ensures !Exhausts(f, mid, n) ==> Assign(f, mid, n).next >= f.next
  {
    assert Exhausts(f, mid, n) ==> Assign(f, mid, n).uids[mid] == LIMIT - 1;
  }

  /** How many of the first k assignments meet a number that is somebody else's by then. */
  function Refusals(f: Folder, mids: seq<string>, nums: seq<Number>, k: nat): nat
    requires k <= |mids|
  {
    if k == 0 then 0
    else Refusals(f, mids, nums, k - 1) + (if RefusedAt(f, mids, nums, k - 1) then 1 else 0)
  }

  /** The assignment number i of an op is refused at its turn. */
  predicate RefusedAt(f: Folder, mids: seq<string>, nums: seq<Number>, i: nat)
    requires i < |mids|
  {
    i < |nums| && Refused(AssignFirst(f, mids, nums, i), mids[i], nums[i])
  }

  /** One of the first k assignments gives the last number there is. */
  ghost predicate ExhaustsIn(f: Folder, mids: seq<string>, nums: seq<Number>, k: nat)
    requires k <= |mids|
  {
    exists i: nat :: i < k && ExhaustsAt(f, mids, nums, i)
  }

  predicate ExhaustsAt(f: Folder, mids: seq<string>, nums: seq<Number>, i: nat)
    requires i < |mids|
  {
    i < |nums| && Exhausts(AssignFirst(f, mids, nums, i), mids[i], nums[i])
  }

  /** Any op keeps the index an inverse and every number a message has, and Validity counts the refusals. */
  lemma {:induction false} AssignFirstKeeps(f: Folder, mids: seq<string>, nums: seq<Number>, k: nat)
    requires Indexed(f) && k <= |mids|
    ensures var g := AssignFirst(f, mids, nums, k);
      && Indexed(g)
      && (forall m :: m in f.uids ==> m in g.uids && g.uids[m] == f.uids[m])
      && g.validity == (f.validity + Refusals(f, mids, nums, k)) % LIMIT
  {
    if k > 0 {
      AssignFirstKeeps(f, mids, nums, k - 1);
      SuccWraps(f.validity + Refusals(f, mids, nums, k - 1));
      hide Indexed, Assign, Refused, Succ;
      if k <= |nums| {
        AssignIndexed(AssignFirst(f, mids, nums, k - 1), mids[k - 1], nums[k - 1]);
        AssignCounts(AssignFirst(f, mids, nums, k - 1), mids[k - 1], nums[k - 1]);
      }
    }
  }

  /** Numbers stay between 1 and Next, and Next does not fall, exactly as long as the last one is not given. */
  lemma {:induction false} AssignFirstInOrder(f: Folder, mids: seq<string>, nums: seq<Number>, k: nat)
    requires InOrder(f) && Indexed(f) && k <= |mids|
    ensures InOrder(AssignFirst(f, mids, nums, k)) <==> !ExhaustsIn(f, mids, nums, k)
    ensures !ExhaustsIn(f, mids, nums, k) ==> AssignFirst(f, mids, nums, k).next >= f.next
    ensures ExhaustsIn(f, mids, nums, k) ==> LIMIT - 1 in AssignFirst(f, mids, nums, k).owner
  {
    if k > 0 {
      AssignFirstInOrder(f, mids, nums, k - 1);
      AssignFirstKeeps(f, mids, nums, k - 1);
      AssignFirstKeeps(f, mids, nums, k);
      var g, h := AssignFirst(f, mids, nums, k - 1), AssignFirst(f, mids, nums, k);
      assert ExhaustsIn(f, mids, nums, k) <==> ExhaustsIn(f, mids, nums, k - 1) || ExhaustsAt(f, mids, nums, k - 1);
      if ExhaustsIn(f, mids, nums, k - 1) {
        LastStays(g, h);
      } else if k <= |nums| {
        AssignInOrder(g, mids[k - 1], nums[k - 1]);
      }
    }
  }

  lemma LastStays(g: Folder, h: Folder)
    requires Indexed(g) && Indexed(h) && LIMIT - 1 in g.owner
    requires g.owner.Keys <= h.owner.Keys
    ensures LIMIT - 1 in h.owner && !InOrder(h)
  {
    assert h.uids[h.owner[LIMIT - 1]] == LIMIT - 1;
  }

  /**
    An op keeps the folder sound, and neither Next nor Validity falls, if and only if it does not give
    the last number and Validity, risen once for every refusal, does not wrap around to less.
    */
  lemma AssignFirstSoundWhen(f: Folder, mids: seq<string>, nums: seq<Number>, k: nat)
    requires Sound(f) && k <= |mids|
    ensures var g := AssignFirst(f, mids, nums, k);
      Sound(g) && g.next >= f.next && g.validity >= f.validity
      <==> !ExhaustsIn(f, mids, nums, k) && (f.validity + Refusals(f, mids, nums, k)) % LIMIT >= f.validity
  {
    AssignFirstKeeps(f, mids, nums, k);
    AssignFirstInOrder(f, mids, nums, k);
    hide Indexed, InOrder, ExhaustsIn;
  }

  lemma RetireKeeps(f: Folder, mid: string)
    requires Indexed(f)
    ensures Indexed(Retire(f, mid)) && Retire(f, mid).uids == f.uids - {mid}
    ensures Retire(f, mid).next == f.next && Retire(f, mid).validity == f.validity
    ensures Sound(f) ==> Sound(Retire(f, mid))
  {
  }

  lemma {:induction false} RetireFirstKeeps(f: Folder, mids: seq<string>, k: nat)
    requires Indexed(f) && k <= |mids|
    ensures var g := RetireFirst(f, mids, k);
      && Indexed(g) && g.next == f.next && g.validity == f.validity && (Sound(f) ==> Sound(g))
      && g.uids == f.uids - (set i | 0 <= i < k :: mids[i])
  {
    if k > 0 {
      RetireFirstKeeps(f, mids, k - 1);
      RetireKeeps(RetireFirst(f, mids, k - 1), mids[k - 1]);
      assert (set i | 0 <= i < k :: mids[i]) == (set i | 0 <= i < k - 1 :: mids[i]) + {mids[k - 1]};
    }
  }

  /** The last number of all wraps Next around: it restarts at 1, below numbers already given. */
  lemma NextWrapsAround()
    ensures var f := Assign(FRESH, "a", LIMIT - 1);
      Sound(FRESH) && !Sound(f) && Normal(f).next == 1 && f.uids["a"] == LIMIT - 1
  {
  }

  // -- replaying an op -----------------------------------------------------------------------

  /** Every name of the op has a number, or its number is taken. */
  ghost predicate Settled(f: Folder, mids: seq<string>, nums: seq<Number>, k: nat)
    requires k <= |mids|
  {
    forall i :: 0 <= i < k && i < |nums| && nums[i] != 0 ==> mids[i] in f.uids || Taken(f, mids[i], nums[i])
  }

  lemma AssignSettles(f: Folder, mids: seq<string>, nums: seq<Number>, k: nat, mid: string, n: Number)
    requires k <= |mids| && Settled(f, mids, nums, k)
    ensures Settled(Assign(f, mid, n), mids, nums, k)
    ensures n != 0 ==> mid in Assign(f, mid, n).uids || Taken(Assign(f, mid, n), mid, n)
  {
    hide Assign;
    AssignExtends(f, mid, n);
  }

  lemma AssignExtends(f: Folder, mid: string, n: Number)
    ensures var g := Assign(f, mid, n);
      && f.uids.Keys <= g.uids.Keys
      && (forall o, m :: Taken(f, m, o) ==> m in g.uids || Taken(g, m, o))
      && (n != 0 ==> mid in g.uids || Taken(g, mid, n))
  {
  }

  lemma {:induction false} OpSettles(f: Folder, mids: seq<string>, nums: seq<Number>, k: nat)
    requires k <= |mids|
    ensures Settled(AssignFirst(f, mids, nums, k), mids, nums, k)
  {
    if k > 0 {
      OpSettles(f, mids, nums, k - 1);
      hide Assign, Taken;
      if k <= |nums| {
        AssignSettles(AssignFirst(f, mids, nums, k - 1), mids, nums, k - 1, mids[k - 1], nums[k - 1]);
      }
    }
  }

  /** The message of assignment i has no number, although the op names one. */
  predicate LeftOut(f: Folder, mids: seq<string>, nums: seq<Number>, i: nat)
    requires i < |mids|
  {
    i < |nums| && nums[i] != 0 && mids[i] !in f.uids
  }

  /** How many of the first k assignments have left their messages without a number. */
  function Unanswered(f: Folder, mids: seq<string>, nums: seq<Number>, k: nat): nat
    requires k <= |mids|
  {
    if k == 0 then 0 else Unanswered(f, mids, nums, k - 1) + (if LeftOut(f, mids, nums, k - 1) then 1 else 0)
  }

  /** A replay of a settled op changes nothing but Validity, which rises once for every message left out. */
  lemma {:induction false} Replay(f: Folder, mids: seq<string>, nums: seq<Number>, k: nat)
    requires k <= |mids| && Settled(f, mids, nums, k)
    ensures AssignFirst(f, mids, nums, k)
         == f.(validity := (f.validity + Unanswered(f, mids, nums, k)) % LIMIT)
  {
    if k > 0 {
      Replay(f, mids, nums, k - 1);
      hide Taken, Succ, Assign;
      var v := f.validity + Unanswered(f, mids, nums, k - 1);
      SuccWraps(v);
      if k <= |nums| {
        ReplayOne(f, v % LIMIT, mids[k - 1], nums[k - 1]);
      }
    }
  }

  lemma ReplayOne(f: Folder, v: Number, mid: string, n: Number)
    requires n != 0 ==> mid in f.uids || Taken(f, mid, n)
    ensures Assign(f.(validity := v), mid, n)
         == f.(validity := if n != 0 && mid !in f.uids then Succ(v) else v)
  {
  }

  lemma {:induction false} NoneLeftOut(f: Folder, mids: seq<string>, nums: seq<Number>, k: nat)
    requires k <= |mids|
    ensures Unanswered(f, mids, nums, k) <= k
    ensures Unanswered(f, mids, nums, k) == 0 <==> forall i: nat :: i < k ==> !LeftOut(f, mids, nums, i)
  {
    if k > 0 {
      NoneLeftOut(f, mids, nums, k - 1);
      hide LeftOut;
    }
  }

  /** An assignment for the message that is not refused at its turn. */
  ghost predicate Answers(f: Folder, mids: seq<string>, nums: seq<Number>, mid: string, j: nat)
    requires j < |mids|
  {
    j < |nums| && mids[j] == mid && nums[j] != 0 && !RefusedAt(f, mids, nums, j)
  }

  /** After an op a message has a number if it had one, or an assignment for it was not refused at its turn. */
  lemma {:induction false} NumberedWhen(f: Folder, mids: seq<string>, nums: seq<Number>, k: nat, mid: string)
    requires k <= |mids|
    ensures mid in AssignFirst(f, mids, nums, k).uids
        <==> mid in f.uids || exists j: nat :: j < k && Answers(f, mids, nums, mid, j)
  {
    if k > 0 {
      NumberedWhen(f, mids, nums, k - 1, mid);
      assert k <= |nums| && mids[k - 1] == mid && nums[k - 1] != 0 ==>
        (mid in AssignFirst(f, mids, nums, k).uids <==> !RefusedAt(f, mids, nums, k - 1));
      assert !(k <= |nums| && mids[k - 1] == mid && nums[k - 1] != 0) ==>
        (mid in AssignFirst(f, mids, nums, k).uids <==> mid in AssignFirst(f, mids, nums, k - 1).uids);
      assert (exists j: nat :: j < k && Answers(f, mids, nums, mid, j))
        <==> (exists j: nat :: j < k - 1 && Answers(f, mids, nums, mid, j)) || Answers(f, mids, nums, mid, k - 1);
      hide AssignFirst, RefusedAt;
    }
  }

  /** All assignments of an op for the message of assignment i are refused at their turns. */
  ghost predicate AllRefused(f: Folder, mids: seq<string>, nums: seq<Number>, i: nat)
    requires i < |mids|
  {
    && i < |nums| && nums[i] != 0
    && forall j: nat :: j < |mids| && j < |nums| && mids[j] == mids[i] && nums[j] != 0 ==> RefusedAt(f, mids, nums, j)
  }

  /** The messages left out are the ones whose assignments were all refused. */
  lemma LeftOutWhen(f: Folder, mids: seq<string>, nums: seq<Number>, i: nat)
    requires i < |mids|
    ensures LeftOut(AssignFirst(f, mids, nums, |mids|), mids, nums, i) <==> AllRefused(f, mids, nums, i)
  {
    NumberedWhen(f, mids, nums, |mids|, mids[i]);
    if i < |nums| && nums[i] != 0 {
      if mids[i] in f.uids {
        NumberedWhen(f, mids, nums, i, mids[i]);
        assert !RefusedAt(f, mids, nums, i);
      } else if j: nat :| j < |mids| && Answers(f, mids, nums, mids[i], j) {
        assert !AllRefused(f, mids, nums, i);
      } else {
        forall j: nat | j < |mids| && j < |nums| && mids[j] == mids[i] && nums[j] != 0
          ensures RefusedAt(f, mids, nums, j)
        {
          assert !Answers(f, mids, nums, mids[i], j);
        }
      }
    }
  }

  /** Neither a message nor a number is named twice, as in every op that numbers new messages. */
  ghost predicate NamedOnce(mids: seq<string>, nums: seq<Number>) {
    && (forall i, j :: 0 <= i < j < |mids| ==> mids[i] != mids[j])
    && (forall i, j :: 0 <= i < j < |nums| ==> nums[i] != nums[j])
  }

  /** What an op has not come to yet is as it was. */
  lemma {:induction false} RestUntouched(f: Folder, mids: seq<string>, nums: seq<Number>, k: nat)
    requires k <= |mids| && NamedOnce(mids, nums)
    ensures var g := AssignFirst(f, mids, nums, k);
      && (forall i :: k <= i < |mids| ==> (mids[i] in g.uids <==> mids[i] in f.uids))
      && (forall i :: k <= i < |nums| ==> (nums[i] in g.owner <==> nums[i] in f.owner))
      && (forall i :: k <= i < |nums| && nums[i] in f.owner ==> g.owner[nums[i]] == f.owner[nums[i]])
  {
    if k > 0 {
      RestUntouched(f, mids, nums, k - 1);
    }
  }

  function NumbersIn(nums: seq<Number>, k: nat): set<nat> {
    set i | 0 <= i < k && i < |nums| && nums[i] != 0 :: nums[i]
  }

  lemma OneMoreNumberIn(nums: seq<Number>, k: nat)
    requires forall i, j :: 0 <= i < j < |nums| ==> nums[i] != nums[j]
    ensures |NumbersIn(nums, k + 1)| == |NumbersIn(nums, k)| + (if k < |nums| && nums[k] != 0 then 1 else 0)
  {
    if k < |nums| && nums[k] != 0 {
      assert NumbersIn(nums, k + 1) == NumbersIn(nums, k) + {nums[k]};
      assert nums[k] !in NumbersIn(nums, k);
    } else {
      assert NumbersIn(nums, k + 1) == NumbersIn(nums, k);
    }
  }

  /** There are not enough numbers for such an op to take Validity all the way round. */
  lemma {:induction false} FewUnanswered(f: Folder, mids: seq<string>, nums: seq<Number>, k: nat)
    requires k <= |mids| && NamedOnce(mids, nums)
    ensures Unanswered(f, mids, nums, k) <= |NumbersIn(nums, k)| < LIMIT
  {
    FewNumbers(NumbersIn(nums, k), LIMIT);
    if k > 0 {
      FewUnanswered(f, mids, nums, k - 1);
      OneMoreNumberIn(nums, k - 1);
      hide Given, NamedOnce;
    }
  }

  lemma {:induction false} FewNumbers(s: set<nat>, hi: nat)
    requires hi > 0 && forall n :: n in s ==> 1 <= n < hi
    ensures |s| < hi
    decreases hi
  {
    if |s| > 0 {
      var n :| n in s;
      assert 1 <= n < hi;
      FewNumbers(s - {hi - 1}, hi - 1);
      assert s <= (s - {hi - 1}) + {hi - 1};
    }
  }

  /** For such an op the guard can be checked on the folder it finds. */
  lemma RefusedFromStart(f: Folder, mids: seq<string>, nums: seq<Number>, i: nat)
    requires i < |mids| && NamedOnce(mids, nums)
    ensures AllRefused(f, mids, nums, i) <==> i < |nums| && Refused(f, mids[i], nums[i])
  {
    RestUntouched(f, mids, nums, i);
    assert i < |nums| ==> (RefusedAt(f, mids, nums, i) <==> Refused(f, mids[i], nums[i]));
    hide AssignFirst, RefusedAt;
  }

  lemma {:induction false} NoneStays(f: Folder, mids: seq<string>, k: nat)
    requires k <= |mids|
    ensures forall i :: 0 <= i < k ==> mids[i] !in RetireFirst(f, mids, k).uids
  {
    if k > 0 {
      NoneStays(f, mids, k - 1);
    }
  }

  lemma RetireTwice(f: Folder, mids: seq<string>)
    ensures var g := RetireFirst(f, mids, |mids|); RetireFirst(g, mids, |mids|) == g
  {
    NoneStays(f, mids, |mids|);
    NothingToRetire(RetireFirst(f, mids, |mids|), mids, |mids|);
  }

  lemma {:induction false} NothingToRetire(f: Folder, mids: seq<string>, k: nat)
    requires k <= |mids| && forall i :: 0 <= i < k ==> mids[i] !in f.uids
    ensures RetireFirst(f, mids, k) == f
  {
    if k > 0 {
      NothingToRetire(f, mids, k - 1);
    }
  }

  // -- new numbers ----------------------------------------------------------------------------

  /** The names that have no number yet, in order. */
  function Unnumbered(f: Folder, mids: seq<string>): seq<string> {
    if mids == [] then []
    else
      var last := mids[|mids| - 1];
      Unnumbered(f, mids[..|mids| - 1]) + (if last in f.uids then [] else [last])
  }

  function Consecutive(next: Number, k: nat): (nums: seq<Number>)
    ensures |nums| == k
  {
    seq(k, i requires 0 <= i < k => (next + i) % LIMIT)
  }

  ghost predicate DistinctNames(mids: seq<string>) {
    forall i, j :: 0 <= i < j < |mids| ==> mids[i] != mids[j]
  }

  lemma {:induction false} UnnumberedNames(f: Folder, mids: seq<string>)
    ensures forall mid :: mid in Unnumbered(f, mids) <==> mid in mids && mid !in f.uids
    ensures DistinctNames(mids) ==> DistinctNames(Unnumbered(f, mids))
  {
    if mids != [] {
      var last := |mids| - 1;
      UnnumberedNames(f, mids[..last]);
      assert mids == mids[..last] + [mids[last]];
    }
  }

  /** The first k of these new messages have the next k numbers, and nothing else has changed. */
  ghost predicate Numbered(f: Folder, g: Folder, mids: seq<string>, k: nat)
    requires k <= |mids|
  {
    && g.validity == f.validity && g.next == f.next + k && Indexed(g)
    && (forall i :: 0 <= i < k ==> mids[i] in g.uids && g.uids[mids[i]] == f.next + i)
    && (forall m :: m in g.uids ==> m in f.uids || exists i :: 0 <= i < k && mids[i] == m)
    && (forall m :: m in f.uids ==> m in g.uids && g.uids[m] == f.uids[m])
  }

  /** The messages are distinct, have no number, and there are numbers left for all of them. */
  ghost predicate Numberable(f: Folder, mids: seq<string>) {
    && Sound(f) && f.next + |mids| < LIMIT && DistinctNames(mids)
    && forall i :: 0 <= i < |mids| ==> mids[i] !in f.uids
  }

  lemma NumberAt(f: Folder, mids: seq<string>, k: nat)
    requires Numberable(f, mids) && k < |mids|
    ensures Consecutive(f.next, |mids|)[k] == f.next + k
  {
    hide Sound, DistinctNames;
  }

  lemma NoneNumbered(f: Folder, mids: seq<string>)
    requires Sound(f)
    ensures Numbered(f, f, mids, 0)
  {
  }

  /** The batch gets the next numbers in the given order, and Validity does not move. */
  lemma {:induction false} BatchNumbered(f: Folder, mids: seq<string>, k: nat)
    requires Numberable(f, mids) && k <= |mids|
    ensures Numbered(f, AssignFirst(f, mids, Consecutive(f.next, |mids|), k), mids, k)
  {
    hide Numbered, Assign, Consecutive, Sound, DistinctNames;
    if k == 0 {
      NoneNumbered(f, mids);
    } else {
      BatchNumbered(f, mids, k - 1);
      NumberAt(f, mids, k - 1);
      NextOfBatch(f, AssignFirst(f, mids, Consecutive(f.next, |mids|), k - 1), mids, k - 1);
    }
  }

  lemma AssignFree(g: Folder, mid: string, n: Number)
    requires Indexed(g) && mid !in g.uids && n !in g.owner && 1 <= n && g.next <= n < LIMIT - 1
    ensures var h := Assign(g, mid, n);
      h.uids == g.uids[mid := n] && h.next == n + 1 && h.validity == g.validity && Indexed(h)
  {
  }

  lemma NextOfBatch(f: Folder, g: Folder, mids: seq<string>, k: nat)
    requires Numberable(f, mids) && k < |mids| && Numbered(f, g, mids, k)
    ensures Numbered(f, Assign(g, mids[k], f.next + k), mids, k + 1)
  {
    NumberFree(f, g, mids, k);
    AssignFree(g, mids[k], f.next + k);
    hide Indexed, Sound, Assign, DistinctNames;
    OneMoreNumbered(f, g, Assign(g, mids[k], f.next + k), mids, k);
  }

  lemma OneMoreNumbered(f: Folder, g: Folder, h: Folder, mids: seq<string>, k: nat)
    requires k < |mids| && Numbered(f, g, mids, k) && mids[k] !in g.uids && f.next + k < LIMIT
    requires h.uids == g.uids[mids[k] := f.next + k] && h.next == g.next + 1 && h.validity == g.validity && Indexed(h)
    ensures Numbered(f, h, mids, k + 1)
  {
    hide Indexed;
    forall m | m in h.uids && m !in f.uids ensures exists i :: 0 <= i < k + 1 && mids[i] == m {
      if m != mids[k] {
        assert m in g.uids;
      }
    }
  }

  lemma NumberFree(f: Folder, g: Folder, mids: seq<string>, k: nat)
    requires Numberable(f, mids) && k < |mids| && Numbered(f, g, mids, k)
    ensures mids[k] !in g.uids && f.next + k !in g.owner
  {
    forall m | m in g.uids ensures g.uids[m] != f.next + k {
    }
  }

  // -- numbers given twice -----------------------------------------------------------------------

  /** The assignment gives the number to the message. */
  predicate TakesEffect(f: Folder, mid: string, n: Number) {
    n != 0 && mid !in f.uids && !Taken(f, mid, n)
  }

  /** Who was the first to get which number, after one more assignment. */
  function Given(given: map<Number, string>, f: Folder, mid: string, n: Number): map<Number, string> {
    if TakesEffect(f, mid, n) && n !in given then given[n := mid] else given
  }

  function GivenFirst(given: map<Number, string>, f: Folder, mids: seq<string>, nums: seq<Number>, k: nat): map<Number, string>
    requires k <= |mids|
  {
    if k == 0 then given
    else if k > |nums| then GivenFirst(given, f, mids, nums, k - 1)
    else Given(GivenFirst(given, f, mids, nums, k - 1), AssignFirst(f, mids, nums, k - 1), mids[k - 1], nums[k - 1])
  }

  /** Every number a message has was first given to that message. */
  ghost predicate Owned(f: Folder, given: map<Number, string>) {
    forall mid :: mid in f.uids ==> f.uids[mid] in given && given[f.uids[mid]] == mid
  }

  /** The assignment takes effect, and the number was somebody else's first. */
  predicate Reuses(f: Folder, given: map<Number, string>, mid: string, n: Number) {
    TakesEffect(f, mid, n) && n in given && given[n] != mid
  }

  lemma AssignOwned(f: Folder, given: map<Number, string>, mid: string, n: Number)
    requires Owned(f, given)
    ensures Owned(Assign(f, mid, n), Given(given, f, mid, n)) <==> !Reuses(f, given, mid, n)
  {
    var g := Assign(f, mid, n);
    if Reuses(f, given, mid, n) {
      assert mid in g.uids && given[g.uids[mid]] != mid;
    }
  }

  predicate ReusesAt(f: Folder, given: map<Number, string>, mids: seq<string>, nums: seq<Number>, i: nat)
    requires i < |mids|
  {
    i < |nums| && Reuses(AssignFirst(f, mids, nums, i), GivenFirst(given, f, mids, nums, i), mids[i], nums[i])
  }

  /** A whole op that reuses no number at any of its turns. */
  lemma {:induction false} OpOwned(f: Folder, given: map<Number, string>, mids: seq<string>, nums: seq<Number>, k: nat)
    requires Owned(f, given) && k <= |mids| && forall i: nat :: i < k ==> !ReusesAt(f, given, mids, nums, i)
    ensures Owned(AssignFirst(f, mids, nums, k), GivenFirst(given, f, mids, nums, k))
  {
    hide Owned, Assign, Given, Reuses;
    if k > 0 {
      OpOwned(f, given, mids, nums, k - 1);
      if k <= |nums| {
        assert !ReusesAt(f, given, mids, nums, k - 1);
        AssignOwned(AssignFirst(f, mids, nums, k - 1), GivenFirst(given, f, mids, nums, k - 1), mids[k - 1], nums[k - 1]);
      }
    }
  }

  /** What the op adds to the history, messages have from there on; and first owners never change. */
  lemma {:induction false} OpGives(f: Folder, given: map<Number, string>, mids: seq<string>, nums: seq<Number>, k: nat)
    requires Indexed(f) && k <= |mids|
    ensures var g, now := AssignFirst(f, mids, nums, k), GivenFirst(given, f, mids, nums, k);
      && Indexed(g)
      && (forall n :: n in given ==> n in now && now[n] == given[n])
      && (forall n :: n in now && n !in given ==> now[n] in g.uids && g.uids[now[n]] == n)
  {
    hide Indexed;
    if k > 0 {
      OpGives(f, given, mids, nums, k - 1);
      if k <= |nums| {
        AssignIndexed(AssignFirst(f, mids, nums, k - 1), mids[k - 1], nums[k - 1]);
      }
    }
  }

  /** A number reused at some turn was given before the op, and its new message has it afterwards. */
  lemma ReuseShows(f: Folder, given: map<Number, string>, mids: seq<string>, nums: seq<Number>, i: nat)
    requires Indexed(f) && i < |mids| && ReusesAt(f, given, mids, nums, i)
    ensures var g := AssignFirst(f, mids, nums, |mids|);
      nums[i] in given && given[nums[i]] != mids[i] && mids[i] in g.uids && g.uids[mids[i]] == nums[i]
  {
    OpGives(f, given, mids, nums, i);
    var at := AssignFirst(f, mids, nums, i);
    assert AssignFirst(f, mids, nums, i + 1) == Assign(at, mids[i], nums[i]);
    hide Indexed;
    KeptFrom(f, mids, nums, i + 1, |mids|, mids[i]);
  }

  lemma {:induction false} KeptFrom(f: Folder, mids: seq<string>, nums: seq<Number>, j: nat, k: nat, mid: string)
    requires j <= k <= |mids| && mid in AssignFirst(f, mids, nums, j).uids
    ensures mid in AssignFirst(f, mids, nums, k).uids
         && AssignFirst(f, mids, nums, k).uids[mid] == AssignFirst(f, mids, nums, j).uids[mid]
    decreases k
  {
    if k > j {
      KeptFrom(f, mids, nums, j, k - 1, mid);
    }
  }

  // -- what keeps numbers from being reused --------------------------------------------------------

  /** Every number ever given lies below Next. */
  ghost predicate Below(f: Folder, given: map<Number, string>) {
    forall n :: n in given ==> n < f.next
  }

  /** If it takes effect at all, the number is Next or a later one, and not the last. */
  predicate InTurn(f: Folder, mid: string, n: Number) {
    TakesEffect(f, mid, n) ==> f.next <= n < LIMIT - 1
  }

  ghost predicate OpInTurn(f: Folder, mids: seq<string>, nums: seq<Number>, k: nat)
    requires k <= |mids|
  {
    forall i: nat :: i < k && i < |nums| ==> InTurn(AssignFirst(f, mids, nums, i), mids[i], nums[i])
  }

  lemma AssignInTurn(f: Folder, given: map<Number, string>, mid: string, n: Number)
    requires Below(f, given) && InTurn(f, mid, n)
    ensures Below(Assign(f, mid, n), Given(given, f, mid, n)) && !Reuses(f, given, mid, n)
  {
  }

  /** Then nothing is reused, at any turn. */
  lemma {:induction false} InTurnKeeps(f: Folder, given: map<Number, string>, mids: seq<string>, nums: seq<Number>, k: nat)
    requires k <= |mids| && Below(f, given) && OpInTurn(f, mids, nums, k)
    ensures Below(AssignFirst(f, mids, nums, k), GivenFirst(given, f, mids, nums, k))
    ensures forall i: nat :: i < k ==> !ReusesAt(f, given, mids, nums, i)
  {
    hide Below, InTurn, Assign, Given, Reuses;
    if k > 0 {
      InTurnKeeps(f, given, mids, nums, k - 1);
      if k <= |nums| {
        assert InTurn(AssignFirst(f, mids, nums, k - 1), mids[k - 1], nums[k - 1]);
        AssignInTurn(AssignFirst(f, mids, nums, k - 1), GivenFirst(given, f, mids, nums, k - 1), mids[k - 1], nums[k - 1]);
      }
    }
  }

  /** A batch made for the folder is in turn. */
  lemma BatchInTurn(f: Folder, mids: seq<string>)
    requires Numberable(f, mids)
    ensures OpInTurn(f, mids, Consecutive(f.next, |mids|), |mids|)
  {
    hide AssignFirst, Consecutive, Sound;
    forall i: nat | i < |mids|
      ensures InTurn(AssignFirst(f, mids, Consecutive(f.next, |mids|), i), mids[i], Consecutive(f.next, |mids|)[i])
    {
      BatchNumbered(f, mids, i);
      NumberAt(f, mids, i);
    }
  }

  /** An op that has been applied before is in turn: nothing of it takes effect. */
  lemma SettledInTurn(f: Folder, mids: seq<string>, nums: seq<Number>)
    requires Settled(f, mids, nums, |mids|)
    ensures OpInTurn(f, mids, nums, |mids|)
  {
    hide AssignFirst;
    forall i: nat | i < |mids| && i < |nums| ensures InTurn(AssignFirst(f, mids, nums, i), mids[i], nums[i]) {
      Replay(f, mids, nums, i);
    }
  }

  /** An op that was not made for the current document can give a retired number to another message. */
  lemma StaleOpReusesNumber()
    ensures var f := Assign(FRESH, "a", 1);
      Assign(Retire(f, "a"), "b", 1).uids["b"] == f.uids["a"]
  {
  }
}
