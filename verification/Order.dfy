/** Names in byte order. */
module Order {

  predicate Before(a: string, b: string) {
    if b == "" then false
    else if a == "" then true
    else a[0] < b[0] || (a[0] == b[0] && Before(a[1..], b[1..]))
  }

  lemma {:induction false} Trichotomy(a: string, b: string)
    ensures Before(a, b) || a == b || Before(b, a)
    ensures Before(a, b) ==> a != b && !Before(b, a)
    decreases |a|
  {
    if a != "" && b != "" && a[0] == b[0] {
      Trichotomy(a[1..], b[1..]);
      assert a == [a[0]] + a[1..] && b == [b[0]] + b[1..];
    }
  }

  /** The names agree up to some place; there the one ends, or has the smaller letter. */
  ghost predicate DiffersAt(a: string, b: string, k: nat) {
    k <= |a| && k < |b| && a[..k] == b[..k] && (k == |a| || a[k] < b[k])
  }

  lemma {:induction false} BeforeWhen(a: string, b: string)
    ensures Before(a, b) <==> exists k :: DiffersAt(a, b, k)
    decreases |b|
  {
    if b != "" {
      if a == "" || a[0] < b[0] {
        assert DiffersAt(a, b, 0);
      } else if a[0] == b[0] {
        BeforeWhen(a[1..], b[1..]);
        if k: nat :| DiffersAt(a[1..], b[1..], k) {
          assert a[..k + 1] == [a[0]] + a[1..][..k] && b[..k + 1] == [b[0]] + b[1..][..k];
          assert DiffersAt(a, b, k + 1);
        }
        if k: nat :| DiffersAt(a, b, k) {
          DiffersLater(a, b, k);
        }
      }
    }
  }

  lemma DiffersLater(a: string, b: string, k: nat)
    requires a != "" && b != "" && a[0] == b[0] && DiffersAt(a, b, k)
    ensures k > 0 && DiffersAt(a[1..], b[1..], k - 1)
  {
    assert a[1..][..k - 1] == a[..k][1..] && b[1..][..k - 1] == b[..k][1..];
  }

  lemma {:induction false} Transitive(a: string, b: string, c: string)
    requires Before(a, b) && Before(b, c)
    ensures Before(a, c)
  {
    if a != "" && b != "" && a[0] == b[0] == c[0] {
      Transitive(a[1..], b[1..], c[1..]);
    }
  }

  ghost predicate Ascending(names: seq<string>) {
    forall i, j :: 0 <= i < j < |names| ==> Before(names[i], names[j])
  }

  ghost predicate IsLeast(names: set<string>, n: string) {
    n in names && forall k :: k in names && k != n ==> Before(n, k)
  }

  lemma {:induction false} LeastExists(names: set<string>)
    requires names != {}
    ensures exists n :: IsLeast(names, n)
  {
    hide Before;
    var n :| n in names;
    if names == {n} {
      assert IsLeast(names, n);
    } else {
      LeastExists(names - {n});
      var m :| IsLeast(names - {n}, m);
      Trichotomy(n, m);
      if Before(n, m) {
        forall k | k in names && k != n && k != m ensures Before(n, k) {
          Transitive(n, m, k);
        }
        assert IsLeast(names, n);
      } else {
        assert IsLeast(names, m);
      }
    }
  }

  method Least(names: set<string>) returns (n: string)
    requires names != {}
    ensures IsLeast(names, n)
  {
    LeastExists(names);
    n :| n in names && forall k :: k in names && k != n ==> Before(n, k);
  }

  /** The names in ascending order, each once. */
  method Sorted(names: set<string>) returns (s: seq<string>)
    ensures Ascending(s) && (forall n :: n in s <==> n in names)
  {
    hide Before;
    s := [];
    var todo := names;
    while todo != {}
      invariant todo <= names && Ascending(s)
      invariant forall n :: n in s <==> n in names && n !in todo
      invariant forall n, k :: n in s && k in todo ==> Before(n, k)
    {
      var n := Least(todo);
      s := s + [n];
      todo := todo - {n};
    }
  }

  lemma AscendingDistinct(s: seq<string>)
    requires Ascending(s)
    ensures forall i, j :: 0 <= i < j < |s| ==> s[i] != s[j]
  {
    forall i, j | 0 <= i < j < |s| ensures s[i] != s[j] {
      Trichotomy(s[i], s[j]);
    }
  }
}
