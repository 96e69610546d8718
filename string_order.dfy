/**
 * Swift's `<` on `String`, as `sorted(by: { $0.key < $1.key })` uses it:
 * lexicographic order on characters. The model compares character codes,
 * which agrees with Swift for ASCII names.
 */
module StringOrder {

  predicate Less(a: string, b: string)
    decreases |a|
  {
    if a == [] then b != []
    else if b == [] then false
    else a[0] < b[0] || (a[0] == b[0] && Less(a[1..], b[1..]))
  }

  /** Every two positions of `s` are in strictly ascending order. */
  predicate StrictlySorted(s: seq<string>) {
    forall i, j :: 0 <= i < j < |s| ==> Less(s[i], s[j])
  }

  lemma {:induction false} LessIrreflexive(a: string)
    ensures !Less(a, a)
    decreases |a|
  {
    if a != [] {
      LessIrreflexive(a[1..]);
    }
  }

  lemma {:induction false} LessTransitive(a: string, b: string, c: string)
    requires Less(a, b) && Less(b, c)
    ensures Less(a, c)
    decreases |a|
  {
    if a != [] && b != [] && c != [] && a[0] == b[0] && b[0] == c[0] {
      LessTransitive(a[1..], b[1..], c[1..]);
    }
  }

  lemma {:induction false} LessTotal(a: string, b: string)
    ensures a == b || Less(a, b) || Less(b, a)
    decreases |a|
  {
    if a != [] && b != [] && a[0] == b[0] {
      LessTotal(a[1..], b[1..]);
      if a[1..] == b[1..] {
        assert a == [a[0]] + a[1..] && b == [b[0]] + b[1..];
      }
    }
  }

  /** Every two distinct positions of a strictly sorted sequence hold different strings. */
  lemma SortedDistinct(s: seq<string>)
    requires StrictlySorted(s)
    ensures forall i, j :: 0 <= i < j < |s| ==> s[i] != s[j]
  {
    forall i, j | 0 <= i < j < |s|
      ensures s[i] != s[j]
    {
      LessIrreflexive(s[i]);
    }
  }

  /** `a` and `b` agree on their first `k` characters, after which `a` ends or has the smaller one. */
  predicate PrecedesAt(a: string, b: string, k: nat) {
    k <= |a| && k < |b| && (forall i :: 0 <= i < k ==> a[i] == b[i]) && (k == |a| || a[k] < b[k])
  }

  lemma {:induction false} LessAt(a: string, b: string, k: nat)
    requires PrecedesAt(a, b, k)
    ensures Less(a, b)
    decreases k
  {
    if k > 0 {
      assert a[0] == b[0];
      assert forall i :: 0 <= i < k - 1 ==> a[1..][i] == a[i + 1];
      assert forall i :: 0 <= i < k - 1 ==> b[1..][i] == b[i + 1];
      LessAt(a[1..], b[1..], k - 1);
    }
  }

  /** A sequence is strictly sorted when each string precedes the next one at a given position. */
  lemma {:induction false} SortedByPrefixes(s: seq<string>, ks: seq<nat>)
    requires |ks| + 1 == |s|
    requires forall i :: 0 <= i < |ks| ==> PrecedesAt(s[i], s[i + 1], ks[i])
    ensures StrictlySorted(s)
    decreases |s|
  {
    if |s| > 1 {
      var n := |s| - 1;
      var init := s[..n];
      SortedByPrefixes(init, ks[..n - 1]);
      LessAt(s[n - 1], s[n], ks[n - 1]);
      forall i, j | 0 <= i < j < |s|
        ensures Less(s[i], s[j])
      {
        if j < n {
          assert Less(init[i], init[j]);
        } else if i < n - 1 {
          assert Less(init[i], init[n - 1]);
          LessTransitive(s[i], s[n - 1], s[n]);
        }
      }
    }
  }

  /** Every string of `s` starts with `c`. */
  predicate AllStartWith(s: seq<string>, c: char) {
    forall i :: 0 <= i < |s| ==> |s[i]| > 0 && s[i][0] == c
  }

  /** Every string of `s` starts with a character below `c`. */
  predicate AllStartBelow(s: seq<string>, c: char) {
    forall i :: 0 <= i < |s| ==> |s[i]| > 0 && s[i][0] < c
  }

  /** Appending a sorted group of strings that share a later initial keeps a sequence sorted. */
  lemma JoinGroup(a: seq<string>, b: seq<string>, c: char, next: char)
    requires StrictlySorted(a) && AllStartBelow(a, c)
    requires StrictlySorted(b) && AllStartWith(b, c) && c < next
    ensures StrictlySorted(a + b) && AllStartBelow(a + b, next)
  {
    var s := a + b;
    forall i, j | 0 <= i < j < |s|
      ensures Less(s[i], s[j])
    {
      if j < |a| {
        assert Less(a[i], a[j]);
      } else if i >= |a| {
        assert Less(b[i - |a|], b[j - |a|]);
      } else {
        assert s[i][0] < c == s[j][0];
      }
    }
  }

  /** `k` is below every other element of `keys`. */
  predicate IsLeast(k: string, keys: set<string>) {
    k in keys && forall j :: j in keys && j != k ==> Less(k, j)
  }

  /** A finite non-empty set of names has a least element. */
  lemma {:induction false} LeastExists(keys: set<string>)
    requires keys != {}
    ensures exists k :: IsLeast(k, keys)
    decreases |keys|
  {
    var x :| x in keys;
    var others := keys - {x};
    if others == {} {
      assert keys == {x};
      assert IsLeast(x, keys);
    } else {
      LeastExists(others);
      var m :| IsLeast(m, others);
      LessTotal(x, m);
      if Less(x, m) {
        forall j | j in keys && j != x
          ensures Less(x, j)
        {
          if j != m {
            LessTransitive(x, m, j);
          }
        }
        assert IsLeast(x, keys);
      } else {
        assert IsLeast(m, keys);
      }
    }
  }
}
