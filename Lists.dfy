/** The array expressions the editors and list views are built from:
    `filter`, spread-append of a trimmed input, and `filter` by index. */
module Lists {
  import opened Text

  predicate NoDup<T(==)>(s: seq<T>) {
    forall i, j :: 0 <= i < j < |s| ==> s[i] != s[j]
  }

  /** `a` is `b` with some elements left out, in the same order. */
  predicate IsSubseq<T(==)>(a: seq<T>, b: seq<T>)
    decreases |b|
  {
    a == [] || (b != [] && ((a[0] == b[0] && IsSubseq(a[1..], b[1..])) || IsSubseq(a, b[1..])))
  }

  lemma {:induction false} SubseqIn<T>(a: seq<T>, b: seq<T>, x: T)
    requires IsSubseq(a, b) && x in a
    ensures x in b
    decreases |b|
  {
    if a[0] == b[0] && IsSubseq(a[1..], b[1..]) {
      if x != a[0] {
        SubseqIn(a[1..], b[1..], x);
      }
    } else {
      SubseqIn(a, b[1..], x);
    }
  }

  /** Leaving elements out of a duplicate-free list keeps it duplicate-free. */
  lemma {:induction false} SubseqNoDup<T>(a: seq<T>, b: seq<T>)
    requires IsSubseq(a, b) && NoDup(b)
    ensures NoDup(a)
    decreases |b|
  {
    if a != [] {
      assert NoDup(b[1..]) by {
        forall i, j | 0 <= i < j < |b[1..]| ensures b[1..][i] != b[1..][j] {
          assert b[1..][i] == b[i + 1] && b[1..][j] == b[j + 1];
        }
      }
      if a[0] == b[0] && IsSubseq(a[1..], b[1..]) {
        SubseqNoDup(a[1..], b[1..]);
        forall k | 0 <= k < |a[1..]| ensures a[1..][k] != a[0] {
          SubseqIn(a[1..], b[1..], a[1..][k]);
        }
        forall i, j | 0 <= i < j < |a| ensures a[i] != a[j] {
          if i == 0 {
            assert a[j] == a[1..][j - 1];
          } else {
            assert a[i] == a[1..][i - 1] && a[j] == a[1..][j - 1];
          }
        }
      } else {
        SubseqNoDup(a, b[1..]);
      }
    }
  }

  /** `s.filter(keep)`: the elements that pass, in their order, each as
      often as in `s`. */
  function Filter<T(!new)>(s: seq<T>, keep: T -> bool): (r: seq<T>)
    ensures |r| <= |s|
    ensures IsSubseq(r, s)
    ensures forall x :: x in r <==> x in s && keep(x)
    ensures forall x :: keep(x) ==> multiset(r)[x] == multiset(s)[x]
    ensures (forall x :: x in s ==> keep(x)) ==> r == s
  {
    if s == [] then []
    else
      var rest := Filter(s[1..], keep);
      assert s == [s[0]] + s[1..];
      if keep(s[0]) then
        var r := [s[0]] + rest;
        assert r[1..] == rest;
        r
      else
        rest
  }

  /** `s.filter(x => x !== v)`: every copy of `v` is removed, every other
      element stays, with its multiplicity and its order. */
  function RemoveValue<T(==,!new)>(s: seq<T>, v: T): (r: seq<T>)
    ensures v !in r
    ensures IsSubseq(r, s)
    ensures forall x :: x != v ==> multiset(r)[x] == multiset(s)[x]
    ensures v !in s ==> r == s
    ensures NoDup(s) ==> NoDup(r)
  {
    var r := Filter(s, x => x != v);
    if NoDup(s) then SubseqNoDup(r, s); r else r
  }

  /** `s.filter((_, i) => i !== index)`: exactly position `index` is deleted;
      an index outside the list deletes nothing. */
  function RemoveAt<T>(s: seq<T>, index: int): (r: seq<T>)
    ensures 0 <= index < |s| ==> r == s[..index] + s[index + 1..]
    ensures !(0 <= index < |s|) ==> r == s
  {
    if s == [] then []
    else if index == 0 then s[1..]
    else
      var rest := RemoveAt(s[1..], index - 1);
      assert 0 < index < |s| ==> [s[0]] + s[1..][..index - 1] == s[..index];
      assert s == [s[0]] + s[1..];
      [s[0]] + rest
  }

  /** `addTag`/`addImage`/`addSkill`: append `input.trim()` when it is not
      empty and not already present; otherwise the list is unchanged. The
      list keeps its prefix, grows by at most one, and stays duplicate-free. */
  function AddUnique(s: seq<string>, input: string): (r: seq<string>)
    ensures |r| == |s| || |r| == |s| + 1
    ensures r[..|s|] == s
    ensures |r| == |s| + 1 <==> Trim(input) != "" && Trim(input) !in s
    ensures |r| == |s| + 1 ==> r[|s|] == Trim(input)
    ensures NoDup(s) ==> NoDup(r)
  {
    var t := Trim(input);
    if t != "" && t !in s then s + [t] else s
  }

  /** `addProcessStep`/`addResult`: append `input.trim()` when it is not
      empty, duplicates allowed. */
  function AddNonEmpty(s: seq<string>, input: string): (r: seq<string>)
    ensures |r| == if Trim(input) == "" then |s| else |s| + 1
    ensures r[..|s|] == s
    ensures |r| == |s| + 1 ==> r[|s|] == Trim(input)
  {
    var t := Trim(input);
    if t != "" then s + [t] else s
  }

  /** `s.filter(keep).length`. */
  function Count<T(!new)>(s: seq<T>, keep: T -> bool): (n: nat)
    ensures n <= |s|
  {
    |Filter(s, keep)|
  }

  /** Every element passes one test or its negation, so the two counts add
      up to the length. */
  lemma {:induction false} CountSplits<T(!new)>(s: seq<T>, keep: T -> bool, reject: T -> bool)
    requires forall x :: reject(x) == !keep(x)
    ensures Count(s, keep) + Count(s, reject) == |s|
  {
    if s != [] {
      CountSplits(s[1..], keep, reject);
    }
  }

  /** The count equals the length exactly when every element passes. */
  lemma {:induction false} CountAll<T(!new)>(s: seq<T>, keep: T -> bool)
    ensures Count(s, keep) == |s| <==> forall x :: x in s ==> keep(x)
  {
    if s != [] {
      CountAll(s[1..], keep);
      assert s == [s[0]] + s[1..];
      if !keep(s[0]) {
        assert |Filter(s, keep)| == |Filter(s[1..], keep)| <= |s[1..]|;
      }
    }
  }
}
