/**
 * The order `Array.prototype.toSorted()` uses when no comparator is given:
 * strings compared character by character, a proper prefix first.
 */
module StringOrder {

  /** `a < b` on strings. */
  predicate Below(a: string, b: string) {
    if a == [] then b != []
    else if b == [] then false
    else if a[0] != b[0] then a[0] < b[0]
    else Below(a[1..], b[1..])
  }

  lemma {:induction false} BelowIrreflexive(a: string)
    ensures !Below(a, a)
  {
    if a != [] {
      BelowIrreflexive(a[1..]);
    }
  }

  lemma {:induction false} BelowTransitive(a: string, b: string, c: string)
    requires Below(a, b) && Below(b, c)
    ensures Below(a, c)
  {
    if a != [] && b != [] && c != [] && a[0] == b[0] && b[0] == c[0] {
      BelowTransitive(a[1..], b[1..], c[1..]);
    }
  }

  lemma {:induction false} BelowTotal(a: string, b: string)
    requires a != b
    ensures Below(a, b) || Below(b, a)
  {
    if a != [] && b != [] && a[0] == b[0] {
      assert a == [a[0]] + a[1..] && b == [b[0]] + b[1..];
      BelowTotal(a[1..], b[1..]);
    }
  }

  lemma BelowAsymmetric(a: string, b: string)
    requires Below(a, b)
    ensures !Below(b, a)
  {
    if Below(b, a) {
      BelowTransitive(a, b, a);
      BelowIrreflexive(a);
    }
  }

  /** Every element strictly below the next: sorted ascending without repeats. */
  predicate StrictlySorted(s: seq<string>) {
    forall i, j :: 0 <= i < j < |s| ==> Below(s[i], s[j])
  }

  predicate Distinct(s: seq<string>) {
    forall i, j :: 0 <= i < j < |s| ==> s[i] != s[j]
  }

  function Insert(x: string, s: seq<string>): seq<string> {
    if s == [] then [x]
    else if Below(s[0], x) then [s[0]] + Insert(x, s[1..])
    else [x] + s
  }

  /** `[...ids].toSorted()`: insertion sort. */
  function SortStrings(s: seq<string>): seq<string> {
    if s == [] then [] else Insert(s[0], SortStrings(s[1..]))
  }

  lemma {:induction false} InsertSorted(x: string, s: seq<string>)
    requires StrictlySorted(s) && x !in s
    ensures StrictlySorted(Insert(x, s))
    ensures multiset(Insert(x, s)) == multiset(s) + multiset{x}
  {
    if s == [] {
    } else if Below(s[0], x) {
      var tail := Insert(x, s[1..]);
      InsertSorted(x, s[1..]);
      assert s == [s[0]] + s[1..];
      forall k | 0 <= k < |tail|
        ensures Below(s[0], tail[k])
      {
        assert tail[k] in multiset(tail);
        if tail[k] != x {
          assert tail[k] in s[1..];
        }
      }
    } else {
      BelowTotal(x, s[0]);
      forall j | 0 <= j < |s|
        ensures Below(x, s[j])
      {
        if j > 0 {
          BelowTransitive(x, s[0], s[j]);
        }
      }
      assert Insert(x, s) == [x] + s;
    }
  }

  /** Sorting distinct strings gives them in strictly ascending order, and nothing else. */
  lemma {:induction false} SortStringsCorrect(s: seq<string>)
    requires Distinct(s)
    ensures StrictlySorted(SortStrings(s))
    ensures multiset(SortStrings(s)) == multiset(s)
  {
    if s != [] {
      assert s == [s[0]] + s[1..];
      SortStringsCorrect(s[1..]);
      assert s[0] !in s[1..];
      assert s[0] !in multiset(SortStrings(s[1..]));
      InsertSorted(s[0], SortStrings(s[1..]));
    }
  }

  /** A strictly sorted sequence is determined by its elements. */
  lemma SortedHasNoRepeats(s: seq<string>)
    requires StrictlySorted(s)
    ensures Distinct(s)
  {
    forall i, j | 0 <= i < j < |s|
      ensures s[i] != s[j]
    {
      if s[i] == s[j] {
        BelowIrreflexive(s[i]);
      }
    }
  }
}
