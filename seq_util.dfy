/**
  Concatenating the records produced for each entry of a sequence, and the facts about
  where each entry's records land in the result.
 */
module SeqUtil {

  /** `f(s[0]) + f(s[1]) + ... + f(s[|s| - 1])`. */
  function FlatMap<T, R>(s: seq<T>, f: T -> seq<R>): seq<R>
  {
    if s == [] then [] else f(s[0]) + FlatMap(s[1..], f)
  }

  /** Handling one more entry appends exactly that entry's records. */
  lemma {:induction false} FlatMapAppend<T, R>(s: seq<T>, x: T, f: T -> seq<R>)
    ensures FlatMap(s + [x], f) == FlatMap(s, f) + f(x)
  {
    if s == [] {
      assert [] + [x] == [x];
    } else {
      assert (s + [x])[1..] == s[1..] + [x];
      FlatMapAppend(s[1..], x, f);
    }
  }

  /** When every entry yields `k` records, `n` entries yield `k * n`. */
  lemma {:induction false} FlatMapLength<T, R>(s: seq<T>, f: T -> seq<R>, k: nat)
    requires forall x :: |f(x)| == k
    ensures |FlatMap(s, f)| == k * |s|
  {
    if s != [] {
      FlatMapLength(s[1..], f, k);
    }
  }

  /** The records of two entry sequences, one after the other. */
  lemma {:induction false} FlatMapConcat<T, R>(a: seq<T>, b: seq<T>, f: T -> seq<R>)
    ensures FlatMap(a + b, f) == FlatMap(a, f) + FlatMap(b, f)
  {
    if a == [] {
      assert a + b == b;
    } else {
      assert (a + b)[1..] == a[1..] + b;
      FlatMapConcat(a[1..], b, f);
    }
  }

  /** Record `j` of entry `i` follows the records of the entries before it. */
  lemma FlatMapAt<T, R>(s: seq<T>, f: T -> seq<R>, i: nat, j: nat)
    requires i < |s| && j < |f(s[i])|
    ensures |FlatMap(s[..i], f)| + j < |FlatMap(s, f)|
    ensures FlatMap(s, f)[|FlatMap(s[..i], f)| + j] == f(s[i])[j]
  {
    assert s == s[..i] + ([s[i]] + s[i + 1..]);
    FlatMapConcat(s[..i], [s[i]] + s[i + 1..], f);
    FlatMapConcat([s[i]], s[i + 1..], f);
    assert FlatMap([s[i]], f) == f(s[i]) by {
      assert [s[i]][1..] == [];
    }
  }

  /** Every record of the result comes from some entry. */
  lemma {:induction false} FlatMapSource<T, R>(s: seq<T>, f: T -> seq<R>, p: nat) returns (i: nat, j: nat)
    requires p < |FlatMap(s, f)|
    ensures i < |s| && j < |f(s[i])|
    ensures p == |FlatMap(s[..i], f)| + j
    ensures FlatMap(s, f)[p] == f(s[i])[j]
  {
    if p < |f(s[0])| {
      i, j := 0, p;
      assert s[..0] == [];
    } else {
      var i', j' := FlatMapSource(s[1..], f, p - |f(s[0])|);
      i, j := i' + 1, j';
      assert s[..i][1..] == s[1..][..i'];
    }
  }

  /** The loop step: the first `i + 1` entries yield the first `i` entries' records, then entry `i`'s. */
  lemma FlatMapStep<T, R>(s: seq<T>, i: nat, f: T -> seq<R>)
    requires i < |s|
    ensures FlatMap(s[..i + 1], f) == FlatMap(s[..i], f) + f(s[i])
  {
    assert s[..i + 1] == s[..i] + [s[i]];
    FlatMapAppend(s[..i], s[i], f);
  }

  lemma AppendAssoc<T>(a: seq<T>, b: seq<T>, c: seq<T>)
    ensures a + (b + c) == a + b + c
  {
  }

  /** An earlier entry's records all come before a later entry's. */
  lemma FlatMapPrefixGrows<T, R>(s: seq<T>, f: T -> seq<R>, i: nat, k: nat)
    requires i < k <= |s|
    ensures |FlatMap(s[..i], f)| + |f(s[i])| <= |FlatMap(s[..k], f)|
  {
    assert s[..k] == s[..i] + ([s[i]] + s[i + 1..k]);
    FlatMapConcat(s[..i], [s[i]] + s[i + 1..k], f);
    FlatMapConcat([s[i]], s[i + 1..k], f);
    assert FlatMap([s[i]], f) == f(s[i]) by {
      assert [s[i]][1..] == [];
    }
  }

  /**
    Where the parts of `r == a + b + c + d + e` sit: given the length `o` of everything before a
    part, record `k` of that part is at position `q == o + k` of `r`.
   */
  lemma SecondPartAt<T>(
    r: seq<T>, a: seq<T>, b: seq<T>, c: seq<T>, d: seq<T>, e: seq<T>, o: nat, k: nat, q: nat, x: T)
    requires r == a + b + c + d + e
    requires o == |a| && k < |b| && b[k] == x
    requires q == o + k
    ensures q < |r| && r[q] == x
  {
  }

  lemma ThirdPartAt<T>(
    r: seq<T>, a: seq<T>, b: seq<T>, c: seq<T>, d: seq<T>, e: seq<T>, o: nat, k: nat, q: nat, x: T)
    requires r == a + b + c + d + e
    requires o == |a| + |b| && k < |c| && c[k] == x
    requires q == o + k
    ensures q < |r| && r[q] == x
  {
  }

  lemma FourthPartAt<T>(
    r: seq<T>, a: seq<T>, b: seq<T>, c: seq<T>, d: seq<T>, e: seq<T>, o: nat, k: nat, q: nat, x: T)
    requires r == a + b + c + d + e
    requires o == |a| + |b| + |c| && k < |d| && d[k] == x
    requires q == o + k
    ensures q < |r| && r[q] == x
  {
  }

  lemma FifthPartAt<T>(
    r: seq<T>, a: seq<T>, b: seq<T>, c: seq<T>, d: seq<T>, e: seq<T>, o: nat, k: nat, q: nat, x: T)
    requires r == a + b + c + d + e
    requires o == |a| + |b| + |c| + |d| && k < |e| && e[k] == x
    requires q == o + k
    ensures q < |r| && r[q] == x
  {
  }
}
