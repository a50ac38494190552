/** Optional values, standing in for the `T | null` results of the dashboard code. */
module Wrappers {

  datatype Option<+T> = None | Some(value: T)

  /** The present values of a sequence of optional values, in order: what
      `results.forEach(r => { if (r) out.push(r) })` leaves in `out`. */
  function Somes<T>(s: seq<Option<T>>): seq<T>
  {
    if |s| == 0 then []
    else Somes(s[..|s| - 1]) + (if s[|s| - 1].Some? then [s[|s| - 1].value] else [])
  }

  /** Keeping the present values distributes over concatenation, so a scan
      that handles its inputs left to right, in chunks, keeps them in order. */
  lemma {:induction false} SomesAppend<T>(a: seq<Option<T>>, b: seq<Option<T>>)
    ensures Somes(a + b) == Somes(a) + Somes(b)
    decreases |b|
  {
    if |b| == 0 {
      assert a + b == a;
    } else {
      var n := |b| - 1;
      assert (a + b)[..|a + b| - 1] == a + b[..n];
      SomesAppend(a, b[..n]);
    }
  }

  /** One more optional value, kept when present. */
  lemma SomesSnoc<T>(s: seq<Option<T>>, j: nat)
    requires j < |s|
    ensures Somes(s[..j + 1]) == Somes(s[..j]) + (if s[j].Some? then [s[j].value] else [])
  {
    assert s[..j + 1][..j] == s[..j];
  }

  /** `rs.forEach(r => { if (r) out.push(r) })` on an array `out` that
      already holds `acc`. */
  method PushPresent<T>(acc: seq<T>, rs: seq<Option<T>>) returns (out: seq<T>)
    ensures out == acc + Somes(rs)
  {
    out := acc;
    for j := 0 to |rs|
      invariant out == acc + Somes(rs[..j])
    {
      SomesSnoc(rs, j);
      if rs[j].Some? {
        out := out + [rs[j].value];
      }
    }
    assert rs[..|rs|] == rs;
  }

  /** A value is kept exactly when it was present, and nothing else is kept. */
  lemma {:induction false} SomesMembership<T>(s: seq<Option<T>>, x: T)
    ensures x in Somes(s) <==> Some(x) in s
    ensures |Somes(s)| <= |s|
  {
    if |s| > 0 {
      var n := |s| - 1;
      SomesMembership(s[..n], x);
      assert s == s[..n] + [s[n]];
    }
  }

  /** When every value is present, all of them are kept. */
  lemma {:induction false} AllPresent<T>(s: seq<Option<T>>)
    requires forall i :: 0 <= i < |s| ==> s[i].Some?
    ensures |Somes(s)| == |s|
  {
    if |s| > 0 {
      AllPresent(s[..|s| - 1]);
    }
  }

  /** Two adjacent slices make up the slice that spans both. */
  lemma AdjacentSlices<T>(s: seq<T>, i: nat, j: nat, k: nat)
    requires i <= j <= k <= |s|
    ensures s[i..j] + s[j..k] == s[i..k]
  {
  }

  /** The prefix as long as the sequence is the sequence. */
  lemma WholePrefix<T>(s: seq<T>)
    ensures s[..|s|] == s
  {
  }

  /** No element occurs twice. */
  predicate NoRepeats<T(==)>(s: seq<T>)
  {
    forall i, j :: 0 <= i < j < |s| ==> s[i] != s[j]
  }

  /** Taking one more element of a prefix. */
  lemma PrefixSnoc<T>(s: seq<T>, j: nat)
    requires j < |s|
    ensures s[..j + 1] == s[..j] + [s[j]]
  {
  }
}
