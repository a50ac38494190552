/** The focused-pair strings such as "AVAX-JOE-USDC.e", which both scans cut
    apart with `pairCombo.split("-")` and destructure into three tokens, and
    which an opportunity's `pairs` label glues back together. */
module PairCombos {

  const Separator: char := '-'

  /** `s.split(sep)` of JavaScript: the pieces between separators, in order,
      with an empty piece around each separator that has nothing beside it. */
  function Split(s: string, sep: char): (parts: seq<string>)
    ensures |parts| >= 1
    ensures forall i :: 0 <= i < |parts| ==> sep !in parts[i]
  {
    if |s| == 0 then [""]
    else
      var rest := Split(s[1..], sep);
      if s[0] == sep then [""] + rest
      else [[s[0]] + rest[0]] + rest[1..]
  }

  /** `parts.join(sep)`. */
  function Join(parts: seq<string>, sep: char): string
    requires |parts| >= 1
  {
    if |parts| == 1 then parts[0] else parts[0] + [sep] + Join(parts[1..], sep)
  }

  lemma {:induction false} JoinSplit(s: string, sep: char)
    ensures Join(Split(s, sep), sep) == s
  {
    if |s| > 0 {
      var rest := Split(s[1..], sep);
      JoinSplit(s[1..], sep);
      if s[0] == sep {
        assert ([""] + rest)[1..] == rest;
      } else {
        var parts := [[s[0]] + rest[0]] + rest[1..];
        if |rest| == 1 {
          assert parts == [[s[0]] + rest[0]];
        } else {
          assert parts[1..] == rest[1..];
          assert Join(rest, sep) == rest[0] + [sep] + Join(rest[1..], sep);
        }
      }
    }
  }

  /** A piece without the separator, followed by anything, splits into that
      piece glued to the first piece of the rest. */
  lemma {:induction false} SplitPrefix(w: string, t: string, sep: char)
    requires sep !in w
    ensures Split(w + t, sep) == [w + Split(t, sep)[0]] + Split(t, sep)[1..]
  {
    if |w| > 0 {
      var rest := Split(t, sep);
      SplitPrefix(w[1..], t, sep);
      assert (w + t)[0] == w[0] && w[0] != sep;
      assert (w + t)[1..] == w[1..] + t;
      var r := Split(w[1..] + t, sep);
      assert r == [w[1..] + rest[0]] + rest[1..];
      assert r[0] == w[1..] + rest[0] && r[1..] == rest[1..];
      assert Split(w + t, sep) == [[w[0]] + r[0]] + r[1..];
      assert [w[0]] + (w[1..] + rest[0]) == w + rest[0];
    } else {
      var rest := Split(t, sep);
      assert w + t == t;
      assert w + rest[0] == rest[0];
      assert rest == [rest[0]] + rest[1..];
    }
  }

  /** Splitting undoes joining pieces that hold no separator. */
  lemma {:induction false} SplitJoin(parts: seq<string>, sep: char)
    requires |parts| >= 1
    requires forall i :: 0 <= i < |parts| ==> sep !in parts[i]
    ensures Split(Join(parts, sep), sep) == parts
  {
    if |parts| == 1 {
      SplitPrefix(parts[0], "", sep);
      assert Split("", sep) == [""];
      assert parts[0] + "" == parts[0];
    } else {
      var tail := Join(parts[1..], sep);
      SplitJoin(parts[1..], sep);
      assert ([sep] + tail)[1..] == tail;
      assert parts[0] + [sep] + tail == parts[0] + ([sep] + tail);
      SplitPrefix(parts[0], [sep] + tail, sep);
      assert ([sep] + tail)[0] == sep;
      assert Split([sep] + tail, sep) == [""] + parts[1..];
      assert parts[0] + "" == parts[0];
      assert parts == [parts[0]] + parts[1..];
    }
  }

  /** The i-th destructured piece; a missing piece is JavaScript's `undefined`,
      which prints as "undefined" wherever the code builds a string from it. */
  function Piece(parts: seq<string>, i: nat): string
  {
    if i < |parts| then parts[i] else "undefined"
  }

  /** `const [pair1, pair2, pair3] = pairCombo.split("-")`. */
  function ComboTokens(combo: string): (string, string, string)
  {
    var parts := Split(combo, Separator);
    (Piece(parts, 0), Piece(parts, 1), Piece(parts, 2))
  }

  /** For a combo of exactly three tokens the opportunity's label
      `${pair1}-${pair2}-${pair3}` is the combo itself. */
  lemma ThreeTokenLabel(combo: string)
    requires |Split(combo, Separator)| == 3
    ensures var (a, b, c) := ComboTokens(combo); a + "-" + b + "-" + c == combo
  {
    var parts := Split(combo, Separator);
    JoinSplit(combo, Separator);
    assert parts[1..][1..] == [parts[2]];
    assert Join(parts[1..][1..], Separator) == parts[2];
    assert Join(parts[1..], Separator) == parts[1] + [Separator] + parts[2];
    assert Join(parts, Separator) == parts[0] + [Separator] + (parts[1] + [Separator] + parts[2]);
    assert "-" == [Separator];
  }
}
