/** The two JavaScript string operations the core relies on, with the
    semantics of the ECMAScript built-ins for the cases the core uses:
    `String.prototype.split` with a one-character separator and
    `Array.prototype.join` with a string separator. */
module JsStrings {

  /** Position of the first `c` in `s`, or `|s|` when `s` holds none. */
  function IndexOf(s: string, c: char): (i: nat)
    ensures i <= |s|
    ensures forall k :: 0 <= k < i ==> s[k] != c
    ensures i < |s| ==> s[i] == c
    ensures i == |s| <==> c !in s
  {
    if |s| == 0 then 0
    else if s[0] == c then 0
    else 1 + IndexOf(s[1..], c)
  }

  /** `s.split(sep)`: the maximal runs of `s` between separators, in order.
      An empty string splits into one empty piece, and every separator
      opens a new piece, so `n` separators give `n + 1` pieces. */
  function Split(s: string, sep: char): (pieces: seq<string>)
    ensures |pieces| >= 1
    ensures forall k :: 0 <= k < |pieces| ==> sep !in pieces[k]
  {
    if |s| == 0 then [""]
    else
      var rest := Split(s[1..], sep);
      if s[0] == sep then [""] + rest
      else [[s[0]] + rest[0]] + rest[1..]
  }

  /** The first piece of a split is everything before the first separator;
      the remaining pieces are the split of what follows it. */
  lemma {:induction false} SplitFirst(s: string, sep: char)
    ensures Split(s, sep)[0] == s[..IndexOf(s, sep)]
    ensures sep !in s ==> |Split(s, sep)| == 1
    ensures sep in s ==> Split(s, sep)[1..] == Split(s[IndexOf(s, sep) + 1..], sep)
  {
    if |s| > 0 && s[0] != sep {
      var tail := s[1..];
      SplitFirst(tail, sep);
      var j := IndexOf(tail, sep);
      assert s[..j + 1] == [s[0]] + tail[..j];
      if sep in s {
        assert sep in tail;
        assert tail[j + 1..] == s[j + 2..];
      }
    }
  }

  /** `xs.join(sep)`: the elements in order with `sep` between neighbours. */
  function Join(xs: seq<string>, sep: string): (s: string)
    ensures |xs| == 0 ==> s == ""
    ensures |xs| > 0 ==> |xs[0]| <= |s| && s[..|xs[0]|] == xs[0]
  {
    if |xs| == 0 then ""
    else if |xs| == 1 then xs[0]
    else xs[0] + sep + Join(xs[1..], sep)
  }

  /** The summed lengths of the strings in `xs`. */
  function TotalLength(xs: seq<string>): nat
  {
    if |xs| == 0 then 0 else |xs[0]| + TotalLength(xs[1..])
  }

  /** Where `xs[i]` starts in `Join(xs, sep)`: after the `i` elements before it
      and the `i` separators that follow them. */
  function JoinOffset(xs: seq<string>, sep: string, i: nat): nat
    requires i <= |xs|
  {
    TotalLength(xs[..i]) + i * |sep|
  }

  /** A join of `n > 0` strings holds exactly `n - 1` separators besides the
      strings themselves. */
  lemma {:induction false} JoinLength(xs: seq<string>, sep: string)
    ensures |Join(xs, sep)| == TotalLength(xs) + (if |xs| == 0 then 0 else (|xs| - 1) * |sep|)
  {
    if |xs| > 1 {
      JoinLength(xs[1..], sep);
      assert (|xs| - 1) * |sep| == (|xs| - 2) * |sep| + |sep|;
    }
  }

  /** Every element occurs verbatim in the join at its offset, in order, and
      a separator follows each element but the last. */
  lemma {:induction false} JoinAt(xs: seq<string>, sep: string, i: nat)
    requires i < |xs|
    ensures JoinOffset(xs, sep, i) + |xs[i]| <= |Join(xs, sep)|
    ensures Join(xs, sep)[JoinOffset(xs, sep, i)..JoinOffset(xs, sep, i) + |xs[i]|] == xs[i]
    ensures i + 1 < |xs| ==>
      JoinOffset(xs, sep, i) + |xs[i]| + |sep| <= |Join(xs, sep)| &&
      Join(xs, sep)[JoinOffset(xs, sep, i) + |xs[i]|..JoinOffset(xs, sep, i) + |xs[i]| + |sep|] == sep
  {
    if i == 0 {
      assert xs[..0] == [];
    } else {
      var rest := xs[1..];
      JoinAt(rest, sep, i - 1);
      assert xs[..i][1..] == rest[..i - 1];
      assert TotalLength(xs[..i]) == |xs[0]| + TotalLength(rest[..i - 1]);
      assert i * |sep| == |sep| + (i - 1) * |sep|;
      var head := xs[0] + sep;
      assert JoinOffset(xs, sep, i) == |head| + JoinOffset(rest, sep, i - 1);
      assert Join(xs, sep) == head + Join(rest, sep);
    }
  }
}
