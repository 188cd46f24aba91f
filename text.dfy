/**
 * The few JavaScript string built-ins the handler relies on: the decimal
 * rendering of an index in a template literal and `Array.prototype.join`.
 * `Split` (the behaviour of `String.prototype.split` with a one-character
 * separator) and `DigitsValue` are not used by the handler; they are the
 * reference readers against which the renderings are proved.
 */
module Text {

  predicate IsDigit(c: char) {
    '0' <= c <= '9'
  }

  predicate AllDigits(s: string) {
    forall i :: 0 <= i < |s| ==> IsDigit(s[i])
  }

  function DigitChar(d: nat): (c: char)
    requires d < 10
    ensures IsDigit(c) && c as int - '0' as int == d
  {
    ('0' as int + d) as char
  }

  /** Decimal text of a natural number, as `${n}` renders it in a template literal. */
  function NatToString(n: nat): (s: string)
    ensures |s| >= 1 && AllDigits(s)
    ensures s[0] == '0' ==> n == 0
    decreases n
  {
    if n < 10 then [DigitChar(n)] else NatToString(n / 10) + [DigitChar(n % 10)]
  }

  /** The number a string of decimal digits denotes. */
  function DigitsValue(s: string): nat
    requires AllDigits(s)
    decreases |s|
  {
    if s == [] then 0
    else DigitsValue(s[..|s| - 1]) * 10 + (s[|s| - 1] as int - '0' as int)
  }

  lemma {:induction false} NatToStringValue(n: nat)
    ensures DigitsValue(NatToString(n)) == n
    decreases n
  {
    if n >= 10 {
      NatToStringValue(n / 10);
      var s := NatToString(n);
      assert s[..|s| - 1] == NatToString(n / 10);
    }
  }

  /** `xs.join(sep)`: the elements separated by `sep`; the empty array joins to "". */
  function Join(xs: seq<string>, sep: string): (r: string)
    ensures xs == [] ==> r == ""
    ensures xs != [] ==> xs[0] <= r
    decreases |xs|
  {
    if |xs| == 0 then ""
    else if |xs| == 1 then xs[0]
    else xs[0] + sep + Join(xs[1..], sep)
  }

  /** The position of the first `sep` in `s`, or |s| when there is none. */
  function IndexOf(s: string, sep: char): (i: nat)
    ensures i <= |s|
    ensures i < |s| ==> s[i] == sep
    ensures forall k :: 0 <= k < i ==> s[k] != sep
    decreases |s|
  {
    if s == [] || s[0] == sep then 0 else 1 + IndexOf(s[1..], sep)
  }

  /** `s.split(sep)` for a one-character separator: the text up to each `sep`, and the rest. */
  function Split(s: string, sep: char): (parts: seq<string>)
    ensures |parts| >= 1
    decreases |s|
  {
    var i := IndexOf(s, sep);
    if i == |s| then [s] else [s[..i]] + Split(s[i + 1..], sep)
  }

  /** The concatenation of the pieces each segment splits into. */
  function SplitAll(segments: seq<string>, sep: char): seq<string>
    decreases |segments|
  {
    if segments == [] then [] else Split(segments[0], sep) + SplitAll(segments[1..], sep)
  }

  lemma {:induction false} IndexOfAbsent(s: string, sep: char)
    requires sep !in s
    ensures IndexOf(s, sep) == |s|
    decreases |s|
  {
    if s != [] {
      assert s[0] in s;
      assert forall c :: c in s[1..] ==> c in s;
      IndexOfAbsent(s[1..], sep);
    }
  }

  lemma SplitWithoutSeparator(s: string, sep: char)
    requires sep !in s
    ensures Split(s, sep) == [s]
  {
    IndexOfAbsent(s, sep);
  }

  lemma {:induction false} IndexOfInPrefix(a: string, t: string, sep: char)
    requires IndexOf(a, sep) < |a|
    ensures IndexOf(a + t, sep) == IndexOf(a, sep)
    decreases |a|
  {
    assert (a + t)[0] == a[0];
    if a[0] != sep {
      assert (a + t)[1..] == a[1..] + t;
      IndexOfInPrefix(a[1..], t, sep);
    }
  }

  lemma {:induction false} IndexOfAfter(x: string, t: string, sep: char)
    requires IndexOf(x, sep) == |x| && t != [] && t[0] == sep
    ensures IndexOf(x + t, sep) == |x|
    decreases |x|
  {
    if x == [] {
      assert x + t == t;
    } else {
      assert (x + t)[0] == x[0];
      assert (x + t)[1..] == x[1..] + t;
      IndexOfAfter(x[1..], t, sep);
    }
  }

  lemma AppendAssoc(a: string, b: string, c: string)
    ensures a + b + c == a + (b + c)
  {
  }

  lemma SliceOfAppend(a: string, t: string, i: nat)
    requires i <= |a|
    ensures (a + t)[..i] == a[..i]
    ensures (a + t)[i..] == a[i..] + t
  {
  }

  /** The first separator ends the first piece. */
  lemma SplitAtFirst(x: string, y: string, sep: char)
    requires IndexOf(x, sep) == |x|
    ensures Split(x + [sep] + y, sep) == [x] + Split(y, sep)
  {
    AppendAssoc(x, [sep], y);
    IndexOfAfter(x, [sep] + y, sep);
    SliceOfAppend(x, [sep] + y, |x|);
    assert x[..|x|] == x;
    assert ([sep] + y)[1..] == y;
  }

  /** When `a` holds a separator, the first piece of `a + [sep] + b` is the first piece of `a`. */
  lemma SplitFirstPiece(a: string, b: string, sep: char)
    requires IndexOf(a, sep) < |a|
    ensures var j := IndexOf(a, sep);
            Split(a + [sep] + b, sep) == [a[..j]] + Split(a[j + 1..] + [sep] + b, sep)
  {
    var j := IndexOf(a, sep);
    AppendAssoc(a, [sep], b);
    IndexOfInPrefix(a, [sep] + b, sep);
    SliceOfAppend(a, [sep] + b, j);
    SliceOfAppend(a, [sep] + b, j + 1);
    AppendAssoc(a[j + 1..], [sep], b);
  }

  lemma ConsAppend(h: string, left: seq<string>, right: seq<string>)
    ensures [h] + (left + right) == ([h] + left) + right
  {
  }

  /** Splitting at one separator occurrence splits each side independently. */
  lemma {:induction false} SplitAround(a: string, b: string, sep: char)
    ensures Split(a + [sep] + b, sep) == Split(a, sep) + Split(b, sep)
    decreases |a|
  {
    var j := IndexOf(a, sep);
    if j == |a| {
      SplitAtFirst(a, b, sep);
    } else {
      SplitAround(a[j + 1..], b, sep);
      SplitAroundStep(a, b, sep);
    }
  }

  /** The inductive step of SplitAround: past the first separator of `a`. */
  lemma SplitAroundStep(a: string, b: string, sep: char)
    requires IndexOf(a, sep) < |a|
    requires var j := IndexOf(a, sep);
             Split(a[j + 1..] + [sep] + b, sep) == Split(a[j + 1..], sep) + Split(b, sep)
    ensures Split(a + [sep] + b, sep) == Split(a, sep) + Split(b, sep)
  {
    var j := IndexOf(a, sep);
    var rest := a[j + 1..];
    calc {
      Split(a + [sep] + b, sep);
    == { SplitFirstPiece(a, b, sep); }
      [a[..j]] + Split(rest + [sep] + b, sep);
    ==
      [a[..j]] + (Split(rest, sep) + Split(b, sep));
    == { ConsAppend(a[..j], Split(rest, sep), Split(b, sep)); }
      ([a[..j]] + Split(rest, sep)) + Split(b, sep);
    == { SplitAtSeparator(a, sep); }
      Split(a, sep) + Split(b, sep);
    }
  }

  /** Split one step: the piece before the first separator, then the rest. */
  lemma SplitAtSeparator(s: string, sep: char)
    requires IndexOf(s, sep) < |s|
    ensures var i := IndexOf(s, sep); Split(s, sep) == [s[..i]] + Split(s[i + 1..], sep)
  {
  }

  lemma {:induction false} SplitJoinSegments(segments: seq<string>, sep: char)
    requires |segments| >= 1
    ensures Split(Join(segments, [sep]), sep) == SplitAll(segments, sep)
    decreases |segments|
  {
    if |segments| == 1 {
      assert SplitAll(segments[1..], sep) == [];
    } else {
      SplitJoinSegments(segments[1..], sep);
      SplitAround(segments[0], Join(segments[1..], [sep]), sep);
    }
  }

  /** Joining lines that hold no separator and splitting again gives the lines back. */
  lemma {:induction false} SplitJoin(lines: seq<string>, sep: char)
    requires |lines| >= 1
    requires forall i :: 0 <= i < |lines| ==> sep !in lines[i]
    ensures Split(Join(lines, [sep]), sep) == lines
  {
    SplitJoinSegments(lines, sep);
    SplitAllSingleLines(lines, sep);
  }

  lemma {:induction false} SplitAllSingleLines(lines: seq<string>, sep: char)
    requires forall i :: 0 <= i < |lines| ==> sep !in lines[i]
    ensures SplitAll(lines, sep) == lines
    decreases |lines|
  {
    if lines != [] {
      SplitWithoutSeparator(lines[0], sep);
      SplitAllSingleLines(lines[1..], sep);
    }
  }
}
