/** Text primitives the song is rendered with: Ruby's Integer#to_s, an ASCII
    String#capitalize, Array#join, and a line splitter used to state what the
    joined text contains. */
module Text {

  /** A decimal digit character. */
  predicate IsDigit(c: char) {
    '0' <= c <= '9'
  }

  predicate IsDigits(s: string) {
    forall i :: 0 <= i < |s| ==> IsDigit(s[i])
  }

  function DigitChar(d: nat): (c: char)
    requires d < 10
    ensures IsDigit(c)
  {
    ('0' as int + d) as char
  }

  function DigitValue(c: char): (d: nat)
    requires IsDigit(c)
    ensures d < 10 && DigitChar(d) == c
  {
    c as int - '0' as int
  }

  /** The decimal numeral of `n`, most significant digit first. */
  function NatToDecimal(n: nat): (s: string)
    ensures |s| >= 1 && IsDigits(s)
    ensures s[0] == '0' <==> n == 0
    ensures n < 10 <==> |s| == 1
  {
    if n < 10 then [DigitChar(n)] else NatToDecimal(n / 10) + [DigitChar(n % 10)]
  }

  /** Reads a numeral back; the inverse of NatToDecimal. */
  function DecimalValue(s: string): nat
    requires IsDigits(s)
  {
    if s == [] then 0 else DecimalValue(s[..|s| - 1]) * 10 + DigitValue(s[|s| - 1])
  }

  lemma {:induction false} DecimalRoundTrip(n: nat)
    ensures DecimalValue(NatToDecimal(n)) == n
  {
    var s := NatToDecimal(n);
    if n < 10 {
      assert s[..|s| - 1] == [];
    } else {
      DecimalRoundTrip(n / 10);
      assert s[..|s| - 1] == NatToDecimal(n / 10);
      assert s[|s| - 1] == DigitChar(n % 10);
    }
  }

  /** Integer#to_s: a minus sign before the magnitude of a negative number. */
  function IntToDecimal(i: int): (s: string)
    ensures |s| >= 1
    ensures s[0] == '-' || IsDigit(s[0])
    ensures s[0] == '-' <==> i < 0
    ensures '\n' !in s && IsLowerText(s)
  {
    var s := if i < 0 then "-" + NatToDecimal(-i) else NatToDecimal(i);
    assert forall k :: 0 <= k < |s| ==> s[k] == '-' || IsDigit(s[k]);
    s
  }

  /** Distinct integers have distinct numerals. */
  lemma IntToDecimalInjective(a: int, b: int)
    requires IntToDecimal(a) == IntToDecimal(b)
    ensures a == b
  {
    var s := IntToDecimal(a);
    assert (a < 0) == (b < 0) by {
      assert s[0] == '-' <==> a < 0;
      assert s[0] == '-' <==> b < 0;
    }
    if a < 0 {
      var m, n: nat := -a, -b;
      assert s == "-" + NatToDecimal(m);
      assert s == "-" + NatToDecimal(n);
      assert NatToDecimal(m) == s[1..] == NatToDecimal(n);
      DecimalRoundTrip(m);
      DecimalRoundTrip(n);
    } else {
      var m, n: nat := a, b;
      assert NatToDecimal(m) == s == NatToDecimal(n);
      DecimalRoundTrip(m);
      DecimalRoundTrip(n);
    }
  }

  /** ASCII upcase and downcase of one character; other characters are kept. */
  function Upcase(c: char): char {
    if 'a' <= c <= 'z' then (c as int - 32) as char else c
  }

  function Downcase(c: char): char {
    if 'A' <= c <= 'Z' then (c as int + 32) as char else c
  }

  /** Text without ASCII capitals, which String#downcase leaves alone. */
  predicate IsLowerText(s: string) {
    forall c :: c in s ==> !('A' <= c <= 'Z')
  }

  /** Lower-case words separated by spaces. */
  predicate IsWords(s: string) {
    forall i :: 0 <= i < |s| ==> 'a' <= s[i] <= 'z' || s[i] == ' '
  }

  /** Words hold no line break and no capital. */
  lemma WordsArePlain(s: string)
    requires IsWords(s)
    ensures '\n' !in s && IsLowerText(s)
  {
    forall c | c in s
      ensures c != '\n' && !('A' <= c <= 'Z')
    {
      var i :| 0 <= i < |s| && s[i] == c;
    }
  }

  /** A concatenation is free of capitals exactly when both halves are. */
  lemma LowerTextConcat(a: string, b: string)
    ensures IsLowerText(a + b) <==> IsLowerText(a) && IsLowerText(b)
  {
    if IsLowerText(a) && IsLowerText(b) {
      forall c | c in a + b
        ensures !('A' <= c <= 'Z')
      {
        assert c in a || c in b;
      }
    }
    if IsLowerText(a + b) {
      forall c | c in a
        ensures !('A' <= c <= 'Z')
      {
        var i :| 0 <= i < |a| && a[i] == c;
        assert (a + b)[i] == c && c in a + b;
      }
      forall c | c in b
        ensures !('A' <= c <= 'Z')
      {
        var i :| 0 <= i < |b| && b[i] == c;
        assert (a + b)[|a| + i] == c && c in a + b;
      }
    }
  }

  /** String#downcase on ASCII text. */
  function Downcased(s: string): (r: string)
    ensures |r| == |s|
    ensures forall i :: 0 <= i < |s| ==> r[i] == Downcase(s[i])
  {
    seq(|s|, i requires 0 <= i < |s| => Downcase(s[i]))
  }

  /** String#capitalize on ASCII text: the first character upcased, every
      other character downcased. */
  function Capitalize(s: string): (r: string)
    ensures |r| == |s|
    ensures |s| > 0 ==> r[0] == Upcase(s[0])
    ensures forall i :: 1 <= i < |s| ==> r[i] == Downcase(s[i])
  {
    if s == [] then [] else [Upcase(s[0])] + Downcased(s[1..])
  }

  /** Downcasing works character by character, so it distributes over
      concatenation. */
  lemma DowncasedConcat(a: string, b: string)
    ensures Downcased(a + b) == Downcased(a) + Downcased(b)
  {
    var left, right := Downcased(a + b), Downcased(a) + Downcased(b);
    forall i | 0 <= i < |a + b|
      ensures left[i] == right[i]
    {
      if i >= |a| {
        assert (a + b)[i] == b[i - |a|];
      }
    }
  }

  /** Text without capitals is left alone by downcasing. */
  lemma DowncasedLower(s: string)
    requires IsLowerText(s)
    ensures Downcased(s) == s
  {
    forall i | 0 <= i < |s|
      ensures Downcased(s)[i] == s[i]
    {
      assert s[i] in s;
    }
  }

  /** Text without capitals only has its first character changed. */
  lemma CapitalizeLowerText(s: string)
    requires s != [] && IsLowerText(s)
    ensures Capitalize(s) == [Upcase(s[0])] + s[1..]
  {
    assert s == [s[0]] + s[1..];
    LowerTextConcat([s[0]], s[1..]);
    DowncasedLower(s[1..]);
  }

  /** Capitalizing only looks at the first character of lower-case text
      that follows it. */
  lemma CapitalizeLowerTail(a: string, b: string)
    requires a != [] && IsLowerText(b)
    ensures Capitalize(a + b) == Capitalize(a) + b
  {
    assert (a + b)[1..] == a[1..] + b;
    DowncasedConcat(a[1..], b);
    DowncasedLower(b);
  }

  /** Downcasing twice is downcasing once. */
  lemma DowncasedIdempotent(s: string)
    ensures Downcased(Downcased(s)) == Downcased(s)
  {
    forall i | 0 <= i < |s|
      ensures Downcase(Downcase(s[i])) == Downcase(s[i])
    {
    }
  }

  /** Capitalizing twice changes nothing more than capitalizing once. */
  lemma CapitalizeIdempotent(s: string)
    ensures Capitalize(Capitalize(s)) == Capitalize(s)
  {
    if s != [] {
      var once := Capitalize(s);
      assert once[0] == Upcase(s[0]) && once[1..] == Downcased(s[1..]);
      assert Upcase(Upcase(s[0])) == Upcase(s[0]);
      DowncasedIdempotent(s[1..]);
    }
  }

  /** Capitalizing only changes letters: any other character occurs in the
      capitalized text exactly when it occurs in the text. */
  lemma CapitalizeKeeps(s: string, c: char)
    requires !('a' <= c <= 'z') && !('A' <= c <= 'Z')
    ensures c in Capitalize(s) <==> c in s
  {
    var r := Capitalize(s);
    if c in s {
      var i :| 0 <= i < |s| && s[i] == c;
      assert r[i] == c;
    }
    if c in r {
      var i :| 0 <= i < |r| && r[i] == c;
      assert s[i] == c;
    }
  }

  /** Array#join: the parts with `sep` between consecutive ones, folded from
      the left as Enumerable#reduce folds. */
  function Join(parts: seq<string>, sep: string): string {
    if |parts| == 0 then ""
    else if |parts| == 1 then parts[0]
    else Join(parts[..|parts| - 1], sep) + sep + parts[|parts| - 1]
  }

  lemma JoinPair(a: string, b: string, sep: string)
    ensures Join([a, b], sep) == a + sep + b
  {
    assert [a, b][..1] == [a];
  }

  lemma JoinTriple(a: string, b: string, c: string, sep: string)
    ensures Join([a, b, c], sep) == a + sep + b + sep + c
  {
    assert [a, b, c][..2] == [a, b];
    JoinPair(a, b, sep);
  }

  /** Joining two non-empty lists is joining each and putting `sep` between. */
  lemma {:induction false} JoinConcat(a: seq<string>, b: seq<string>, sep: string)
    requires a != [] && b != []
    ensures Join(a + b, sep) == Join(a, sep) + sep + Join(b, sep)
    decreases |b|
  {
    if |b| > 1 {
      var init := b[..|b| - 1];
      JoinConcat(a, init, sep);
      assert (a + b)[..|a + b| - 1] == a + init;
    } else {
      assert (a + b)[..|a + b| - 1] == a;
    }
  }

  /** Cuts `s` at every `sep`; there is always one more piece than separators. */
  function Split(s: string, sep: char): (pieces: seq<string>)
    ensures |pieces| >= 1
    ensures forall k :: 0 <= k < |pieces| ==> sep !in pieces[k]
  {
    if s == [] then [""]
    else
      var init := Split(s[..|s| - 1], sep);
      var c := s[|s| - 1];
      if c == sep then init + [""]
      else init[..|init| - 1] + [init[|init| - 1] + [c]]
  }

  /** A piece with no separator in it stays whole. */
  lemma {:induction false} SplitWhole(y: string, sep: char)
    requires sep !in y
    ensures Split(y, sep) == [y]
  {
    if y != [] {
      SplitWhole(y[..|y| - 1], sep);
      assert y[..|y| - 1] + [y[|y| - 1]] == y;
    }
  }

  /** Splitting after a last separator: the tail becomes the last piece. */
  lemma {:induction false} SplitLast(x: string, y: string, sep: char)
    requires sep !in y
    ensures Split(x + [sep] + y, sep) == Split(x, sep) + [y]
    decreases |y|
  {
    var s := x + [sep] + y;
    if y == [] {
      assert s[..|s| - 1] == x;
    } else {
      var y' := y[..|y| - 1];
      SplitLast(x, y', sep);
      assert s[..|s| - 1] == x + [sep] + y';
      assert y' + [y[|y| - 1]] == y;
    }
  }

  /** Split undoes Join when no part contains the separator. */
  lemma {:induction false} SplitJoin(parts: seq<string>, sep: char)
    requires parts != []
    requires forall k :: 0 <= k < |parts| ==> sep !in parts[k]
    ensures Split(Join(parts, [sep]), sep) == parts
    decreases |parts|
  {
    if |parts| == 1 {
      SplitWhole(parts[0], sep);
    } else {
      var init := parts[..|parts| - 1];
      SplitJoin(init, sep);
      SplitLast(Join(init, [sep]), parts[|parts| - 1], sep);
      assert init + [parts[|parts| - 1]] == parts;
    }
  }
}
