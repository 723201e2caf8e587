// String helpers shared by the model: decimal rendering and parsing of
// integers (Python's str(int) and int(str) on ASCII text), and
// str.join / str.split / str.partition on a single-character separator.

module Text {
  import opened Errors

  predicate IsDigit(c: char) { '0' <= c <= '9' }

  function DigitChar(d: nat): (c: char)
    requires d < 10
    ensures IsDigit(c) && (c as int) - ('0' as int) == d
  {
    (('0' as int) + d) as char
  }

  function DigitValue(c: char): (d: nat)
    requires IsDigit(c)
    ensures d < 10 && DigitChar(d) == c
  {
    (c as int) - ('0' as int)
  }

  predicate AllDigits(s: string)
  {
    forall i :: 0 <= i < |s| ==> IsDigit(s[i])
  }

  /** str(n) for a natural number: its shortest decimal spelling. */
  function NatToString(n: nat): (s: string)
    ensures |s| > 0 && AllDigits(s)
    ensures |s| > 1 ==> s[0] != '0'
    decreases n
  {
    if n < 10 then [DigitChar(n)] else NatToString(n / 10) + [DigitChar(n % 10)]
  }

  /** str(i) for any integer, with a leading '-' when negative. */
  function IntToString(i: int): (s: string)
    ensures |s| > 0
    ensures (i < 0) == (s[0] == '-')
  {
    if i < 0 then "-" + NatToString(-i) else NatToString(i)
  }

  /** The value of a string of decimal digits. */
  function DigitsValue(s: string): (n: nat)
    requires AllDigits(s)
    decreases |s|
  {
    if s == [] then 0 else DigitsValue(s[..|s| - 1]) * 10 + DigitValue(s[|s| - 1])
  }

  /**
   * Python's whitespace on text: what str.isspace() accepts, str.strip()
   * and int() remove, and \s matches in a regular expression.
   */
  predicate IsSpace(c: char)
  {
    c == ' ' || c == '\t' || c == '\n' || c == '\r' || c == '\U{000B}' || c == '\U{000C}'
    || ('\U{001C}' <= c <= '\U{001F}') || c == '\U{0085}' || c == '\U{00A0}' || c == '\U{1680}'
    || ('\U{2000}' <= c <= '\U{200A}') || c == '\U{2028}' || c == '\U{2029}' || c == '\U{202F}'
    || c == '\U{205F}' || c == '\U{3000}'
  }

  /** str.strip(): s without the whitespace at either end. */
  function Strip(s: string): (t: string)
    ensures |t| <= |s|
    ensures t != [] ==> !IsSpace(t[0]) && !IsSpace(t[|t| - 1])
    ensures forall i :: 0 <= i < |t| ==> t[i] in s
    ensures (s == [] || (!IsSpace(s[0]) && !IsSpace(s[|s| - 1]))) ==> t == s
    decreases |s|
  {
    if s != [] && IsSpace(s[0]) then Strip(s[1..])
    else if s != [] && IsSpace(s[|s| - 1]) then Strip(s[..|s| - 1])
    else s
  }

  /**
   * The digits of an integer literal: at least one digit, and an underscore
   * only between two digits.
   */
  predicate Grouped(s: string)
  {
    && |s| > 0
    && IsDigit(s[0])
    && forall i :: 0 <= i < |s| ==> DigitOrSeparator(s, i)
  }

  /** Position i holds a digit, or an underscore that a digit follows. */
  predicate DigitOrSeparator(s: string, i: nat)
    requires i < |s|
  {
    IsDigit(s[i]) || (s[i] == '_' && i + 1 < |s| && IsDigit(s[i + 1]))
  }

  lemma GroupedChars(s: string)
    requires Grouped(s)
    ensures forall i :: 0 <= i < |s| ==> IsDigit(s[i]) || s[i] == '_'
  {
    forall i | 0 <= i < |s|
      ensures IsDigit(s[i]) || s[i] == '_'
    {
      assert DigitOrSeparator(s, i);
    }
  }

  /** s without its underscores. */
  function Ungrouped(s: string): (d: string)
    ensures (forall i :: 0 <= i < |s| ==> IsDigit(s[i]) || s[i] == '_') ==> AllDigits(d)
    ensures AllDigits(s) ==> d == s
    decreases |s|
  {
    if s == [] then []
    else (if s[0] == '_' then [] else [s[0]]) + Ungrouped(s[1..])
  }

  /** An optional sign and the grouped digits of an integer literal, already stripped. */
  function Signed(t: string): (r: Option<int>)
    ensures r.Some? ==> |t| > 0
    ensures r.Some? && '-' !in t ==> r.value >= 0
    ensures |t| > 0 && AllDigits(t) ==> r == Some(DigitsValue(t))
  {
    if |t| > 0 && (t[0] == '-' || t[0] == '+') then
      var u := t[1..];
      if Grouped(u) then
        GroupedChars(u);
        var n := DigitsValue(Ungrouped(u));
        Some(if t[0] == '-' then 0 - n as int else n)
      else None
    else if Grouped(t) then
      GroupedChars(t);
      Some(DigitsValue(Ungrouped(t)))
    else None
  }

  /**
   * int(s) on ASCII text: surrounding whitespace is ignored, then an
   * optional sign and at least one digit, with single underscores allowed
   * between digits.
   */
  function ParseInt(s: string): (r: Option<int>)
    ensures r.Some? ==> |s| > 0
    ensures r.Some? && '-' !in s ==> r.value >= 0
    ensures |s| > 0 && AllDigits(s) ==> r == Some(DigitsValue(s))
  {
    Signed(Strip(s))
  }

  lemma {:induction false} DigitsValueOfNatToString(n: nat)
    ensures DigitsValue(NatToString(n)) == n
    decreases n
  {
    var s := NatToString(n);
    if n >= 10 {
      DigitsValueOfNatToString(n / 10);
      assert s[..|s| - 1] == NatToString(n / 10);
    }
  }

  /** int(str(i)) == i */
  lemma ParseIntOfIntToString(i: int)
    ensures ParseInt(IntToString(i)) == Some(i)
  {
    var s := IntToString(i);
    var n: nat := if i < 0 then -i else i;
    var digits := NatToString(n);
    DigitsValueOfNatToString(n);
    assert s[|s| - 1] == digits[|digits| - 1];
    assert !IsSpace(s[0]) && !IsSpace(s[|s| - 1]);
    assert Strip(s) == s;
    if i < 0 {
      assert s[1..] == digits;
      AllDigitsGrouped(digits);
      assert Signed(s) == Some(0 - DigitsValue(digits) as int);
    } else {
      assert s == digits;
    }
  }

  lemma AllDigitsGrouped(s: string)
    requires |s| > 0 && AllDigits(s)
    ensures Grouped(s)
  {
    forall i | 0 <= i < |s|
      ensures DigitOrSeparator(s, i)
    {
    }
  }

  /** Whitespace on both sides of a text is stripped away. */
  lemma {:induction false} StripPadded(pre: string, s: string, post: string)
    requires forall i :: 0 <= i < |pre| ==> IsSpace(pre[i])
    requires forall i :: 0 <= i < |post| ==> IsSpace(post[i])
    requires s == [] || (!IsSpace(s[0]) && !IsSpace(s[|s| - 1]))
    ensures Strip(pre + s + post) == s
    decreases |pre| + |post|
  {
    var x := pre + s + post;
    if pre != [] {
      assert x[1..] == pre[1..] + s + post;
      StripPadded(pre[1..], s, post);
    } else if post != [] {
      assert x == s + post;
      assert x[..|x| - 1] == [] + s + post[..|post| - 1];
      StripPadded([], s, post[..|post| - 1]);
      if s != [] {
        assert x[0] == s[0];
      }
    } else {
      assert x == s;
    }
  }

  /** int(" 7\n") == int("7"): whitespace around the text does not matter. */
  lemma ParseIntIgnoresPadding(pre: string, s: string, post: string)
    requires forall i :: 0 <= i < |pre| ==> IsSpace(pre[i])
    requires forall i :: 0 <= i < |post| ==> IsSpace(post[i])
    requires s == [] || (!IsSpace(s[0]) && !IsSpace(s[|s| - 1]))
    ensures ParseInt(pre + s + post) == ParseInt(s)
  {
    StripPadded(pre, s, post);
  }

  lemma {:induction false} UngroupedDigits(a: string, b: string)
    requires AllDigits(a) && AllDigits(b)
    ensures Ungrouped(a + "_" + b) == a + b
    decreases |a|
  {
    if a == [] {
      assert ("_" + b)[1..] == b;
    } else {
      assert (a + "_" + b)[1..] == a[1..] + "_" + b;
      UngroupedDigits(a[1..], b);
      assert [a[0]] + (a[1..] + b) == a + b;
    }
  }

  lemma GroupedAround(a: string, b: string)
    requires |a| > 0 && |b| > 0 && AllDigits(a) && AllDigits(b)
    ensures Grouped(a + "_" + b)
  {
    var x := a + "_" + b;
    forall i | 0 <= i < |x|
      ensures DigitOrSeparator(x, i)
    {
      if i < |a| { assert x[i] == a[i]; }
      else if i == |a| { assert x[i + 1] == b[0]; }
      else { assert x[i] == b[i - |a| - 1]; }
    }
  }

  /** int("1_000") == int("1000"): an underscore between two digits is skipped. */
  lemma UnderscoreBetweenDigits(a: string, b: string)
    requires |a| > 0 && |b| > 0 && AllDigits(a) && AllDigits(b)
    ensures ParseInt(a + "_" + b) == ParseInt(a + b)
  {
    var x := a + "_" + b;
    var y := a + b;
    assert x[0] == a[0] && x[|x| - 1] == b[|b| - 1];
    assert !IsSpace(x[0]) && !IsSpace(x[|x| - 1]);
    assert Strip(x) == x;
    assert AllDigits(y) by {
      forall i | 0 <= i < |y| ensures IsDigit(y[i]) {
        if i < |a| { assert y[i] == a[i]; } else { assert y[i] == b[i - |a|]; }
      }
    }
    GroupedAround(a, b);
    UngroupedDigits(a, b);
    assert Signed(x) == Some(DigitsValue(y));
  }

  /** sep.join(parts) */
  function Join(parts: seq<string>, sep: string): (s: string)
    ensures parts == [] ==> s == []
    decreases |parts|
  {
    if parts == [] then []
    else if |parts| == 1 then parts[0]
    else parts[0] + sep + Join(parts[1..], sep)
  }

  /** The first index of c in s, if any. */
  function IndexOf(s: string, c: char): (r: Option<nat>)
    ensures r.Some? ==> r.value < |s| && s[r.value] == c && c !in s[..r.value]
    ensures r.None? <==> c !in s
    decreases |s|
  {
    if s == [] then None
    else if s[0] == c then Some(0)
    else match IndexOf(s[1..], c)
      case None => None
      case Some(k) => Some(k + 1)
  }

  /** s.split(c): the pieces between the occurrences of c; one more piece than occurrences. */
  function Split(s: string, c: char): (parts: seq<string>)
    ensures |parts| > 0
    ensures forall p :: p in parts ==> c !in p
    decreases |s|
  {
    match IndexOf(s, c)
    case None => [s]
    case Some(k) => [s[..k]] + Split(s[k + 1..], c)
  }

  lemma {:induction false} IndexOfJoinHead(a: string, c: char, rest: string)
    requires c !in a
    ensures IndexOf(a + [c] + rest, c) == Some(|a|)
    decreases |a|
  {
    if a != [] {
      assert (a + [c] + rest)[1..] == a[1..] + [c] + rest;
      IndexOfJoinHead(a[1..], c, rest);
    }
  }

  /** Splitting the join of separator-free pieces gives the pieces back. */
  lemma {:induction false} SplitJoin(parts: seq<string>, c: char)
    requires |parts| > 0
    requires forall p :: p in parts ==> c !in p
    ensures Split(Join(parts, [c]), c) == parts
    decreases |parts|
  {
    if |parts| == 1 {
      assert c !in parts[0];
    } else {
      var tail := Join(parts[1..], [c]);
      assert Join(parts, [c]) == parts[0] + [c] + tail;
      IndexOfJoinHead(parts[0], c, tail);
      assert (parts[0] + [c] + tail)[..|parts[0]|] == parts[0];
      assert (parts[0] + [c] + tail)[|parts[0]| + 1..] == tail;
      SplitJoin(parts[1..], c);
    }
  }

  /** s.partition(c): the text before the first c, whether c occurs, and the text after it. */
  function Partition(s: string, c: char): (r: (string, bool, string))
    ensures r.1 ==> s == r.0 + [c] + r.2 && c !in r.0
    ensures !r.1 ==> r.0 == s && r.2 == [] && c !in s
  {
    match IndexOf(s, c)
    case None => (s, false, [])
    case Some(k) => (s[..k], true, s[k + 1..])
  }

  /** The part after the first c is recovered whatever it contains, as long as the prefix has no c. */
  lemma PartitionAfterPrefix(prefix: string, c: char, rest: string)
    requires c !in prefix
    ensures Partition(prefix + [c] + rest, c) == (prefix, true, rest)
  {
    IndexOfJoinHead(prefix, c, rest);
    assert (prefix + [c] + rest)[..|prefix|] == prefix;
    assert (prefix + [c] + rest)[|prefix| + 1..] == rest;
  }

  /** No element occurs twice. */
  predicate Distinct<T(==)>(s: seq<T>)
  {
    forall i, j :: 0 <= i < j < |s| ==> s[i] != s[j]
  }

  predicate StartsWith(s: string, prefix: string)
  {
    |prefix| <= |s| && s[..|prefix|] == prefix
  }

  /** The largest element. */
  function Max(xs: seq<int>): (m: int)
    requires xs != []
    ensures m in xs && forall x :: x in xs ==> x <= m
  {
    if |xs| == 1 then xs[0]
    else
      var rest := Max(xs[1..]);
      assert forall x :: x in xs[1..] ==> x in xs;
      assert forall x :: x in xs ==> x == xs[0] || x in xs[1..];
      if xs[0] >= rest then xs[0] else rest
  }
}
