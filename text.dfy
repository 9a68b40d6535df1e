/**
 * The JavaScript string operations the core relies on, stated over Dafny
 * strings: `trim`, `startsWith`, `join`/`split`, number-to-string
 * conversion for template literals, and the global `parseInt`.
 */
module Text {
  import opened Wrappers

  /**
   * The characters `String.prototype.trim` removes: ECMAScript WhiteSpace
   * (tab, vertical tab, form feed, space, no-break space, the byte order mark
   * and the Unicode space separators U+1680, U+2000 to U+200A, U+202F, U+205F,
   * U+3000) and LineTerminator (line feed, carriage return, U+2028, U+2029).
   */
  predicate IsJsWhitespace(c: char)
  {
    var n := c as int;
    (9 <= n <= 13) || n == 0x20 || n == 0xA0 || n == 0x1680 || (0x2000 <= n <= 0x200A)
    || n == 0x2028 || n == 0x2029 || n == 0x202F || n == 0x205F || n == 0x3000 || n == 0xFEFF
  }

  predicate AllWhitespace(s: string)
  {
    forall i :: 0 <= i < |s| ==> IsJsWhitespace(s[i])
  }

  /** The end of the run of whitespace that starts at `i`. */
  function WhitespaceRunEnd(s: string, i: nat): (j: nat)
    requires i <= |s|
    ensures i <= j <= |s|
    ensures forall k :: i <= k < j ==> IsJsWhitespace(s[k])
    ensures j == |s| || !IsJsWhitespace(s[j])
    decreases |s| - i
  {
    if i < |s| && IsJsWhitespace(s[i]) then WhitespaceRunEnd(s, i + 1) else i
  }

  /** The start of the run of whitespace that ends just before `j`. */
  function WhitespaceRunStart(s: string, j: nat): (i: nat)
    requires j <= |s|
    ensures i <= j
    ensures forall k :: i <= k < j ==> IsJsWhitespace(s[k])
    ensures i == 0 || !IsJsWhitespace(s[i - 1])
  {
    if 0 < j && IsJsWhitespace(s[j - 1]) then WhitespaceRunStart(s, j - 1) else j
  }

  /** `trimStart`: drops the leading run of whitespace, and nothing else. */
  function TrimStart(s: string): (r: string)
    ensures |r| <= |s| && r == s[|s| - |r|..]
    ensures AllWhitespace(s[..|s| - |r|])
    ensures r == [] || !IsJsWhitespace(r[0])
  {
    s[WhitespaceRunEnd(s, 0)..]
  }

  /** `trimEnd`: drops the trailing run of whitespace, and nothing else. */
  function TrimEnd(s: string): (r: string)
    ensures |r| <= |s| && r == s[..|r|]
    ensures AllWhitespace(s[|r|..])
    ensures r == [] || !IsJsWhitespace(r[|r| - 1])
  {
    s[..WhitespaceRunStart(s, |s|)]
  }

  /** `trim`: the input with its leading and trailing whitespace removed. */
  function Trim(s: string): string
  {
    TrimEnd(TrimStart(s))
  }

  /** What `trim` keeps is a contiguous piece of the input, surrounded only by whitespace, with none at its ends. */
  lemma TrimIsInfix(s: string)
    ensures var r, k := Trim(s), |s| - |TrimStart(s)|;
      k + |r| <= |s| && s[k..k + |r|] == r && AllWhitespace(s[..k]) && AllWhitespace(s[k + |r|..])
    ensures var r := Trim(s); r == [] || (!IsJsWhitespace(r[0]) && !IsJsWhitespace(r[|r| - 1]))
  {
    TrimPieces(s, |s| - |TrimStart(s)|, TrimStart(s), Trim(s));
  }

  /**
   * The piece-wise reading of `trim`: a whitespace-free-at-the-front suffix `t`
   * of `s`, then a prefix `r` of `t` followed only by whitespace, is a piece of
   * `s` surrounded by whitespace.
   */
  lemma TrimPieces(s: string, k: nat, t: string, r: string)
    requires k + |t| == |s| && t == s[k..] && AllWhitespace(s[..k]) && (t == [] || !IsJsWhitespace(t[0]))
    requires |r| <= |t| && r == t[..|r|] && AllWhitespace(t[|r|..]) && (r == [] || !IsJsWhitespace(r[|r| - 1]))
    ensures k + |r| <= |s| && s[k..k + |r|] == r && AllWhitespace(s[..k]) && AllWhitespace(s[k + |r|..])
    ensures r == [] || (!IsJsWhitespace(r[0]) && !IsJsWhitespace(r[|r| - 1]))
  {
    assert s[k..k + |r|] == r;
    assert s[k + |r|..] == t[|r|..];
    assert r != [] ==> r[0] == t[0];
  }

  /** A string already free of surrounding whitespace is left unchanged, so trimming twice is trimming once. */
  lemma {:induction false} TrimIdempotent(s: string)
    ensures Trim(Trim(s)) == Trim(s)
  {
    var r := Trim(s);
    TrimIsInfix(s);
    assert TrimStart(r) == r;
    assert TrimEnd(r) == r;
  }

  /** `startsWith`. */
  predicate StartsWith(s: string, prefix: string)
  {
    prefix <= s
  }

  /**
   * `xs.slice(0, end)` on an array or a string: a prefix of `xs`; a negative
   * `end` counts back from the end of `xs`.
   */
  function Slice<T>(xs: seq<T>, end: int): (r: seq<T>)
    ensures r <= xs
    ensures 0 <= end ==> |r| <= end && (|r| == end || r == xs)
    ensures end < 0 ==> |r| + -end == |xs| || (r == [] && |xs| <= -end)
  {
    xs[..if end < 0 then (if |xs| + end < 0 then 0 else |xs| + end) else if end < |xs| then end else |xs|]
  }

  /** `Array.prototype.join(sep)` on strings. */
  function Join(xs: seq<string>, sep: string): string
    decreases |xs|
  {
    if |xs| == 0 then "" else if |xs| == 1 then xs[0] else xs[0] + sep + Join(xs[1..], sep)
  }

  /** `String.prototype.split(c)` for a one-character separator: the pieces between separators, at least one. */
  function Split(s: string, c: char): (r: seq<string>)
    ensures |r| >= 1
    decreases |s|
  {
    if c !in s then [s]
    else
      var i := IndexOf(s, c);
      [s[..i]] + Split(s[i + 1..], c)
  }

  /** The first position of `c` in `s`. */
  function IndexOf(s: string, c: char): (i: nat)
    requires c in s
    ensures i < |s| && s[i] == c && c !in s[..i]
  {
    if s[0] == c then 0 else 1 + IndexOf(s[1..], c)
  }

  /** Joining lines that contain no separator and splitting again gives the lines back. */
  lemma {:induction false} SplitJoin(xs: seq<string>, c: char)
    requires |xs| >= 1
    requires forall i :: 0 <= i < |xs| ==> c !in xs[i]
    ensures Split(Join(xs, [c]), c) == xs
    decreases |xs|
  {
    if |xs| > 1 {
      var rest := Join(xs[1..], [c]);
      assert Join(xs, [c]) == xs[0] + [c] + rest;
      SplitAtFirst(Join(xs, [c]), xs[0], rest, c);
      SplitJoin(xs[1..], c);
      assert [xs[0]] + xs[1..] == xs;
    }
  }

  /** The first separator in `x + [c] + y` is the first one of `x`, or the one added. */
  lemma {:induction false} IndexOfAppend(x: string, y: string, c: char)
    ensures IndexOf(x + [c] + y, c) == if c in x then IndexOf(x, c) else |x|
    decreases |x|
  {
    var s := x + [c] + y;
    if x != [] && x[0] != c {
      assert s[1..] == x[1..] + [c] + y;
      IndexOfAppend(x[1..], y, c);
      assert c in x <==> c in x[1..];
    }
  }

  /** A text free of separators, a separator, then more: the text is the first piece. */
  lemma SplitAtFirst(s: string, x: string, y: string, c: char)
    requires c !in x && s == x + [c] + y
    ensures Split(s, c) == [x] + Split(y, c)
  {
    assert s[|x|] == c;
    IndexOfAppend(x, y, c);
    assert s[..|x|] == x;
    assert s[|x| + 1..] == y;
  }

  /** Splitting at a separator placed between two texts splits each side on its own. */
  lemma {:induction false} SplitAppend(x: string, y: string, c: char)
    ensures Split(x + [c] + y, c) == Split(x, c) + Split(y, c)
    decreases |x|
  {
    if c !in x {
      SplitAtFirst(x + [c] + y, x, y, c);
    } else {
      var j := IndexOf(x, c);
      var head, tail := x[..j], x[j + 1..];
      assert x == head + [c] + tail;
      SplitAppend(tail, y, c);
      SplitAppendStep(x, head, tail, y, c);
    }
  }

  /** One step of SplitAppend: the piece before the first separator of `x` comes off both sides. */
  lemma SplitAppendStep(x: string, head: string, tail: string, y: string, c: char)
    requires c !in head && x == head + [c] + tail
    requires Split(tail + [c] + y, c) == Split(tail, c) + Split(y, c)
    ensures Split(x + [c] + y, c) == Split(x, c) + Split(y, c)
  {
    var rest := tail + [c] + y;
    Regroup(x, head, tail, y, c);
    SplitAtFirst(x + [c] + y, head, rest, c);
    SplitAtFirst(x, head, tail, c);
    ConsThenAppend(Split(x + [c] + y, c), Split(x, c), Split(rest, c), Split(tail, c), Split(y, c), head);
  }

  lemma Regroup<T>(x: seq<T>, head: seq<T>, tail: seq<T>, y: seq<T>, c: T)
    requires x == head + [c] + tail
    ensures x + [c] + y == head + [c] + (tail + [c] + y)
  {
  }

  lemma ConsThenAppend<T>(whole: seq<T>, front: seq<T>, rest: seq<T>, middle: seq<T>, back: seq<T>, head: T)
    requires whole == [head] + rest && rest == middle + back && front == [head] + middle
    ensures whole == front + back
  {
    assert [head] + (middle + back) == ([head] + middle) + back;
  }

  /** The first piece of a split stops before the first separator. */
  lemma SplitFirstPiece(s: string, c: char)
    ensures c in s ==> |Split(s, c)[0]| < |s|
    ensures c !in s ==> Split(s, c) == [s]
  {
  }

  /** Joining the pieces of a split gives the text back. */
  lemma {:induction false} JoinSplit(s: string, c: char)
    ensures Join(Split(s, c), [c]) == s
    decreases |s|
  {
    if c in s {
      var i := IndexOf(s, c);
      var rest := Split(s[i + 1..], c);
      JoinSplit(s[i + 1..], c);
      assert Split(s, c) == [s[..i]] + rest;
      assert Join(Split(s, c), [c]) == s[..i] + [c] + Join(rest, [c]);
      assert s == s[..i] + [c] + s[i + 1..];
    }
  }

  /** Joining two non-empty runs of pieces puts one separator between their joins. */
  lemma {:induction false} JoinAppend(a: seq<string>, b: seq<string>, sep: string)
    requires a != [] && b != []
    ensures Join(a + b, sep) == Join(a, sep) + sep + Join(b, sep)
    decreases |a|
  {
    assert (a + b)[1..] == a[1..] + b;
    if |a| > 1 {
      JoinAppend(a[1..], b, sep);
    }
  }

  /** A tag free of separators stays on the first piece. */
  lemma SplitLabelled(tag: string, s: string, c: char)
    requires c !in tag
    ensures Split(tag + s, c) == [tag + Split(s, c)[0]] + Split(s, c)[1..]
  {
    if c in s {
      var i := IndexOf(s, c);
      var head, tail := s[..i], s[i + 1..];
      assert s == head + [c] + tail;
      assert tag + s == (tag + head) + [c] + tail;
      SplitAtFirst(s, head, tail, c);
      SplitAtFirst(tag + s, tag + head, tail, c);
    } else {
      assert c !in tag + s;
    }
  }

  /** The bullet lines `- item`, one per item, in order (the source's `map(a => `- ${a}`)`). */
  function BulletLines(items: seq<string>): (r: seq<string>)
    ensures |r| == |items|
    ensures forall i :: 0 <= i < |r| ==> r[i] == "- " + items[i]
  {
    seq(|items|, i requires 0 <= i < |items| => "- " + items[i])
  }

  /** Reading the items back out of bullet lines: the inverse of BulletLines. */
  function Unbullet(lines: seq<string>): (r: Option<seq<string>>)
    ensures r.Some? ==> |r.value| == |lines|
    decreases |lines|
  {
    if lines == [] then Some([])
    else if !StartsWith(lines[0], "- ") then None
    else match Unbullet(lines[1..])
      case None => None
      case Some(rest) => Some([lines[0][2..]] + rest)
  }

  lemma {:induction false} UnbulletBulletLines(items: seq<string>)
    ensures Unbullet(BulletLines(items)) == Some(items)
    decreases |items|
  {
    var lines := BulletLines(items);
    if items != [] {
      assert lines[1..] == BulletLines(items[1..]);
      UnbulletBulletLines(items[1..]);
      assert lines[0] == "- " + items[0];
      assert StartsWith(lines[0], "- ");
      assert lines[0][2..] == items[0];
      assert [items[0]] + items[1..] == items;
    }
  }

  /** The ASCII digit for a value below 16 (only 0..9 are used for decimal output). */
  function DigitChar(d: nat): (c: char)
    requires d < 10
    ensures '0' <= c <= '9' && (c as int) - ('0' as int) == d
  {
    ['0', '1', '2', '3', '4', '5', '6', '7', '8', '9'][d]
  }

  /** The decimal digits of `n`, most significant first, without leading zeros. */
  function NatToString(n: nat): (r: string)
    ensures |r| >= 1 && forall i :: 0 <= i < |r| ==> '0' <= r[i] <= '9'
    ensures |r| > 1 ==> r[0] != '0'
  {
    if n < 10 then [DigitChar(n)] else NatToString(n / 10) + [DigitChar(n % 10)]
  }

  /**
   * How a JavaScript number holding the integer `n` renders inside a template
   * literal, for the integers a double holds exactly and prints in positional
   * notation (magnitudes below 10^21); `n` itself is unbounded.
   */
  function IntToString(n: int): string
  {
    if n < 0 then "-" + NatToString(-n) else NatToString(n)
  }

  /** The value of a digit character in base 10 or 16, if it is one. */
  function DigitValue(c: char, hex: bool): Option<nat>
  {
    if '0' <= c <= '9' then Some((c as int) - ('0' as int))
    else if hex && 'a' <= c <= 'f' then Some((c as int) - ('a' as int) + 10)
    else if hex && 'A' <= c <= 'F' then Some((c as int) - ('A' as int) + 10)
    else None
  }

  /** The longest prefix of `s` made of digits. */
  function LeadingDigits(s: string, hex: bool): (r: string)
    ensures r <= s
    ensures forall i :: 0 <= i < |r| ==> DigitValue(r[i], hex).Some?
    ensures |r| < |s| ==> DigitValue(s[|r|], hex).None?
  {
    if s != [] && DigitValue(s[0], hex).Some? then [s[0]] + LeadingDigits(s[1..], hex) else []
  }

  /** The value of a non-empty run of decimal digits. */
  function DecimalValue(ds: string): nat
    requires forall i :: 0 <= i < |ds| ==> DigitValue(ds[i], false).Some?
    decreases |ds|
  {
    if ds == [] then 0 else DecimalValue(ds[..|ds| - 1]) * 10 + DigitValue(ds[|ds| - 1], false).value
  }

  /** The value of a run of hexadecimal digits. */
  function HexValue(ds: string): nat
    requires forall i :: 0 <= i < |ds| ==> DigitValue(ds[i], true).Some?
    decreases |ds|
  {
    if ds == [] then 0 else HexValue(ds[..|ds| - 1]) * 16 + DigitValue(ds[|ds| - 1], true).value
  }

  /** `parseInt` after the sign: the optional `0x` prefix and the digits. */
  function ParseUnsigned(u: string): Option<nat>
  {
    var hex := StartsWith(u, "0x") || StartsWith(u, "0X");
    var v := if hex then u[2..] else u;
    var ds := LeadingDigits(v, hex);
    if ds == [] then None else Some(if hex then HexValue(ds) else DecimalValue(ds))
  }

  /**
   * The global `parseInt(s)` with no radix: leading whitespace is skipped, one
   * sign is read, a `0x`/`0X` prefix switches to base 16, and the longest run of
   * digits is converted. `None` stands for `NaN` (no digits at all). The value
   * is the exact integer the digits denote; a JavaScript number would round
   * it beyond 2^53.
   */
  function ParseInt(s: string): Option<int>
  {
    var t := TrimStart(s);
    var negative := StartsWith(t, "-");
    var u := if StartsWith(t, "-") || StartsWith(t, "+") then t[1..] else t;
    match ParseUnsigned(u)
    case None => None
    case Some(m) =>
      var v: int := if negative then -(m as int) else m;
      Some(v)
  }

  lemma {:induction false} DecimalValueOfNatToString(n: nat)
    ensures DecimalValue(NatToString(n)) == n
  {
    var r := NatToString(n);
    if n >= 10 {
      DecimalValueOfNatToString(n / 10);
      assert r[..|r| - 1] == NatToString(n / 10);
    }
  }

  /** `parseInt` reads back exactly the integer a template literal printed. */
  lemma ParseIntOfIntToString(n: int)
    ensures ParseInt(IntToString(n)) == Some(n)
  {
    ParseIntOfIntToStringThen(n, "");
    assert IntToString(n) + "" == IntToString(n);
  }

  /**
   * The same when more text follows the number, as long as that text does not
   * start with a digit or with an `x` that would turn a printed 0 into `0x`.
   */
  lemma ParseIntOfIntToStringThen(n: int, rest: string)
    requires rest == [] || (DigitValue(rest[0], false).None? && rest[0] != 'x' && rest[0] != 'X')
    ensures ParseInt(IntToString(n) + rest) == Some(n)
  {
    if n < 0 {
      ParseIntOfNegative(n, rest);
    } else {
      ParseIntOfNonNegative(n, rest);
    }
  }

  /** A negative number printed with its minus sign, then `rest`, reads back as itself. */
  lemma ParseIntOfNegative(n: int, rest: string)
    requires n < 0
    requires rest == [] || (DigitValue(rest[0], false).None? && rest[0] != 'x' && rest[0] != 'X')
    ensures ParseInt(IntToString(n) + rest) == Some(n)
  {
    var m: nat := -n;
    var u := NatToString(m) + rest;
    PrintedNegative(n, rest);
    UnsignedOfNatToString(m, rest);
    ParseIntNegative(IntToString(n) + rest, u, m);
  }

  lemma PrintedNegative(n: int, rest: string)
    requires n < 0
    ensures IntToString(n) + rest == "-" + (NatToString(-n) + rest)
  {
  }

  /** A non-negative number's digits, then `rest`, read back as the number. */
  lemma ParseIntOfNonNegative(m: nat, rest: string)
    requires rest == [] || (DigitValue(rest[0], false).None? && rest[0] != 'x' && rest[0] != 'X')
    ensures ParseInt(IntToString(m) + rest) == Some(m)
  {
    var u := NatToString(m) + rest;
    UnsignedOfNatToString(m, rest);
    SignOrDigitIsNotWhitespace(u[0]);
    ParseIntNonNegative(u, m);
  }

  /** The digits of `m`, followed by text that cannot continue a number, read back as `m`. */
  lemma UnsignedOfNatToString(m: nat, rest: string)
    requires rest == [] || (DigitValue(rest[0], false).None? && rest[0] != 'x' && rest[0] != 'X')
    ensures ParseUnsigned(NatToString(m) + rest) == Some(m)
  {
    var ds := NatToString(m);
    var u := ds + rest;
    assert !StartsWith(u, "0x") && !StartsWith(u, "0X") by {
      if |ds| >= 2 { assert u[0] != '0'; }
      else if |u| >= 2 { assert u[1] == rest[0]; }
    }
    LeadingDigitsOfDigits(ds, rest);
    DecimalValueOfNatToString(m);
  }

  /** A minus sign followed by text that reads as `m` reads as `-m`. */
  lemma ParseIntNegative(s: string, u: string, m: nat)
    requires s == "-" + u && ParseUnsigned(u) == Some(m)
    ensures ParseInt(s) == Some(-(m as int))
  {
    assert StartsWith(s, "-") && s[0] == '-';
    assert s[1..] == u;
    TrimStartKeeps(s);
  }

  /** Text that reads as `m` and starts with neither whitespace nor a sign reads as `m`. */
  lemma ParseIntNonNegative(u: string, m: nat)
    requires u == [] || (!IsJsWhitespace(u[0]) && u[0] != '-' && u[0] != '+')
    requires ParseUnsigned(u) == Some(m)
    ensures ParseInt(u) == Some(m)
  {
    assert !StartsWith(u, "-") && !StartsWith(u, "+") by { if u != [] { assert u[0] != '-' && u[0] != '+'; } }
    TrimStartKeeps(u);
  }

  /** Digits and the minus sign are not whitespace. */
  lemma SignOrDigitIsNotWhitespace(c: char)
    requires c == '-' || '0' <= c <= '9'
    ensures !IsJsWhitespace(c)
  {
  }

  lemma TrimStartKeeps(s: string)
    requires s == [] || !IsJsWhitespace(s[0])
    ensures WhitespaceRunEnd(s, 0) == 0 && TrimStart(s) == s
  {
  }

  lemma {:induction false} LeadingDigitsOfDigits(ds: string, rest: string)
    requires forall i :: 0 <= i < |ds| ==> '0' <= ds[i] <= '9'
    requires rest == [] || DigitValue(rest[0], false).None?
    ensures LeadingDigits(ds + rest, false) == ds
    decreases |ds|
  {
    if ds != [] {
      assert (ds + rest)[1..] == ds[1..] + rest;
      LeadingDigitsOfDigits(ds[1..], rest);
    } else {
      assert ds + rest == rest;
    }
  }
}
