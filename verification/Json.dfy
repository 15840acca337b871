/** The part of Go's JSON encoder that the audit digest depends on: string
    quoting, decimal integers, and objects with a fixed list of members.
    The point of the module is that such an encoding can be read back: two
    records with the same member names and the same JSON text are equal. */
module Json {

  /** A member of an encoded object. */
  datatype Member = Text(name: string, text: string) | Number(name: string, value: int)

  function HexDigit(n: nat): char
    requires n < 16
  {
    "0123456789abcdef"[n]
  }

  /** The `\uXXXX` form of a code unit. */
  function UnicodeEscape(n: nat): string
    requires n < 0x10000
  {
    ['\\', 'u', HexDigit(n / 16 / 16 / 16), HexDigit(n / 16 / 16 % 16), HexDigit(n / 16 % 16), HexDigit(n % 16)]
  }

  predicate NeedsUnicodeEscape(c: char)
  {
    c < ' ' || c == '<' || c == '>' || c == '&' || c == '\U{2028}' || c == '\U{2029}'
  }

  /** The letter of a two-character escape, or the character itself. */
  function ShortEscape(c: char): char
  {
    if c == '\n' then 'n'
    else if c == '\r' then 'r'
    else if c == '\t' then 't'
    else if c == '\U{08}' then 'b'
    else if c == '\U{0C}' then 'f'
    else c
  }

  predicate NeedsShortEscape(c: char)
  {
    c in {'"', '\\', '\n', '\r', '\t', '\U{08}', '\U{0C}'}
  }

  function EscapeChar(c: char): (r: string)
    ensures r != [] && r[0] != '"'
  {
    if NeedsShortEscape(c) then ['\\', ShortEscape(c)]
    else if NeedsUnicodeEscape(c) then UnicodeEscape(c as int)
    else [c]
  }

  /** The escaped characters of s, the closing quote, then rest. */
  function EscapeThen(s: string, rest: string): string
  {
    if s == [] then ['"'] + rest else EscapeChar(s[0]) + EscapeThen(s[1..], rest)
  }

  /** The JSON string literal for s, then rest. */
  function QuoteThen(s: string, rest: string): string
  {
    ['"'] + EscapeThen(s, rest)
  }

  function Digit(n: nat): char
    requires n < 10
  {
    HexDigit(n)
  }

  predicate IsDigit(c: char)
  {
    '0' <= c <= '9'
  }

  function Digits(n: nat): (r: string)
    ensures r != [] && forall i :: 0 <= i < |r| ==> IsDigit(r[i])
  {
    if n < 10 then [Digit(n)] else Digits(n / 10) + [Digit(n % 10)]
  }

  /** The decimal literal for n, then rest. */
  function DecimalThen(n: int, rest: string): string
  {
    if n < 0 then ['-'] + (Digits(-n) + rest) else Digits(n) + rest
  }

  function ValueThen(m: Member, rest: string): string
  {
    if m.Text? then QuoteThen(m.text, rest) else DecimalThen(m.value, rest)
  }

  function MemberThen(m: Member, rest: string): string
  {
    QuoteThen(m.name, [':'] + ValueThen(m, rest))
  }

  /** The members after the first, each preceded by a comma, and the brace. */
  function EncodeRest(ms: seq<Member>): (r: string)
    ensures r != [] && !IsDigit(r[0])
  {
    if ms == [] then "}" else [','] + MemberThen(ms[0], EncodeRest(ms[1..]))
  }

  function EncodeObject(ms: seq<Member>): (r: string)
    ensures r != [] && r[0] == '{'
  {
    ['{'] + (if ms == [] then "}" else MemberThen(ms[0], EncodeRest(ms[1..])))
  }

  /** Same member names and kinds, in the same order. */
  predicate SameShape(a: seq<Member>, b: seq<Member>)
  {
    |a| == |b| && forall i :: 0 <= i < |a| ==> a[i].name == b[i].name && (a[i].Text? <==> b[i].Text?)
  }

  // ---- a character escape can be read back --------------------------------

  lemma HexDigitInjective(m: nat, n: nat)
    requires m < 16 && n < 16 && HexDigit(m) == HexDigit(n)
    ensures m == n
  {
  }

  lemma UnicodeEscapeInjective(m: nat, n: nat)
    requires m < 0x10000 && n < 0x10000 && UnicodeEscape(m) == UnicodeEscape(n)
    ensures m == n
  {
    var a, b := UnicodeEscape(m), UnicodeEscape(n);
    assert a[2] == b[2] && a[3] == b[3] && a[4] == b[4] && a[5] == b[5];
    HexDigitInjective(m / 16 / 16 / 16, n / 16 / 16 / 16);
    HexDigitInjective(m / 16 / 16 % 16, n / 16 / 16 % 16);
    assert m / 16 / 16 == n / 16 / 16;
    HexDigitInjective(m / 16 % 16, n / 16 % 16);
    assert m / 16 == n / 16;
    HexDigitInjective(m % 16, n % 16);
  }

  lemma SplitAt(a: string, x: string, b: string, y: string)
    requires a + x == b + y && |a| == |b|
    ensures a == b && x == y
  {
    assert a == (a + x)[..|a|] && b == (b + y)[..|b|];
    assert x == (a + x)[|a|..] && y == (b + y)[|b|..];
  }

  /** No character's escape is a proper prefix of another's. */
  lemma EscapeCharSplits(c: char, d: char, x: string, y: string)
    requires EscapeChar(c) + x == EscapeChar(d) + y
    ensures c == d && x == y
  {
    var a, b := EscapeChar(c), EscapeChar(d);
    assert a[0] == (a + x)[0] == (b + y)[0] == b[0];
    if |a| > 1 && |b| > 1 {
      assert a[1] == (a + x)[1] == (b + y)[1] == b[1];
    }
    SameLength(c, d);
    SplitAt(a, x, b, y);
    EscapeCharInjective(c, d);
  }

  /** What each length of escape starts with. */
  lemma EscapeShape(c: char)
    ensures |EscapeChar(c)| == 1 || |EscapeChar(c)| == 2 || |EscapeChar(c)| == 6
    ensures |EscapeChar(c)| == 1 ==> EscapeChar(c)[0] != '\\'
    ensures |EscapeChar(c)| > 1 ==> EscapeChar(c)[0] == '\\' && (EscapeChar(c)[1] == 'u' <==> |EscapeChar(c)| == 6)
  {
  }

  /** The first one or two characters of an escape tell its length. */
  lemma SameLength(c: char, d: char)
    requires EscapeChar(c)[0] == EscapeChar(d)[0]
    requires |EscapeChar(c)| > 1 && |EscapeChar(d)| > 1 ==> EscapeChar(c)[1] == EscapeChar(d)[1]
    ensures |EscapeChar(c)| == |EscapeChar(d)|
  {
    EscapeShape(c);
    EscapeShape(d);
  }

  lemma EscapeCharInjective(c: char, d: char)
    requires EscapeChar(c) == EscapeChar(d)
    ensures c == d
  {
    if |EscapeChar(c)| == 6 {
      UnicodeEscapeInjective(c as int, d as int);
    } else if |EscapeChar(c)| == 2 {
      assert ShortEscape(c) == EscapeChar(c)[1] == EscapeChar(d)[1] == ShortEscape(d);
    } else {
      assert c == EscapeChar(c)[0] == EscapeChar(d)[0] == d;
    }
  }

  lemma {:induction false} EscapeSplits(s: string, t: string, x: string, y: string)
    requires EscapeThen(s, x) == EscapeThen(t, y)
    ensures s == t && x == y
  {
    var a, b := EscapeThen(s, x), EscapeThen(t, y);
    assert a[0] == if s == [] then '"' else EscapeChar(s[0])[0];
    assert b[0] == if t == [] then '"' else EscapeChar(t[0])[0];
    if s == [] {
      SplitAt(['"'], x, ['"'], y);
    } else {
      EscapeCharSplits(s[0], t[0], EscapeThen(s[1..], x), EscapeThen(t[1..], y));
      EscapeSplits(s[1..], t[1..], x, y);
      assert s == [s[0]] + s[1..] && t == [t[0]] + t[1..];
    }
  }

  lemma QuoteSplits(s: string, t: string, x: string, y: string)
    requires QuoteThen(s, x) == QuoteThen(t, y)
    ensures s == t && x == y
  {
    SplitAt(['"'], EscapeThen(s, x), ['"'], EscapeThen(t, y));
    EscapeSplits(s, t, x, y);
  }

  // ---- an integer followed by a non-digit can be read back ----------------

  lemma {:induction false} DigitsInjective(m: nat, n: nat)
    requires Digits(m) == Digits(n)
    ensures m == n
  {
    var a, b := Digits(m), Digits(n);
    assert a[|a| - 1] == b[|b| - 1];
    assert |a| == 1 <==> m < 10;
    assert |b| == 1 <==> n < 10;
    HexDigitInjective(m % 10, n % 10);
    if m >= 10 {
      SplitAt(Digits(m / 10), [Digit(m % 10)], Digits(n / 10), [Digit(n % 10)]);
      DigitsInjective(m / 10, n / 10);
    }
  }

  /** A run of digits ends at the same place in equal texts. */
  lemma DigitsNotLonger(a: string, x: string, b: string, y: string)
    requires a + x == b + y
    requires x != [] && !IsDigit(x[0])
    requires forall i :: 0 <= i < |b| ==> IsDigit(b[i])
    ensures |a| >= |b|
  {
    assert (a + x)[|a|] == x[0];
    assert forall i :: 0 <= i < |b| ==> (b + y)[i] == b[i];
  }

  lemma DigitsSplit(m: nat, n: nat, x: string, y: string)
    requires x != [] && y != [] && !IsDigit(x[0]) && !IsDigit(y[0])
    requires Digits(m) + x == Digits(n) + y
    ensures m == n && x == y
  {
    DigitsNotLonger(Digits(m), x, Digits(n), y);
    DigitsNotLonger(Digits(n), y, Digits(m), x);
    SplitAt(Digits(m), x, Digits(n), y);
    DigitsInjective(m, n);
  }

  lemma SignVisible(n: int, rest: string)
    ensures DecimalThen(n, rest) != [] && (DecimalThen(n, rest)[0] == '-' <==> n < 0)
  {
  }

  lemma DecimalSplits(m: int, n: int, x: string, y: string)
    requires x != [] && y != [] && !IsDigit(x[0]) && !IsDigit(y[0])
    requires DecimalThen(m, x) == DecimalThen(n, y)
    ensures m == n && x == y
  {
    SignVisible(m, x);
    SignVisible(n, y);
    if m < 0 {
      SplitAt(['-'], Digits(-m) + x, ['-'], Digits(-n) + y);
      DigitsSplit(-m, -n, x, y);
    } else {
      DigitsSplit(m, n, x, y);
    }
  }

  // ---- an object can be read back -----------------------------------------

  lemma MemberSplits(a: Member, b: Member, x: string, y: string)
    requires a.name == b.name && (a.Text? <==> b.Text?)
    requires x != [] && y != [] && !IsDigit(x[0]) && !IsDigit(y[0])
    requires MemberThen(a, x) == MemberThen(b, y)
    ensures a == b && x == y
  {
    QuoteSplits(a.name, b.name, [':'] + ValueThen(a, x), [':'] + ValueThen(b, y));
    SplitAt([':'], ValueThen(a, x), [':'], ValueThen(b, y));
    if a.Text? {
      QuoteSplits(a.text, b.text, x, y);
    } else {
      DecimalSplits(a.value, b.value, x, y);
    }
  }

  lemma {:induction false} RestInjective(a: seq<Member>, b: seq<Member>)
    requires SameShape(a, b)
    requires EncodeRest(a) == EncodeRest(b)
    ensures a == b
  {
    if a != [] {
      var x, y := EncodeRest(a[1..]), EncodeRest(b[1..]);
      SplitAt([','], MemberThen(a[0], x), [','], MemberThen(b[0], y));
      MemberSplits(a[0], b[0], x, y);
      RestInjective(a[1..], b[1..]);
      assert a == [a[0]] + a[1..] && b == [b[0]] + b[1..];
    }
  }

  /** Objects with the same members in the same order have the same text only
      when their values agree. */
  lemma ObjectInjective(a: seq<Member>, b: seq<Member>)
    requires SameShape(a, b)
    requires EncodeObject(a) == EncodeObject(b)
    ensures a == b
  {
    if a != [] {
      var x, y := EncodeRest(a[1..]), EncodeRest(b[1..]);
      SplitAt(['{'], MemberThen(a[0], x), ['{'], MemberThen(b[0], y));
      MemberSplits(a[0], b[0], x, y);
      RestInjective(a[1..], b[1..]);
      assert a == [a[0]] + a[1..] && b == [b[0]] + b[1..];
    }
  }

  // ---- the text of an object ----------------------------------------------

  /** No character needs an escape. */
  predicate Plain(s: string)
  {
    forall i :: 0 <= i < |s| ==> !NeedsShortEscape(s[i]) && !NeedsUnicodeEscape(s[i])
  }

  lemma {:induction false} PlainQuoted(s: string, rest: string)
    requires Plain(s)
    ensures QuoteThen(s, rest) == "\"" + s + "\"" + rest
    decreases |s|
  {
    if s == [] {
      assert "\"" + s + "\"" + rest == ['"'] + (['"'] + rest);
    } else {
      PlainQuoted(s[1..], rest);
      assert ['"'] + EscapeThen(s[1..], rest) == "\"" + s[1..] + "\"" + rest;
      assert EscapeThen(s[1..], rest) == (['"'] + EscapeThen(s[1..], rest))[1..] == s[1..] + "\"" + rest;
      assert s == [s[0]] + s[1..];
    }
  }

  /** What a number's digits are worth. */
  function Worth(s: string): int
    requires forall i :: 0 <= i < |s| ==> IsDigit(s[i])
  {
    if s == [] then 0 else 10 * Worth(s[..|s| - 1]) + (s[|s| - 1] as int - '0' as int)
  }

  lemma {:induction false} DigitsAreWorth(n: nat)
    ensures Worth(Digits(n)) == n
    decreases n
  {
    DigitWorth(n % 10);
    if n < 10 {
      assert Digits(n)[..0] == [];
    } else {
      DigitsAreWorth(n / 10);
      assert Digits(n)[..|Digits(n)| - 1] == Digits(n / 10);
    }
  }

  lemma DigitWorth(n: nat)
    requires n < 10
    ensures Digit(n) as int - '0' as int == n
  {
  }

  function ValueText(m: Member): string
  {
    if m.Text? then "\"" + m.text + "\"" else DecimalThen(m.value, "")
  }

  function MemberText(m: Member): string
  {
    "\"" + m.name + "\"" + (":" + ValueText(m))
  }

  predicate PlainMember(m: Member)
  {
    Plain(m.name) && (m.Text? ==> Plain(m.text))
  }

  lemma Regroup(a: string, b: string, c: string)
    ensures a + (b + c) == a + b + c
  {
  }

  lemma PlainValueThen(m: Member, rest: string)
    requires PlainMember(m)
    ensures ValueThen(m, rest) == ValueText(m) + rest
  {
    if m.Text? {
      PlainQuoted(m.text, rest);
    }
  }

  lemma PlainMemberThen(m: Member, rest: string)
    requires PlainMember(m)
    ensures MemberThen(m, rest) == MemberText(m) + rest
  {
    PlainValueThen(m, rest);
    PlainQuoted(m.name, [':'] + ValueThen(m, rest));
    Regroup(":", ValueText(m), rest);
    Regroup("\"" + m.name + "\"", ":" + ValueText(m), rest);
  }

  /** Each of these members after a comma. */
  function AfterCommas(ms: seq<Member>): string
  {
    if ms == [] then "" else "," + (MemberText(ms[0]) + AfterCommas(ms[1..]))
  }

  /** The members, separated by commas. */
  function Joined(ms: seq<Member>): string
  {
    if ms == [] then "" else MemberText(ms[0]) + AfterCommas(ms[1..])
  }

  lemma {:induction false} PlainRest(ms: seq<Member>)
    requires forall i :: 0 <= i < |ms| ==> PlainMember(ms[i])
    ensures EncodeRest(ms) == AfterCommas(ms) + "}"
    decreases |ms|
  {
    if ms != [] {
      PlainRest(ms[1..]);
      PlainMemberThen(ms[0], EncodeRest(ms[1..]));
      Regroup(MemberText(ms[0]), AfterCommas(ms[1..]), "}");
      Regroup(",", MemberText(ms[0]) + AfterCommas(ms[1..]), "}");
    }
  }

  /** The text of an object whose strings need no escapes. */
  lemma {:induction false} PlainObject(ms: seq<Member>)
    requires forall i :: 0 <= i < |ms| ==> PlainMember(ms[i])
    ensures EncodeObject(ms) == "{" + (Joined(ms) + "}")
  {
    if ms != [] {
      PlainRest(ms[1..]);
      PlainMemberThen(ms[0], EncodeRest(ms[1..]));
      Regroup(MemberText(ms[0]), AfterCommas(ms[1..]), "}");
    }
  }
}
