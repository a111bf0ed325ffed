/**
 * The Python built-ins that the provider code applies to configuration
 * values and decoded JSON replies: str() and repr(), int(), comparison with
 * 0, subscripting, `in`, dict.get and str.strip. A failing built-in yields
 * the text that str() of the raised exception gives (CPython 3.11 wording).
 */
module Python {
  import opened Wrappers
  import opened Dicts
  import opened Values
  import opened Strings
  import opened Errors

  // ---------------------------------------------------------------------
  // str() and repr()

  function Pow10(k: nat): (p: nat)
    ensures p > 0
  {
    if k == 0 then 1 else 10 * Pow10(k - 1)
  }

  predicate IntegralAt(f: real, k: nat)
  {
    (f * Pow10(k) as real).Floor as real == f * Pow10(k) as real
  }

  /** The fewest decimal places, from k up to 17, that write f exactly (17 when none does). */
  function DecimalPlaces(f: real, k: nat): (p: nat)
    requires k <= 17
    ensures k <= p <= 17
    ensures p < 17 ==> IntegralAt(f, p)
    decreases 17 - k
  {
    if k == 17 || IntegralAt(f, k) then k else DecimalPlaces(f, k + 1)
  }

  /** Places a decimal point k digits from the right, padding with leading zeros. */
  function PointAt(digits: string, k: nat): (r: string)
    requires k > 0
    decreases k + 1 - |digits|
  {
    if |digits| <= k then PointAt("0" + digits, k)
    else digits[..|digits| - k] + "." + digits[|digits| - k..]
  }

  /**
   * repr() of a float, for the value written in positional notation with
   * the fewest digits.
   */
  function FloatRepr(f: real): (r: string)
    decreases if f < 0.0 then 1 else 0
  {
    if f < 0.0 then "-" + FloatRepr(-f)
    else
      var k := DecimalPlaces(f, 0);
      if k == 0 then NatToString(f.Floor) + ".0"
      else PointAt(NatToString((f * Pow10(k) as real).Floor), k)
  }

  /** A whole number is written with ".0" after its digits. */
  lemma FloatReprWhole(n: nat)
    ensures FloatRepr(n as real) == NatToString(n) + ".0"
  {
    assert IntegralAt(n as real, 0);
    assert DecimalPlaces(n as real, 0) == 0;
  }

  /** str() of a value that is not a container. */
  function ScalarText(v: Value): string
  {
    match v
    case VNone => "None"
    case VBool(b) => if b then "True" else "False"
    case VInt(i) => IntToString(i)
    case VFloat(f) => FloatRepr(f)
    case VStr(s) => s
    case VList(_) => "[...]"
    case VDict(_) => "{...}"
    case VObject(tag) => tag
  }

  // repr() of a string

  const Apostrophe: char := '\U{27}'
  const DoubleQuote: char := '\U{22}'
  const Backslash: char := '\U{5C}'

  /** The quote repr() chooses: a double quote when the text holds an apostrophe and no double quote, otherwise an apostrophe. */
  function QuoteFor(s: string): (q: char)
    ensures q == DoubleQuote || q == Apostrophe
    ensures q == DoubleQuote <==> Apostrophe in s && DoubleQuote !in s
  {
    if Apostrophe in s && DoubleQuote !in s then DoubleQuote else Apostrophe
  }

  /** The characters repr() writes as a \xhh escape: the C0 controls other than tab, newline and carriage return, DEL, the C1 controls, the no-break space and the soft hyphen. */
  predicate HexEscaped(c: char)
  {
    (c < ' ' && c != '\t' && c != '\n' && c != '\r') || ('\U{7F}' <= c <= '\U{A0}') || c == '\U{AD}'
  }

  function HexDigit(n: nat): (c: char)
    requires n < 16
  {
    if n < 10 then ('0' as int + n) as char else ('a' as int + n - 10) as char
  }

  function HexValue(c: char): (r: Option<nat>)
    ensures r.Some? ==> r.value < 16
  {
    if '0' <= c <= '9' then Some(c as int - '0' as int)
    else if 'a' <= c <= 'f' then Some(c as int - 'a' as int + 10)
    else None
  }

  /** How repr() writes one character of a text quoted with q. */
  function EscapeChar(c: char, q: char): string
  {
    if c == Backslash then "\\\\"
    else if c == q then [Backslash, q]
    else if c == '\t' then "\\t"
    else if c == '\n' then "\\n"
    else if c == '\r' then "\\r"
    else if HexEscaped(c) then [Backslash, 'x', HexDigit(c as int / 16), HexDigit(c as int % 16)]
    else [c]
  }

  function EscapeBody(s: string, q: char): string
    decreases |s|
  {
    if |s| == 0 then "" else EscapeChar(s[0], q) + EscapeBody(s[1..], q)
  }

  /** repr() of a string: the chosen quote around the escaped characters. */
  function StrRepr(s: string): (r: string)
    ensures |r| >= 2 && r[0] == r[|r| - 1] == QuoteFor(s)
    ensures ReadStrRepr(r) == Some(s)
    ensures forall i :: 0 <= i < |r| ==> r[i] != '\n' && r[i] != '\r' && r[i] != '\t'
  {
    var q := QuoteFor(s);
    UnescapeEscapeBody(s, q);
    EscapeBodyOneLine(s, q);
    [q] + EscapeBody(s, q) + [q]
  }

  /** Reads back the text of an escaped body quoted with q; None for a stray quote or a malformed escape. */
  function Unescape(t: string, q: char): (r: Option<string>)
    decreases |t|
  {
    if |t| == 0 then Some("")
    else if t[0] == q then None
    else if t[0] != Backslash then PrependTo(t[0], Unescape(t[1..], q))
    else if |t| < 2 then None
    else if t[1] == Backslash || t[1] == q then PrependTo(t[1], Unescape(t[2..], q))
    else if t[1] == 't' then PrependTo('\t', Unescape(t[2..], q))
    else if t[1] == 'n' then PrependTo('\n', Unescape(t[2..], q))
    else if t[1] == 'r' then PrependTo('\r', Unescape(t[2..], q))
    else if t[1] == 'x' && |t| >= 4 && HexValue(t[2]).Some? && HexValue(t[3]).Some? then
      PrependTo((HexValue(t[2]).value * 16 + HexValue(t[3]).value) as char, Unescape(t[4..], q))
    else None
  }

  function PrependTo(c: char, o: Option<string>): Option<string>
  {
    if o.Some? then Some([c] + o.value) else None
  }

  /** Reads back repr() of a string: matching quotes of either kind around an escaped body. */
  function ReadStrRepr(r: string): Option<string>
  {
    if |r| >= 2 && (r[0] == Apostrophe || r[0] == DoubleQuote) && r[|r| - 1] == r[0] then Unescape(r[1..|r| - 1], r[0])
    else None
  }

  lemma UnescapeEscapeChar(c: char, q: char, rest: string)
    requires q == Apostrophe || q == DoubleQuote
    ensures Unescape(EscapeChar(c, q) + rest, q) == PrependTo(c, Unescape(rest, q))
  {
    var t := EscapeChar(c, q) + rest;
    if c == Backslash || c == q || c == '\t' || c == '\n' || c == '\r' {
      assert t[2..] == rest;
    } else if HexEscaped(c) {
      assert HexValue(HexDigit(c as int / 16)) == Some(c as int / 16);
      assert HexValue(HexDigit(c as int % 16)) == Some(c as int % 16);
      assert t[4..] == rest;
    } else {
      assert t[1..] == rest;
    }
  }

  lemma {:induction false} UnescapeEscapeBody(s: string, q: char)
    requires q == Apostrophe || q == DoubleQuote
    ensures Unescape(EscapeBody(s, q), q) == Some(s)
    decreases |s|
  {
    if |s| > 0 {
      var rest := EscapeBody(s[1..], q);
      assert EscapeBody(s, q) == EscapeChar(s[0], q) + rest;
      UnescapeEscapeChar(s[0], q, rest);
      UnescapeEscapeBody(s[1..], q);
      assert [s[0]] + s[1..] == s;
    }
  }

  lemma {:induction false} EscapeBodyOneLine(s: string, q: char)
    requires q == Apostrophe || q == DoubleQuote
    ensures forall i :: 0 <= i < |EscapeBody(s, q)| ==> EscapeBody(s, q)[i] !in "\n\r\t"
    decreases |s|
  {
    if |s| > 0 {
      EscapeBodyOneLine(s[1..], q);
      var e := EscapeChar(s[0], q);
      assert forall i :: 0 <= i < |e| ==> e[i] !in "\n\r\t";
    }
  }

  /** A text without quotes, backslashes or control characters is repr()'d in single quotes as it is. */
  lemma PlainStrRepr(s: string)
    requires forall i :: 0 <= i < |s| ==> s[i] != Apostrophe && s[i] != DoubleQuote && s[i] != Backslash && ' ' <= s[i] < '\U{7F}'
    ensures StrRepr(s) == "'" + s + "'"
  {
    assert Apostrophe !in s;
    PlainEscapeBody(s, Apostrophe);
  }

  /** Printable ASCII other than the backslash and the quote q is written as it is. */
  lemma {:induction false} PlainEscapeBody(s: string, q: char)
    requires forall i :: 0 <= i < |s| ==> s[i] != q && s[i] != Backslash && ' ' <= s[i] < '\U{7F}'
    ensures EscapeBody(s, q) == s
    decreases |s|
  {
    if |s| > 0 {
      PlainEscapeBody(s[1..], q);
      assert [s[0]] + s[1..] == s;
    }
  }

  /** A string element holding an apostrophe and no double quote is written in double quotes, as `["it's"]`. */
  lemma ApostropheRepr(s: string)
    requires Apostrophe in s
    requires forall i :: 0 <= i < |s| ==> s[i] != DoubleQuote && s[i] != Backslash && ' ' <= s[i] < '\U{7F}'
    ensures Repr(VList([VStr(s)])) == "[" + [DoubleQuote] + s + [DoubleQuote] + "]"
  {
    DoubleQuotedRepr(s);
    SingleItemRepr(s);
  }

  lemma DoubleQuotedRepr(s: string)
    requires Apostrophe in s
    requires forall i :: 0 <= i < |s| ==> s[i] != DoubleQuote && s[i] != Backslash && ' ' <= s[i] < '\U{7F}'
    ensures StrRepr(s) == [DoubleQuote] + s + [DoubleQuote]
  {
    assert QuoteFor(s) == DoubleQuote;
    PlainEscapeBody(s, DoubleQuote);
  }

  /** A newline inside a string is written as the two characters \ and n. */
  lemma NewlineRepr()
    ensures Repr(VList([VStr("a\nb")])) == "['a\\nb']"
  {
    NewlineStrRepr();
    SingleItemRepr("a\nb");
  }

  lemma NewlineStrRepr()
    ensures StrRepr("a\nb") == "'a\\nb'"
  {
    var b := "a\nb";
    assert Apostrophe !in b;
    assert EscapeBody(b, Apostrophe) == "a\\nb" by {
      assert EscapeBody(b[2..], Apostrophe) == "b";
      assert EscapeBody(b[1..], Apostrophe) == "\\nb";
    }
  }

  lemma SingleItemRepr(t: string)
    ensures Repr(VList([VStr(t)])) == "[" + StrRepr(t) + "]"
  {
    var items := [VStr(t)];
    assert ItemsRepr(items, 1) == "";
    assert ItemsRepr(items, 0) == Repr(items[0]) + ItemsRepr(items, 1);
    assert Repr(items[0]) == StrRepr(t);
  }

  /** repr(): strings are quoted and escaped, containers are written out element by element. */
  function Repr(v: Value): (r: string)
    ensures v.VStr? ==> ReadStrRepr(r) == Some(v.s)
    ensures v.VList? ==> StartsWith(r, "[") && EndsWith(r, "]")
    ensures v.VDict? ==> StartsWith(r, "{") && EndsWith(r, "}")
    decreases v
  {
    match v
    case VStr(s) => StrRepr(s)
    case VList(items) => "[" + ItemsRepr(items, 0) + "]"
    case VDict(es) => "{" + EntriesRepr(es, 0) + "}"
    case _ => ScalarText(v)
  }

  function ItemsRepr(items: seq<Value>, i: nat): string
    requires i <= |items|
    decreases VList(items), |items| - i
  {
    if i == |items| then ""
    else
      assert items[i] in items;
      (if i > 0 then ", " else "") + Repr(items[i]) + ItemsRepr(items, i + 1)
  }

  function EntriesRepr(es: Dict<Value>, i: nat): string
    requires i <= |es|
    decreases VDict(es), |es| - i
  {
    if i == |es| then ""
    else
      assert es[i] in es;
      (if i > 0 then ", " else "") + StrRepr(es[i].0) + ": " + Repr(es[i].1) + EntriesRepr(es, i + 1)
  }

  /** str(): a string is itself, a container is its repr(). */
  function Str(v: Value): (r: string)
    ensures v.VStr? ==> r == v.s
  {
    if v.VList? || v.VDict? then Repr(v) else ScalarText(v)
  }

  // ---------------------------------------------------------------------
  // Numbers

  /** The number a value stands for in a comparison (bool is an int subclass). */
  function Number(v: Value): (r: Option<real>)
    ensures r.Some? <==> v.VBool? || v.VInt? || v.VFloat?
  {
    match v
    case VBool(b) => Some(if b then 1.0 else 0.0)
    case VInt(i) => Some(i as real)
    case VFloat(f) => Some(f)
    case _ => None
  }

  /** The TypeError of `v < 0` or `v <= 0` when v is no number. */
  function ComparisonError(op: string, v: Value): Error
  {
    Error(TypeError, "'" + op + "' not supported between instances of '" + TypeName(v) + "' and 'int'")
  }

  /** int(f) of a float truncates toward zero. */
  function Truncate(f: real): (i: int)
    ensures f >= 0.0 ==> i as real <= f < i as real + 1.0
    ensures f < 0.0 ==> i as real - 1.0 < f <= i as real
  {
    if f >= 0.0 then f.Floor else -((-f).Floor)
  }

  /** int(s) for a string: ASCII digits with an optional sign. */
  function IntLiteral(s: string): (r: Option<int>)
    ensures IsDigits(s) ==> r == Some(DigitsValue(s) as int)
  {
    if IsDigits(s) then Some(DigitsValue(s) as int)
    else if |s| > 1 && s[0] == '-' && IsDigits(s[1..]) then Some(-(DigitsValue(s[1..]) as int))
    else if |s| > 1 && s[0] == '+' && IsDigits(s[1..]) then Some(DigitsValue(s[1..]) as int)
    else None
  }

  /** Followed by repr() of the rejected string, cut to 200 characters (the %.200R of CPython). */
  const IntLiteralText := "invalid literal for int() with base 10: "
  const IntArgumentText := "int() argument must be a string, a bytes-like object or a real number, not '"

  /** int(v): numbers are truncated, strings of digits (with an optional sign) are read. */
  function IntOf(v: Value): (r: Result<int, Error>)
    ensures v.VInt? ==> r == Ok(v.i)
    ensures v.VStr? && IntLiteral(v.s).Some? ==> r == Ok(IntLiteral(v.s).value)
    ensures r.Err? ==> r.error.kind == ValueError || r.error.kind == TypeError
    ensures v.VStr? && IntLiteral(v.s).None? ==>
      r.Err? && r.error.kind == ValueError && StartsWith(r.error.message, IntLiteralText)
      && |r.error.message| <= |IntLiteralText| + 200
      && StartsWith(StrRepr(v.s), r.error.message[|IntLiteralText|..])
    ensures v.VStr? && IntLiteral(v.s).None? && |StrRepr(v.s)| <= 200 ==>
      ReadStrRepr(r.error.message[|IntLiteralText|..]) == Some(v.s)
  {
    match v
    case VBool(b) => Ok(if b then 1 else 0)
    case VInt(i) => Ok(i)
    case VFloat(f) => Ok(Truncate(f))
    case VStr(s) =>
      if IntLiteral(s).Some? then Ok(IntLiteral(s).value)
      else Err(Error(ValueError, IntLiteralText + Prefix(StrRepr(s), 200)))
    case _ =>
      Err(Error(TypeError, IntArgumentText + TypeName(v) + "'"))
  }

  // ---------------------------------------------------------------------
  // Subscripts, membership, dict.get, str.strip

  /** v[k] for a string key; the error is str() of the KeyError or TypeError. */
  function Key(v: Value, k: string): (r: Result<Value, string>)
    ensures v.VDict? && HasKey(v.entries, k) ==> r == Ok(Get(v.entries, k).value)
    ensures !v.VDict? ==> r.Err?
  {
    match v
    case VDict(es) => if HasKey(es, k) then Ok(Get(es, k).value) else Err("'" + k + "'")
    case VList(_) => Err("list indices must be integers or slices, not str")
    case VStr(_) => Err("string indices must be integers, not 'str'")
    case _ => Err("'" + TypeName(v) + "' object is not subscriptable")
  }

  /** v[0] */
  function First(v: Value): (r: Result<Value, string>)
    ensures v.VList? && |v.items| > 0 ==> r == Ok(v.items[0])
  {
    match v
    case VList(items) => if |items| > 0 then Ok(items[0]) else Err("list index out of range")
    case VStr(s) => if |s| > 0 then Ok(VStr([s[0]])) else Err("string index out of range")
    case VDict(_) => Err("0")
    case _ => Err("'" + TypeName(v) + "' object is not subscriptable")
  }

  /** `k in v` for a string k: a key of a dict, an element of a list, a substring of a string. */
  function In(k: string, v: Value): (r: Result<bool, string>)
    ensures v.VDict? ==> r == Ok(HasKey(v.entries, k))
  {
    match v
    case VDict(es) => Ok(HasKey(es, k))
    case VList(items) => Ok(VStr(k) in items)
    case VStr(s) => Ok(Contains(s, k))
    case _ => Err("argument of type '" + TypeName(v) + "' is not iterable")
  }

  /** v.get(k, default) */
  function GetOr(v: Value, k: string, default: Value): (r: Result<Value, string>)
    ensures v.VDict? ==> r == Ok(if HasKey(v.entries, k) then Get(v.entries, k).value else default)
    ensures !v.VDict? ==> r.Err?
  {
    if v.VDict? then Ok(if HasKey(v.entries, k) then Get(v.entries, k).value else default)
    else Err("'" + TypeName(v) + "' object has no attribute 'get'")
  }

  /** v.strip() */
  function StripValue(v: Value): (r: Result<string, string>)
    ensures v.VStr? ==> r == Ok(Strip(v.s))
    ensures !v.VStr? ==> r.Err?
  {
    if v.VStr? then Ok(Strip(v.s)) else Err("'" + TypeName(v) + "' object has no attribute 'strip'")
  }

  /** v.rstrip("/") */
  function RStripSlashes(v: Value): (r: Result<string, Error>)
    ensures v.VStr? ==> r.Ok? && r.value == RStripChars(v.s, {'/'})
    ensures !v.VStr? ==> r.Err?
  {
    if v.VStr? then Ok(RStripChars(v.s, {'/'}))
    else Err(Error(OtherError, "'" + TypeName(v) + "' object has no attribute 'rstrip'"))
  }
}
