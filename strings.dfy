/**
 * The parts of Python's str type that the modelled code relies on:
 * strip/rstrip, lower/upper, split/join, slicing with clamped bounds,
 * substring search and decimal rendering of integers.
 */
module Strings {
  import opened Wrappers

  /** str.isspace for one character (the Unicode White_Space set Python uses). */
  predicate IsSpace(c: char)
  {
    c == ' ' || ('\t' <= c <= '\r') || ('\U{1C}' <= c <= '\U{1F}') || c == '\U{85}' || c == '\U{A0}'
    || c == '\U{1680}' || ('\U{2000}' <= c <= '\U{200A}') || c == '\U{2028}' || c == '\U{2029}'
    || c == '\U{202F}' || c == '\U{205F}' || c == '\U{3000}'
  }

  predicate IsAsciiDigit(c: char)
  {
    '0' <= c <= '9'
  }

  predicate IsAsciiLetter(c: char)
  {
    ('a' <= c <= 'z') || ('A' <= c <= 'Z')
  }

  /** str.lstrip() with no argument. */
  function LStrip(s: string): (r: string)
    ensures |r| <= |s|
  {
    if |s| > 0 && IsSpace(s[0]) then LStrip(s[1..]) else s
  }

  /** lstrip() removes exactly the leading white space. */
  lemma {:induction false} LStripShape(s: string)
    ensures LStrip(s) == s[|s| - |LStrip(s)|..]
    ensures LStrip(s) == [] || !IsSpace(LStrip(s)[0])
    ensures forall i :: 0 <= i < |s| - |LStrip(s)| ==> IsSpace(s[i])
  {
    if |s| > 0 && IsSpace(s[0]) {
      LStripShape(s[1..]);
      assert forall i :: 1 <= i < |s| ==> s[1..][i - 1] == s[i];
    }
  }

  /** str.rstrip() with no argument. */
  function RStrip(s: string): (r: string)
    ensures |r| <= |s|
  {
    if |s| > 0 && IsSpace(s[|s| - 1]) then RStrip(s[..|s| - 1]) else s
  }

  /** rstrip() removes exactly the trailing white space. */
  lemma {:induction false} RStripShape(s: string)
    ensures RStrip(s) == s[..|RStrip(s)|]
    ensures RStrip(s) == [] || !IsSpace(RStrip(s)[|RStrip(s)| - 1])
    ensures forall i :: |RStrip(s)| <= i < |s| ==> IsSpace(s[i])
  {
    if |s| > 0 && IsSpace(s[|s| - 1]) {
      RStripShape(s[..|s| - 1]);
    }
  }

  /** str.strip() with no argument. */
  function Strip(s: string): (r: string)
  {
    RStrip(LStrip(s))
  }

  /** A string is blank when strip() makes it empty. */
  predicate IsBlank(s: string)
  {
    forall i :: 0 <= i < |s| ==> IsSpace(s[i])
  }

  lemma StripEmptyIffBlank(s: string)
    ensures Strip(s) == [] <==> IsBlank(s)
  {
    var l := LStrip(s);
    LStripShape(s);
    RStripShape(l);
    if l != [] {
      assert l[0] == s[|s| - |l|];
    }
  }

  /** Where the stripped text starts inside s. */
  function StripStart(s: string): nat
  {
    |s| - |LStrip(s)|
  }

  /** strip() removes only surrounding white space: the result is a slice of s with non-space ends. */
  lemma StripShape(s: string)
    ensures StripStart(s) + |Strip(s)| <= |s|
    ensures Strip(s) == s[StripStart(s)..StripStart(s) + |Strip(s)|]
    ensures forall i :: 0 <= i < StripStart(s) ==> IsSpace(s[i])
    ensures forall i :: StripStart(s) + |Strip(s)| <= i < |s| ==> IsSpace(s[i])
    ensures Strip(s) == [] || (!IsSpace(Strip(s)[0]) && !IsSpace(Strip(s)[|Strip(s)| - 1]))
  {
    var l := LStrip(s);
    var r := RStrip(l);
    LStripShape(s);
    RStripShape(l);
    var i := |s| - |l|;
    assert r == s[i..i + |r|];
    assert forall k :: |r| <= k < |l| ==> l[k] == s[i + k];
    if r != [] {
      assert r[0] == l[0];
    }
  }

  /** strip() is idempotent. */
  lemma StripIdempotent(s: string)
    ensures Strip(Strip(s)) == Strip(s)
  {
    StripShape(s);
    var t := Strip(s);
    if t != [] {
      assert LStrip(t) == t;
      assert RStrip(t) == t;
    }
  }

  /** str.rstrip(chars): drop trailing characters that belong to cs. */
  function RStripChars(s: string, cs: set<char>): (r: string)
    ensures |r| <= |s| && r == s[..|r|]
    ensures r == [] || r[|r| - 1] !in cs
    ensures forall i :: |r| <= i < |s| ==> s[i] in cs
  {
    if |s| > 0 && s[|s| - 1] in cs then RStripChars(s[..|s| - 1], cs) else s
  }

  function LowerChar(c: char): char
  {
    if 'A' <= c <= 'Z' then (c as int + 32) as char else c
  }

  function UpperChar(c: char): char
  {
    if 'a' <= c <= 'z' then (c as int - 32) as char else c
  }

  /** str.lower() on the ASCII letters. */
  function Lower(s: string): (r: string)
    ensures |r| == |s|
    ensures forall i :: 0 <= i < |s| ==> r[i] == LowerChar(s[i])
  {
    seq(|s|, i requires 0 <= i < |s| => LowerChar(s[i]))
  }

  lemma LowerIdempotent(s: string)
    ensures Lower(Lower(s)) == Lower(s)
  {
  }

  predicate StartsWith(s: string, p: string)
  {
    |p| <= |s| && s[..|p|] == p
  }

  predicate EndsWith(s: string, p: string)
  {
    |p| <= |s| && s[|s| - |p|..] == p
  }

  /** Whatever ends with x + y ends with y. */
  lemma EndsWithTail(s: string, x: string, y: string)
    requires EndsWith(s, x + y)
    ensures EndsWith(s, y)
  {
    assert s[|s| - |y|..] == s[|s| - |x + y|..][|x|..];
  }

  /** s[:n] for n >= 0: the first n characters, or all of s when it is shorter. */
  function Prefix(s: string, n: nat): (r: string)
    ensures |r| == if |s| < n then |s| else n
    ensures StartsWith(s, r)
  {
    if |s| <= n then s else s[..n]
  }

  /** s[-n:] for n > 0: the last n characters, or all of s when it is shorter. */
  function Suffix(s: string, n: nat): (r: string)
    ensures |r| == if |s| < n then |s| else n
    ensures EndsWith(s, r)
  {
    if |s| <= n then s else s[|s| - n..]
  }

  predicate OccursAt(s: string, sub: string, i: int)
  {
    0 <= i && i + |sub| <= |s| && s[i..i + |sub|] == sub
  }

  /** An occurrence stays one when text is put in front, moved by the text's length. */
  lemma OccursAtShift(pre: string, s: string, sub: string, i: int)
    requires OccursAt(s, sub, i)
    ensures OccursAt(pre + s, sub, i + |pre|)
  {
    assert (pre + s)[i + |pre|..i + |pre| + |sub|] == s[i..i + |sub|];
  }

  /** The first index at or after i where sub occurs, as str.find does. */
  function FindFrom(s: string, sub: string, i: nat): (r: Option<nat>)
    decreases |s| - i
    ensures r.Some? ==> i <= r.value && OccursAt(s, sub, r.value)
    ensures r.Some? ==> forall j :: i <= j < r.value ==> !OccursAt(s, sub, j)
    ensures r.None? ==> forall j :: i <= j ==> !OccursAt(s, sub, j)
  {
    if i + |sub| > |s| then None
    else if s[i..i + |sub|] == sub then Some(i)
    else FindFrom(s, sub, i + 1)
  }

  function Find(s: string, sub: string): Option<nat>
  {
    FindFrom(s, sub, 0)
  }

  /** The `in` operator on strings. */
  predicate Contains(s: string, sub: string)
  {
    Find(s, sub).Some?
  }

  lemma ContainsIff(s: string, sub: string)
    ensures Contains(s, sub) <==> exists i :: OccursAt(s, sub, i)
  {
  }

  /** A string starts with whatever is put in front of it. */
  lemma PrefixStarts(p: string, x: string)
    ensures StartsWith(p + x, p)
  {
    assert (p + x)[..|p|] == p;
  }

  /** A string contains whatever is put in its middle. */
  lemma ContainsMiddle(a: string, b: string, c: string)
    ensures Contains(a + b + c, b)
  {
    assert (a + b + c)[|a|..|a| + |b|] == b;
    assert OccursAt(a + b + c, b, |a|);
    ContainsIff(a + b + c, b);
  }

  /** The text after the first occurrence of sub: s.split(sub, 1)[1]. */
  function After(s: string, sub: string): (r: string)
    requires Contains(s, sub)
    ensures EndsWith(s, r) && |r| <= |s| - |sub|
  {
    s[Find(s, sub).value + |sub|..]
  }

  /** str.split(sep) for a one-character separator. */
  function Split(s: string, sep: char): (r: seq<string>)
    ensures |r| >= 1
    ensures forall k :: 0 <= k < |r| ==> sep !in r[k]
  {
    if |s| == 0 then [""]
    else
      var rest := Split(s[1..], sep);
      if s[0] == sep then [""] + rest else [[s[0]] + rest[0]] + rest[1..]
  }

  /** sep.join(parts). */
  function Join(sep: string, parts: seq<string>): string
  {
    if |parts| == 0 then ""
    else if |parts| == 1 then parts[0]
    else parts[0] + sep + Join(sep, parts[1..])
  }

  /** Splitting and joining again with the same separator gives back the text. */
  lemma {:induction false} JoinSplit(s: string, sep: char)
    ensures Join([sep], Split(s, sep)) == s
  {
    if |s| > 0 {
      var rest := Split(s[1..], sep);
      JoinSplit(s[1..], sep);
      if s[0] == sep {
        assert s == [sep] + s[1..];
      } else {
        assert s == [s[0]] + s[1..];
        if |rest| > 1 {
          assert rest == [rest[0]] + rest[1..];
        }
      }
    }
  }

  /** The pieces of a split are exactly as many as the separators plus one. */
  function CountChar(s: string, c: char): nat
  {
    if |s| == 0 then 0 else (if s[0] == c then 1 else 0) + CountChar(s[1..], c)
  }

  lemma {:induction false} SplitCount(s: string, sep: char)
    ensures |Split(s, sep)| == CountChar(s, sep) + 1
  {
    if |s| > 0 {
      SplitCount(s[1..], sep);
    }
  }

  function DigitChar(d: nat): char
    requires d < 10
  {
    ['0', '1', '2', '3', '4', '5', '6', '7', '8', '9'][d]
  }

  /** str(n) for a natural number. */
  function NatToString(n: nat): (r: string)
    ensures |r| > 0
    ensures forall i :: 0 <= i < |r| ==> IsAsciiDigit(r[i])
  {
    if n < 10 then [DigitChar(n)] else NatToString(n / 10) + [DigitChar(n % 10)]
  }

  /** int(s) for a string of ASCII digits. */
  function DigitsValue(s: string): nat
    requires forall i :: 0 <= i < |s| ==> IsAsciiDigit(s[i])
  {
    if |s| == 0 then 0
    else
      assert IsAsciiDigit(s[|s| - 1]);
      10 * DigitsValue(s[..|s| - 1]) + (s[|s| - 1] as int - '0' as int)
  }

  /** Reading back what NatToString wrote gives the number. */
  lemma {:induction false} NatToStringRoundTrip(n: nat)
    ensures DigitsValue(NatToString(n)) == n
  {
    if n >= 10 {
      NatToStringRoundTrip(n / 10);
      var s := NatToString(n);
      assert s[..|s| - 1] == NatToString(n / 10);
    }
  }

  /** str(i) for an integer. */
  function IntToString(i: int): (r: string)
    ensures |r| > 0
  {
    if i < 0 then "-" + NatToString(-i) else NatToString(i)
  }

  /** str.isdigit() restricted to ASCII: non-empty and all digits. */
  predicate IsDigits(s: string)
  {
    |s| > 0 && forall i :: 0 <= i < |s| ==> IsAsciiDigit(s[i])
  }

  lemma {:induction false} CountCharAbsent(s: string, c: char)
    requires c !in s
    ensures CountChar(s, c) == 0
  {
    if |s| > 0 {
      CountCharAbsent(s[1..], c);
    }
  }

  /** A text without the separator splits into itself alone. */
  lemma SplitWithoutSeparator(s: string, sep: char)
    requires sep !in s
    ensures Split(s, sep) == [s]
  {
    CountCharAbsent(s, sep);
    SplitCount(s, sep);
    JoinSplit(s, sep);
  }

  lemma {:induction false} JoinSnoc(sep: string, xs: seq<string>, y: string)
    requires |xs| > 0
    ensures Join(sep, xs + [y]) == Join(sep, xs) + sep + y
  {
    if |xs| > 1 {
      JoinSnoc(sep, xs[1..], y);
      assert (xs + [y])[1..] == xs[1..] + [y];
    }
  }

  /**
   * The last piece of a split is the text after the last separator: with a
   * separator in s, s is the join of the other pieces, the separator, and
   * the last piece.
   */
  lemma SplitLast(s: string, sep: char)
    requires sep in s
    ensures |Split(s, sep)| > 1
    ensures var parts := Split(s, sep);
      s == Join([sep], parts[..|parts| - 1]) + [sep] + parts[|parts| - 1]
  {
    var parts := Split(s, sep);
    SplitCount(s, sep);
    if CountChar(s, sep) == 0 {
      CountCharZero(s, sep);
      assert false;
    }
    assert |parts| > 1;
    var init := parts[..|parts| - 1];
    var last := parts[|parts| - 1];
    assert parts == init + [last];
    JoinSplit(s, sep);
    JoinSnoc([sep], init, last);
  }

  lemma {:induction false} CountCharZero(s: string, c: char)
    requires CountChar(s, c) == 0
    ensures c !in s
  {
    if |s| > 0 {
      CountCharZero(s[1..], c);
      assert s == [s[0]] + s[1..];
    }
  }

  lemma {:induction false} SplitAtFirst(x: string, sep: char, y: string)
    requires sep !in x
    ensures Split(x + [sep] + y, sep) == [x] + Split(y, sep)
  {
    if |x| > 0 {
      SplitAtFirst(x[1..], sep, y);
      assert (x + [sep] + y)[1..] == x[1..] + [sep] + y;
      assert [x[0]] + x[1..] == x;
    } else {
      assert x + [sep] + y == [sep] + y;
    }
  }

  /** Joining separator-free pieces and splitting again gives back the pieces. */
  lemma {:induction false} SplitJoin(parts: seq<string>, sep: char)
    requires |parts| > 0
    requires forall k :: 0 <= k < |parts| ==> sep !in parts[k]
    ensures Split(Join([sep], parts), sep) == parts
  {
    if |parts| == 1 {
      SplitWithoutSeparator(parts[0], sep);
    } else {
      SplitJoin(parts[1..], sep);
      SplitAtFirst(parts[0], sep, Join([sep], parts[1..]));
      assert parts == [parts[0]] + parts[1..];
    }
  }

  /** The last piece of a split is the text after the last separator. */
  lemma {:induction false} SplitLastPiece(x: string, sep: char, y: string)
    requires sep !in y
    ensures var parts := Split(x + [sep] + y, sep);
      |parts| >= 2 && parts[|parts| - 1] == y
  {
    if |x| == 0 {
      SplitAtFirst(x, sep, y);
      SplitWithoutSeparator(y, sep);
    } else {
      SplitLastPiece(x[1..], sep, y);
      assert (x + [sep] + y)[1..] == x[1..] + [sep] + y;
    }
  }

  /** Concatenation regroups freely. */
  lemma AppendAssoc(a: string, b: string, c: string)
    ensures (a + b) + c == a + (b + c)
  {
  }

  /** The three parts of a concatenation are found where they were put. */
  lemma ConcatParts(x: string, y: string, z: string)
    ensures StartsWith(x + y + z, x)
    ensures OccursAt(x + y + z, y, |x|)
    ensures EndsWith(x + y + z, z)
  {
    var s := x + y + z;
    assert s[..|x|] == x;
    assert s[|x|..|x| + |y|] == y;
    assert s[|s| - |z|..] == z;
  }

  /** str.lower() distributes over concatenation. */
  lemma LowerConcat(a: string, b: string)
    ensures Lower(a + b) == Lower(a) + Lower(b)
  {
    assert forall i :: 0 <= i < |a + b| ==> Lower(a + b)[i] == (Lower(a) + Lower(b))[i];
  }

  /** The end of the run of white space starting at i (a greedy `\s*` of a regex). */
  function SkipSpaces(t: string, i: nat): (j: nat)
    requires i <= |t|
    decreases |t| - i
    ensures i <= j <= |t|
    ensures forall k :: i <= k < j ==> IsSpace(t[k])
    ensures j == |t| || !IsSpace(t[j])
  {
    if i < |t| && IsSpace(t[i]) then SkipSpaces(t, i + 1) else i
  }
}
