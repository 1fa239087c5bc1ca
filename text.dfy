/** The handful of Python `str` operations the core relies on, restricted to
    ASCII: strip, upper/lower, startswith, `in`, replace-with-empty, split,
    join, isdigit, and decimal conversion of integers. */
module Text {
  import opened Wrappers

  /** Python's `str.isspace()` on the ASCII range. */
  predicate IsSpace(c: char) {
    c == ' ' || c == '\t' || c == '\n' || c == '\r' || c == '\U{000B}' || c == '\U{000C}'
    || ('\U{001C}' <= c <= '\U{001F}')
  }

  predicate IsDigit(c: char) {
    '0' <= c <= '9'
  }

  /** Python's `str.isdigit()`: non-empty and every character a digit. */
  predicate AllDigits(s: string) {
    |s| > 0 && forall i :: 0 <= i < |s| ==> IsDigit(s[i])
  }

  /** Python truthiness of an optional string: present and non-empty. */
  predicate Truthy(o: Option<string>) {
    o.Some? && o.value != ""
  }

  /** Python truthiness of an optional list: present and non-empty. */
  predicate TruthyList<T>(o: Option<seq<T>>) {
    o.Some? && |o.value| > 0
  }

  predicate StartsWith(s: string, p: string) {
    p <= s
  }

  /** Python's `p in s` for strings. */
  predicate Contains(s: string, p: string)
    decreases |s|
  {
    p <= s || (|s| > 0 && Contains(s[1..], p))
  }

  function TrimStart(s: string): (r: string)
    ensures |r| <= |s| && r == s[|s| - |r|..]
    ensures r == [] || !IsSpace(r[0])
  {
    if |s| > 0 && IsSpace(s[0]) then TrimStart(s[1..]) else s
  }

  function TrimEnd(s: string): (r: string)
    ensures |r| <= |s| && r == s[..|r|]
    ensures r == [] || !IsSpace(r[|r| - 1])
  {
    if |s| > 0 && IsSpace(s[|s| - 1]) then TrimEnd(s[..|s| - 1]) else s
  }

  /** TrimStart drops only whitespace. */
  lemma {:induction false} TrimStartDropsSpace(s: string)
    ensures forall i :: 0 <= i < |s| - |TrimStart(s)| ==> IsSpace(s[i])
    decreases |s|
  {
    if |s| > 0 && IsSpace(s[0]) {
      TrimStartDropsSpace(s[1..]);
    }
  }

  /** TrimEnd drops only whitespace. */
  lemma {:induction false} TrimEndDropsSpace(s: string)
    ensures forall i :: |TrimEnd(s)| <= i < |s| ==> IsSpace(s[i])
    decreases |s|
  {
    if |s| > 0 && IsSpace(s[|s| - 1]) {
      TrimEndDropsSpace(s[..|s| - 1]);
    }
  }

  /** Python's `str.strip()`: the longest infix with no surrounding whitespace
      (StripInfix). */
  function Strip(s: string): (r: string)
    ensures r == [] || (!IsSpace(r[0]) && !IsSpace(r[|r| - 1]))
    ensures |r| <= |s|
  {
    TrimEnd(TrimStart(s))
  }

  /** Strip keeps the infix that starts after the leading whitespace, and every
      character outside that infix is whitespace. */
  lemma StripInfix(s: string)
    ensures var a := |s| - |TrimStart(s)|; var r := Strip(s);
      a + |r| <= |s| && r == s[a..a + |r|]
      && (forall i :: 0 <= i < a ==> IsSpace(s[i]))
      && (forall i :: a + |r| <= i < |s| ==> IsSpace(s[i]))
  {
    var t := TrimStart(s);
    var a := |s| - |t|;
    assert t == s[a..];
    TrimStartDropsSpace(s);
    TrimEndDropsSpace(t);
    var r := TrimEnd(t);
    assert r == t[..|r|];
    forall i | a + |r| <= i < |s| ensures IsSpace(s[i]) {
      assert s[i] == t[i - a];
    }
  }

  /** Whitespace around a text with no whitespace at its ends is what strip drops. */
  lemma StripSurrounded(w1: string, v: string, w2: string)
    requires forall i :: 0 <= i < |w1| ==> IsSpace(w1[i])
    requires forall i :: 0 <= i < |w2| ==> IsSpace(w2[i])
    requires v == [] || (!IsSpace(v[0]) && !IsSpace(v[|v| - 1]))
    ensures v != [] ==> Strip(w1 + v + w2) == v
    ensures v == [] ==> Strip(w1 + v + w2) == []
  {
    var s := w1 + v + w2;
    StripInfix(s);
    var r := Strip(s);
    var a := |s| - |TrimStart(s)|;
    if v == [] {
      assert forall i :: 0 <= i < |s| ==> IsSpace(s[i]);
    } else {
      assert s[|w1|] == v[0];
      assert s[|w1| + |v| - 1] == v[|v| - 1];
      assert a == |w1| && a + |r| == |w1| + |v|;
      assert s[|w1|..|w1| + |v|] == v;
    }
  }

  lemma StripIdempotent(s: string)
    ensures Strip(Strip(s)) == Strip(s)
  {
    StripUnchanged(Strip(s));
  }

  /** Text with no whitespace at either end is its own strip. */
  lemma StripUnchanged(s: string)
    requires s == [] || (!IsSpace(s[0]) && !IsSpace(s[|s| - 1]))
    ensures Strip(s) == s
  {
    assert TrimStart(s) == s;
    assert TrimEnd(s) == s;
  }

  function UpperChar(c: char): char {
    if 'a' <= c <= 'z' then (c as int - 32) as char else c
  }

  function LowerChar(c: char): char {
    if 'A' <= c <= 'Z' then (c as int + 32) as char else c
  }

  /** Python's `str.upper()` on ASCII letters. */
  function Upper(s: string): (r: string)
    ensures |r| == |s| && forall i :: 0 <= i < |s| ==> r[i] == UpperChar(s[i])
  {
    seq(|s|, i requires 0 <= i < |s| => UpperChar(s[i]))
  }

  /** Python's `str.lower()` on ASCII letters. */
  function Lower(s: string): (r: string)
    ensures |r| == |s| && forall i :: 0 <= i < |s| ==> r[i] == LowerChar(s[i])
  {
    seq(|s|, i requires 0 <= i < |s| => LowerChar(s[i]))
  }

  /** Python's `s.replace(c, "")` for a single character. */
  function RemoveChar(s: string, c: char): (r: string)
    ensures c !in r
    ensures c !in s ==> r == s
  {
    if s == [] then []
    else if s[0] == c then RemoveChar(s[1..], c)
    else [s[0]] + RemoveChar(s[1..], c)
  }

  /** Removing a character distributes over concatenation. */
  lemma {:induction false} RemoveCharAppend(a: string, b: string, c: char)
    ensures RemoveChar(a + b, c) == RemoveChar(a, c) + RemoveChar(b, c)
    decreases |a|
  {
    if a != [] {
      assert (a + b)[1..] == a[1..] + b;
      RemoveCharAppend(a[1..], b, c);
    } else {
      assert a + b == b;
    }
  }

  /** A single character is dropped exactly when it is the removed one. */
  lemma RemoveCharSingle(x: char, c: char)
    ensures x == c ==> RemoveChar([x], c) == []
    ensures x != c ==> RemoveChar([x], c) == [x]
  {
    assert [x][1..] == [];
  }

  /** Python's `s.replace(pat, "")`: occurrences are found left to right and do
      not overlap. */
  function RemoveAll(s: string, pat: string): (r: string)
    requires |pat| > 0
    ensures |r| <= |s|
    decreases |s|
  {
    if |s| < |pat| then s
    else if pat <= s then RemoveAll(s[|pat|..], pat)
    else [s[0]] + RemoveAll(s[1..], pat)
  }

  lemma {:induction false} RemoveAllAbsent(s: string, pat: string)
    requires |pat| > 0 && !Contains(s, pat)
    ensures RemoveAll(s, pat) == s
    decreases |s|
  {
    if |s| >= |pat| {
      RemoveAllAbsent(s[1..], pat);
    }
  }

  /** Deleting an enum-name prefix such as "CampaignStatus." from
      "CampaignStatus.ENABLED" leaves exactly the member name. */
  lemma StripEnumPrefix(pat: string, member: string)
    requires |pat| > 0 && !Contains(member, pat)
    ensures RemoveAll(pat + member, pat) == member
  {
    assert pat <= pat + member;
    assert (pat + member)[|pat|..] == member;
    RemoveAllAbsent(member, pat);
  }

  /** Python's `sep.join(parts)`. */
  function Join(sep: string, parts: seq<string>): (r: string)
    ensures |parts| == 1 ==> r == parts[0]
    ensures parts == [] ==> r == ""
  {
    if |parts| == 0 then ""
    else if |parts| == 1 then parts[0]
    else parts[0] + sep + Join(sep, parts[1..])
  }

  /** Python's `s.split(c)` for a one-character separator: always at least one
      piece, and no piece contains the separator. */
  function Split(s: string, c: char): (r: seq<string>)
    ensures |r| >= 1
    ensures forall i :: 0 <= i < |r| ==> c !in r[i]
  {
    if s == [] then [""]
    else
      var rest := Split(s[1..], c);
      if s[0] == c then [""] + rest
      else [[s[0]] + rest[0]] + rest[1..]
  }

  /** Splitting and joining again with the same separator is the identity. */
  lemma {:induction false} JoinSplit(s: string, c: char)
    ensures Join([c], Split(s, c)) == s
  {
    if s != [] {
      var rest := Split(s[1..], c);
      JoinSplit(s[1..], c);
      if s[0] == c {
        assert Split(s, c) == [""] + rest;
        assert ([""] + rest)[1..] == rest;
      } else {
        var r := [[s[0]] + rest[0]] + rest[1..];
        assert Split(s, c) == r;
        if |rest| == 1 {
          assert Join([c], r) == [s[0]] + rest[0];
        } else {
          assert r[1..] == rest[1..];
          assert Join([c], r) == [s[0]] + rest[0] + [c] + Join([c], rest[1..]);
        }
      }
    }
  }

  /** Python's `s.split(c)[-1]`. */
  function LastSegment(s: string, c: char): (r: string)
    ensures c !in r
  {
    var parts := Split(s, c);
    parts[|parts| - 1]
  }

  function DigitChar(d: nat): (c: char)
    requires d < 10
    ensures IsDigit(c) && c as int - '0' as int == d
  {
    (d + '0' as int) as char
  }

  function DigitsValue(s: string): nat
    requires forall i :: 0 <= i < |s| ==> IsDigit(s[i])
  {
    if s == [] then 0
    else
      assert IsDigit(s[|s| - 1]);
      DigitsValue(s[..|s| - 1]) * 10 + (s[|s| - 1] as int - '0' as int)
  }

  /** Python's `str(n)` for a natural number. */
  function NatToString(n: nat): (r: string)
    ensures AllDigits(r)
  {
    if n < 10 then [DigitChar(n)] else NatToString(n / 10) + [DigitChar(n % 10)]
  }

  lemma {:induction false} NatToStringRoundTrip(n: nat)
    ensures DigitsValue(NatToString(n)) == n
  {
    var r := NatToString(n);
    if n >= 10 {
      NatToStringRoundTrip(n / 10);
      assert r[..|r| - 1] == NatToString(n / 10);
    } else {
      assert r[..|r| - 1] == [];
    }
  }

  /** Python's `str(i)` for an integer. */
  function IntToString(i: int): (r: string)
    ensures |r| > 0
  {
    if i < 0 then "-" + NatToString(-i) else NatToString(i)
  }

  /** Python's `int(s)` on ASCII text: surrounding whitespace, an optional
      sign and a digit literal; anything else raises ValueError (None). */
  function ParseInt(s: string): (r: Option<int>)
    ensures r.Some? ==> Strip(s) != []
  {
    ParseSigned(Strip(s))
  }

  predicate IsDigitOrUnderscore(c: char) {
    IsDigit(c) || c == '_'
  }

  /** The digits `int()` accepts: at least one digit, and single underscores
      only between two digits, as in "1_000". */
  predicate DigitLiteral(s: string) {
    && |s| > 0 && IsDigit(s[0]) && IsDigit(s[|s| - 1])
    && (forall i :: 0 <= i < |s| ==> IsDigitOrUnderscore(s[i]))
    && (forall i :: 0 <= i < |s| - 1 && s[i] == '_' ==> IsDigit(s[i + 1]))
  }

  /** The number a digit literal denotes: its digits, the underscores
      skipped. */
  function LiteralValue(s: string): nat
    requires forall i :: 0 <= i < |s| ==> IsDigitOrUnderscore(s[i])
  {
    if s == [] then 0
    else
      assert IsDigitOrUnderscore(s[|s| - 1]);
      if s[|s| - 1] == '_' then LiteralValue(s[..|s| - 1])
      else LiteralValue(s[..|s| - 1]) * 10 + (s[|s| - 1] as int - '0' as int)
  }

  /** The stripped text: an optional sign, then a digit literal. */
  function ParseSigned(t: string): (r: Option<int>)
    ensures r.Some? ==> t != []
  {
    if |t| > 0 && (t[0] == '-' || t[0] == '+') then
      if DigitLiteral(t[1..]) then
        var magnitude: int := LiteralValue(t[1..]);
        Some(if t[0] == '-' then -magnitude else magnitude)
      else None
    else if DigitLiteral(t) then Some(LiteralValue(t))
    else None
  }

  /** Without underscores a literal's value is its decimal value. */
  lemma {:induction false} LiteralValueOfDigits(s: string)
    requires forall i :: 0 <= i < |s| ==> IsDigit(s[i])
    ensures LiteralValue(s) == DigitsValue(s)
  {
    if s != [] {
      LiteralValueOfDigits(s[..|s| - 1]);
    }
  }

  /** An underscore between two runs of a literal does not change its
      value: "1_000" denotes 1000. */
  lemma {:induction false} UnderscoreIgnored(a: string, b: string)
    requires forall i :: 0 <= i < |a| ==> IsDigitOrUnderscore(a[i])
    requires forall i :: 0 <= i < |b| ==> IsDigitOrUnderscore(b[i])
    ensures LiteralValue(a + "_" + b) == LiteralValue(a + b)
    decreases |b|
  {
    if b == [] {
      assert (a + "_" + b)[..|a + "_" + b| - 1] == a;
      assert a + b == a;
    } else {
      var b' := b[..|b| - 1];
      UnderscoreIgnored(a, b');
      assert (a + "_" + b)[..|a + "_" + b| - 1] == a + "_" + b';
      assert (a + b)[..|a + b| - 1] == a + b';
    }
  }

  /** The grouped literal's value is the plain literal's. */
  lemma ThousandValue()
    ensures LiteralValue("1_000") == 1000
  {
    UnderscoreIgnored("1", "000");
    assert "1" + "_" + "000" == "1_000" && "1" + "000" == "1000";
    LiteralValueOfDigits("1000");
    assert DigitsValue("1000") == 1000 by {
      assert "1000"[..3] == "100" && "100"[..2] == "10" && "10"[..1] == "1";
    }
  }

  /** Digit grouping is accepted: "1_000" is 1000. */
  lemma GroupedThousand()
    ensures ParseInt("1_000") == Some(1000)
  {
    StripUnchanged("1_000");
    ThousandSigned();
  }

  lemma ThousandSigned()
    ensures ParseSigned("1_000") == Some(1000)
  {
    var t := "1_000";
    assert DigitLiteral(t) by {
      assert t[1] == '_' && IsDigit(t[2]);
    }
    ThousandValue();
  }

  /** A doubled, leading or trailing underscore raises. */
  lemma MisplacedUnderscores()
    ensures !DigitLiteral("1__000") && !DigitLiteral("_1") && !DigitLiteral("1_")
    ensures ParseSigned("1__000").None? && ParseSigned("_1").None? && ParseSigned("1_").None?
  {
    assert "1__000"[1] == '_' && !IsDigit("1__000"[2]);
    assert !IsDigit("_1"[0]) && !IsDigit("1_"[1]);
  }

  lemma ParseIntRoundTrip(i: int)
    ensures ParseInt(IntToString(i)) == Some(i)
  {
    var r := IntToString(i);
    if i < 0 {
      assert r[0] == '-';
    } else {
      assert IsDigit(r[0]);
    }
    StripUnchanged(r);
    ParseSignedRoundTrip(i);
  }

  lemma ParseSignedRoundTrip(i: int)
    ensures ParseSigned(IntToString(i)) == Some(i)
  {
    var r := IntToString(i);
    if i < 0 {
      assert r[1..] == NatToString(-i);
      NatToStringRoundTrip(-i);
      LiteralValueOfDigits(r[1..]);
    } else {
      NatToStringRoundTrip(i);
      LiteralValueOfDigits(r);
      assert IsDigit(r[0]);
    }
  }
}
