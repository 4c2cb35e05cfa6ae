/** Python's `uuid.UUID(hex)` constructor, which `isValidUUID`
    (app/services/budget_service.py:331-336) uses to reject malformed ids,
    and `str(uuid)`, which the response validators apply
    (app/schemas/transaction.py:39-44,93-98).

    The constructor deletes every "urn:" and then every "uuid:", strips
    braces from both ends, deletes every hyphen, demands exactly 32
    characters, and hands them to `int(_, 16)`; the value must lie in
    [0, 2^128). `int(_, 16)` accepts surrounding whitespace, a sign, a "0x"
    prefix and single underscores between ASCII hex digits, which are
    modelled below; the non-ASCII decimal digits it also accepts are not. */
module Uuid {
  import opened Common

  const UuidBound: int := 0x1_0000_0000_0000_0000_0000_0000_0000_0000

  /** A 128-bit UUID value. */
  type UuidInt = v: int | 0 <= v < UuidBound

  // ------------------------------------------------------- string edits

  /** `s.replace(pat, "")`: every non-overlapping occurrence of `pat`,
      scanning from the left, is deleted. */
  function RemoveAll(s: string, pat: string): (r: string)
    requires pat != []
    ensures |r| <= |s|
    decreases |s|
  {
    if |s| < |pat| then s
    else if s[..|pat|] == pat then RemoveAll(s[|pat|..], pat)
    else [s[0]] + RemoveAll(s[1..], pat)
  }

  /** Without the first character of `pat`, there is nothing to delete. */
  lemma {:induction false} RemoveAllAbsent(s: string, pat: string)
    requires pat != [] && pat[0] !in s
    ensures RemoveAll(s, pat) == s
    decreases |s|
  {
    if |s| >= |pat| {
      assert s[..|pat|][0] == s[0];
      RemoveAllAbsent(s[1..], pat);
    }
  }

  /** `s.replace(c, "")` for a single character. */
  function RemoveChar(s: string, c: char): (r: string)
    ensures c !in r
  {
    if s == [] then [] else (if s[0] == c then [] else [s[0]]) + RemoveChar(s[1..], c)
  }

  lemma {:induction false} RemoveCharAppend(a: string, b: string, c: char)
    ensures RemoveChar(a + b, c) == RemoveChar(a, c) + RemoveChar(b, c)
  {
    if a != [] {
      assert (a + b)[1..] == a[1..] + b;
      RemoveCharAppend(a[1..], b, c);
    } else {
      assert a + b == b;
    }
  }

  lemma {:induction false} RemoveCharAbsent(s: string, c: char)
    requires c !in s
    ensures RemoveChar(s, c) == s
  {
    if s != [] {
      RemoveCharAbsent(s[1..], c);
    }
  }

  /** `s.strip(chars)`: drop characters of `cs` from both ends. */
  function StripChars(s: string, cs: set<char>): (r: string)
    ensures r == [] || (r[0] !in cs && r[|r| - 1] !in cs)
    ensures |r| <= |s|
    decreases |s|
  {
    if s != [] && s[0] in cs then StripChars(s[1..], cs)
    else if s != [] && s[|s| - 1] in cs then StripChars(s[..|s| - 1], cs)
    else s
  }

  // ------------------------------------------------------ int(_, 16)

  predicate IsHexDigit(c: char) {
    '0' <= c <= '9' || 'a' <= c <= 'f' || 'A' <= c <= 'F'
  }

  function HexDigitValue(c: char): (n: int)
    requires IsHexDigit(c)
    ensures 0 <= n < 16
  {
    if '0' <= c <= '9' then c as int - '0' as int
    else if 'a' <= c <= 'f' then c as int - 'a' as int + 10
    else c as int - 'A' as int + 10
  }

  predicate HexOrUnderscore(c: char) {
    IsHexDigit(c) || c == '_'
  }

  /** Hex digits with single underscores between them (no leading,
      trailing or doubled underscore), at least one digit. */
  predicate DigitRun(t: string) {
    |t| > 0 && IsHexDigit(t[0]) && IsHexDigit(t[|t| - 1])
    && (forall i :: 0 <= i < |t| ==> HexOrUnderscore(t[i]))
    && (forall i :: 0 < i < |t| && t[i] == '_' ==> t[i - 1] != '_')
  }

  /** Value of a big-endian run of hex digits, skipping underscores. */
  function HexValue(t: string): (n: int)
    requires forall i :: 0 <= i < |t| ==> HexOrUnderscore(t[i])
    ensures n >= 0
  {
    if t == [] then 0
    else if t[|t| - 1] == '_' then HexValue(t[..|t| - 1])
    else
      assert HexOrUnderscore(t[|t| - 1]);
      HexValue(t[..|t| - 1]) * 16 + HexDigitValue(t[|t| - 1])
  }

  /** `t` with a leading "0x"/"0X" (and one underscore after it) removed. */
  function DropHexPrefix(t: string): string {
    if |t| >= 2 && t[0] == '0' && (t[1] == 'x' || t[1] == 'X') then
      (if |t| > 2 && t[2] == '_' then t[3..] else t[2..])
    else t
  }

  /** `t` without one leading sign. */
  function Unsigned(t: string): string {
    if |t| > 0 && (t[0] == '+' || t[0] == '-') then t[1..] else t
  }

  /** The digits `int(s, 16)` reads: `s` without its surrounding
      whitespace, its sign and its "0x" prefix. */
  function HexBody(s: string): (t: string)
    ensures |t| <= |s|
  {
    DropHexPrefix(Unsigned(Strip(s)))
  }

  predicate IsNegated(s: string) {
    var t := Strip(s); |t| > 0 && t[0] == '-'
  }

  /** `int(s, 16)`: Some(value), or None where Python raises ValueError.
      It parses exactly when what is left after whitespace, sign and prefix
      is a run of digits; the value is that run's, negated after a '-', so
      it has fewer hex digits than `s` has characters. */
  function ParseHexInt(s: string): (r: Option<int>)
    ensures r.Some? <==> DigitRun(HexBody(s))
    ensures r.Some? ==> r.value == (if IsNegated(s) then -HexValue(HexBody(s)) else HexValue(HexBody(s)))
    ensures r.Some? ==> -Pow16(|s|) < r.value < Pow16(|s|)
  {
    var digits := HexBody(s);
    if DigitRun(digits) then
      var v := HexValue(digits);
      HexValueBound(digits);
      Pow16Monotone(|digits|, |s|);
      Some(if IsNegated(s) then -v else v)
    else None
  }

  function Pow16(n: nat): (p: int)
    ensures p >= 1
  {
    if n == 0 then 1 else 16 * Pow16(n - 1)
  }

  lemma {:induction false} Pow16Monotone(a: nat, b: nat)
    requires a <= b
    ensures Pow16(a) <= Pow16(b)
  {
    if a < b {
      Pow16Monotone(a, b - 1);
    }
  }

  /** `n` hex digits are worth less than 16^n. */
  lemma {:induction false} HexValueBound(t: string)
    requires forall i :: 0 <= i < |t| ==> HexOrUnderscore(t[i])
    ensures HexValue(t) < Pow16(|t|)
  {
    if t != [] {
      HexValueBound(t[..|t| - 1]);
    }
  }

  // -------------------------------------------------- uuid.UUID(hex)

  /** The 32 characters `uuid.UUID` hands to `int(_, 16)`. */
  function UuidHexPart(s: string): string {
    RemoveChar(StripChars(RemoveAll(RemoveAll(s, "urn:"), "uuid:"), {'{', '}'}), '-')
  }

  /** `uuid.UUID(s)`: the UUID's value, or None where it raises ValueError.
      It succeeds exactly when the hex part has 32 characters that
      `int(_, 16)` reads as a value that is not negative: 32 characters
      never reach 2^128. */
  function ParseUuid(s: string): (r: Option<UuidInt>)
    ensures r.Some? <==>
      |UuidHexPart(s)| == 32 && ParseHexInt(UuidHexPart(s)).Some? && ParseHexInt(UuidHexPart(s)).value >= 0
    ensures r.Some? ==> ParseHexInt(UuidHexPart(s)) == Some(r.value as int)
  {
    var h := UuidHexPart(s);
    if |h| != 32 then None
    else
      match ParseHexInt(h)
      case None => None
      case Some(v) =>
        Pow16Of32();
        if 0 <= v < UuidBound then Some(v as UuidInt) else None
  }

  /** `isValidUUID`: True iff `uuid.UUID(s)` does not raise. */
  predicate IsValidUuid(s: string) {
    ParseUuid(s).Some?
  }

  // ------------------------------------------------------- str(uuid)

  function LowerHexChar(n: int): (c: char)
    requires 0 <= n < 16
    ensures IsHexDigit(c) && HexDigitValue(c) == n
    ensures '0' <= c <= '9' || 'a' <= c <= 'f'
  {
    if n < 10 then ('0' as int + n) as char else ('a' as int + n - 10) as char
  }

  /** The `n` lowest hex digits of `v`, most significant first, lower case. */
  function HexDigits(v: int, n: nat): (t: string)
    requires v >= 0
    ensures |t| == n
    ensures forall i :: 0 <= i < n ==> IsHexDigit(t[i]) && ('0' <= t[i] <= '9' || 'a' <= t[i] <= 'f')
  {
    if n == 0 then [] else HexDigits(v / 16, n - 1) + [LowerHexChar(v % 16)]
  }

  /** Reading the digits back gives the value. */
  lemma {:induction false} HexDigitsValue(v: int, n: nat)
    requires 0 <= v < Pow16(n)
    ensures HexValue(HexDigits(v, n)) == v
  {
    if n > 0 {
      var t := HexDigits(v, n);
      assert t[..n - 1] == HexDigits(v / 16, n - 1);
      HexDigitsValue(v / 16, n - 1);
    }
  }

  lemma {:induction false} Pow16Add(a: nat, b: nat)
    ensures Pow16(a + b) == Pow16(a) * Pow16(b)
  {
    if a > 0 {
      Pow16Add(a - 1, b);
    }
  }

  lemma Pow16Of32()
    ensures Pow16(32) == UuidBound
  {
    assert Pow16(4) == 0x1_0000;
    Pow16Add(4, 4);
    Pow16Add(8, 8);
    Pow16Add(16, 16);
  }

  /** `str(uuid)`: the 8-4-4-4-12 lower-case form. */
  function UuidString(v: UuidInt): (s: string)
    ensures |s| == 36 && s[8] == '-' && s[13] == '-' && s[18] == '-' && s[23] == '-'
  {
    var h := HexDigits(v, 32);
    h[..8] + "-" + h[8..12] + "-" + h[12..16] + "-" + h[16..20] + "-" + h[20..]
  }

  /** The characters `str(uuid)` uses: lower-case hex digits and hyphens. */
  lemma UuidStringAlphabet(v: UuidInt)
    ensures forall c :: c in UuidString(v) ==> c == '-' || '0' <= c <= '9' || 'a' <= c <= 'f'
  {
    var h := HexDigits(v, 32);
    assert forall c :: c in h ==> '0' <= c <= '9' || 'a' <= c <= 'f';
    assert forall i, j, c :: 0 <= i <= j <= 32 && c in h[i..j] ==> c in h;
  }

  /** Deleting the hyphen between two pieces, the right one hyphen-free. */
  lemma {:induction false} RemoveCharJoin(a: string, b: string, c: char)
    requires c !in b
    ensures RemoveChar(a + [c] + b, c) == RemoveChar(a, c) + b
  {
    if a == [] {
      assert a + [c] + b == [c] + b;
      assert ([c] + b)[1..] == b;
      RemoveCharAbsent(b, c);
    } else {
      assert (a + [c] + b)[1..] == a[1..] + [c] + b;
      RemoveCharJoin(a[1..], b, c);
    }
  }

  lemma NoDashInDigits(v: UuidInt, i: int, j: int)
    requires 0 <= i <= j <= 32
    ensures '-' !in HexDigits(v, 32)[i..j]
  {
    var h := HexDigits(v, 32);
    assert forall k :: 0 <= k < j - i ==> h[i..j][k] == h[i + k];
  }

  /** Deleting the hyphens of `str(u)` leaves its 32 hex digits. */
  lemma UuidStringDigits(v: UuidInt)
    ensures RemoveChar(UuidString(v), '-') == HexDigits(v, 32)
  {
    var h := HexDigits(v, 32);
    var p0, p1, p2, p3, p4 := h[..8], h[8..12], h[12..16], h[16..20], h[20..];
    NoDashInDigits(v, 0, 8);
    NoDashInDigits(v, 8, 12);
    NoDashInDigits(v, 12, 16);
    NoDashInDigits(v, 16, 20);
    NoDashInDigits(v, 20, 32);
    assert UuidString(v) == p0 + "-" + p1 + "-" + p2 + "-" + p3 + "-" + p4;
    RemoveFourDashes(p0, p1, p2, p3, p4);
    assert h == p0 + p1 + p2 + p3 + p4;
  }

  /** Deleting the hyphens between five hyphen-free pieces joins them. */
  lemma RemoveFourDashes(p0: string, p1: string, p2: string, p3: string, p4: string)
    requires '-' !in p0 && '-' !in p1 && '-' !in p2 && '-' !in p3 && '-' !in p4
    ensures RemoveChar(p0 + "-" + p1 + "-" + p2 + "-" + p3 + "-" + p4, '-') == p0 + p1 + p2 + p3 + p4
  {
    RemoveCharJoin(p0 + "-" + p1 + "-" + p2 + "-" + p3, p4, '-');
    RemoveCharJoin(p0 + "-" + p1 + "-" + p2, p3, '-');
    RemoveCharJoin(p0 + "-" + p1, p2, '-');
    RemoveCharJoin(p0, p1, '-');
    RemoveCharAbsent(p0, '-');
  }

  /** Neither "urn:", "uuid:" nor braces occur in `str(u)`. */
  lemma UuidStringNoPrefix(v: UuidInt)
    ensures StripChars(RemoveAll(RemoveAll(UuidString(v), "urn:"), "uuid:"), {'{', '}'}) == UuidString(v)
  {
    var s := UuidString(v);
    UuidStringAlphabet(v);
    RemoveAllAbsent(s, "urn:");
    RemoveAllAbsent(s, "uuid:");
    var h := HexDigits(v, 32);
    assert s[0] == h[0] && s[35] == h[31];
  }

  /** What `uuid.UUID` keeps of `str(u)` is its 32 hex digits. */
  lemma UuidStringHexPart(v: UuidInt)
    ensures UuidHexPart(UuidString(v)) == HexDigits(v, 32)
  {
    UuidStringNoPrefix(v);
    UuidStringDigits(v);
  }

  lemma StripKeeps(h: string)
    requires h != [] && !IsSpace(h[0]) && !IsSpace(h[|h| - 1])
    ensures Strip(h) == h
  {
    assert TrimStart(h) == h;
  }

  /** `int(h, 16)` of plain hex digits, of either case, is their value. */
  lemma ParsePlainHex(h: string)
    requires |h| >= 1
    requires forall i :: 0 <= i < |h| ==> IsHexDigit(h[i])
    ensures ParseHexInt(h) == Some(HexValue(h))
  {
    HexBodyOfDigits(h);
    assert DigitRun(h) by {
      assert forall i :: 0 <= i < |h| ==> HexOrUnderscore(h[i]);
    }
  }

  /** Plain digits have no whitespace, sign or prefix to drop. */
  lemma HexBodyOfDigits(h: string)
    requires |h| >= 1
    requires forall i :: 0 <= i < |h| ==> IsHexDigit(h[i])
    ensures HexBody(h) == h && !IsNegated(h)
  {
    StripKeeps(h);
    assert h[0] != '+' && h[0] != '-';
    assert |h| >= 2 ==> h[1] != 'x' && h[1] != 'X';
  }

  /** `uuid.UUID(str(u)) == u`: the canonical form parses back to the same
      UUID, so in particular it passes `isValidUUID`. */
  lemma UuidStringRoundTrip(v: UuidInt)
    ensures ParseUuid(UuidString(v)) == Some(v)
  {
    UuidStringHexPart(v);
    ParsePlainHex(HexDigits(v, 32));
    Pow16Of32();
    HexDigitsValue(v, 32);
  }

  /** Conversely, every string whose hex part is 32 hex digits, of either
      case, is a UUID, and its value is the value of those digits. */
  lemma ParseUuidOfHexDigits(s: string)
    requires |UuidHexPart(s)| == 32
    requires forall i :: 0 <= i < 32 ==> IsHexDigit(UuidHexPart(s)[i])
    ensures ParseUuid(s).Some? && ParseUuid(s).value as int == HexValue(UuidHexPart(s))
  {
    ParsePlainHex(UuidHexPart(s));
  }

  /** `uuid.UUID` only looks at the hex part. */
  lemma SameHexPart(s: string, t: string)
    requires UuidHexPart(s) == UuidHexPart(t)
    ensures ParseUuid(s) == ParseUuid(t)
  {
  }

  predicate NoBraceEnds(s: string) {
    s != [] && s[0] != '{' && s[0] != '}' && s[|s| - 1] != '{' && s[|s| - 1] != '}'
  }

  lemma StripNoBraceEnds(s: string)
    requires NoBraceEnds(s)
    ensures StripChars(s, {'{', '}'}) == s
  {
  }

  /** The hex part of a string without 'u' and brace ends is the string
      without its hyphens, and enclosing it in braces or writing
      "urn:uuid:" before it does not change that. */
  lemma HexPartPlain(s: string)
    requires 'u' !in s && NoBraceEnds(s)
    ensures UuidHexPart(s) == RemoveChar(s, '-')
  {
    RemoveAllAbsent(s, "urn:");
    RemoveAllAbsent(s, "uuid:");
  }

  lemma HexPartBraced(s: string)
    requires 'u' !in s && NoBraceEnds(s)
    ensures UuidHexPart("{" + s + "}") == RemoveChar(s, '-')
  {
    var t := "{" + s + "}";
    assert 'u' !in t by {
      assert forall i :: 0 <= i < |t| ==> t[i] == '{' || t[i] == '}' || t[i] == s[i - 1];
    }
    RemoveAllAbsent(t, "urn:");
    RemoveAllAbsent(t, "uuid:");
    StripBraced(s);
  }

  lemma StripBraced(s: string)
    requires NoBraceEnds(s)
    ensures StripChars("{" + s + "}", {'{', '}'}) == s
  {
    var braces := {'{', '}'};
    var t := "{" + s + "}";
    assert t[1..] == s + "}" && (s + "}")[..|s|] == s;
    assert StripChars(t, braces) == StripChars(s + "}", braces);
    assert StripChars(s + "}", braces) == StripChars(s, braces);
    StripNoBraceEnds(s);
  }

  lemma RemoveAllMatch(pat: string, rest: string)
    requires pat != []
    ensures RemoveAll(pat + rest, pat) == RemoveAll(rest, pat)
  {
    assert (pat + rest)[..|pat|] == pat && (pat + rest)[|pat|..] == rest;
  }

  /** A string that does not start with `pat` keeps its first character. */
  lemma RemoveAllSkip(c: char, rest: string, pat: string)
    requires |pat| >= 2 && (c != pat[0] || (rest != [] && rest[0] != pat[1]))
    ensures RemoveAll([c] + rest, pat) == [c] + RemoveAll(rest, pat)
  {
    var t := [c] + rest;
    assert t[1..] == rest;
    assert |t| >= |pat| ==> t[..|pat|][0] != pat[0] || t[..|pat|][1] != pat[1];
  }

  lemma IdKeepsNoUrn(s: string)
    requires 'u' !in s
    ensures RemoveAll("id:" + s, "urn:") == "id:" + s
  {
    var r := "id:" + s;
    assert 'u' !in r by {
      assert forall i :: 3 <= i < |r| ==> r[i] == s[i - 3];
    }
    RemoveAllAbsent(r, "urn:");
  }

  lemma UidKeepsNoUrn(s: string)
    requires 'u' !in s
    ensures RemoveAll("uid:" + s, "urn:") == "uid:" + s
  {
    IdKeepsNoUrn(s);
    assert "uid:" + s == ['u'] + ("id:" + s);
    RemoveAllSkip('u', "id:" + s, "urn:");
  }

  lemma UuidKeepsNoUrn(s: string)
    requires 'u' !in s
    ensures RemoveAll("uuid:" + s, "urn:") == "uuid:" + s
  {
    UidKeepsNoUrn(s);
    assert "uuid:" + s == ['u'] + ("uid:" + s);
    RemoveAllSkip('u', "uid:" + s, "urn:");
  }

  /** Deleting "urn:" from "urn:uuid:" + s leaves "uuid:" + s. */
  lemma UrnRemoved(s: string)
    requires 'u' !in s
    ensures RemoveAll("urn:uuid:" + s, "urn:") == "uuid:" + s
  {
    UuidKeepsNoUrn(s);
    assert "urn:uuid:" + s == "urn:" + ("uuid:" + s);
    RemoveAllMatch("urn:", "uuid:" + s);
  }

  lemma HexPartUrn(s: string)
    requires 'u' !in s && NoBraceEnds(s)
    ensures UuidHexPart("urn:uuid:" + s) == RemoveChar(s, '-')
  {
    UrnRemoved(s);
    RemoveAllMatch("uuid:", s);
    RemoveAllAbsent(s, "uuid:");
    StripNoBraceEnds(s);
  }

  /** `str(u)` has no 'u' and no brace ends. */
  lemma UuidStringPlain(v: UuidInt)
    ensures 'u' !in UuidString(v) && NoBraceEnds(UuidString(v))
  {
    var s := UuidString(v);
    UuidStringAlphabet(v);
    assert s[0] in s && s[35] in s;
  }

  /** The other spellings of a UUID that `uuid.UUID` accepts name the same
      UUID: in braces, after "urn:uuid:", without hyphens, in upper case. */
  lemma BracedUuid(v: UuidInt)
    ensures ParseUuid("{" + UuidString(v) + "}") == Some(v)
  {
    UuidStringPlain(v);
    HexPartBraced(UuidString(v));
    HexPartPlain(UuidString(v));
    SameHexPart("{" + UuidString(v) + "}", UuidString(v));
    UuidStringRoundTrip(v);
  }

  lemma UrnUuid(v: UuidInt)
    ensures ParseUuid("urn:uuid:" + UuidString(v)) == Some(v)
  {
    UuidStringPlain(v);
    HexPartUrn(UuidString(v));
    HexPartPlain(UuidString(v));
    SameHexPart("urn:uuid:" + UuidString(v), UuidString(v));
    UuidStringRoundTrip(v);
  }

  lemma HexOnlyUuid(v: UuidInt)
    ensures ParseUuid(HexDigits(v, 32)) == Some(v)
  {
    var h := HexDigits(v, 32);
    UuidStringDigits(v);
    UuidStringPlain(v);
    assert 'u' !in h && NoBraceEnds(h) && '-' !in h by {
      assert forall c :: c in h ==> '0' <= c <= '9' || 'a' <= c <= 'f';
    }
    HexPartPlain(h);
    RemoveCharAbsent(h, '-');
    HexPartPlain(UuidString(v));
    SameHexPart(h, UuidString(v));
    UuidStringRoundTrip(v);
  }

  lemma {:induction false} RemoveCharUpper(s: string, c: char)
    requires !('a' <= c <= 'z') && !('A' <= c <= 'Z')
    ensures RemoveChar(Upper(s), c) == Upper(RemoveChar(s, c))
  {
    if s != [] {
      RemoveCharUpper(s[1..], c);
      assert Upper(s)[1..] == Upper(s[1..]);
      var head := if s[0] == c then [] else [s[0]];
      assert RemoveChar(s, c) == head + RemoveChar(s[1..], c);
      assert Upper(head + RemoveChar(s[1..], c)) == Upper(head) + Upper(RemoveChar(s[1..], c));
    }
  }

  lemma UpperHexDigit(c: char)
    requires IsHexDigit(c)
    ensures IsHexDigit(UpperChar(c)) && HexDigitValue(UpperChar(c)) == HexDigitValue(c)
  {
  }

  lemma {:induction false} HexValueUpper(t: string)
    requires forall i :: 0 <= i < |t| ==> IsHexDigit(t[i])
    ensures forall i :: 0 <= i < |t| ==> IsHexDigit(Upper(t)[i])
    ensures HexValue(Upper(t)) == HexValue(t)
  {
    forall i | 0 <= i < |t| ensures IsHexDigit(Upper(t)[i]) {
      UpperHexDigit(t[i]);
    }
    if t != [] {
      var init := t[..|t| - 1];
      var last := t[|t| - 1];
      HexValueUpper(init);
      assert Upper(t)[..|t| - 1] == Upper(init);
      UpperHexDigit(last);
      assert Upper(t)[|t| - 1] == UpperChar(last) != '_';
    }
  }

  lemma UpperUuid(v: UuidInt)
    ensures ParseUuid(Upper(UuidString(v))) == Some(v)
  {
    var s := UuidString(v);
    var u := Upper(s);
    var h := HexDigits(v, 32);
    UuidStringAlphabet(v);
    assert forall i :: 0 <= i < |u| ==> u[i] == '-' || '0' <= u[i] <= '9' || 'A' <= u[i] <= 'F' by {
      forall i | 0 <= i < |u| ensures u[i] == '-' || '0' <= u[i] <= '9' || 'A' <= u[i] <= 'F' {
        assert s[i] in s;
      }
    }
    assert 'u' !in u && NoBraceEnds(u);
    HexPartPlain(u);
    RemoveCharUpper(s, '-');
    UuidStringDigits(v);
    HexValueUpper(h);
    ParseUuidOfHexDigits(u);
    Pow16Of32();
    HexDigitsValue(v, 32);
  }

  /** What `convert_uuid_to_str` may receive: a UUID object or any other value. */
  datatype RawId = UuidObject(v: UuidInt) | OtherValue(j: Json)

  /** `convert_uuid_to_str`: a UUID becomes its string form; anything else
      passes through unchanged. */
  function ConvertUuidToStr(x: RawId): (r: Json)
    ensures x.UuidObject? ==> r.JStr? && ParseUuid(r.s) == Some(x.v) && IsValidUuid(r.s)
    ensures x.OtherValue? ==> r == x.j
  {
    match x
    case UuidObject(v) => UuidStringRoundTrip(v); JStr(UuidString(v))
    case OtherValue(j) => j
  }
}
