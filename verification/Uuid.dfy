/**
  Canonical UUID text, as `_uuid` accepts it: parsed by a lenient parser, printed
  again and compared. The text form is that of section 4 of RFC 9562.
 */
module Uuid {
  import opened Wrappers

  const DIGITS := "0123456789abcdef"

  function Pow16(n: nat): nat { if n == 0 then 1 else 16 * Pow16(n - 1) }

  /** The last n hexadecimal digits of a number. */
  function Hex(v: nat, n: nat): (s: string)
    ensures |s| == n
  {
    if n == 0 then "" else Hex(v / 16, n - 1) + [DIGITS[v % 16]]
  }

  /** `str(uuid)`: 8-4-4-4-12. */
  function Print(v: nat): string {
    var h := Hex(v, 32);
    h[..8] + "-" + h[8..12] + "-" + h[12..16] + "-" + h[16..20] + "-" + h[20..]
  }

  function DigitValue(c: char): nat {
    if '0' <= c <= '9' then (c - '0') as nat
    else if 'a' <= c <= 'f' then (c - 'a') as nat + 10
    else if 'A' <= c <= 'F' then (c - 'A') as nat + 10
    else 0
  }

  predicate IsHex(s: string) {
    forall c :: c in s ==> '0' <= c <= '9' || 'a' <= c <= 'f' || 'A' <= c <= 'F'
  }

  function Value(s: string): nat {
    if s == "" then 0 else 16 * Value(s[..|s| - 1]) + DigitValue(s[|s| - 1])
  }

  // ---- what the parser takes away ----

  function RemoveAll(s: string, pattern: string): string
    requires pattern != ""
    decreases |s|
  {
    if |s| < |pattern| then s
    else if s[..|pattern|] == pattern then RemoveAll(s[|pattern|..], pattern)
    else [s[0]] + RemoveAll(s[1..], pattern)
  }

  predicate IsBrace(c: char) { c == '{' || c == '}' }

  function StripBraces(s: string): string
    decreases |s|
  {
    if s == "" then s
    else if IsBrace(s[0]) then StripBraces(s[1..])
    else if IsBrace(s[|s| - 1]) then StripBraces(s[..|s| - 1])
    else s
  }

  function Bare(raw: string): string {
    RemoveAll(StripBraces(RemoveAll(RemoveAll(raw, "urn:"), "uuid:")), "-")
  }

  /** `uuid.UUID(raw)`. What Python's int makes of 32 characters that are not all
      hexadecimal digits (signs, blanks, underscores, other scripts) is left open. */
  function Parse(raw: string, lenient: string -> Option<nat>): Option<nat> {
    var bare := Bare(raw);
    if |bare| != 32 then None
    else
      var v := if IsHex(bare) then Some(Value(bare)) else lenient(bare);
      if v.Some? && v.value < Pow16(32) then v else None
  }

  /** `_uuid` returns the text. */
  predicate Canonical(raw: string, lenient: string -> Option<nat>) {
    var v := Parse(raw, lenient);
    v.Some? && Print(v.value) == raw
  }

  // ---- round trip ----

  lemma {:induction false} ValueOfHex(v: nat, n: nat)
    requires v < Pow16(n)
    ensures Value(Hex(v, n)) == v
  {
    if n > 0 {
      ValueOfHex(v / 16, n - 1);
      assert Hex(v, n)[..n - 1] == Hex(v / 16, n - 1);
      DigitRoundTrip(v % 16);
    }
  }

  lemma DigitRoundTrip(d: nat)
    requires d < 16
    ensures DigitValue(DIGITS[d]) == d && LowerHexDigit(DIGITS[d])
  {
  }

  lemma {:induction false} HexIsLowerHex(v: nat, n: nat)
    ensures LowerHex(Hex(v, n))
  {
    if n > 0 {
      HexIsLowerHex(v / 16, n - 1);
      DigitRoundTrip(v % 16);
    }
  }

  lemma {:induction false} NothingToRemove(s: string, pattern: string)
    requires pattern != "" && pattern[0] !in s
    ensures RemoveAll(s, pattern) == s
    decreases |s|
  {
    if |s| >= |pattern| {
      assert s[..|pattern|][0] in s;
      NothingToRemove(s[1..], pattern);
    }
  }

  lemma {:induction false} RemoveDashAppends(a: string, b: string)
    requires '-' !in a
    ensures RemoveAll(a + "-" + b, "-") == a + RemoveAll(b, "-")
    decreases |a|
  {
    if a == "" {
      assert (a + "-" + b)[..1] == "-" && (a + "-" + b)[1..] == b;
    } else {
      assert (a + "-" + b)[..1] == [a[0]] && (a + "-" + b)[1..] == a[1..] + "-" + b;
      RemoveDashAppends(a[1..], b);
    }
  }

  predicate LowerHexDigit(c: char) { '0' <= c <= '9' || 'a' <= c <= 'f' }

  predicate LowerHex(s: string) { forall c :: c in s ==> LowerHexDigit(c) }

  function Dashed(a: string, b: string, c: string, d: string, e: string): string {
    a + "-" + (b + "-" + (c + "-" + (d + "-" + e)))
  }

  lemma DashedLosesDashes(a: string, b: string, c: string, d: string, e: string)
    requires LowerHex(a) && LowerHex(b) && LowerHex(c) && LowerHex(d) && LowerHex(e)
    ensures RemoveAll(Dashed(a, b, c, d, e), "-") == a + (b + (c + (d + e)))
  {
    hide RemoveAll;
    RemoveDashAppends(a, b + "-" + (c + "-" + (d + "-" + e)));
    RemoveDashAppends(b, c + "-" + (d + "-" + e));
    RemoveDashAppends(c, d + "-" + e);
    RemoveDashAppends(d, e);
    NothingToRemove(e, "-");
  }

  /** Lowercase hexadecimal digits and dashes. */
  predicate Plain(s: string) { forall c :: c in s ==> LowerHexDigit(c) || c == '-' }

  lemma PlainAppends(a: string, b: string)
    requires LowerHex(a) && Plain(b)
    ensures Plain(a + "-" + b)
  {
  }

  lemma PlainKeepsAll(p: string)
    requires Plain(p) && p != ""
    ensures StripBraces(RemoveAll(RemoveAll(p, "urn:"), "uuid:")) == p
  {
    assert p[0] in p && p[|p| - 1] in p;
    hide RemoveAll;
    NothingToRemove(p, "urn:");
    NothingToRemove(p, "uuid:");
  }

  lemma DashedIsPlain(a: string, b: string, c: string, d: string, e: string)
    requires LowerHex(a) && LowerHex(b) && LowerHex(c) && LowerHex(d) && LowerHex(e)
    ensures Plain(Dashed(a, b, c, d, e))
  {
    hide Plain;
    LowerHexIsPlain(e);
    PlainAppends(d, e);
    PlainAppends(c, d + "-" + e);
    PlainAppends(b, c + "-" + (d + "-" + e));
    PlainAppends(a, b + "-" + (c + "-" + (d + "-" + e)));
  }

  lemma LowerHexIsPlain(s: string)
    requires LowerHex(s)
    ensures Plain(s)
  {
  }

  lemma BareOfPrint(v: nat)
    ensures Bare(Print(v)) == Hex(v, 32)
  {
    var h := Hex(v, 32);
    HexIsLowerHex(v, 32);
    hide RemoveAll, StripBraces, Hex;
    var a, b, c, d, e := h[..8], h[8..12], h[12..16], h[16..20], h[20..];
    assert Print(v) == Dashed(a, b, c, d, e);
    DashedLosesDashes(a, b, c, d, e);
    DashedIsPlain(a, b, c, d, e);
    PlainKeepsAll(Dashed(a, b, c, d, e));
    assert h == a + (b + (c + (d + e)));
  }

  lemma ParseOfPrint(v: nat, lenient: string -> Option<nat>)
    requires v < Pow16(32)
    ensures Parse(Print(v), lenient) == Some(v)
  {
    hide Hex, Value, Bare;
    BareOfPrint(v);
    HexIsLowerHex(v, 32);
    ValueOfHex(v, 32);
  }

  /** `_uuid` accepts exactly what the printer emits for 128-bit values, whatever the
      lenient part of the parser does. */
  lemma CanonicalExactly(raw: string, lenient: string -> Option<nat>)
    ensures Canonical(raw, lenient) <==> exists v: nat :: v < Pow16(32) && raw == Print(v)
  {
    if v: nat :| v < Pow16(32) && raw == Print(v) {
      ParseOfPrint(v, lenient);
    }
  }

  /** The text form: 36 characters, dashes in four places and lowercase hexadecimal digits
      everywhere else. */
  predicate Pattern(s: string) {
    |s| == 36 && forall i :: 0 <= i < 36 ==> if i in {8, 13, 18, 23} then s[i] == '-' else LowerHexDigit(s[i])
  }

  function Digits(s: string): string
    requires |s| == 36
  {
    s[..8] + s[9..13] + s[14..18] + s[19..23] + s[24..]
  }

  lemma {:induction false} HexOfValue(h: string)
    requires LowerHex(h)
    ensures Value(h) < Pow16(|h|) && Hex(Value(h), |h|) == h
  {
    if h == "" {
      HexOfNothing();
    } else {
      LastDigit(h);
      HexOfValue(h[..|h| - 1]);
      LongerHex(h, h[..|h| - 1], |h| - 1, Value(h), Value(h[..|h| - 1]));
    }
    hide *;
  }

  lemma HexOfNothing()
    ensures Value("") < Pow16(0) && Hex(Value(""), 0) == ""
  {
  }

  lemma LongerHex(h: string, init: string, n: nat, v: nat, w: nat)
    requires |h| == n + 1 && h[..n] == init && LowerHexDigit(h[n])
    requires w < Pow16(n) && Hex(w, n) == init && v == 16 * w + DigitValue(h[n])
    ensures v < Pow16(n + 1) && Hex(v, n + 1) == h
  {
    hide *;
    DigitBack(h[n]);
    PushDigit(w, DigitValue(h[n]), n);
    assert init + [h[n]] == h;
  }

  lemma LastDigit(h: string)
    requires LowerHex(h) && h != ""
    ensures var init, last := h[..|h| - 1], h[|h| - 1];
            LowerHex(init) && LowerHexDigit(last) && Value(h) == 16 * Value(init) + DigitValue(last)
  {
    assert h[|h| - 1] in h;
  }

  lemma PushDigit(v: nat, d: nat, n: nat)
    requires d < 16 && v < Pow16(n)
    ensures 16 * v + d < Pow16(n + 1) && Hex(16 * v + d, n + 1) == Hex(v, n) + [DIGITS[d]]
  {
    assert (16 * v + d) / 16 == v && (16 * v + d) % 16 == d;
  }

  lemma DigitBack(c: char)
    requires LowerHexDigit(c)
    ensures DigitValue(c) < 16 && DIGITS[DigitValue(c)] == c
  {
  }

  lemma PrintHasPattern(v: nat)
    ensures Pattern(Print(v)) && Digits(Print(v)) == Hex(v, 32)
  {
    HexIsLowerHex(v, 32);
    hide Hex, Pattern, Digits;
    DashesMakePattern(Hex(v, 32));
    DashesKeepDigits(Hex(v, 32));
  }

  function WithDashes(h: string): string
    requires |h| == 32
  {
    h[..8] + "-" + h[8..12] + "-" + h[12..16] + "-" + h[16..20] + "-" + h[20..]
  }

  lemma DashesMakePattern(h: string)
    requires |h| == 32 && LowerHex(h)
    ensures Pattern(WithDashes(h))
  {
    assert forall i :: 0 <= i < 32 ==> h[i] in h;
  }

  lemma DashesKeepDigits(h: string)
    requires |h| == 32
    ensures |WithDashes(h)| == 36 && Digits(WithDashes(h)) == h
  {
    var s := WithDashes(h);
    assert s[..8] == h[..8] && s[9..13] == h[8..12] && s[14..18] == h[12..16];
    assert s[19..23] == h[16..20] && s[24..] == h[20..];
    assert h == h[..8] + h[8..12] + h[12..16] + h[16..20] + h[20..];
  }

  lemma PatternIsDigits(a: string, b: string)
    requires Pattern(a) && Pattern(b) && Digits(a) == Digits(b)
    ensures a == b
  {
    var d := Digits(a);
    forall i | 0 <= i < 36 ensures a[i] == b[i] {
      if i < 8 { assert a[i] == d[i]; }
      else if 8 < i < 13 { assert a[i] == d[i - 1]; }
      else if 13 < i < 18 { assert a[i] == d[i - 2]; }
      else if 18 < i < 23 { assert a[i] == d[i - 3]; }
      else if 23 < i { assert a[i] == d[i - 4]; }
    }
  }

  lemma DigitsAreLowerHex(s: string)
    requires Pattern(s)
    ensures LowerHex(Digits(s))
  {
  }

  /** `_uuid` accepts exactly the texts of this form. */
  lemma CanonicalIsPattern(raw: string, lenient: string -> Option<nat>)
    ensures Canonical(raw, lenient) <==> Pattern(raw)
  {
    CanonicalExactly(raw, lenient);
    hide Canonical, Pattern, Print, Hex, Digits;
    if v: nat :| v < Pow16(32) && raw == Print(v) { PrintHasPattern(v); }
    if Pattern(raw) {
      DigitsAreLowerHex(raw);
      DigitsAre32(raw);
      HexOfValue(Digits(raw));
      var v := Value(Digits(raw));
      PrintHasPattern(v);
      PatternIsDigits(raw, Print(v));
    }
  }

  lemma DigitsAre32(s: string)
    requires Pattern(s)
    ensures |s| == 36 && |Digits(s)| == 32
  {
  }

  /** Accepted ids are equal as text exactly when they are equal as numbers. */
  lemma EqualTextIsEqualNumber(a: string, b: string, lenient: string -> Option<nat>)
    requires Canonical(a, lenient) && Canonical(b, lenient)
    ensures a == b <==> Parse(a, lenient) == Parse(b, lenient)
  {
  }

  lemma PrintIsInjective(v: nat, w: nat)
    requires v < Pow16(32) && w < Pow16(32) && Print(v) == Print(w)
    ensures v == w
  {
    ParseOfPrint(v, s => None);
    ParseOfPrint(w, s => None);
  }

  /** An accepted id stands for exactly one 128-bit value, the one that it parses to. */
  lemma AcceptedIdNamesOneNumber(raw: string, lenient: string -> Option<nat>)
    requires Canonical(raw, lenient)
    ensures exists v: nat ::
              && v < Pow16(32) && Parse(raw, lenient) == Some(v)
              && forall w: nat :: w < Pow16(32) && Print(w) == raw ==> w == v
  {
    CanonicalExactly(raw, lenient);
    var v: nat :| v < Pow16(32) && raw == Print(v);
    ParseOfPrint(v, lenient);
    forall w: nat | w < Pow16(32) && Print(w) == raw ensures w == v { PrintIsInjective(v, w); }
  }
}
