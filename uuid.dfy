/** `pseudo_uuid` of web_progress/static/src/js/ajax.js: every `0`, `1` and `8`
    of the template "10000000-1000-4000-8000-100000000000" is replaced, left to
    right, by one hexadecimal digit computed from a fresh random draw. */
module Uuid {

  /** One draw of `Math.random()*16` after the shift operator has truncated it
      to an integer: a value in 0..15. */
  type Nibble = x: int | 0 <= x < 16

  /** The random source: the k-th call to `Math.random()` yields `Random(k)`. */
  type Oracle = nat -> Nibble

  /** `[1e7]+-1e3+-4e3+-8e3+-1e11` evaluated as a string. */
  const Template: string := "10000000-1000-4000-8000-100000000000"

  predicate IsPlaceholder(c: char) {
    c == '0' || c == '1' || c == '8'
  }

  predicate IsLowerHex(c: char) {
    ('0' <= c <= '9') || ('a' <= c <= 'f')
  }

  /** `Number.prototype.toString(16)` of a single hexadecimal digit. */
  function HexDigit(n: Nibble): (c: char)
    ensures IsLowerHex(c)
    ensures n < 10 ==> c == '0' + n as char
    ensures n >= 10 ==> c == 'a' + (n - 10) as char
  {
    "0123456789abcdef"[n]
  }

  /** The replacement callback for the matched placeholder `a`:
      `a ^ Math.random()*16 >> a/4`, where `>>` binds tighter than `^`
      and `a/4` (0, 0.25 or 2) is truncated to a shift count. */
  function Scramble(a: char, r: Nibble): (n: Nibble)
    requires IsPlaceholder(a)
    ensures a == '0' ==> n == r
    ensures a == '8' ==> 8 <= n <= 11
  {
    var digit: bv8 := if a == '0' then 0 else if a == '1' then 1 else 8;
    var shift: bv8 := if a == '8' then 2 else 0;
    var mixed := digit ^ ((r as bv8) >> shift);
    assert mixed < 16;
    mixed as int
  }

  /** `template.replace(/[018]/g, pseudo_uuid)`, drawing from `random`
      starting at call number `k`. */
  function Fill(template: string, random: Oracle, k: nat): (s: string)
    ensures |s| == |template|
    decreases |template|
  {
    if template == [] then []
    else if IsPlaceholder(template[0]) then
      [HexDigit(Scramble(template[0], random(k)))] + Fill(template[1..], random, k + 1)
    else
      [template[0]] + Fill(template[1..], random, k)
  }

  function PseudoUuid(random: Oracle): string {
    Fill(Template, random, 0)
  }

  /** How a template character may show up in the output. */
  predicate Expands(t: char, c: char) {
    if !IsPlaceholder(t) then c == t
    else IsLowerHex(c) && (t == '8' ==> c in "89ab")
  }

  /** The version-4 layout of section 4.4 of RFC 4122 in lower case:
      8-4-4-4-12 hexadecimal digits, version digit 4, variant digit 8..b. */
  predicate UuidShaped(s: string) {
    && |s| == 36
    && s[8] == '-' && s[13] == '-' && s[18] == '-' && s[23] == '-'
    && s[14] == '4'
    && s[19] in "89ab"
    && forall i :: 0 <= i < 36 && i !in {8, 13, 18, 23} ==> IsLowerHex(s[i])
  }

  /** Every output character is its template character, or a lower-case hex
      digit where the template has a placeholder (one of 8..b for an `8`). */
  lemma {:induction false} FillExpands(template: string, random: Oracle, k: nat, i: nat)
    requires i < |template|
    ensures Expands(template[i], Fill(template, random, k)[i])
    decreases |template|
  {
    if i > 0 {
      var next := if IsPlaceholder(template[0]) then k + 1 else k;
      FillExpands(template[1..], random, next, i - 1);
      assert Fill(template, random, k)[i] == Fill(template[1..], random, next)[i - 1];
    } else if IsPlaceholder(template[0]) {
      var r := random(k);
      var n := Scramble(template[0], r);
      assert Fill(template, random, k)[0] == HexDigit(n);
      if template[0] == '8' {
        assert HexDigit(n) == "0123456789abcdef"[n];
        assert n == 8 || n == 9 || n == 10 || n == 11;
      }
    }
  }

  /** The template has hyphens exactly at 8, 13, 18 and 23 and hex digits elsewhere. */
  lemma TemplateLayout(i: nat)
    requires i < 36
    ensures i in {8, 13, 18, 23} ==> Template[i] == '-'
    ensures i !in {8, 13, 18, 23} ==> IsLowerHex(Template[i])
  {
    var groups := ["10000000", "-", "1000", "-", "4000", "-", "8000", "-", "100000000000"];
    assert Template == groups[0] + groups[1] + groups[2] + groups[3] + groups[4]
                       + groups[5] + groups[6] + groups[7] + groups[8];
  }

  /** Filling a template of that layout keeps the hyphens and the version
      digit, turns the `8` at index 19 into one of 8..b and leaves only
      lower-case hex digits elsewhere. */
  lemma FillShaped(template: string, random: Oracle, k: nat)
    requires |template| == 36
    requires template[14] == '4' && template[19] == '8'
    requires forall i :: 0 <= i < 36 && i in {8, 13, 18, 23} ==> template[i] == '-'
    requires forall i :: 0 <= i < 36 && i !in {8, 13, 18, 23} ==> IsLowerHex(template[i])
    ensures UuidShaped(Fill(template, random, k))
  {
    var s := Fill(template, random, k);
    forall i | 0 <= i < 36
      ensures Expands(template[i], s[i])
    {
      FillExpands(template, random, k, i);
    }
    assert Expands(template[19], s[19]);
  }

  /** Whatever the random draws, `pseudo_uuid()` has the version-4 UUID layout. */
  lemma PseudoUuidShaped(random: Oracle)
    ensures UuidShaped(PseudoUuid(random))
  {
    forall i | 0 <= i < 36
      ensures i in {8, 13, 18, 23} ==> Template[i] == '-'
      ensures i !in {8, 13, 18, 23} ==> IsLowerHex(Template[i])
    {
      TemplateLayout(i);
    }
    assert Template[14] == '4' && Template[19] == '8';
    FillShaped(Template, random, 0);
  }
}
