/**
 * The text form of a `java.util.UUID`: 32 hexadecimal digits of the 128-bit
 * value, grouped 8-4-4-4-12 and separated by dashes. `ToText` plays the part of
 * `UUID.toString` (lower-case digits) and `FromText` that of `UUID.fromString`
 * (either case accepted, anything else rejected), and `FromTextToText` proves
 * that the second undoes the first.
 */
module UuidText {
  import opened Wrappers

  function Pow16(k: nat): (r: nat)
    ensures r > 0
  {
    if k == 0 then 1 else 16 * Pow16(k - 1)
  }

  /** A UUID is a 128-bit unsigned value (Java keeps it as two longs). */
  type Uuid = n: nat | n < Pow16(32)

  /** A digit as `UUID.toString` writes it: 0-9 or a-f. */
  predicate IsLowerHex(c: char)
  {
    '0' <= c <= '9' || 'a' <= c <= 'f'
  }

  function HexChar(d: nat): (c: char)
    requires d < 16
    ensures IsLowerHex(c) && HexValue(c) == Some(d)
  {
    if d < 10 then ('0' as int + d) as char else ('a' as int + d - 10) as char
  }

  /** Writing back the value of a lower-case digit gives that digit. */
  lemma HexCharValue(c: char)
    requires IsLowerHex(c)
    ensures HexValue(c).Some? && HexChar(HexValue(c).value) == c
  {
  }

  /** The value of one hexadecimal digit, upper or lower case. */
  function HexValue(c: char): (r: Option<nat>)
    ensures r.Some? ==> r.value < 16
    ensures r.Some? <==> ('0' <= c <= '9' || 'a' <= c <= 'f' || 'A' <= c <= 'F')
  {
    if '0' <= c <= '9' then Some(c as int - '0' as int)
    else if 'a' <= c <= 'f' then Some(c as int - 'a' as int + 10)
    else if 'A' <= c <= 'F' then Some(c as int - 'A' as int + 10)
    else None
  }

  /** The last `width` hexadecimal digits of `n`, most significant first. */
  function HexDigits(n: nat, width: nat): (s: string)
    ensures |s| == width
    ensures forall i :: 0 <= i < |s| ==> IsLowerHex(s[i])
  {
    if width == 0 then [] else HexDigits(n / 16, width - 1) + [HexChar(n % 16)]
  }

  /** The value of a string of hexadecimal digits, or None if some character is not one. */
  function ParseHex(s: string): (r: Option<nat>)
    ensures r.Some? <==> forall i :: 0 <= i < |s| ==> HexValue(s[i]).Some?
    ensures r.Some? ==> r.value < Pow16(|s|)
  {
    if s == [] then Some(0)
    else
      match ParseHex(s[..|s| - 1])
      case None => None
      case Some(high) =>
        match HexValue(s[|s| - 1])
        case None => None
        case Some(low) => Some(16 * high + low)
  }

  lemma {:induction false} ParseHexDigits(n: nat, width: nat)
    requires n < Pow16(width)
    ensures ParseHex(HexDigits(n, width)) == Some(n)
  {
    if width > 0 {
      var s := HexDigits(n, width);
      assert s[..width - 1] == HexDigits(n / 16, width - 1);
      ParseHexDigits(n / 16, width - 1);
    }
  }

  /** 32 digits grouped 8-4-4-4-12 with dashes between the groups. */
  function Dashed(h: string): (s: string)
    requires |h| == 32
    ensures |s| == 36
    ensures s[8] == '-' && s[13] == '-' && s[18] == '-' && s[23] == '-'
  {
    h[..8] + "-" + h[8..12] + "-" + h[12..16] + "-" + h[16..20] + "-" + h[20..]
  }

  /** The digits of a 36-character UUID text with its four dashes removed. */
  function Undashed(s: string): (h: string)
    requires |s| == 36
    ensures |h| == 32
  {
    s[..8] + s[9..13] + s[14..18] + s[19..23] + s[24..]
  }

  /** Removing the dashes gives back the digits they were inserted between. */
  lemma UndashedDashed(h: string)
    requires |h| == 32
    ensures Undashed(Dashed(h)) == h
  {
    var s := Dashed(h);
    assert s[..8] == h[..8];
    assert s[9..13] == h[8..12];
    assert s[14..18] == h[12..16];
    assert s[19..23] == h[16..20];
    assert s[24..] == h[20..];
    assert h == h[..8] + h[8..12] + h[12..16] + h[16..20] + h[20..];
  }

  /** Inserting the dashes back into a well-dashed text gives the text itself. */
  lemma DashedUndashed(s: string)
    requires |s| == 36 && s[8] == '-' && s[13] == '-' && s[18] == '-' && s[23] == '-'
    ensures Dashed(Undashed(s)) == s
  {
    var h := Undashed(s);
    assert h[..8] == s[..8];
    assert h[8..12] == s[9..13];
    assert h[12..16] == s[14..18];
    assert h[16..20] == s[19..23];
    assert h[20..] == s[24..];
    assert s == s[..8] + "-" + s[9..13] + "-" + s[14..18] + "-" + s[19..23] + "-" + s[24..];
  }

  /** Lower-case digits are reproduced by writing back the value they parse to. */
  lemma {:induction false} HexDigitsParseHex(h: string)
    requires forall i :: 0 <= i < |h| ==> IsLowerHex(h[i])
    ensures ParseHex(h).Some? && HexDigits(ParseHex(h).value, |h|) == h
  {
    if h != [] {
      var init := h[..|h| - 1];
      HexDigitsParseHex(init);
      HexCharValue(h[|h| - 1]);
      var high := ParseHex(init).value;
      var low := HexValue(h[|h| - 1]).value;
      var n := 16 * high + low;
      assert n / 16 == high && n % 16 == low;
      assert h == init + [h[|h| - 1]];
    }
  }

  /** `UUID.toString`: the canonical 36-character form, in lower case. */
  function ToText(u: Uuid): (s: string)
    ensures |s| == 36
    ensures s[8] == '-' && s[13] == '-' && s[18] == '-' && s[23] == '-'
    ensures forall i :: 0 <= i < 32 ==> IsLowerHex(Undashed(s)[i])
  {
    var h := HexDigits(u, 32);
    UndashedDashed(h);
    Dashed(h)
  }

  /**
   * `UUID.fromString` on the canonical form: a text is accepted exactly when it
   * has 36 characters, dashes at the four group boundaries and hexadecimal
   * digits (either case) everywhere else. None also on the shorter forms that
   * `UUID.fromString` accepts.
   */
  function FromText(s: string): (r: Option<Uuid>)
    ensures r.Some? <==>
              |s| == 36 && s[8] == '-' && s[13] == '-' && s[18] == '-' && s[23] == '-' &&
              forall i :: 0 <= i < 32 ==> HexValue(Undashed(s)[i]).Some?
  {
    if |s| == 36 && s[8] == '-' && s[13] == '-' && s[18] == '-' && s[23] == '-' then
      match ParseHex(Undashed(s))
      case None => None
      case Some(n) => Some(n)
    else None
  }

  /** Every UUID survives `toString` followed by `fromString`. */
  lemma FromTextToText(u: Uuid)
    ensures FromText(ToText(u)) == Some(u)
  {
    UndashedDashed(HexDigits(u, 32));
    ParseHexDigits(u, 32);
  }

  /**
   * The other half of the inverse: a canonical lower-case text is exactly the
   * `toString` of the UUID it parses to.
   */
  lemma ToTextFromText(s: string)
    requires FromText(s).Some?
    requires forall i :: 0 <= i < 32 ==> IsLowerHex(Undashed(s)[i])
    ensures ToText(FromText(s).value) == s
  {
    HexDigitsParseHex(Undashed(s));
    DashedUndashed(s);
  }

  /** Two UUIDs with the same text are the same UUID. */
  lemma ToTextInjective(u: Uuid, v: Uuid)
    requires ToText(u) == ToText(v)
    ensures u == v
  {
    FromTextToText(u);
    FromTextToText(v);
  }
}
