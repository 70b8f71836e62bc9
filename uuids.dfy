/**
 * UUIDs as 32 hexadecimal digits, with the canonical 8-4-4-4-12 text form that
 * `UUID.toString` prints and `UUID.fromString` reads back.
 */
module Uuids {
  import opened Base

  type Nibble = n: int | 0 <= n < 16

  datatype UuidDigits = UuidDigits(nibbles: seq<Nibble>)

  /** A 128-bit identifier, most significant digit first. */
  type Uuid = u: UuidDigits | |u.nibbles| == 32 witness UuidDigits(seq(32, _ => 0))

  function HexDigit(n: Nibble): char
  {
    if n < 10 then ('0' as int + n) as char else ('a' as int + n - 10) as char
  }

  /** The value of one hexadecimal character, either case; `None` for any other character. */
  function HexValue(c: char): (r: Option<Nibble>)
    ensures r.Some? <==> ('0' <= c <= '9' || 'a' <= c <= 'f' || 'A' <= c <= 'F')
  {
    if '0' <= c <= '9' then Some(c as int - '0' as int)
    else if 'a' <= c <= 'f' then Some(c as int - 'a' as int + 10)
    else if 'A' <= c <= 'F' then Some(c as int - 'A' as int + 10)
    else None
  }

  lemma HexValueOfDigit(n: Nibble)
    ensures HexValue(HexDigit(n)) == Some(n)
  {
  }

  function HexString(ns: seq<Nibble>): (s: string)
    ensures |s| == |ns|
    ensures forall i :: 0 <= i < |ns| ==> s[i] == HexDigit(ns[i])
  {
    seq(|ns|, i requires 0 <= i < |ns| => HexDigit(ns[i]))
  }

  /** Reads a string of hexadecimal characters; `None` as soon as one is not a hex digit. */
  function ParseHex(s: string): (r: Option<seq<Nibble>>)
    ensures r.Some? <==> forall i :: 0 <= i < |s| ==> HexValue(s[i]).Some?
    ensures r.Some? ==> |r.value| == |s|
    ensures r.Some? ==> forall i :: 0 <= i < |s| ==> HexValue(s[i]) == Some(r.value[i])
  {
    if s == [] then Some([])
    else match HexValue(s[0])
      case None => None
      case Some(n) =>
        match ParseHex(s[1..])
        case None => None
        case Some(rest) => Some([n] + rest)
  }

  lemma {:induction false} ParseHexString(ns: seq<Nibble>)
    ensures ParseHex(HexString(ns)) == Some(ns)
  {
    if ns != [] {
      var s := HexString(ns);
      assert s[1..] == HexString(ns[1..]);
      ParseHexString(ns[1..]);
      HexValueOfDigit(ns[0]);
      assert [ns[0]] + ns[1..] == ns;
    }
  }

  /** `UUID.toString`: lower-case hex digits in groups of 8, 4, 4, 4 and 12. */
  function ToString(u: Uuid): (s: string)
    ensures |s| == 36
    ensures s[8] == '-' && s[13] == '-' && s[18] == '-' && s[23] == '-'
  {
    var n := u.nibbles;
    HexString(n[..8]) + "-" + HexString(n[8..12]) + "-" + HexString(n[12..16]) + "-"
      + HexString(n[16..20]) + "-" + HexString(n[20..])
  }

  /** The 32 digit characters of a 36-character text, dashes dropped. */
  function DigitsOf(s: string): (d: string)
    requires |s| == 36
    ensures |d| == 32
  {
    s[..8] + s[9..13] + s[14..18] + s[19..23] + s[24..]
  }

  /** The positions of the four dashes in the canonical form. */
  predicate IsDashPosition(i: int)
  {
    i == 8 || i == 13 || i == 18 || i == 23
  }

  /**
   * The canonical text form: 36 characters, a dash at each dash position and
   * a hexadecimal digit of either case everywhere else.
   */
  predicate Canonical(s: string)
  {
    && |s| == 36
    && forall i :: 0 <= i < 36 ==> if IsDashPosition(i) then s[i] == '-' else HexValue(s[i]).Some?
  }

  /** Where the `k`-th digit sits in the 36-character text. */
  function DigitPosition(k: int): int
  {
    if k < 8 then k else if k < 12 then k + 1 else if k < 16 then k + 2 else if k < 20 then k + 3 else k + 4
  }

  lemma {:induction false} DigitsOfPositions(s: string)
    requires |s| == 36
    ensures forall k :: 0 <= k < 32 ==> DigitsOf(s)[k] == s[DigitPosition(k)]
    ensures forall i :: 0 <= i < 36 && !IsDashPosition(i) ==>
      exists k :: 0 <= k < 32 && DigitPosition(k) == i
  {
    forall i | 0 <= i < 36 && !IsDashPosition(i)
      ensures exists k :: 0 <= k < 32 && DigitPosition(k) == i
    {
      var k := if i < 8 then i else if i < 13 then i - 1 else if i < 18 then i - 2 else if i < 23 then i - 3 else i - 4;
      assert DigitPosition(k) == i;
    }
  }

  /**
   * `UUID.fromString` on the canonical form: 36 characters, dashes at 8, 13, 18
   * and 23, hex digits of either case elsewhere. `None` stands for the
   * IllegalArgumentException it throws.
   */
  function FromString(s: string): (r: Option<Uuid>)
    ensures r.Some? <==> Canonical(s)
    ensures r.Some? ==> forall k :: 0 <= k < 32 ==> HexValue(s[DigitPosition(k)]) == Some(r.value.nibbles[k])
  {
    if |s| == 36 && s[8] == '-' && s[13] == '-' && s[18] == '-' && s[23] == '-' then
      DigitsOfPositions(s);
      match ParseHex(DigitsOf(s))
      case None => None
      case Some(ns) => Some(UuidDigits(ns))
    else None
  }

  lemma {:induction false} DigitsOfToString(u: Uuid)
    ensures DigitsOf(ToString(u)) == HexString(u.nibbles)
  {
    var n := u.nibbles;
    var s := ToString(u);
    var d := DigitsOf(s);
    forall i | 0 <= i < 32
      ensures d[i] == HexString(n)[i]
    {
      if i < 8 { assert d[i] == s[i]; }
      else if i < 12 { assert d[i] == s[i + 1]; }
      else if i < 16 { assert d[i] == s[i + 2]; }
      else if i < 20 { assert d[i] == s[i + 3]; }
      else { assert d[i] == s[i + 4]; }
    }
  }

  /** Reading back what `ToString` prints gives the same identifier. */
  lemma {:induction false} FromToString(u: Uuid)
    ensures FromString(ToString(u)) == Some(u)
  {
    DigitsOfToString(u);
    ParseHexString(u.nibbles);
  }

  /** Distinct identifiers print differently, so string claims keep tenants apart. */
  lemma ToStringInjective(u: Uuid, v: Uuid)
    requires ToString(u) == ToString(v)
    ensures u == v
  {
    FromToString(u);
    FromToString(v);
  }
}
