/**
 * Two-digit hexadecimal text for colour channels: the `{:02X}` formatting
 * `RGBParam.to_hex` uses and the `int(pair, 16)` parsing `RGBParam.from_hex`
 * uses, restricted to ASCII hexadecimal digits.
 */
module Hex {
  import opened Values

  /** The digit `{:X}` prints for `n`: 0-9 then upper-case A-F. */
  function Digit(n: nat): (c: char)
    requires n < 16
    ensures '0' <= c <= '9' || 'A' <= c <= 'F'
  {
    if n < 10 then ('0' as int + n) as char else ('A' as int + n - 10) as char
  }

  /** The value of a hexadecimal digit of either case. */
  function DigitValue(c: char): (r: Option<nat>)
    ensures r.Some? ==> r.value < 16
  {
    if '0' <= c <= '9' then Some(c as int - '0' as int)
    else if 'a' <= c <= 'f' then Some(c as int - 'a' as int + 10)
    else if 'A' <= c <= 'F' then Some(c as int - 'A' as int + 10)
    else None
  }

  /** Upper-casing of hexadecimal letters; every other character is left alone. */
  function UpperChar(c: char): char
  {
    if 'a' <= c <= 'f' then (c as int - 32) as char else c
  }

  /** `"{:02X}".format(n)`: two upper-case digits, most significant first. */
  function ByteText(n: Channel): (r: string)
    ensures |r| == 2
  {
    [Digit(n / 16), Digit(n % 16)]
  }

  /** `int(s, 16)` for a two-character string of ASCII hexadecimal digits. */
  function ParseByte(s: string): (r: Option<Channel>)
    requires |s| == 2
    ensures r.Some? <==> DigitValue(s[0]).Some? && DigitValue(s[1]).Some?
  {
    match (DigitValue(s[0]), DigitValue(s[1]))
    case (Some(hi), Some(lo)) => Some(hi * 16 + lo)
    case _ => None
  }

  /** `s.lstrip('#')`: every leading '#' is removed. */
  function StripHashes(s: string): (r: string)
    ensures |r| <= |s| && r == s[|s| - |r|..]
    ensures forall i :: 0 <= i < |s| - |r| ==> s[i] == '#'
    ensures |r| > 0 ==> r[0] != '#'
  {
    if |s| > 0 && s[0] == '#' then StripHashes(s[1..]) else s
  }

  /** `n` hash characters. */
  function Hashes(n: nat): (r: string)
    ensures |r| == n
  {
    if n == 0 then "" else "#" + Hashes(n - 1)
  }

  /** `lstrip('#')` removes a leading hash. */
  lemma StripOneHash(s: string)
    ensures StripHashes("#" + s) == StripHashes(s)
  {
    assert ("#" + s)[1..] == s;
  }

  /** `lstrip('#')` removes any number of leading hashes. */
  lemma {:induction false} StripLeadingHashes(s: string, n: nat)
    ensures StripHashes(Hashes(n) + s) == StripHashes(s)
  {
    if n > 0 {
      assert Hashes(n) + s == "#" + (Hashes(n - 1) + s);
      StripOneHash(Hashes(n - 1) + s);
      StripLeadingHashes(s, n - 1);
    } else {
      assert Hashes(n) + s == s;
    }
  }

  /** A printed digit reads back as the number printed. */
  lemma DigitRoundTrip(n: nat)
    requires n < 16
    ensures DigitValue(Digit(n)) == Some(n)
  {
  }

  /** A digit that parses prints back as its upper-case form. */
  lemma DigitReprint(c: char)
    requires DigitValue(c).Some?
    ensures Digit(DigitValue(c).value) == UpperChar(c)
  {
  }

  /** Parsing the two digits printed for a channel gives the channel back. */
  lemma ByteRoundTrip(n: Channel)
    ensures ParseByte(ByteText(n)) == Some(n)
  {
    DigitRoundTrip(n / 16);
    DigitRoundTrip(n % 16);
  }

  /** A pair that parses prints back as the same pair in upper case. */
  lemma ByteReprint(s: string)
    requires |s| == 2 && ParseByte(s).Some?
    ensures ByteText(ParseByte(s).value) == [UpperChar(s[0]), UpperChar(s[1])]
  {
    var hi := DigitValue(s[0]).value;
    var lo := DigitValue(s[1]).value;
    var n := ParseByte(s).value;
    assert n == hi * 16 + lo;
    assert n / 16 == hi && n % 16 == lo;
    DigitReprint(s[0]);
    DigitReprint(s[1]);
  }
}
