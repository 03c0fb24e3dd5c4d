/** Invite codes: four random bytes written as lower-case hexadecimal
    (generateInviteCode, internal/parties/handler.go). The random bytes are
    an input here. */
module InviteCodes {
  import opened Models

  /** A character of the lower-case hexadecimal alphabet 0-9a-f. */
  predicate IsLowerHex(c: char) {
    '0' <= c <= '9' || 'a' <= c <= 'f'
  }

  /** The lower-case hexadecimal digit of a value below 16. */
  function HexDigit(n: nat): (c: char)
    requires n < 16
    ensures IsLowerHex(c)
    ensures DigitValue(c) == Some(n)
  {
    if n < 10 then ('0' as int + n) as char else ('a' as int + n - 10) as char
  }

  /** The value of a hexadecimal digit of either case; None for any other
      character. */
  function DigitValue(c: char): (r: Option<nat>)
    ensures r.Some? ==> r.value < 16
    ensures IsLowerHex(c) ==> r.Some?
  {
    if '0' <= c <= '9' then Some(c as int - '0' as int)
    else if 'a' <= c <= 'f' then Some(c as int - 'a' as int + 10)
    else if 'A' <= c <= 'F' then Some(c as int - 'A' as int + 10)
    else None
  }

  /** Hexadecimal encoding, two lower-case digits per byte, high nibble first. */
  function Hex(bytes: seq<bv8>): (s: string)
    ensures |s| == 2 * |bytes|
    ensures forall i :: 0 <= i < |s| ==> IsLowerHex(s[i])
  {
    if bytes == [] then []
    else [HexDigit(bytes[0] as nat / 16), HexDigit(bytes[0] as nat % 16)] + Hex(bytes[1..])
  }

  /** Hexadecimal decoding: None for an odd length or a non-digit. */
  function Unhex(s: string): (r: Option<seq<bv8>>)
    ensures r.Some? ==> 2 * |r.value| == |s|
  {
    if s == [] then Some([])
    else if |s| == 1 then None
    else match (DigitValue(s[0]), DigitValue(s[1]), Unhex(s[2..]))
      case (Some(hi), Some(lo), Some(rest)) => Some([(hi * 16 + lo) as bv8] + rest)
      case _ => None
  }

  /** Decoding undoes encoding, for byte strings of every length. */
  lemma {:induction false} UnhexHex(bytes: seq<bv8>)
    ensures Unhex(Hex(bytes)) == Some(bytes)
  {
    if bytes != [] {
      var b := bytes[0] as nat;
      var s := Hex(bytes);
      assert s[2..] == Hex(bytes[1..]);
      UnhexHex(bytes[1..]);
      assert DigitValue(s[0]) == Some(b / 16);
      assert DigitValue(s[1]) == Some(b % 16);
      assert (b / 16 * 16 + b % 16) as bv8 == bytes[0];
      assert [bytes[0]] + bytes[1..] == bytes;
    }
  }

  /** Different random bytes never give the same code. */
  lemma HexInjective(a: seq<bv8>, b: seq<bv8>)
    requires Hex(a) == Hex(b)
    ensures a == b
  {
    UnhexHex(a);
    UnhexHex(b);
  }

  /** The code generateInviteCode builds from its four random bytes. */
  function GenerateInviteCode(random: seq<bv8>): (code: string)
    requires |random| == 4
    ensures |code| == 8
    ensures forall i :: 0 <= i < |code| ==> IsLowerHex(code[i])
    ensures Unhex(code) == Some(random)
  {
    UnhexHex(random);
    Hex(random)
  }
}
