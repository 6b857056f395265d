/** UUIDs as Python's uuid module renders them. A UUID is kept as its 32
    lower-case hexadecimal digits (`UUID.hex`); `str(uuid)` inserts a dash
    after digits 8, 12, 16 and 20. The random choice made by `uuid.uuid4()`
    is not modelled: callers receive the UUID as a parameter. */
module Uuids {

  predicate IsLowerHex(c: char) {
    '0' <= c <= '9' || 'a' <= c <= 'f'
  }

  type Uuid = s: string | |s| == 32 && forall i | 0 <= i < |s| :: IsLowerHex(s[i])
    witness "00000000000000000000000000000000"

  /** `str(u)`: the canonical 8-4-4-4-12 form. */
  function UuidString(u: Uuid): (r: string)
    ensures |r| == 36
    ensures r[8] == '-' && r[13] == '-' && r[18] == '-' && r[23] == '-'
    ensures forall i | 0 <= i < 36 && i != 8 && i != 13 && i != 18 && i != 23 :: IsLowerHex(r[i])
  {
    u[..8] + "-" + u[8..12] + "-" + u[12..16] + "-" + u[16..20] + "-" + u[20..]
  }

  /** Reads the hexadecimal digits back out of a 36-character dashed form. */
  function HexDigits(s: string): string
    requires |s| == 36
  {
    s[..8] + s[9..13] + s[14..18] + s[19..23] + s[24..]
  }

  predicate HasDoubleDash(s: string) {
    exists i | 0 <= i < |s| - 1 :: s[i] == '-' && s[i + 1] == '-'
  }

  /** The dashed form loses nothing: the digits can be read back. */
  lemma HexDigitsOfUuidString(u: Uuid)
    ensures HexDigits(UuidString(u)) == u
  {
    var r := UuidString(u);
    assert r[..8] == u[..8];
    assert r[9..13] == u[8..12];
    assert r[14..18] == u[12..16];
    assert r[19..23] == u[16..20];
    assert r[24..] == u[20..];
    assert u == u[..8] + u[8..12] + u[12..16] + u[16..20] + u[20..];
  }

  /** Distinct UUIDs render to distinct strings. */
  lemma UuidStringInjective(u: Uuid, v: Uuid)
    requires UuidString(u) == UuidString(v)
    ensures u == v
  {
    HexDigitsOfUuidString(u);
    HexDigitsOfUuidString(v);
  }

  /** No dash of the rendered form is next to another, and it ends in a
      hexadecimal digit: "--" never occurs in a UUID string. */
  lemma UuidStringHasNoDoubleDash(u: Uuid)
    ensures !HasDoubleDash(UuidString(u))
    ensures IsLowerHex(UuidString(u)[35])
  {
    var r := UuidString(u);
    forall i | 0 <= i < |r| - 1
      ensures !(r[i] == '-' && r[i + 1] == '-')
    {
      if i == 8 || i == 13 || i == 18 || i == 23 {
        assert IsLowerHex(r[i + 1]);
      } else {
        assert IsLowerHex(r[i]);
      }
    }
  }
}
