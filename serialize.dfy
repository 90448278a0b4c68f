/**
 * The JSON `default=` hook of the health report writer: how values that the
 * JSON encoder cannot handle itself are turned into ones it can.
 */
module Serialize {
  import opened Wrappers

  type Byte = b: int | 0 <= b < 256

  const HexDigits: string := "0123456789abcdef"

  predicate IsLowerHex(s: string) {
    forall i :: 0 <= i < |s| ==> s[i] in HexDigits
  }

  /** `bytes.hex()`: two lowercase digits per byte, high nibble first, no prefix. */
  function Hex(bytes: seq<Byte>): (s: string)
    ensures |s| == 2 * |bytes|
  {
    if bytes == [] then ""
    else [HexDigits[bytes[0] / 16], HexDigits[bytes[0] % 16]] + Hex(bytes[1..])
  }

  /** Byte `i` is rendered by digits `2i` (high nibble) and `2i + 1` (low nibble), all lowercase. */
  lemma {:induction false} HexDigitsAt(bytes: seq<Byte>)
    ensures IsLowerHex(Hex(bytes))
    ensures forall i :: 0 <= i < |bytes| ==>
              Hex(bytes)[2 * i] == HexDigits[bytes[i] / 16] && Hex(bytes)[2 * i + 1] == HexDigits[bytes[i] % 16]
  {
    if bytes != [] {
      HexDigitsAt(bytes[1..]);
      HexHead(bytes);
      var s := Hex(bytes);
      forall i | 1 <= i < |bytes|
        ensures s[2 * i] == HexDigits[bytes[i] / 16] && s[2 * i + 1] == HexDigits[bytes[i] % 16]
      {
        assert bytes[i] == bytes[1..][i - 1];
        assert s[2 * i] == s[2..][2 * (i - 1)] && s[2 * i + 1] == s[2..][2 * (i - 1) + 1];
      }
      forall j | 2 <= j < |s|
        ensures s[j] in HexDigits
      {
        assert s[j] == s[2..][j - 2];
      }
    }
  }

  type Nibble = n: int | 0 <= n < 16

  /** The value of one hexadecimal digit, in either case, as `bytes.fromhex` reads it. */
  function NibbleOf(c: char): Option<Nibble> {
    if '0' <= c <= '9' then Some(c as int - '0' as int)
    else if 'a' <= c <= 'f' then Some(c as int - 'a' as int + 10)
    else if 'A' <= c <= 'F' then Some(c as int - 'A' as int + 10)
    else None
  }

  /** `bytes.fromhex` without the whitespace it skips: the inverse of `Hex`. */
  function Unhex(s: string): (r: Option<seq<Byte>>)
    ensures r.Some? ==> 2 * |r.value| == |s|
  {
    if |s| < 2 then (if s == [] then Some([]) else None)
    else
      var hi, lo, rest := NibbleOf(s[0]), NibbleOf(s[1]), Unhex(s[2..]);
      if hi.Some? && lo.Some? && rest.Some? then Some([hi.value * 16 + lo.value] + rest.value) else None
  }

  lemma NibbleOfDigit(n: Nibble)
    ensures NibbleOf(HexDigits[n]) == Some(n)
  {
  }

  /** One step of `Unhex`: a leading digit pair in front of a decodable rest. */
  lemma UnhexPair(s: string, hi: Nibble, lo: Nibble, b: Byte, rest: seq<Byte>)
    requires |s| >= 2 && hi * 16 + lo == b
    requires NibbleOf(s[0]) == Some(hi) && NibbleOf(s[1]) == Some(lo)
    requires Unhex(s[2..]) == Some(rest)
    ensures Unhex(s) == Some([b] + rest)
  {
  }

  /** The first two digits of `Hex(bytes)` render `bytes[0]`; the rest renders `bytes[1..]`. */
  lemma HexHead(bytes: seq<Byte>)
    requires bytes != []
    ensures Hex(bytes)[0] == HexDigits[bytes[0] / 16] && Hex(bytes)[1] == HexDigits[bytes[0] % 16]
    ensures Hex(bytes)[2..] == Hex(bytes[1..])
  {
  }

  lemma SplitByte(b: Byte)
    ensures (b / 16) * 16 + b % 16 == b
  {
  }

  /** Decoding one more byte: if the tail round-trips, so does the whole. */
  lemma UnhexHexStep(bytes: seq<Byte>)
    requires bytes != []
    requires Unhex(Hex(bytes[1..])) == Some(bytes[1..])
    ensures Unhex(Hex(bytes)) == Some(bytes)
  {
    var b, s := bytes[0], Hex(bytes);
    var hi: Nibble, lo: Nibble := b / 16, b % 16;
    assert Unhex(s) == Some([b] + bytes[1..]) by {
      SplitByte(b);
      HexHead(bytes);
      NibbleOfDigit(hi);
      NibbleOfDigit(lo);
      UnhexPair(s, hi, lo, b, bytes[1..]);
    }
    assert [b] + bytes[1..] == bytes;
  }

  /** Decoding the hex rendering gives back the bytes: `Hex` loses nothing. */
  lemma {:induction false} UnhexHex(bytes: seq<Byte>)
    ensures Unhex(Hex(bytes)) == Some(bytes)
  {
    if bytes != [] {
      UnhexHex(bytes[1..]);
      UnhexHexStep(bytes);
    }
  }

  /**
   * The objects the report may hold that the JSON encoder cannot write.
   * A set is known by its members in its iteration order; a datetime by its
   * UTC ISO-8601 rendering; any other object by its `str()`.
   */
  datatype PyObject =
    | PyDecimal(decimal: real)
    | PyBytes(bytes: seq<Byte>)
    | PyDateTime(isoUtc: string)
    | PySet(members: seq<PyObject>)
    | PyOther(text: string)

  /** What the hook hands back to the encoder. */
  datatype Serialized = SFloat(x: real) | SString(s: string) | SList(items: seq<PyObject>)

  /** `to_serializable`: an `isinstance` dispatch on the object's kind. */
  function ToSerializable(obj: PyObject): (r: Serialized)
    ensures obj.PyDecimal? ==> r == SFloat(obj.decimal)
    ensures obj.PyBytes? ==>
              r.SString? && |r.s| == 2 * |obj.bytes| && IsLowerHex(r.s) && Unhex(r.s) == Some(obj.bytes)
    ensures obj.PySet? ==>
              r.SList? && |r.items| == |obj.members| && forall x :: x in r.items <==> x in obj.members
    ensures obj.PyOther? ==> r == SString(obj.text)
  {
    match obj
    case PyDecimal(d) => SFloat(d)
    case PyBytes(b) => HexDigitsAt(b); UnhexHex(b); SString(Hex(b))
    case PyDateTime(iso) => SString(iso)
    case PySet(members) => SList(members)
    case PyOther(text) => SString(text)
  }
}
