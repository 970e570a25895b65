/** BSON object identifiers as the handlers see them: twelve bytes whose
    external form is a string of 24 hexadecimal digits. Parsing accepts
    either case; rendering (`str(oid)`) always writes lower case. */
module ObjectIds {
  import opened Wrappers

  type Byte = b: int | 0 <= b < 256

  /** The twelve bytes held by an identifier. */
  type IdBytes = s: seq<Byte> | |s| == 12 witness [0, 0, 0, 0, 0, 0, 0, 0, 0, 0, 0, 0]

  datatype ObjectId = ObjectId(bytes: IdBytes)

  predicate IsHexChar(c: char) {
    '0' <= c <= '9' || 'a' <= c <= 'f' || 'A' <= c <= 'F'
  }

  function HexValue(c: char): (d: int)
    requires IsHexChar(c)
    ensures 0 <= d < 16
  {
    if '0' <= c <= '9' then c as int - '0' as int
    else if 'a' <= c <= 'f' then c as int - 'a' as int + 10
    else c as int - 'A' as int + 10
  }

  /** The lower-case digit for `d`; reading it back gives `d`. */
  function HexChar(d: int): (c: char)
    requires 0 <= d < 16
    ensures IsHexChar(c) && HexValue(c) == d
    ensures !('A' <= c <= 'F')
  {
    if d < 10 then ('0' as int + d) as char else ('a' as int + d - 10) as char
  }

  function LowerHex(c: char): char {
    if 'A' <= c <= 'F' then (c as int - 'A' as int + 'a' as int) as char else c
  }

  /** `s` with its upper-case hexadecimal letters written in lower case. */
  function Lower(s: string): (r: string)
    ensures |r| == |s|
  {
    if s == [] then [] else [LowerHex(s[0])] + Lower(s[1..])
  }

  /** The strings `ObjectId(s)` accepts: exactly 24 hexadecimal digits. */
  predicate IsWellFormed(s: string) {
    |s| == 24 && forall i :: 0 <= i < |s| ==> IsHexChar(s[i])
  }

  function DecodeHex(s: string): (r: seq<Byte>)
    requires |s| % 2 == 0
    requires forall i :: 0 <= i < |s| ==> IsHexChar(s[i])
    ensures |r| == |s| / 2
  {
    if s == [] then [] else [HexValue(s[0]) * 16 + HexValue(s[1])] + DecodeHex(s[2..])
  }

  function EncodeHex(bs: seq<Byte>): (r: string)
    ensures |r| == 2 * |bs|
    ensures forall i :: 0 <= i < |r| ==> IsHexChar(r[i]) && !('A' <= r[i] <= 'F')
  {
    if bs == [] then [] else [HexChar(bs[0] / 16), HexChar(bs[0] % 16)] + EncodeHex(bs[1..])
  }

  /** `ObjectId(s)`: `None` stands for the `InvalidId` exception. */
  function Parse(s: string): (r: Option<ObjectId>)
    ensures r.Some? <==> IsWellFormed(s)
  {
    if IsWellFormed(s) then Some(ObjectId(DecodeHex(s))) else None
  }

  /** `str(oid)`: the canonical, lower-case rendering. */
  function Render(id: ObjectId): (r: string)
    ensures IsWellFormed(r)
    ensures Lower(r) == r
  {
    var r := EncodeHex(id.bytes);
    LowerOfLowercase(r);
    r
  }

  lemma {:induction false} LowerOfLowercase(s: string)
    requires forall i :: 0 <= i < |s| ==> !('A' <= s[i] <= 'F')
    ensures Lower(s) == s
  {
    if s != [] {
      LowerOfLowercase(s[1..]);
    }
  }

  lemma HexCharOfValue(c: char)
    requires IsHexChar(c)
    ensures HexChar(HexValue(c)) == LowerHex(c)
  {
  }

  lemma {:induction false} DecodeEncode(bs: seq<Byte>)
    ensures DecodeHex(EncodeHex(bs)) == bs
  {
    if bs != [] {
      var s := EncodeHex(bs);
      assert s[2..] == EncodeHex(bs[1..]);
      DecodeEncode(bs[1..]);
    }
  }

  lemma {:induction false} EncodeDecode(s: string)
    requires |s| % 2 == 0
    requires forall i :: 0 <= i < |s| ==> IsHexChar(s[i])
    ensures EncodeHex(DecodeHex(s)) == Lower(s)
  {
    if s != [] {
      var hi, lo := HexValue(s[0]), HexValue(s[1]);
      var b := hi * 16 + lo;
      assert b / 16 == hi && b % 16 == lo;
      HexCharOfValue(s[0]);
      HexCharOfValue(s[1]);
      assert DecodeHex(s) == [b] + DecodeHex(s[2..]);
      assert ([b] + DecodeHex(s[2..]))[1..] == DecodeHex(s[2..]);
      EncodeDecode(s[2..]);
      assert s[1..][1..] == s[2..];
      assert Lower(s) == [LowerHex(s[0]), LowerHex(s[1])] + Lower(s[2..]);
    }
  }

  /** Rendering an identifier and parsing the text gives the identifier back. */
  lemma ParseRender(id: ObjectId)
    ensures Parse(Render(id)) == Some(id)
  {
    DecodeEncode(id.bytes);
  }

  /** Rendering a parsed string gives its lower-case form. */
  lemma RenderParse(s: string)
    requires IsWellFormed(s)
    ensures Parse(s).Some? && Render(Parse(s).value) == Lower(s)
  {
    EncodeDecode(s);
  }

  /** Distinct identifiers have distinct canonical strings. */
  lemma RenderInjective(a: ObjectId, b: ObjectId)
    ensures Render(a) == Render(b) ==> a == b
  {
    ParseRender(a);
    ParseRender(b);
  }

  /** Two spellings that differ only in the case of their letters name the
      same identifier, so a raw string and its canonical form can differ. */
  lemma ParseIgnoresCase(s: string)
    requires IsWellFormed(s)
    ensures IsWellFormed(Lower(s)) && Parse(Lower(s)) == Parse(s)
  {
    RenderParse(s);
    ParseRender(Parse(s).value);
  }
}
