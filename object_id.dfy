/** MongoDB object ids as the product views use them: `ObjectId.is_valid`
    on a path string, `ObjectId(pk)` to parse it and `str(oid)` to print
    one back. An id is twelve bytes; its text is 24 hexadecimal digits,
    printed in lower case. */
module ObjectIds {
  import opened Common
  import opened Text

  newtype byte = x: int | 0 <= x < 256

  type ObjectId = b: seq<byte> | |b| == 12 witness [0, 0, 0, 0, 0, 0, 0, 0, 0, 0, 0, 0]

  predicate IsHex(c: char)
  {
    '0' <= c <= '9' || 'a' <= c <= 'f' || 'A' <= c <= 'F'
  }

  function HexVal(c: char): (d: nat)
    requires IsHex(c)
    ensures d < 16
  {
    if '0' <= c <= '9' then c as int - '0' as int
    else if 'a' <= c <= 'f' then c as int - 'a' as int + 10
    else c as int - 'A' as int + 10
  }

  /** The lower-case digit for `d`. */
  function HexChar(d: nat): (c: char)
    requires d < 16
    ensures IsHex(c) && HexVal(c) == d && LowerChar(c) == c
  {
    if d < 10 then ('0' as int + d) as char else ('a' as int + d - 10) as char
  }

  /** `ObjectId.is_valid(pk)` for a string: exactly 24 hexadecimal digits,
      in either case. */
  predicate IsValid(s: string)
  {
    |s| == 24 && forall i :: 0 <= i < |s| ==> IsHex(s[i])
  }

  function Byte(hi: nat, lo: nat): (b: byte)
    requires hi < 16 && lo < 16
    ensures b as int / 16 == hi && b as int % 16 == lo
  {
    (16 * hi + lo) as byte
  }

  /** `ObjectId(pk)`: each pair of digits is one byte, high digit first.
      A string that is not valid has no id. */
  function Parse(s: string): (r: Option<ObjectId>)
    ensures r.Some? <==> IsValid(s)
    ensures r.Some? ==> forall i :: 0 <= i < 12 ==> r.value[i] as int == 16 * HexVal(s[2 * i]) + HexVal(s[2 * i + 1])
  {
    if IsValid(s) then
      Some(seq(12, i requires 0 <= i < 12 => Byte(HexVal(s[2 * i]), HexVal(s[2 * i + 1]))))
    else None
  }

  /** The digit at position `i` of an id's text. */
  function DigitAt(id: ObjectId, i: nat): (c: char)
    requires i < 24
  {
    if i % 2 == 0 then HexChar(id[i / 2] as int / 16) else HexChar(id[i / 2] as int % 16)
  }

  /** `str(oid)`: two lower-case digits per byte. */
  function Format(id: ObjectId): (r: string)
    ensures IsValid(r)
    ensures Lower(r) == r
  {
    var r := seq(24, i requires 0 <= i < 24 => DigitAt(id, i));
    assert forall i :: 0 <= i < 24 ==> LowerChar(r[i]) == r[i];
    r
  }

  /** The two digits printed for byte `i`. */
  lemma DigitsOf(id: ObjectId, i: nat)
    requires i < 12
    ensures Format(id)[2 * i] == HexChar(id[i] as int / 16)
    ensures Format(id)[2 * i + 1] == HexChar(id[i] as int % 16)
  {
    assert (2 * i) / 2 == i && (2 * i + 1) / 2 == i && (2 * i) % 2 == 0 && (2 * i + 1) % 2 == 1;
  }

  /** Printing an id and parsing the text gives the id back. */
  lemma ParseFormat(id: ObjectId)
    ensures Parse(Format(id)) == Some(id)
  {
    var s := Format(id);
    var p := Parse(s).value;
    forall i | 0 <= i < 12 ensures p[i] == id[i] {
      DigitsOf(id, i);
    }
    assert |p| == |id| == 12;
    assert p == id;
  }

  lemma HexCharVal(c: char)
    requires IsHex(c)
    ensures HexChar(HexVal(c)) == LowerChar(c)
  {
  }

  /** Parsing a valid path string and printing the id gives the string in
      lower case, so two path strings name the same product exactly when
      they agree up to the case of their letters. */
  lemma FormatParse(s: string)
    requires IsValid(s)
    ensures Format(Parse(s).value) == Lower(s)
  {
    var id := Parse(s).value;
    var r := Format(id);
    forall i | 0 <= i < 24 ensures r[i] == LowerChar(s[i]) {
      var k := i / 2;
      assert id[k] as int == 16 * HexVal(s[2 * k]) + HexVal(s[2 * k + 1]);
      HexCharVal(s[i]);
      if i % 2 == 0 {
        assert i == 2 * k;
      } else {
        assert i == 2 * k + 1;
      }
    }
  }
}
