/** Version 4, variant 1 universally unique identifiers: sixteen bytes, their
    text form and their generation from sixteen random bytes (section 4.4 of
    RFC 4122). */
module Uuid {

  /** `std::array<uint8_t, 16>`. */
  type Bytes = s: seq<bv8> | |s| == 16 witness [0, 0, 0, 0, 0, 0, 0, 0, 0, 0, 0, 0, 0, 0, 0, 0]

  /** `UUID`: its only member is the byte array, fixed at construction. */
  datatype Uuid = Uuid(data: Bytes)

  /** `nil_uuid_data`. */
  const NilData: Bytes := [0, 0, 0, 0, 0, 0, 0, 0, 0, 0, 0, 0, 0, 0, 0, 0]

  /** `UUID::nil_uuid`, which is also what the default constructor gives. */
  const Nil: Uuid := Uuid(NilData)

  /** `operator==`: the arrays are compared element by element. */
  predicate Equal(a: Uuid, b: Uuid)
  {
    forall i :: 0 <= i < 16 ==> a.data[i] == b.data[i]
  }

  /** `operator!=`. */
  predicate NotEqual(a: Uuid, b: Uuid)
  {
    !Equal(a, b)
  }

  /** `==` holds exactly for identical identifiers, and `!=` is its
      negation. */
  lemma EqualityIsIdentity(a: Uuid, b: Uuid)
    ensures Equal(a, b) <==> a == b
    ensures NotEqual(a, b) <==> a != b
  {
    if Equal(a, b) {
      assert a.data == b.data;
    }
  }

  /** The digit `std::hex` prints for a value below 16: lower-case letters
      after the decimal digits. */
  function HexDigit(n: nat): (c: char)
    requires n < 16
    ensures '0' <= c <= '9' || 'a' <= c <= 'f'
  {
    if n < 10 then (48 + n) as char else (97 + n - 10) as char
  }

  /** The high nibble of a byte. */
  function High(b: bv8): (n: nat)
    ensures n < 16
  {
    (b >> 4) as int
  }

  /** The low nibble of a byte. */
  function Low(b: bv8): (n: nat)
    ensures n < 16
  {
    (b & 0x0F) as int
  }

  /** What `std::setw(2)` with fill '0' prints for one byte in hex: the high
      nibble, then the low one. */
  function ByteText(b: bv8): (r: string)
    ensures |r| == 2
  {
    [HexDigit(High(b)), HexDigit(Low(b))]
  }

  /** The text of bytes `lo` to `hi - 1`, without separators. */
  function Run(data: Bytes, lo: nat, hi: nat): (r: string)
    requires lo <= hi <= 16
    ensures |r| == 2 * (hi - lo)
    decreases hi - lo
  {
    if lo == hi then "" else ByteText(data[lo]) + Run(data, lo + 1, hi)
  }

  /** The documented text form `xxxxxxxx-xxxx-Mxxx-Nxxx-xxxxxxxxxxxx`: byte
      groups of 4, 2, 2, 2 and 6, joined by dashes (section 3 of
      RFC 4122). */
  function Text(data: Bytes): string
  {
    Run(data, 0, 4) + "-" + Run(data, 4, 6) + "-" + Run(data, 6, 8) + "-" + Run(data, 8, 10) + "-" + Run(data, 10, 16)
  }

  /** Whether `to_string` writes a dash before byte `i`. */
  predicate DashBefore(i: nat)
  {
    i == 4 || i == 6 || i == 8 || i == 10
  }

  /** What the `to_string` loop has written after `n` iterations. */
  function Written(data: Bytes, n: nat): string
    requires n <= 16
  {
    if n == 0 then ""
    else Written(data, n - 1) + (if DashBefore(n - 1) then "-" else "") + ByteText(data[n - 1])
  }

  /** Where the text of byte `i` starts: two characters per earlier byte and
      one per earlier dash. */
  function Position(i: nat): nat
  {
    2 * i + (if i >= 4 then 1 else 0) + (if i >= 6 then 1 else 0) + (if i >= 8 then 1 else 0)
      + (if i >= 10 then 1 else 0)
  }

  /** `to_string`: the bytes in order, each as two zero-padded hex digits,
      with a dash before bytes 4, 6, 8 and 10. */
  method ToString(u: Uuid) returns (s: string)
    ensures s == Text(u.data)
  {
    s := "";
    for i := 0 to 16
      invariant s == Written(u.data, i)
    {
      if i == 4 || i == 6 || i == 8 || i == 10 {
        s := s + "-";
      }
      s := s + ByteText(u.data[i]);
    }
    WrittenIsText(u.data);
  }

  /** The bytes from `lo` on, appended one at a time, give `Run`. */
  lemma {:induction false} RunAppend(data: Bytes, lo: nat, hi: nat)
    requires lo <= hi < 16
    ensures Run(data, lo, hi + 1) == Run(data, lo, hi) + ByteText(data[hi])
    decreases hi - lo
  {
    if lo < hi {
      RunAppend(data, lo + 1, hi);
    }
  }

  /** Bytes `lo` to `hi - 1`, none of which but the first is preceded by a
      dash, extend the loop's output by one group. */
  lemma {:induction false} WrittenGroup(data: Bytes, lo: nat, hi: nat)
    requires lo < hi <= 16
    requires forall j :: lo < j < hi ==> !DashBefore(j)
    ensures Written(data, hi) == Written(data, lo) + (if DashBefore(lo) then "-" else "") + Run(data, lo, hi)
    decreases hi
  {
    if lo < hi - 1 {
      WrittenGroup(data, lo, hi - 1);
      RunAppend(data, lo, hi - 1);
    } else {
      assert Run(data, lo, hi) == ByteText(data[lo]);
    }
  }

  /** The loop writes the 8-4-4-4-12 form. */
  lemma WrittenIsText(data: Bytes)
    ensures Written(data, 16) == Text(data)
  {
    WrittenGroup(data, 0, 4);
    assert Written(data, 4) == Run(data, 0, 4);
    WrittenGroup(data, 4, 6);
    WrittenGroup(data, 6, 8);
    WrittenGroup(data, 8, 10);
    WrittenGroup(data, 10, 16);
  }

  /** After `n` iterations the loop has written two characters per byte and
      one per dash so far. */
  lemma {:induction false} WrittenLength(data: Bytes, n: nat)
    requires n <= 16
    ensures |Written(data, n)| == Position(n) - (if DashBefore(n) then 1 else 0)
  {
    if n > 0 {
      WrittenLength(data, n - 1);
    }
  }

  /** Once written, byte `i` stays at `Position(i)`. */
  lemma {:induction false} WrittenByte(data: Bytes, n: nat, i: nat)
    requires i < n <= 16
    ensures Position(i) + 1 < |Written(data, n)|
    ensures Written(data, n)[Position(i)] == HexDigit(High(data[i]))
    ensures Written(data, n)[Position(i) + 1] == HexDigit(Low(data[i]))
  {
    WrittenLength(data, n - 1);
    if i < n - 1 {
      WrittenByte(data, n - 1, i);
    }
  }

  /** The loop only writes dashes at positions 8, 13, 18 and 23. */
  lemma {:induction false} WrittenDash(data: Bytes, n: nat, p: nat)
    requires n <= 16 && p < |Written(data, n)|
    ensures Written(data, n)[p] == '-' <==> p == 8 || p == 13 || p == 18 || p == 23
  {
    WrittenLength(data, n - 1);
    WrittenLength(data, n);
    if p < |Written(data, n - 1)| {
      WrittenDash(data, n - 1, p);
    }
  }

  /** Byte `i` appears at `Position(i)` as its high and its low nibble in
      lower-case hex. */
  lemma ByteAt(data: Bytes, i: nat)
    requires i < 16
    ensures Position(i) + 1 < |Text(data)|
    ensures Text(data)[Position(i)] == HexDigit(High(data[i]))
    ensures Text(data)[Position(i) + 1] == HexDigit(Low(data[i]))
  {
    WrittenIsText(data);
    WrittenByte(data, 16, i);
  }

  /** The text has 36 characters, and the dashes sit exactly at positions 8,
      13, 18 and 23. */
  lemma TextLayout(data: Bytes)
    ensures |Text(data)| == 36
    ensures forall p :: 0 <= p < 36 ==> (Text(data)[p] == '-' <==> p == 8 || p == 13 || p == 18 || p == 23)
  {
    WrittenIsText(data);
    WrittenLength(data, 16);
    forall p | 0 <= p < 36
      ensures Text(data)[p] == '-' <==> p == 8 || p == 13 || p == 18 || p == 23
    {
      WrittenDash(data, 16, p);
    }
  }

  /** A hex digit determines its value. */
  lemma HexDigitInjective(m: nat, n: nat)
    requires m < 16 && n < 16 && HexDigit(m) == HexDigit(n)
    ensures m == n
  {
  }

  /** A byte is determined by its two nibbles. */
  lemma NibblesDetermineByte(a: bv8, b: bv8)
    requires High(a) == High(b) && Low(a) == Low(b)
    ensures a == b
  {
  }

  /** `to_string` loses nothing: different identifiers have different
      texts. */
  lemma TextInjective(a: Uuid, b: Uuid)
    requires Text(a.data) == Text(b.data)
    ensures a == b
  {
    forall i | 0 <= i < 16
      ensures a.data[i] == b.data[i]
    {
      ByteAt(a.data, i);
      ByteAt(b.data, i);
      HexDigitInjective(High(a.data[i]), High(b.data[i]));
      HexDigitInjective(Low(a.data[i]), Low(b.data[i]));
      NibblesDetermineByte(a.data[i], b.data[i]);
    }
    assert a.data == b.data;
  }

  /** Two zero bytes print as four zeros. */
  lemma NilPair(lo: nat)
    requires lo <= 14
    ensures Run(NilData, lo, lo + 2) == "0000"
  {
    assert NilData[lo] == 0 && NilData[lo + 1] == 0;
    assert ByteText(0) == "00";
  }

  /** The first and the last group of the nil identifier. */
  lemma NilOuterGroups()
    ensures Run(NilData, 0, 4) == "00000000"
    ensures Run(NilData, 10, 16) == "000000000000"
  {
    NilPair(0);
    NilPair(2);
    NilPair(10);
    NilPair(12);
    NilPair(14);
    assert Run(NilData, 0, 4) == Run(NilData, 0, 2) + Run(NilData, 2, 4);
    assert Run(NilData, 10, 16) == Run(NilData, 10, 12) + Run(NilData, 12, 14) + Run(NilData, 14, 16);
  }

  /** The nil identifier prints as 32 zeros in the 8-4-4-4-12 layout. */
  lemma NilText()
    ensures Text(Nil.data) == "00000000" + "-" + "0000" + "-" + "0000" + "-" + "0000" + "-" + "000000000000"
  {
    NilOuterGroups();
    NilPair(4);
    NilPair(6);
    NilPair(8);
  }

  /** `version_4_code` and `variant_1_code`. */
  const Version4Code: bv8 := 0x40
  const Variant1Code: bv8 := 0x80

  /** `Generate`: `random` stands for the sixteen draws of the uniform
      distribution over 0 to 255. The array is filled in order; then the
      high nibble of byte 6 becomes the version, 4, and the two top bits of
      byte 8 become the variant, binary 10. */
  method Generate(random: Bytes) returns (u: Uuid)
    ensures u.data[6] >> 4 == 4 && u.data[6] & 0x0F == random[6] & 0x0F
    ensures u.data[8] >> 6 == 2 && u.data[8] & 0x3F == random[8] & 0x3F
    ensures forall i :: 0 <= i < 16 && i != 6 && i != 8 ==> u.data[i] == random[i]
  {
    var data := new bv8[16];
    for i := 0 to 16
      invariant forall j :: 0 <= j < i ==> data[j] == random[j]
    {
      data[i] := random[i];
    }
    data[6] := (data[6] & 0x0F) | Version4Code;
    data[8] := (data[8] & 0x3F) | Variant1Code;
    u := Uuid(data[..]);
  }

  /** In the text of a generated identifier the version digit M is '4' and
      the variant digit N is one of '8', '9', 'a' and 'b'. */
  lemma GeneratedTextMarks(u: Uuid)
    requires u.data[6] >> 4 == 4 && u.data[8] >> 6 == 2
    ensures Text(u.data)[14] == '4'
    ensures Text(u.data)[19] in {'8', '9', 'a', 'b'}
  {
    ByteAt(u.data, 6);
    ByteAt(u.data, 8);
    assert Position(6) == 14 && Position(8) == 19;
    assert 8 <= High(u.data[8]) <= 11;
  }
}
