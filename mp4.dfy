/**
 * The minimal MP4 file the bus-passenger test and debug runner upload as a
 * dash-cam video: an `ftyp` box followed by an `mdat` box. Each box is laid
 * out as in ISO/IEC 14496-12 section 4.2 (Object Structure): a 32-bit
 * big-endian size that counts the whole box, header included, then the
 * 4-byte box type, then the payload.
 */
module Mp4 {
  import opened Json

  type Byte = b: int | 0 <= b < 0x100

  /** The bytes of an ASCII text, as a `b"..."` literal gives them. */
  function Ascii(s: string): (r: seq<Byte>)
    requires forall k :: 0 <= k < |s| ==> s[k] < 128 as char
    ensures |r| == |s|
  {
    seq(|s|, k requires 0 <= k < |s| => s[k] as int)
  }

  function Pow256(k: nat): (p: nat)
    ensures p >= 1
  {
    if k == 0 then 1 else 256 * Pow256(k - 1)
  }

  /** `n.to_bytes(k, "big")` for `n < 256^k`. */
  function BigEndian(n: nat, k: nat): (r: seq<Byte>)
    requires n < Pow256(k)
    ensures |r| == k
  {
    if k == 0 then []
    else BigEndian(n / 256, k - 1) + [n % 256]
  }

  /** `int.from_bytes(b, "big")` */
  function FromBigEndian(b: seq<Byte>): (n: nat)
    ensures n < Pow256(|b|)
  {
    if b == [] then 0 else FromBigEndian(b[..|b| - 1]) * 256 + b[|b| - 1]
  }

  /** Reading back the big-endian bytes of a number gives the number. */
  lemma {:induction false} BigEndianRoundTrip(n: nat, k: nat)
    requires n < Pow256(k)
    ensures FromBigEndian(BigEndian(n, k)) == n
  {
    if k > 0 {
      BigEndianRoundTrip(n / 256, k - 1);
      var b := BigEndian(n, k);
      assert b[..|b| - 1] == BigEndian(n / 256, k - 1);
    }
  }

  const MaxBoxSize: nat := 0x1_0000_0000

  /**
   * `_box(box_type, payload)`: the size `8 + len(payload)` as 4 big-endian
   * bytes, the type and the payload; a size that does not fit in 4 bytes
   * raises OverflowError.
   */
  function Box(boxType: seq<Byte>, payload: seq<Byte>): (r: Result<seq<Byte>>)
    ensures r.Ok? <==> 8 + |payload| < MaxBoxSize
    ensures r.Ok? ==>
      (|r.value| == 4 + |boxType| + |payload|
       && r.value[4..4 + |boxType|] == boxType && r.value[4 + |boxType|..] == payload)
  {
    var size := 8 + |payload|;
    if size >= Pow256(4) then Err(OverflowError)
    else
      var header := BigEndian(size, 4);
      assert (header + boxType + payload)[4..4 + |boxType|] == boxType;
      Ok(header + boxType + payload)
  }

  /** The first 4 bytes of a box are its size, `8 + len(payload)`, in big-endian order. */
  lemma BoxSizeHeader(boxType: seq<Byte>, payload: seq<Byte>)
    requires Box(boxType, payload).Ok?
    ensures FromBigEndian(Box(boxType, payload).value[..4]) == 8 + |payload|
  {
    var size := 8 + |payload|;
    BigEndianRoundTrip(size, 4);
    assert Box(boxType, payload).value[..4] == BigEndian(size, 4);
  }

  /** One box read off the front of some bytes: its type, its payload and what follows it. */
  datatype Parsed = Parsed(boxType: seq<Byte>, payload: seq<Byte>, rest: seq<Byte>)

  /** Reads the box at the front of `bytes`, or None when its header or size does not fit. */
  function ParseBox(bytes: seq<Byte>): (r: Option<Parsed>)
    ensures r.Some? ==> |r.value.boxType| == 4 && 8 + |r.value.payload| + |r.value.rest| == |bytes|
  {
    if |bytes| < 8 then None
    else
      var size := FromBigEndian(bytes[..4]);
      if size < 8 || size > |bytes| then None
      else Some(Parsed(bytes[4..8], bytes[8..size], bytes[size..]))
  }

  /** A box with a 4-byte type is read back as that type and payload, whatever follows it. */
  lemma BoxRoundTrip(boxType: seq<Byte>, payload: seq<Byte>, rest: seq<Byte>)
    requires |boxType| == 4 && Box(boxType, payload).Ok?
    ensures ParseBox(Box(boxType, payload).value + rest) == Some(Parsed(boxType, payload, rest))
  {
    var b := Box(boxType, payload).value;
    BoxSizeHeader(boxType, payload);
    assert (b + rest)[..4] == b[..4];
    assert (b + rest)[4..8] == boxType;
    assert (b + rest)[8..8 + |payload|] == payload;
    assert (b + rest)[8 + |payload|..] == rest;
  }

  const FtypType: seq<Byte> := Ascii("ftyp")
  const MdatType: seq<Byte> := Ascii("mdat")

  /** `b"isom" + (0).to_bytes(4, "big") + b"isomiso2"`: major brand, minor version 0, compatible brands. */
  function FtypPayload(): (r: seq<Byte>)
    ensures |r| == 16
  {
    Ascii("isom") + BigEndian(0, 4) + Ascii("isomiso2")
  }

  /** `_write_minimal_mp4` without the file write: the ftyp box, then the mdat box with 4 zero bytes. */
  function MinimalMp4(): (r: Result<seq<Byte>>)
  {
    var ftyp := Box(FtypType, FtypPayload());
    var mdat := Box(MdatType, [0, 0, 0, 0]);
    if ftyp.Err? then ftyp
    else if mdat.Err? then mdat
    else Ok(ftyp.value + mdat.value)
  }

  /**
   * The file is 36 bytes: an ftyp box of size 24 with the fixed payload,
   * then an mdat box of size 12 holding 4 zero bytes, and nothing after it.
   */
  lemma MinimalMp4Layout()
    ensures MinimalMp4().Ok? && |MinimalMp4().value| == 36
    ensures var f := MinimalMp4().value;
      FromBigEndian(f[..4]) == 24 && FromBigEndian(f[24..28]) == 12
    ensures var p := ParseBox(MinimalMp4().value);
      p == Some(Parsed(FtypType, FtypPayload(), Box(MdatType, [0, 0, 0, 0]).value))
      && ParseBox(p.value.rest) == Some(Parsed(MdatType, [0, 0, 0, 0], []))
  {
    var ftyp := Box(FtypType, FtypPayload()).value;
    var mdat := Box(MdatType, [0, 0, 0, 0]).value;
    BoxSizeHeader(FtypType, FtypPayload());
    BoxSizeHeader(MdatType, [0, 0, 0, 0]);
    BoxRoundTrip(FtypType, FtypPayload(), mdat);
    BoxRoundTrip(MdatType, [0, 0, 0, 0], []);
    var f := ftyp + mdat;
    assert f[..4] == ftyp[..4];
    assert f[24..28] == mdat[..4];
    assert mdat + [] == mdat;
  }
}
