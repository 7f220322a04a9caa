// Model of the image footer tool (asdk-gen2/utils/image_magic/magic.c):
// the reflected CRC-32 of IEEE 802.3 (section 3.2.9), and the placement of
// the 8-byte footer (CRC, then a 4-byte magic) at the end of a firmware
// image.  The file itself becomes a byte sequence; opening, seeking and
// printing are left out.

module ImageMagic {
  import opened Common

  const MAGIC_SIZE: nat := 4
  const FOOTER_SIZE: nat := 8
  const MAX_FILE_SIZE: nat := 1024 * 256
  const CRC_POLYNOMIAL: bv32 := 0xEDB8_8320

  // ---------------------------------------------------------------------
  // CRC-32
  // ---------------------------------------------------------------------

  /** One shift of the reflected CRC register: (crc >> 1) ^ (POLY & -(crc & 1)). */
  function MaskStep(crc: bv32): bv32
  {
    (crc >> 1) ^ (CRC_POLYNOMIAL & -(crc & 1))
  }

  /** The textbook form of one step: shift right, and xor the polynomial when a one fell out. */
  function BitStep(crc: bv32): bv32
  {
    if crc & 1 == 1 then (crc >> 1) ^ CRC_POLYNOMIAL else crc >> 1
  }

  /** The branch-free step of the source is the textbook step. */
  lemma MaskStepIsBitStep(crc: bv32)
    ensures MaskStep(crc) == BitStep(crc)
  {
    var low := crc & 1;
    assert low == 0 || low == 1;
    if low == 1 {
      assert -low == 0xFFFF_FFFF;
      assert CRC_POLYNOMIAL & -low == CRC_POLYNOMIAL;
    } else {
      assert -low == 0;
      assert CRC_POLYNOMIAL & -low == 0;
    }
  }

  /** n steps of the register. */
  function Steps(crc: bv32, n: nat): bv32
    decreases n
  {
    if n == 0 then crc else Steps(BitStep(crc), n - 1)
  }

  /** Eight steps written out, one application of BitStep per step. */
  lemma Steps8(c: bv32)
    ensures Steps(c, 8) == BitStep(BitStep(BitStep(BitStep(BitStep(BitStep(BitStep(BitStep(c))))))))
  {
    var c1 := BitStep(c);
    var c2 := BitStep(c1);
    var c3 := BitStep(c2);
    var c4 := BitStep(c3);
    var c5 := BitStep(c4);
    var c6 := BitStep(c5);
    var c7 := BitStep(c6);
    assert Steps(c, 8) == Steps(c1, 7) == Steps(c2, 6) == Steps(c3, 5) == Steps(c4, 4);
    assert Steps(c4, 4) == Steps(c5, 3) == Steps(c6, 2) == Steps(c7, 1) == BitStep(c7);
  }

  /** The register after absorbing one byte: xor it in, then eight steps. */
  function AbsorbByte(crc: bv32, b: bv8): bv32
  {
    Steps(crc ^ (b as bv32), 8)
  }

  /** The register after absorbing the bytes of s in order. */
  function Register(crc: bv32, s: seq<bv8>): bv32
    decreases |s|
  {
    if |s| == 0 then crc else Register(AbsorbByte(crc, s[0]), s[1..])
  }

  /** CRC-32 of IEEE 802.3: register preset to all ones, result complemented. */
  function Crc32(s: seq<bv8>): bv32
  {
    !Register(0xFFFF_FFFF, s)
  }

  /** The CRC of nothing is 0. */
  lemma Crc32Empty()
    ensures Crc32([]) == 0
  {
  }

  /** Absorbing a longer input continues from the register of its prefix. */
  lemma {:induction false} RegisterAppend(crc: bv32, s: seq<bv8>, b: bv8)
    ensures Register(crc, s + [b]) == AbsorbByte(Register(crc, s), b)
    decreases |s|
  {
    if |s| > 0 {
      assert (s + [b])[1..] == s[1..] + [b];
      RegisterAppend(AbsorbByte(crc, s[0]), s[1..], b);
    }
  }

  /** Absorbing s then t is absorbing s + t: the CRC can be computed in pieces. */
  lemma {:induction false} RegisterConcat(crc: bv32, s: seq<bv8>, t: seq<bv8>)
    ensures Register(crc, s + t) == Register(Register(crc, s), t)
    decreases |s|
  {
    if |s| == 0 {
      assert s + t == t;
    } else {
      assert (s + t)[0] == s[0] && (s + t)[1..] == s[1..] + t;
      RegisterConcat(AbsorbByte(crc, s[0]), s[1..], t);
    }
  }

  /** The check value of CRC-32: the nine ASCII digits "123456789" give 0xCBF43926. */
  lemma Crc32CheckValue()
    ensures Crc32([0x31, 0x32, 0x33, 0x34, 0x35, 0x36, 0x37, 0x38, 0x39]) == 0xCBF4_3926
  {
    var s: seq<bv8> := [0x31, 0x32, 0x33, 0x34, 0x35, 0x36, 0x37, 0x38, 0x39];
    Steps8(0xFFFF_FFFF ^ 0x31);
    assert AbsorbByte(0xFFFF_FFFF, 0x31) == 0x7C23_1048;
    Steps8(0x7C23_1048 ^ 0x32);
    assert AbsorbByte(0x7C23_1048, 0x32) == 0xB0AC_BB32;
    Steps8(0xB0AC_BB32 ^ 0x33);
    assert AbsorbByte(0xB0AC_BB32, 0x33) == 0x77B7_9C2D;
    Steps8(0x77B7_9C2D ^ 0x34);
    assert AbsorbByte(0x77B7_9C2D, 0x34) == 0x641C_1F5C;
    Steps8(0x641C_1F5C ^ 0x35);
    assert AbsorbByte(0x641C_1F5C, 0x35) == 0x340A_C5E3;
    Steps8(0x340A_C5E3 ^ 0x36);
    assert AbsorbByte(0x340A_C5E3, 0x36) == 0xF68D_2C9E;
    Steps8(0xF68D_2C9E ^ 0x37);
    assert AbsorbByte(0xF68D_2C9E, 0x37) == 0xAFFC_9660;
    Steps8(0xAFFC_9660 ^ 0x38);
    assert AbsorbByte(0xAFFC_9660, 0x38) == 0x651F_2550;
    Steps8(0x651F_2550 ^ 0x39);
    assert AbsorbByte(0x651F_2550, 0x39) == 0x340B_C6D9;
    assert Register(0xFFFF_FFFF, s) == Register(0x340B_C6D9, []);
  }

  /** One pass of the outer loop of get_crc: xor the byte in, then eight shift/xor steps. */
  method Absorb(c: bv32, b: bv8) returns (crc: bv32)
    ensures crc == AbsorbByte(c, b)
  {
    crc := c ^ (b as bv32);
    ghost var start := crc;
    var i := 0;
    while i < 8
      invariant 0 <= i <= 8
      invariant Steps(start, 8) == Steps(crc, 8 - i)
    {
      MaskStepIsBitStep(crc);
      crc := MaskStep(crc);
      i := i + 1;
    }
  }

  /**
   * get_crc: for each of the len bytes, xor it into the register and run
   * exactly eight shift/xor steps; the register starts at ~0 and is
   * complemented at the end.
   */
  method GetCrc(data: array<bv8>, len: nat) returns (crc: bv32)
    requires len <= data.Length
    ensures crc == Crc32(data[..len])
  {
    crc := 0;
    var j := 0;
    crc := !crc;
    var k := 0;
    while k < len
      invariant 0 <= k <= len && j == k
      invariant crc == Register(0xFFFF_FFFF, data[..k])
    {
      RegisterAppend(0xFFFF_FFFF, data[..k], data[j]);
      assert data[..k + 1] == data[..k] + [data[j]];
      crc := Absorb(crc, data[j]);
      j := j + 1;
      k := k + 1;
    }
    crc := !crc;
  }

  // ---------------------------------------------------------------------
  // Footer placement (main)
  // ---------------------------------------------------------------------

  /** The bytes of a uint32_t as the (little-endian) host lays out footer_t.crc. */
  function Le32(x: bv32): (r: seq<bv8>)
    ensures |r| == 4
  {
    [(x & 0xFF) as bv8, ((x >> 8) & 0xFF) as bv8, ((x >> 16) & 0xFF) as bv8, ((x >> 24) & 0xFF) as bv8]
  }

  function FromLe32(s: seq<bv8>): bv32
    requires |s| == 4
  {
    (s[0] as bv32) | ((s[1] as bv32) << 8) | ((s[2] as bv32) << 16) | ((s[3] as bv32) << 24)
  }

  lemma Le32RoundTrip(x: bv32)
    ensures FromLe32(Le32(x)) == x
  {
  }

  /** A C string: no byte of it is the terminating NUL. */
  predicate CString(s: seq<bv8>)
  {
    forall i | 0 <= i < |s| :: s[i] != 0
  }

  /** strncpy(dst, magic, MAGIC_SIZE): the first four bytes of magic, padded with NULs. */
  function MagicField(magic: seq<bv8>): (r: seq<bv8>)
    ensures |r| == MAGIC_SIZE
  {
    seq(MAGIC_SIZE, i requires 0 <= i < MAGIC_SIZE => if i < |magic| then magic[i] else 0)
  }

  /** The byte of a C string at i, or NUL at and past its end. */
  function CharAt(s: seq<bv8>, i: nat): bv8
  {
    if i < |s| then s[i] else 0
  }

  /** strncmp(field, magic, n) == 0, field a plain 4-byte array and magic a C string. */
  function StrnEqual(field: seq<bv8>, magic: seq<bv8>, from: nat, n: nat): bool
    requires from <= n <= |field|
    decreases n - from
  {
    from == n ||
    (field[from] == CharAt(magic, from) && (field[from] == 0 || StrnEqual(field, magic, from + 1, n)))
  }

  /** The footer is the 4-byte CRC followed by the 4-byte magic field. */
  function Footer(crc: bv32, magic: seq<bv8>): (r: seq<bv8>)
    ensures |r| == FOOTER_SIZE
    ensures FromLe32(r[..4]) == crc && r[4..] == MagicField(magic)
  {
    Le32RoundTrip(crc);
    assert (Le32(crc) + MagicField(magic))[..4] == Le32(crc);
    Le32(crc) + MagicField(magic)
  }

  /**
   * Whether the image already ends in a footer with this magic, as the
   * evidently intended 8-byte footer read sees it.  An image shorter than
   * a footer has none.
   */
  function HasMagic(file: seq<bv8>, magic: seq<bv8>): bool
  {
    |file| >= FOOTER_SIZE && StrnEqual(file[|file| - MAGIC_SIZE..], magic, 0, MAGIC_SIZE)
  }

  /** The offset of footer_t.magic inside a footer. */
  const MAGIC_OFFSET: nat := 4

  /** main reads the footer into uint8_t foot_buff[MAGIC_SIZE]. */
  const FOOT_BUFF_SIZE_AS_WRITTEN: nat := MAGIC_SIZE

  /**
   * Whether reading a whole footer into a buffer of bufSize bytes, and
   * then looking at its magic field, stays inside the buffer.
   */
  function FooterReadFits(bufSize: nat): (r: bool)
    ensures r <==> FOOTER_SIZE <= bufSize && MAGIC_OFFSET + MAGIC_SIZE <= bufSize
  {
    FOOTER_SIZE <= bufSize && MAGIC_OFFSET + MAGIC_SIZE <= bufSize
  }

  /**
   * As written, the 8-byte fread lands in a 4-byte buffer and the magic
   * compared is the 4 bytes after it; a footer-sized buffer holds both.
   */
  lemma FooterReadOverflows()
    ensures !FooterReadFits(FOOT_BUFF_SIZE_AS_WRITTEN)
    ensures FOOTER_SIZE - FOOT_BUFF_SIZE_AS_WRITTEN == MAGIC_SIZE
    ensures FooterReadFits(FOOTER_SIZE)
  {
  }

  /**
   * What main leaves in the file: None when it exits before writing, which
   * an empty file causes (its fread of zero bytes reads no item), and
   * otherwise the stamped file.
   */
  function Stamp(file: seq<bv8>, magic: seq<bv8>): (r: Option<seq<bv8>>)
    requires |file| <= MAX_FILE_SIZE
    ensures r.None? <==> |file| == 0
  {
    if |file| == 0 then None
    else if HasMagic(file, magic) then
      var body := file[..|file| - FOOTER_SIZE];
      Some(body + Footer(Crc32(body), magic))
    else
      Some(file + Footer(Crc32(file), magic))
  }

  /** Without the magic, a non-empty image keeps its bytes and the footer over all of it is appended. */
  lemma StampAppends(file: seq<bv8>, magic: seq<bv8>)
    requires 0 < |file| <= MAX_FILE_SIZE && !HasMagic(file, magic)
    ensures Stamp(file, magic).Some?
    ensures var r := Stamp(file, magic).value;
      |r| == |file| + FOOTER_SIZE && r[..|file|] == file &&
      FromLe32(r[|file|..|file| + 4]) == Crc32(file) && r[|file| + 4..] == MagicField(magic)
  {
    var r := Stamp(file, magic).value;
    assert r[|file|..] == Footer(Crc32(file), magic);
    assert r[|file|..][..4] == r[|file|..|file| + 4];
  }

  /** With the magic, the footer is rewritten in place over an image that excludes it. */
  lemma StampReplaces(file: seq<bv8>, magic: seq<bv8>)
    requires |file| <= MAX_FILE_SIZE && HasMagic(file, magic)
    ensures Stamp(file, magic).Some?
    ensures var n := |file| - FOOTER_SIZE; var r := Stamp(file, magic).value;
      |r| == |file| && r[..n] == file[..n] &&
      FromLe32(r[n..n + 4]) == Crc32(file[..n]) && r[n + 4..] == MagicField(magic)
  {
    var n := |file| - FOOTER_SIZE;
    var r := Stamp(file, magic).value;
    assert r[n..] == Footer(Crc32(file[..n]), magic);
    assert r[n..][..4] == r[n..n + 4];
  }

  /** The field strncpy writes compares equal to the magic under strncmp. */
  lemma {:induction false} MagicFieldMatches(magic: seq<bv8>, from: nat)
    requires CString(magic) && from <= MAGIC_SIZE
    ensures StrnEqual(MagicField(magic), magic, from, MAGIC_SIZE)
    decreases MAGIC_SIZE - from
  {
    if from < MAGIC_SIZE && from < |magic| {
      MagicFieldMatches(magic, from + 1);
    }
  }

  /** The file after main has run: unchanged when it exits early, stamped otherwise. */
  function FileAfter(file: seq<bv8>, magic: seq<bv8>): (r: seq<bv8>)
    requires |file| <= MAX_FILE_SIZE
    ensures |file| == 0 ==> r == file
    ensures |file| > 0 ==> |r| == if HasMagic(file, magic) then |file| else |file| + FOOTER_SIZE
  {
    match Stamp(file, magic)
    case None => file
    case Some(stamped) => stamped
  }

  /** A stamped image ends in a footer carrying the magic. */
  lemma StampHasMagic(file: seq<bv8>, magic: seq<bv8>)
    requires 0 < |file| <= MAX_FILE_SIZE && CString(magic)
    ensures Stamp(file, magic).Some? && HasMagic(Stamp(file, magic).value, magic)
    ensures |Stamp(file, magic).value| >= FOOTER_SIZE
    ensures Stamp(file, magic).value[..|Stamp(file, magic).value| - FOOTER_SIZE]
            == if HasMagic(file, magic) then file[..|file| - FOOTER_SIZE] else file
  {
    var r := Stamp(file, magic).value;
    var body := if HasMagic(file, magic) then file[..|file| - FOOTER_SIZE] else file;
    var footer := Footer(Crc32(body), magic);
    assert r == body + footer;
    assert r[..|r| - FOOTER_SIZE] == body;
    assert r[|r| - MAGIC_SIZE..] == footer[4..];
    MagicFieldMatches(magic, 0);
  }

  /**
   * Running the tool twice with the same magic leaves the same file as
   * running it once: an empty file is left empty by both runs, and the
   * second run over a stamped image finds its own footer.
   */
  lemma StampIdempotent(file: seq<bv8>, magic: seq<bv8>)
    requires |file| + FOOTER_SIZE <= MAX_FILE_SIZE && CString(magic)
    ensures FileAfter(FileAfter(file, magic), magic) == FileAfter(file, magic)
  {
    if |file| > 0 {
      StampHasMagic(file, magic);
      var r := Stamp(file, magic).value;
      assert FileAfter(file, magic) == r;
      var body := if HasMagic(file, magic) then file[..|file| - FOOTER_SIZE] else file;
      assert r == body + Footer(Crc32(body), magic);
      assert Stamp(r, magic) == Some(body + Footer(Crc32(body), magic));
    }
  }
}
