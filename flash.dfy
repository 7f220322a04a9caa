// The FLASH driver of the CYT2B75 platform
// (asdk-gen2/platform/cyt2b75/dal/src/asdk_flash.c).
//
// The chip has code flash (a large-sector and a small-sector region, one
// after the other) and work flash (likewise). The driver classifies
// addresses into those four regions, writes a buffer by programming one row
// at a time (4 bytes in work flash, 512, 32 or 8 bytes in code flash, the
// last row padded with 0xFF), and reads by copying, or by filling with 0xFF
// when the work-flash blank check reports erased cells. The flash cells are
// modelled as a total map from address to byte; the outcomes of the vendor
// program, erase and blank-check calls are inputs of the model.

module Flash {
  import opened Common
  import opened AsdkError

  const CODE_LARGE_START_ADDR: nat := 0x1000_0000
  const CODE_LARGE_END_ADDR: nat := 0x100E_FFFF
  const CODE_SMALL_START_ADDR: nat := 0x100F_0000
  const CODE_SMALL_END_ADDR: nat := 0x1010_FFFF
  const WORKFLASH_LARGE_START_ADDRESS: nat := 0x1400_0000
  const WORKFLASH_LARGE_END_ADDRESS: nat := 0x1401_1FFF
  const WORKFLASH_SMALL_START_ADDRESS: nat := 0x1401_2000
  const WORKFLASH_SMALL_END_ADDRESS: nat := 0x1401_7FFF

  const CODE_LARGE_SECTOR_SIZE: nat := 0x8000  // 32 KB
  const CODE_SMALL_SECTOR_SIZE: nat := 0x2000  // 8 KB
  const WORK_LARGE_SECTOR_SIZE: nat := 0x800   // 2 KB
  const WORK_SMALL_SECTOR_SIZE: nat := 0x80    // 128 B

  const ASDK_FLASH_INIT_FLASHTYPE_BOTH_CODE_FLASH_DATA_FLASH: nat := 0
  const ASDK_FLASH_INIT_FLASHTYPE_CODE_FLASH: nat := 1
  const ASDK_FLASH_INIT_FLASHTYPE_DATA_FLASH: nat := 2
  const ASDK_FLASH_OPERATION_NON_BLOCKING_MODE: nat := 0

  const ERASED_BYTE: byte := 0xFF

  /** The contents of the flash cells, by address. */
  type Memory = nat -> byte

  // ---------------------------------------------------------------------
  // asdk_flash_get_sector_size and asdk_flash_erase_sector_blocking
  // ---------------------------------------------------------------------

  predicate InCodeFlash(address: nat) { CODE_LARGE_START_ADDR <= address <= CODE_SMALL_END_ADDR }
  predicate InWorkFlash(address: nat) { WORKFLASH_LARGE_START_ADDRESS <= address <= WORKFLASH_SMALL_END_ADDRESS }

  /**
   * asdk_flash_get_sector_size: the size of the sector holding the address,
   * or None where the driver answers INVALID_FLASH_ADDRESS.
   */
  function GetSectorSize(address: nat): (r: Option<nat>)
    ensures r.Some? <==> InCodeFlash(address) || InWorkFlash(address)
    ensures InCodeFlash(address) ==> r.Some? && r.value >= CODE_SMALL_SECTOR_SIZE
    ensures InWorkFlash(address) ==> r.Some? && r.value <= WORK_LARGE_SECTOR_SIZE
  {
    if CODE_LARGE_START_ADDR <= address <= CODE_LARGE_END_ADDR then Some(CODE_LARGE_SECTOR_SIZE)
    else if CODE_SMALL_START_ADDR <= address <= CODE_SMALL_END_ADDR then Some(CODE_SMALL_SECTOR_SIZE)
    else if WORKFLASH_LARGE_START_ADDRESS <= address <= WORKFLASH_LARGE_END_ADDRESS then Some(WORK_LARGE_SECTOR_SIZE)
    else if WORKFLASH_SMALL_START_ADDRESS <= address <= WORKFLASH_SMALL_END_ADDRESS then Some(WORK_SMALL_SECTOR_SIZE)
    else None
  }

  /** The status code asdk_flash_get_sector_size returns. */
  function GetSectorSizeStatus(address: nat): (r: ErrorCode)
    ensures r == ASDK_FLASH_STATUS_SUCCESS <==> InCodeFlash(address) || InWorkFlash(address)
    ensures r == ASDK_FLASH_STATUS_SUCCESS || r == ASDK_FLASH_ERROR_INVALID_FLASH_ADDRESS
  {
    if GetSectorSize(address).Some? then ASDK_FLASH_STATUS_SUCCESS else ASDK_FLASH_ERROR_INVALID_FLASH_ADDRESS
  }

  /** The first address of the region an address of code or work flash lies in. */
  function RegionStart(address: nat): nat
  {
    if address <= CODE_LARGE_END_ADDR then CODE_LARGE_START_ADDR
    else if address <= CODE_SMALL_END_ADDR then CODE_SMALL_START_ADDR
    else if address <= WORKFLASH_LARGE_END_ADDRESS then WORKFLASH_LARGE_START_ADDRESS
    else WORKFLASH_SMALL_START_ADDRESS
  }

  /** The first address of the sector holding an address, counting sectors from the region start. */
  function SectorBase(address: nat): nat
    requires GetSectorSize(address).Some?
  {
    var start := RegionStart(address);
    var size := GetSectorSize(address).value;
    start + (address - start) / size * size
  }

  /**
   * The sizes get_sector_size reports tile each region exactly: the sector
   * holding an address lies wholly in the same region, so its first and its
   * last byte report the same sector size.
   */
  lemma SectorsTileRegions(address: nat)
    requires GetSectorSize(address).Some?
    ensures var size := GetSectorSize(address).value;
            var base := SectorBase(address);
            && base <= address < base + size
            && GetSectorSize(base) == Some(size)
            && GetSectorSize(base + size - 1) == Some(size)
  {
    var start := RegionStart(address);
    var size := GetSectorSize(address).value;
    // Each region holds a whole number of its sectors: 30, 16, 36 and 192.
    if start == CODE_LARGE_START_ADDR {
      SectorInRegion(address, start, CODE_LARGE_END_ADDR, size, 30);
    } else if start == CODE_SMALL_START_ADDR {
      SectorInRegion(address, start, CODE_SMALL_END_ADDR, size, 16);
    } else if start == WORKFLASH_LARGE_START_ADDRESS {
      SectorInRegion(address, start, WORKFLASH_LARGE_END_ADDRESS, size, 36);
    } else {
      SectorInRegion(address, start, WORKFLASH_SMALL_END_ADDRESS, size, 192);
    }
  }

  /** In a region of `count` sectors of `size` bytes, the sector of an address lies inside the region. */
  lemma SectorInRegion(address: nat, start: nat, last: nat, size: nat, count: nat)
    requires size > 0 && start <= address <= last && start + count * size == last + 1
    ensures var base := start + (address - start) / size * size;
            start <= base <= address < base + size <= last + 1
  {
    var q := (address - start) / size;
    DivUnique(address - start, size, q, (address - start) % size);
    if q >= count {
      MulMono(count, q, size, size);
    }
    MulMono(q + 1, count, size, size);
  }

  /**
   * asdk_flash_erase_sector_blocking: an address outside the four regions is
   * refused; otherwise the status of the vendor erase is reported.
   */
  function EraseSectorStatus(baseAddress: nat, eraseOk: bool): (r: ErrorCode)
    ensures r == ASDK_FLASH_ERROR_INVALID_FLASH_ADDRESS <==> GetSectorSize(baseAddress).None?
    ensures r == ASDK_FLASH_STATUS_SUCCESS <==> GetSectorSize(baseAddress).Some? && eraseOk
    ensures r == ASDK_FLASH_STATUS_ERROR <==> GetSectorSize(baseAddress).Some? && !eraseOk
  {
    if GetSectorSize(baseAddress).None? then ASDK_FLASH_ERROR_INVALID_FLASH_ADDRESS
    else if eraseOk then ASDK_FLASH_STATUS_SUCCESS
    else ASDK_FLASH_STATUS_ERROR
  }

  /** asdk_flash_erase_all_sectors_blocking: the status of the vendor erase, passed on. */
  function EraseAllStatus(eraseOk: bool): (r: ErrorCode)
    ensures r == ASDK_FLASH_STATUS_SUCCESS <==> eraseOk
    ensures r == ASDK_FLASH_STATUS_ERROR <==> !eraseOk
  {
    if eraseOk then ASDK_FLASH_STATUS_SUCCESS else ASDK_FLASH_STATUS_ERROR
  }

  // ---------------------------------------------------------------------
  // The address check of asdk_flash_write_blocking
  // ---------------------------------------------------------------------

  /** The bytes [address, address + size) all lie in the region [start, last]. */
  predicate SpanFits(address: nat, size: nat, start: nat, last: nat)
  {
    start <= address && address + size <= last + 1
  }

  /**
   * The check as coded: the end address address + size, computed in
   * uint32_t, is compared with the region's last address.
   */
  predicate SpanFitsAsWritten(address: nat, size: nat, start: nat, last: nat)
    requires IsU32(address) && IsU32(size)
  {
    start <= address && last >= (address + size) % U32_LIMIT
  }

  /** An address of the region [start, last]. */
  predicate InRange(a: nat, start: nat, last: nat) { start <= a <= last }

  /** A non-empty span fits exactly when each of its bytes lies in the region. */
  lemma SpanFitsMeansEveryByte(address: nat, size: nat, start: nat, last: nat)
    requires size > 0
    ensures SpanFits(address, size, start, last)
            <==> forall a :: address <= a < address + size ==> InRange(a, start, last)
  {
    if forall a :: address <= a < address + size ==> InRange(a, start, last) {
      assert InRange(address, start, last);
      assert InRange(address + size - 1, start, last);
    }
  }

  /**
   * Without wrap-around, the coded check accepts a span exactly when one byte
   * more than the span would fit: it refuses every write that ends on the
   * region's last byte.
   */
  lemma SpanFitsAsWrittenNeedsOneMore(address: nat, size: nat, start: nat, last: nat)
    requires IsU32(address) && IsU32(size) && address + size < U32_LIMIT
    ensures SpanFitsAsWritten(address, size, start, last) <==> SpanFits(address, size + 1, start, last)
  {
  }

  /** A write of the last word of work flash is refused by the coded check. */
  lemma LastWorkFlashWordRefused()
    ensures SpanFits(0x1401_7FFC, 4, WORKFLASH_LARGE_START_ADDRESS, WORKFLASH_SMALL_END_ADDRESS)
    ensures !SpanFitsAsWritten(0x1401_7FFC, 4, WORKFLASH_LARGE_START_ADDRESS, WORKFLASH_SMALL_END_ADDRESS)
  {
  }

  /** A size that makes the uint32_t end address wrap passes the coded check. */
  lemma WrappingSpanAccepted()
    ensures SpanFitsAsWritten(0x1000_0000, 0xF000_0000, CODE_LARGE_START_ADDR, CODE_SMALL_END_ADDR)
    ensures !SpanFits(0x1000_0000, 0xF000_0000, CODE_LARGE_START_ADDR, CODE_SMALL_END_ADDR)
  {
  }

  /** The corrected check for code flash: the large and small regions are contiguous. */
  predicate InCodeSpan(address: nat, size: nat)
  {
    SpanFits(address, size, CODE_LARGE_START_ADDR, CODE_SMALL_END_ADDR)
  }

  /** The corrected check for work flash. */
  predicate InWorkSpan(address: nat, size: nat)
  {
    SpanFits(address, size, WORKFLASH_LARGE_START_ADDRESS, WORKFLASH_SMALL_END_ADDRESS)
  }

  /** Every byte of an accepted non-empty span has a sector size. */
  lemma AcceptedSpanHasSectors(address: nat, size: nat, i: nat)
    requires InCodeSpan(address, size) || InWorkSpan(address, size)
    requires i < size
    ensures GetSectorSize(address + i).Some?
  {
  }

  // ---------------------------------------------------------------------
  // Row sizing in asdk_flash_write_blocking
  // ---------------------------------------------------------------------

  /** One pass of the write loop: the source bytes it consumes and the size of the row it programs. */
  datatype Chunk = Chunk(data: nat, row: nat)

  /** The size of the padded last row: a 32-bit word in work flash, a 64-bit word in code flash. */
  function Granule(work: bool): (g: nat)
    ensures g == 4 || g == 8
  {
    if work then 4 else 8
  }

  /**
   * The chunk for `total` remaining bytes: a 4-byte row in work flash; the
   * largest of the 512-, 32- and 8-byte rows that fits in code flash. A
   * shorter remainder is programmed as one granule padded with 0xFF.
   */
  function NextChunk(total: nat, work: bool): (c: Chunk)
    requires total > 0
    ensures 0 < c.data <= c.row && c.data <= total
    ensures c.data == c.row || (c.data == total && c.row == Granule(work))
  {
    if work then
      if total >= 4 then Chunk(4, 4) else Chunk(total, 4)
    else if total >= 512 then Chunk(512, 512)
    else if total >= 32 then Chunk(32, 32)
    else if total >= 8 then Chunk(8, 8)
    else Chunk(total, 8)
  }

  /**
   * The rows of the two flashes: always one word in work flash; in code
   * flash a 512-, 32- or 8-byte row, never a smaller one while a larger
   * one fits, and never one larger than the remainder unless it is the
   * padded last word.
   */
  lemma RowSizes(total: nat, work: bool)
    requires total > 0
    ensures var c := NextChunk(total, work);
            && (work ==> c.row == 4)
            && (!work ==> c.row == 512 || c.row == 32 || c.row == 8)
            && (!work ==> (c.row <= total || c.row == 8) && (c.row == 8 ==> total < 32) && (c.row == 32 ==> total < 512))
            && c.row % Granule(work) == 0
  {
  }

  /** How many rows the loop programs for `total` bytes. */
  function NumRows(total: nat, work: bool): nat
    decreases total
  {
    if total == 0 then 0 else 1 + NumRows(total - NextChunk(total, work).data, work)
  }

  /** The bytes left to write after the first k rows. */
  function Remaining(total: nat, work: bool, k: nat): nat
    decreases k
  {
    if k == 0 || total == 0 then total
    else Remaining(total - NextChunk(total, work).data, work, k - 1)
  }

  /** How many bytes the first k rows program, padding included. */
  function Programmed(total: nat, work: bool, k: nat): nat
    decreases k
  {
    if k == 0 || total == 0 then 0
    else NextChunk(total, work).row + Programmed(total - NextChunk(total, work).data, work, k - 1)
  }

  /** The bytes left after row k + 1 are those left after row k less row k + 1's data. */
  lemma {:induction false} RemainingStep(total: nat, work: bool, k: nat)
    requires Remaining(total, work, k) > 0
    ensures Remaining(total, work, k + 1) == Remaining(total, work, k) - NextChunk(Remaining(total, work, k), work).data
  {
    var c := NextChunk(total, work);
    if k == 0 {
      assert Remaining(total, work, 0) == total;
      assert Remaining(total, work, 1) == Remaining(total - c.data, work, 0);
    } else {
      assert Remaining(total, work, k) == Remaining(total - c.data, work, k - 1);
      RemainingStep(total - c.data, work, k - 1);
      assert Remaining(total, work, k + 1) == Remaining(total - c.data, work, k);
    }
  }

  /** The bytes programmed by row k + 1 are its padded row. */
  lemma {:induction false} ProgrammedStep(total: nat, work: bool, k: nat)
    requires Remaining(total, work, k) > 0
    ensures Programmed(total, work, k + 1) == Programmed(total, work, k) + NextChunk(Remaining(total, work, k), work).row
  {
    var c := NextChunk(total, work);
    if k == 0 {
      assert Remaining(total, work, 0) == total;
      assert Programmed(total, work, 0) == 0;
      assert Programmed(total, work, 1) == c.row + Programmed(total - c.data, work, 0);
    } else {
      assert Remaining(total, work, k) == Remaining(total - c.data, work, k - 1);
      ProgrammedStep(total - c.data, work, k - 1);
      assert Programmed(total, work, k) == c.row + Programmed(total - c.data, work, k - 1);
      assert Programmed(total, work, k + 1) == c.row + Programmed(total - c.data, work, k);
    }
  }

  /** Row k + 1 is the chunk of what the first k rows left. */
  lemma RowStep(total: nat, work: bool, k: nat)
    requires Remaining(total, work, k) > 0
    ensures var c := NextChunk(Remaining(total, work, k), work);
            && Remaining(total, work, k + 1) == Remaining(total, work, k) - c.data
            && Programmed(total, work, k + 1) == Programmed(total, work, k) + c.row
  {
    RemainingStep(total, work, k);
    ProgrammedStep(total, work, k);
  }

  /** The row buffer of one pass: the chunk's source bytes from offset on, then 0xFF up to the row size. */
  function RowBuffer(src: seq<byte>, offset: nat, c: Chunk): (r: seq<byte>)
    requires offset + c.data <= |src| && c.data <= c.row
    ensures |r| == c.row
    ensures r[..c.data] == src[offset..offset + c.data]
    ensures forall i :: c.data <= i < c.row ==> r[i] == ERASED_BYTE
  {
    src[offset..offset + c.data] + seq(c.row - c.data, _ => ERASED_BYTE)
  }

  /** The programmed image of a buffer: its bytes, padded with 0xFF to a whole number of granules. */
  function Padded(src: seq<byte>, g: nat): (r: seq<byte>)
    requires g > 0
    ensures |r| == |src| + PadLength(|src|, g)
    ensures r[..|src|] == src
    ensures forall i :: |src| <= i < |r| ==> r[i] == ERASED_BYTE
  {
    src + seq(PadLength(|src|, g), _ => ERASED_BYTE)
  }

  /** The padding that completes n bytes to a whole number of g-byte granules. */
  function PadLength(n: nat, g: nat): (p: nat)
    requires g > 0
    ensures p < g && (n + p) % g == 0
  {
    if n % g == 0 then
      DivUnique(n, g, n / g, 0);
      0
    else
      RoundUp(n, g);
      g - n % g
  }

  /** Adding what the last granule misses completes it. */
  lemma RoundUp(n: nat, g: nat)
    requires g > 0 && n % g != 0
    ensures (n + (g - n % g)) % g == 0
  {
    var q := n / g;
    assert n == q * g + n % g;
    assert q * g + g == (q + 1) * g;
    DivUnique(n + (g - n % g), g, q + 1, 0);
  }

  /** All rows together program the whole padded image. */
  lemma {:induction false} ProgrammedAll(total: nat, work: bool)
    ensures Programmed(total, work, NumRows(total, work))
            == total + PadLength(total, Granule(work))
    decreases total
  {
    if total > 0 {
      var c := NextChunk(total, work);
      var g := Granule(work);
      var rest := total - c.data;
      ProgrammedAll(rest, work);
      ProgrammedFirstRow(total, work);
      if c.data < c.row {
        assert rest == 0;
        PartialRowPad(total, 0, g, c.data);
      } else {
        RowSizes(total, work);
        PadAfterFullRow(total, c.row, g);
      }
    }
  }

  /** Programming all rows is the first row and then all rows of what it left. */
  lemma ProgrammedFirstRow(total: nat, work: bool)
    requires total > 0
    ensures var c := NextChunk(total, work);
            Programmed(total, work, NumRows(total, work))
            == c.row + Programmed(total - c.data, work, NumRows(total - c.data, work))
  {
    var c := NextChunk(total, work);
    assert NumRows(total, work) == 1 + NumRows(total - c.data, work);
  }

  /** A whole row of granules taken off leaves the same padding to complete. */
  lemma PadAfterFullRow(total: nat, row: nat, g: nat)
    requires g > 0 && row % g == 0 && row <= total
    ensures PadLength(total, g) == PadLength(total - row, g)
  {
    ResidueAfterRow(total - row, row, g);
  }

  /** Adding a whole number of granules keeps the remainder. */
  lemma ResidueAfterRow(x: nat, row: nat, g: nat)
    requires g > 0 && row % g == 0
    ensures (x + row) % g == x % g
  {
    assert x == x / g * g + x % g;
    assert row == row / g * g;
    assert x / g * g + row / g * g == (x / g + row / g) * g;
    DivUnique(x + row, g, x / g + row / g, x % g);
  }

  // ---------------------------------------------------------------------
  // Flash contents
  // ---------------------------------------------------------------------

  /** `after` holds `bytes` from `address` on and agrees with `before` everywhere else. */
  ghost predicate Overlaid(after: Memory, before: Memory, address: nat, bytes: seq<byte>)
  {
    forall a: nat {:trigger after(a)} ::
      after(a) == if address <= a < address + |bytes| then bytes[a - address] else before(a)
  }

  /** The size bytes at address, as memcpy copies them. */
  function ReadCells(cells: Memory, address: nat, size: nat): (r: seq<byte>)
    ensures |r| == size
    ensures forall i :: 0 <= i < size ==> r[i] == cells(address + i)
  {
    seq(size, i requires 0 <= i < size => cells(address + i))
  }

  /** Two consecutive overlays amount to one overlay of the joined bytes. */
  lemma OverlaidJoin(m0: Memory, m1: Memory, m2: Memory, address: nat, x: seq<byte>, y: seq<byte>)
    requires Overlaid(m1, m0, address, x)
    requires Overlaid(m2, m1, address + |x|, y)
    ensures Overlaid(m2, m0, address, x + y)
  {
    forall a: nat
      ensures m2(a) == if address <= a < address + |x + y| then (x + y)[a - address] else m0(a)
    {
      assert m2(a) == if address + |x| <= a < address + |x| + |y| then y[a - address - |x|] else m1(a);
      assert m1(a) == if address <= a < address + |x| then x[a - address] else m0(a);
    }
  }

  /** Whatever was written over the span reads back. */
  lemma ReadBackOverlay(after: Memory, before: Memory, address: nat, bytes: seq<byte>, size: nat)
    requires Overlaid(after, before, address, bytes)
    requires size <= |bytes|
    ensures ReadCells(after, address, size) == bytes[..size]
  {
    var r := ReadCells(after, address, size);
    forall i | 0 <= i < size
      ensures r[i] == bytes[i]
    {
      assert after(address + i) == bytes[i];
    }
  }

  // ---------------------------------------------------------------------
  // asdk_flash_write_blocking
  // ---------------------------------------------------------------------

  /** asdk_flash_operation_config_t for a write: the destination address and the bytes at source_addr. */
  datatype WriteRequest = WriteRequest(destination: nat, source: seq<byte>)

  /** Whether a request goes to work flash (otherwise code flash). */
  predicate TargetsWorkFlash(req: WriteRequest)
  {
    InWorkSpan(req.destination, |req.source|)
  }

  /** The image a successful write leaves in flash: the source padded to the target's granule. */
  function WriteImage(req: WriteRequest): seq<byte>
  {
    Padded(req.source, Granule(TargetsWorkFlash(req)))
  }

  /** All rows of a request together program exactly its image. */
  lemma WriteImageLength(req: WriteRequest)
    ensures |WriteImage(req)| == Programmed(|req.source|, TargetsWorkFlash(req), NumRows(|req.source|, TargetsWorkFlash(req)))
  {
    ProgrammedAll(|req.source|, TargetsWorkFlash(req));
  }

  /**
   * The rows actually programmed when the vendor call fails on row
   * failingRow (counting from 0), or never fails when failingRow is None.
   */
  function RowsWritten(req: WriteRequest, failingRow: Option<nat>): nat
  {
    var rows := NumRows(|req.source|, TargetsWorkFlash(req));
    if failingRow.Some? && failingRow.value < rows then failingRow.value else rows
  }

  /** The status asdk_flash_write_blocking returns for a non-NULL configuration. */
  function WriteStatus(req: WriteRequest, failingRow: Option<nat>): ErrorCode
  {
    var size := |req.source|;
    if size == 0 then ASDK_FLASH_STATUS_SUCCESS
    else if !InCodeSpan(req.destination, size) && !InWorkSpan(req.destination, size) then ASDK_FLASH_ERROR_INVALID_FLASH_ADDRESS
    else if failingRow.Some? && failingRow.value < NumRows(size, TargetsWorkFlash(req)) then ASDK_FLASH_STATUS_ERROR
    else ASDK_FLASH_STATUS_SUCCESS
  }

  /**
   * An empty write always succeeds; a non-empty one is refused exactly when
   * its span fits neither flash; it fails exactly when the vendor call fails
   * on one of its rows.
   */
  lemma WriteStatusCases(req: WriteRequest, failingRow: Option<nat>)
    ensures var r := WriteStatus(req, failingRow);
            var size := |req.source|;
            && (size == 0 ==> r == ASDK_FLASH_STATUS_SUCCESS)
            && (r == ASDK_FLASH_ERROR_INVALID_FLASH_ADDRESS <==>
                  size > 0 && !InCodeSpan(req.destination, size) && !InWorkSpan(req.destination, size))
            && (r == ASDK_FLASH_STATUS_ERROR <==>
                  (InCodeSpan(req.destination, size) || InWorkSpan(req.destination, size))
                  && failingRow.Some? && failingRow.value < NumRows(size, TargetsWorkFlash(req)))
            && (r == ASDK_FLASH_STATUS_SUCCESS ==> RowsWritten(req, failingRow) == NumRows(size, TargetsWorkFlash(req)))
  {
  }

  /** The part of the image the programmed rows cover. */
  function WrittenImage(req: WriteRequest, failingRow: Option<nat>): seq<byte>
  {
    var work := TargetsWorkFlash(req);
    ProgrammedBound(|req.source|, work, RowsWritten(req, failingRow));
    WriteImageLength(req);
    WriteImage(req)[..Programmed(|req.source|, work, RowsWritten(req, failingRow))]
  }

  /** The first k rows never program more than all rows. */
  lemma {:induction false} ProgrammedBound(total: nat, work: bool, k: nat)
    requires k <= NumRows(total, work)
    ensures Programmed(total, work, k) <= Programmed(total, work, NumRows(total, work))
    decreases k
  {
    if k > 0 && total > 0 {
      ProgrammedBound(total - NextChunk(total, work).data, work, k - 1);
    }
  }

  /** A write that reports success has programmed the whole padded image. */
  lemma WriteSuccessStoresImage(req: WriteRequest, failingRow: Option<nat>)
    requires WriteStatus(req, failingRow) == ASDK_FLASH_STATUS_SUCCESS
    ensures WrittenImage(req, failingRow) == WriteImage(req)
  {
    WriteImageLength(req);
  }

  /** A failing vendor call stops the write short of its last row. */
  lemma WriteFailureIsPartial(req: WriteRequest, failingRow: Option<nat>)
    requires WriteStatus(req, failingRow) == ASDK_FLASH_STATUS_ERROR
    ensures |WrittenImage(req, failingRow)| < |WriteImage(req)|
  {
    var work := TargetsWorkFlash(req);
    var k := RowsWritten(req, failingRow);
    ProgrammedShort(|req.source|, work, k);
    WriteImageLength(req);
  }

  /** Fewer rows than all program strictly less than the whole image. */
  lemma {:induction false} ProgrammedShort(total: nat, work: bool, k: nat)
    requires k < NumRows(total, work)
    ensures Programmed(total, work, k) < Programmed(total, work, NumRows(total, work))
    decreases k
  {
    if k > 0 {
      ProgrammedShort(total - NextChunk(total, work).data, work, k - 1);
    }
  }

  // ---------------------------------------------------------------------
  // asdk_flash_read_blocking
  // ---------------------------------------------------------------------

  /** __workflash_blanck_check_e: the answer of the work-flash blank check. */
  datatype BlankCheck = InErasedState | ReadyToRead | ErrUnknown | ErrAddrOutOfRange

  /** The vendor blank-check status, reduced to the cases the driver tells apart. */
  datatype BlankCheckDriverStatus = DrvSuccess | DrvFlashNotErased | DrvOther

  /**
   * __asdk_workflash_blank_check: out of bounds, or the vendor status mapped;
   * a successful blank check means the cells are erased.
   */
  function WorkflashBlankCheck(inBounds: bool, status: BlankCheckDriverStatus): (r: BlankCheck)
    ensures r == ErrAddrOutOfRange <==> !inBounds
    ensures r == InErasedState <==> inBounds && status == DrvSuccess
    ensures r == ReadyToRead <==> inBounds && status == DrvFlashNotErased
  {
    if !inBounds then ErrAddrOutOfRange
    else if status == DrvSuccess then InErasedState
    else if status == DrvFlashNotErased then ReadyToRead
    else ErrUnknown
  }

  /** The bytes memset leaves in the destination when the work flash is blank. */
  function ErasedBytes(size: nat): (r: seq<byte>)
    ensures |r| == size && forall i :: 0 <= i < size ==> r[i] == ERASED_BYTE
  {
    seq(size, _ => ERASED_BYTE)
  }

  /** Every one of the size cells from address on is erased. */
  ghost predicate Erased(cells: Memory, address: nat, size: nat)
  {
    forall a: nat {:trigger cells(a)} :: address <= a < address + size ==> cells(a) == ERASED_BYTE
  }

  /**
   * The read asdk_flash_read_blocking returns when the blank check finds
   * the span erased (0xFF filled in) agrees with copying it, as long as
   * the span is in fact erased.
   */
  lemma ErasedReadAgrees(cells: Memory, address: nat, size: nat)
    requires Erased(cells, address, size)
    ensures ErasedBytes(size) == ReadCells(cells, address, size)
  {
    var r := ReadCells(cells, address, size);
    forall i | 0 <= i < size
      ensures r[i] == ERASED_BYTE
    {
      assert r[i] == cells(address + i);
    }
  }

  /**
   * After a successful sector erase, the whole sector holding the erased
   * address reads as 0xFF, and so would the blank-check path of a read.
   */
  lemma EraseThenRead(before: Memory, after: Memory, address: nat)
    requires GetSectorSize(address).Some?
    requires Overlaid(after, before, SectorBase(address), ErasedBytes(GetSectorSize(address).value))
    ensures var size := GetSectorSize(address).value;
            var base := SectorBase(address);
            && base <= address < base + size
            && Erased(after, base, size)
            && ReadCells(after, base, size) == ErasedBytes(size)
  {
    var size := GetSectorSize(address).value;
    var base := SectorBase(address);
    SectorsTileRegions(address);
    ReadBackOverlay(after, before, base, ErasedBytes(size), size);
    forall a: nat | base <= a < base + size
      ensures after(a) == ERASED_BYTE
    {
      assert after(a) == ErasedBytes(size)[a - base];
    }
  }

  /**
   * Round trip: after a write that reports success, the size bytes read
   * back from the destination are the source bytes, whatever the rest of
   * the last row was padded with.
   */
  lemma WriteThenRead(before: Memory, after: Memory, req: WriteRequest, failingRow: Option<nat>)
    requires WriteStatus(req, failingRow) == ASDK_FLASH_STATUS_SUCCESS
    requires Overlaid(after, before, req.destination, WrittenImage(req, failingRow))
    ensures ReadCells(after, req.destination, |req.source|) == req.source
  {
    WriteSuccessStoresImage(req, failingRow);
    var image := WriteImage(req);
    assert image[..|req.source|] == req.source;
    ReadBackOverlay(after, before, req.destination, image, |req.source|);
  }

  /** The enable state of the two flash write paths (main = code flash, work = data flash). */
  datatype WriteEnable = WriteEnable(code: bool, work: bool)

  /** asdk_flash_config_t. */
  datatype FlashConfig = FlashConfig(flashType: nat, operationMode: nat, intrNum: nat)

  predicate FlashTypeValid(flashType: nat)
  {
    flashType <= ASDK_FLASH_INIT_FLASHTYPE_DATA_FLASH
  }

  /** Whether a flash type names code flash (BOTH or CODE) or work flash (BOTH or DATA). */
  predicate TypeCoversCode(flashType: nat)
  {
    flashType == ASDK_FLASH_INIT_FLASHTYPE_BOTH_CODE_FLASH_DATA_FLASH || flashType == ASDK_FLASH_INIT_FLASHTYPE_CODE_FLASH
  }

  predicate TypeCoversWork(flashType: nat)
  {
    flashType == ASDK_FLASH_INIT_FLASHTYPE_BOTH_CODE_FLASH_DATA_FLASH || flashType == ASDK_FLASH_INIT_FLASHTYPE_DATA_FLASH
  }

  /** The status asdk_flash_init returns: interrupt number first, then the flash type. */
  function InitStatus(cfg: FlashConfig): (r: ErrorCode)
    ensures r == ASDK_FLASH_STATUS_SUCCESS <==> cfg.intrNum < ASDK_EXTI_INTR_MAX && FlashTypeValid(cfg.flashType)
    ensures r == ASDK_FLASH_ERROR_INVALID_INTR_NUM <==> cfg.intrNum >= ASDK_EXTI_INTR_MAX
  {
    if cfg.intrNum >= ASDK_EXTI_INTR_MAX then ASDK_FLASH_ERROR_INVALID_INTR_NUM
    else if !FlashTypeValid(cfg.flashType) then ASDK_FLASH_ERROR_INVALID_FLASH_TYPE
    else ASDK_FLASH_STATUS_SUCCESS
  }

  /** The write enables after asdk_flash_init enables the paths its flash type names. */
  function EnabledByInit(e: WriteEnable, flashType: nat): WriteEnable
  {
    WriteEnable(e.code || TypeCoversCode(flashType), e.work || TypeCoversWork(flashType))
  }

  /** The write enables after asdk_flash_deinit disables the paths its flash type names. */
  function DisabledByDeinit(e: WriteEnable, flashType: nat): WriteEnable
  {
    WriteEnable(e.code && !TypeCoversCode(flashType), e.work && !TypeCoversWork(flashType))
  }

  /**
   * De-initialising with the flash type used at initialisation turns off
   * exactly what initialisation turned on: whatever init did is undone, and
   * a path neither call names keeps its state.
   */
  lemma DeinitUndoesInit(e: WriteEnable, flashType: nat)
    ensures DisabledByDeinit(EnabledByInit(e, flashType), flashType) == DisabledByDeinit(e, flashType)
    ensures FlashTypeValid(flashType) ==>
              var d := DisabledByDeinit(e, flashType);
              (d.code <==> e.code && flashType == ASDK_FLASH_INIT_FLASHTYPE_DATA_FLASH)
              && (d.work <==> e.work && flashType == ASDK_FLASH_INIT_FLASHTYPE_CODE_FLASH)
  {
  }

  // ---------------------------------------------------------------------
  // The driver state
  // ---------------------------------------------------------------------

  class FlashController {
    /** The flash cells. */
    var cells: Memory
    /** The main (code) and work flash write enables of the flash controller. */
    var writeEnable: WriteEnable
    /** g_nb_modeenabled. */
    var nonBlockingMode: bool
    /** g_flashoperation_complete_flag. */
    var operationComplete: bool
    /** user_flash_callback_function (None for NULL). */
    var callback: Option<nat>

    /** Both flags start false, no callback is installed and writes are disabled. */
    constructor(initial: Memory)
      ensures cells == initial
      ensures writeEnable == WriteEnable(false, false)
      ensures !nonBlockingMode && !operationComplete && callback == None
    {
      cells := initial;
      writeEnable := WriteEnable(false, false);
      nonBlockingMode := false;
      operationComplete := false;
      callback := None;
    }

    /**
     * asdk_flash_init. A valid interrupt number selects the operation mode
     * even when the flash type is then refused; only a valid type enables
     * writes and raises the completion flag.
     */
    method Init(cfg: FlashConfig) returns (status: ErrorCode)
      modifies this
      ensures status == InitStatus(cfg)
      ensures nonBlockingMode == if cfg.intrNum < ASDK_EXTI_INTR_MAX
                                 then cfg.operationMode == ASDK_FLASH_OPERATION_NON_BLOCKING_MODE
                                 else old(nonBlockingMode)
      ensures writeEnable == if status == ASDK_FLASH_STATUS_SUCCESS then EnabledByInit(old(writeEnable), cfg.flashType)
                             else old(writeEnable)
      ensures operationComplete == (old(operationComplete) || status == ASDK_FLASH_STATUS_SUCCESS)
      ensures cells == old(cells) && callback == old(callback)
    {
      if ASDK_EXTI_INTR_MAX <= cfg.intrNum {
        return ASDK_FLASH_ERROR_INVALID_INTR_NUM;
      }
      nonBlockingMode := cfg.operationMode == ASDK_FLASH_OPERATION_NON_BLOCKING_MODE;
      if cfg.flashType == ASDK_FLASH_INIT_FLASHTYPE_BOTH_CODE_FLASH_DATA_FLASH {
        writeEnable := WriteEnable(true, true);
      } else if cfg.flashType == ASDK_FLASH_INIT_FLASHTYPE_CODE_FLASH {
        writeEnable := writeEnable.(code := true);
      } else if cfg.flashType == ASDK_FLASH_INIT_FLASHTYPE_DATA_FLASH {
        writeEnable := writeEnable.(work := true);
      } else {
        return ASDK_FLASH_ERROR_INVALID_FLASH_TYPE;
      }
      operationComplete := true;
      status := ASDK_FLASH_STATUS_SUCCESS;
    }

    /** asdk_flash_deinit: disables the write paths its flash type names; nothing else changes. */
    method Deinit(cfg: FlashConfig) returns (status: ErrorCode)
      modifies this
      ensures status == ASDK_FLASH_STATUS_SUCCESS <==> FlashTypeValid(cfg.flashType)
      ensures !FlashTypeValid(cfg.flashType) ==> status == ASDK_FLASH_ERROR_INVALID_FLASH_TYPE
      ensures writeEnable == DisabledByDeinit(old(writeEnable), cfg.flashType)
      ensures cells == old(cells) && callback == old(callback)
      ensures nonBlockingMode == old(nonBlockingMode) && operationComplete == old(operationComplete)
    {
      if cfg.flashType == ASDK_FLASH_INIT_FLASHTYPE_BOTH_CODE_FLASH_DATA_FLASH {
        writeEnable := WriteEnable(false, false);
      } else if cfg.flashType == ASDK_FLASH_INIT_FLASHTYPE_CODE_FLASH {
        writeEnable := writeEnable.(code := false);
      } else if cfg.flashType == ASDK_FLASH_INIT_FLASHTYPE_DATA_FLASH {
        writeEnable := writeEnable.(work := false);
      } else {
        return ASDK_FLASH_ERROR_INVALID_FLASH_TYPE;
      }
      status := ASDK_FLASH_STATUS_SUCCESS;
    }

    /** asdk_flash_install_callback. */
    method InstallCallback(fn: Option<nat>) returns (status: ErrorCode)
      modifies this
      ensures status == ASDK_FLASH_STATUS_SUCCESS && callback == fn
      ensures cells == old(cells) && writeEnable == old(writeEnable)
      ensures nonBlockingMode == old(nonBlockingMode) && operationComplete == old(operationComplete)
    {
      callback := fn;
      status := ASDK_FLASH_STATUS_SUCCESS;
    }

    /** Cy_Flash_ProgramRow: one row of bytes replaces the cells from address on. */
    method ProgramRow(address: nat, row: seq<byte>)
      modifies this`cells
      ensures Overlaid(cells, old(cells), address, row)
    {
      var before := cells;
      cells := (a: nat) => if address <= a < address + |row| then row[a - address] else before(a);
    }

    /** Cy_Flash_EraseSector: the size cells from base on read as 0xFF. */
    method EraseCells(base: nat, size: nat)
      modifies this`cells
      ensures Overlaid(cells, old(cells), base, ErasedBytes(size))
    {
      var before := cells;
      cells := (a: nat) => if base <= a < base + size then ERASED_BYTE else before(a);
    }

    /**
     * asdk_flash_erase_sector_blocking. An address outside code and work
     * flash is refused; otherwise the sector holding it is erased when
     * the vendor call succeeds (eraseOk) and left as it was when it fails.
     */
    method EraseSectorBlocking(baseAddress: nat, eraseOk: bool) returns (status: ErrorCode)
      modifies this`cells
      ensures status == EraseSectorStatus(baseAddress, eraseOk)
      ensures status == ASDK_FLASH_STATUS_SUCCESS ==>
                Overlaid(cells, old(cells), SectorBase(baseAddress), ErasedBytes(GetSectorSize(baseAddress).value))
      ensures status != ASDK_FLASH_STATUS_SUCCESS ==> cells == old(cells)
    {
      var sectorSize := GetSectorSize(baseAddress);
      if sectorSize.None? {
        return ASDK_FLASH_ERROR_INVALID_FLASH_ADDRESS;
      }
      if !eraseOk {
        return ASDK_FLASH_STATUS_ERROR;
      }
      EraseCells(SectorBase(baseAddress), sectorSize.value);
      status := ASDK_FLASH_STATUS_SUCCESS;
    }

    /**
     * One pass of the write loop: the chunk for the remaining bytes, copied
     * into the row buffer and padded with 0xFF, programmed at the current
     * address; the cursor moves past the bytes the row consumed.
     */
    method ProgramChunk(req: WriteRequest, failingRow: Option<nat>, cur: Cursor, ghost initial: Memory)
      returns (next: Cursor)
      requires WriteProgress(req, failingRow, cur) && cur.total > 0 && failingRow != Some(cur.rows)
      requires InCodeSpan(cur.address, cur.total) || InWorkSpan(cur.address, cur.total)
      requires RowsInFlash(cells, initial, req, cur.rows)
      modifies this`cells
      ensures next.total < cur.total
      ensures WriteProgress(req, failingRow, next)
      ensures RowsInFlash(cells, initial, req, next.rows)
    {
      var chunk := NextChunk(cur.total, InWorkSpan(cur.address, cur.total));
      var row := RowBuffer(req.source, cur.offset, chunk);
      ghost var before := cells;
      ProgramRow(cur.address, row);
      PassKeepsProgress(req, failingRow, cur);
      PassProgramsRow(req, failingRow, cur, row, initial, before, cells);
      next := Advance(cur, chunk.data);
    }

    /**
     * asdk_flash_write_blocking. request None stands for a NULL
     * configuration; failingRow is the row on which the vendor program call
     * first reports an error (None: it never does). The rows programmed
     * before a failure stay programmed.
     */
    method WriteBlocking(request: Option<WriteRequest>, failingRow: Option<nat>) returns (status: ErrorCode)
      modifies this`cells
      ensures request.None? ==> status == ASDK_FLASH_ERROR_NULL_PTR && cells == old(cells)
      ensures request.Some? ==> status == WriteStatus(request.value, failingRow)
      ensures request.Some? && status == ASDK_FLASH_ERROR_INVALID_FLASH_ADDRESS ==> cells == old(cells)
      ensures request.Some? && status != ASDK_FLASH_ERROR_INVALID_FLASH_ADDRESS ==>
                Overlaid(cells, old(cells), request.value.destination, WrittenImage(request.value, failingRow))
    {
      if request.None? {
        return ASDK_FLASH_ERROR_NULL_PTR;
      }
      status := WriteRows(request.value, failingRow);
    }

    /**
     * asdk_flash_read_blocking: the size bytes at address. Code flash is
     * copied as it is; in work flash the vendor blank check decides: cells
     * that are not blank are copied, a blank span reads as 0xFF, any other
     * answer is an error. Only the start address is checked.
     * workInBounds and blankStatus are the answers of the vendor calls
     * Cy_Flash_WorkBoundsCheck and Cy_Flash_BlankCheck.
     */
    method ReadBlocking(address: nat, size: nat, workInBounds: bool, blankStatus: BlankCheckDriverStatus)
      returns (status: ErrorCode, data: Option<seq<byte>>)
      ensures InCodeFlash(address) ==> status == ASDK_FLASH_STATUS_SUCCESS && data == Some(ReadCells(cells, address, size))
      ensures !InCodeFlash(address) && InWorkFlash(address) ==>
                match WorkflashBlankCheck(workInBounds, blankStatus)
                case ReadyToRead => status == ASDK_FLASH_STATUS_SUCCESS && data == Some(ReadCells(cells, address, size))
                case InErasedState => status == ASDK_FLASH_STATUS_SUCCESS && data == Some(ErasedBytes(size))
                case _ => status == ASDK_FLASH_STATUS_ERROR && data.None?
      ensures !InCodeFlash(address) && !InWorkFlash(address) ==>
                status == ASDK_FLASH_ERROR_INVALID_FLASH_ADDRESS && data.None?
    {
      if InCodeFlash(address) {
        return ASDK_FLASH_STATUS_SUCCESS, Some(ReadCells(cells, address, size));
      } else if InWorkFlash(address) {
        if WorkflashBlankCheck(workInBounds, blankStatus) == ReadyToRead {
          return ASDK_FLASH_STATUS_SUCCESS, Some(ReadCells(cells, address, size));
        } else if WorkflashBlankCheck(workInBounds, blankStatus) == InErasedState {
          return ASDK_FLASH_STATUS_SUCCESS, Some(ErasedBytes(size));
        } else {
          return ASDK_FLASH_STATUS_ERROR, None;
        }
      } else {
        return ASDK_FLASH_ERROR_INVALID_FLASH_ADDRESS, None;
      }
    }

    /** The loop of asdk_flash_write_blocking, from the address check to the last row. */
    method WriteRows(req: WriteRequest, failingRow: Option<nat>) returns (status: ErrorCode)
      modifies this`cells
      ensures status == WriteStatus(req, failingRow)
      ensures status == ASDK_FLASH_ERROR_INVALID_FLASH_ADDRESS ==> cells == old(cells)
      ensures status != ASDK_FLASH_ERROR_INVALID_FLASH_ADDRESS ==>
                Overlaid(cells, old(cells), req.destination, WrittenImage(req, failingRow))
    {
      var cur := Cursor(req.destination, 0, |req.source|, 0);
      while cur.total != 0
        invariant WriteProgress(req, failingRow, cur)
        invariant RowsInFlash(cells, old(cells), req, cur.rows)
        invariant cur.rows == 0 ==> cells == old(cells)
        decreases cur.total
      {
        if !InCodeSpan(cur.address, cur.total) && !InWorkSpan(cur.address, cur.total) {
          WriteRefused(req, failingRow, cur);
          return ASDK_FLASH_ERROR_INVALID_FLASH_ADDRESS;
        }
        if failingRow == Some(cur.rows) {
          WriteInterrupted(req, failingRow, cur);
          return ASDK_FLASH_STATUS_ERROR;
        }
        cur := ProgramChunk(req, failingRow, cur, old(cells));
      }
      WriteCompleted(req, failingRow, cur);
      status := ASDK_FLASH_STATUS_SUCCESS;
    }
  }

  /**
   * The running variables of the write loop: addressToBeWritten, the
   * offset of addressOfSource in the source, totalSize, and the number of
   * rows programmed so far.
   */
  datatype Cursor = Cursor(address: nat, offset: nat, total: nat, rows: nat)

  /** The cursor after a pass that consumed `data` source bytes. */
  function Advance(cur: Cursor, data: nat): (next: Cursor)
    requires data <= cur.total
    ensures next.rows == cur.rows + 1 && (data > 0 ==> next.total < cur.total)
  {
    Cursor(cur.address + data, cur.offset + data, cur.total - data, cur.rows + 1)
  }

  /**
   * The row arithmetic of the write loop over `size` bytes: after `rows`
   * rows, `total` bytes are left from source offset `offset`, which is
   * where the next row starts in the image and a whole number of granules.
   */
  ghost predicate RowProgress(size: nat, work: bool, cur: Cursor)
  {
    && cur.offset + cur.total == size
    && cur.total == Remaining(size, work, cur.rows)
    && cur.rows + NumRows(cur.total, work) == NumRows(size, work)
    && (cur.total > 0 ==> cur.offset == Programmed(size, work, cur.rows) && cur.offset % Granule(work) == 0)
    && Programmed(size, work, cur.rows) <= size + PadLength(size, Granule(work))
  }

  /**
   * The state of the write loop: the row arithmetic, the current address
   * tracking the source offset, every row so far accepted by the vendor
   * call, and at least one row only after the address check passed.
   */
  ghost predicate WriteProgress(req: WriteRequest, failingRow: Option<nat>, cur: Cursor)
  {
    && RowProgress(|req.source|, TargetsWorkFlash(req), cur)
    && cur.address == req.destination + cur.offset
    && (cur.rows > 0 ==> InCodeSpan(req.destination, |req.source|) || InWorkSpan(req.destination, |req.source|))
    && (failingRow.Some? ==> cur.rows <= failingRow.value)
  }

  /** The first `rows` rows of a request's image are in flash over the initial contents. */
  ghost predicate RowsInFlash(cells: Memory, initial: Memory, req: WriteRequest, rows: nat)
  {
    var n := Programmed(|req.source|, TargetsWorkFlash(req), rows);
    n <= |WriteImage(req)| && Overlaid(cells, initial, req.destination, WriteImage(req)[..n])
  }

  /** The address check can only fail on the first pass, and then the request's span is refused. */
  lemma WriteRefused(req: WriteRequest, failingRow: Option<nat>, cur: Cursor)
    requires WriteProgress(req, failingRow, cur) && cur.total > 0
    requires !InCodeSpan(cur.address, cur.total) && !InWorkSpan(cur.address, cur.total)
    ensures cur.rows == 0 && WriteStatus(req, failingRow) == ASDK_FLASH_ERROR_INVALID_FLASH_ADDRESS
  {
    SameTarget(req.destination, |req.source|, cur.address, cur.total);
  }

  /** A vendor error on the current row ends the write with the rows before it programmed. */
  lemma WriteInterrupted(req: WriteRequest, failingRow: Option<nat>, cur: Cursor)
    requires WriteProgress(req, failingRow, cur) && cur.total > 0
    requires InCodeSpan(cur.address, cur.total) || InWorkSpan(cur.address, cur.total)
    requires failingRow == Some(cur.rows)
    ensures WriteStatus(req, failingRow) == ASDK_FLASH_STATUS_ERROR
    ensures WrittenImage(req, failingRow) == WriteImage(req)[..Programmed(|req.source|, TargetsWorkFlash(req), cur.rows)]
  {
    SameTarget(req.destination, |req.source|, cur.address, cur.total);
  }

  /** Leaving the loop, every row has been programmed and the write succeeds. */
  lemma WriteCompleted(req: WriteRequest, failingRow: Option<nat>, cur: Cursor)
    requires WriteProgress(req, failingRow, cur) && cur.total == 0
    ensures WriteStatus(req, failingRow) == ASDK_FLASH_STATUS_SUCCESS
    ensures WrittenImage(req, failingRow) == WriteImage(req)[..Programmed(|req.source|, TargetsWorkFlash(req), cur.rows)]
  {
  }

  /** One more row keeps the row arithmetic of the loop, and programs the chunk's row size more. */
  lemma RowAdvance(size: nat, work: bool, cur: Cursor)
    requires RowProgress(size, work, cur) && cur.total > 0
    ensures var c := NextChunk(cur.total, work);
            && RowProgress(size, work, Advance(cur, c.data))
            && Programmed(size, work, cur.rows + 1) == cur.offset + c.row
            && cur.offset + c.row <= size + PadLength(size, Granule(work))
  {
    if NextChunk(cur.total, work).data < NextChunk(cur.total, work).row {
      LastRowAdvance(size, work, cur);
    } else {
      FullRowAdvance(size, work, cur);
    }
  }

  /** RowAdvance for the last, padded row: nothing is left after it. */
  lemma LastRowAdvance(size: nat, work: bool, cur: Cursor)
    requires RowProgress(size, work, cur) && cur.total > 0
    requires NextChunk(cur.total, work).data < NextChunk(cur.total, work).row
    ensures var c := NextChunk(cur.total, work);
            && RowProgress(size, work, Advance(cur, c.data))
            && Programmed(size, work, cur.rows + 1) == cur.offset + c.row
            && cur.offset + c.row <= size + PadLength(size, Granule(work))
  {
    var c := NextChunk(cur.total, work);
    RowStep(size, work, cur.rows);
    PartialRowPad(size, cur.offset, Granule(work), c.data);
  }

  /** RowAdvance for a full row: the next row starts on a granule boundary. */
  lemma FullRowAdvance(size: nat, work: bool, cur: Cursor)
    requires RowProgress(size, work, cur) && cur.total > 0
    requires NextChunk(cur.total, work).data == NextChunk(cur.total, work).row
    ensures var c := NextChunk(cur.total, work);
            && RowProgress(size, work, Advance(cur, c.data))
            && Programmed(size, work, cur.rows + 1) == cur.offset + c.row
            && cur.offset + c.row <= size + PadLength(size, Granule(work))
  {
    var c := NextChunk(cur.total, work);
    RowStep(size, work, cur.rows);
    RowSizes(cur.total, work);
    ResidueAfterRow(cur.offset, c.row, Granule(work));
  }

  /** One pass of the write loop keeps the loop's state. */
  lemma WriteStep(req: WriteRequest, failingRow: Option<nat>, cur: Cursor)
    requires WriteProgress(req, failingRow, cur) && cur.total > 0
    requires InCodeSpan(cur.address, cur.total) || InWorkSpan(cur.address, cur.total)
    requires failingRow != Some(cur.rows)
    ensures InWorkSpan(cur.address, cur.total) == TargetsWorkFlash(req)
    ensures WriteProgress(req, failingRow, Advance(cur, NextChunk(cur.total, TargetsWorkFlash(req)).data))
  {
    SameTarget(req.destination, |req.source|, cur.address, cur.total);
    RowAdvance(|req.source|, TargetsWorkFlash(req), cur);
  }

  /** One pass of the write loop, with the chunk its address selects, keeps the loop's state. */
  lemma PassKeepsProgress(req: WriteRequest, failingRow: Option<nat>, cur: Cursor)
    requires WriteProgress(req, failingRow, cur) && cur.total > 0
    requires InCodeSpan(cur.address, cur.total) || InWorkSpan(cur.address, cur.total)
    requires failingRow != Some(cur.rows)
    ensures var next := Advance(cur, NextChunk(cur.total, InWorkSpan(cur.address, cur.total)).data);
            next.total < cur.total && WriteProgress(req, failingRow, next)
  {
    WriteStep(req, failingRow, cur);
  }

  /** Programming the row of one pass, with the chunk its address selects, keeps the loop's invariant on flash. */
  lemma PassProgramsRow(req: WriteRequest, failingRow: Option<nat>, cur: Cursor, row: seq<byte>,
                        initial: Memory, before: Memory, after: Memory)
    requires WriteProgress(req, failingRow, cur) && cur.total > 0
    requires InCodeSpan(cur.address, cur.total) || InWorkSpan(cur.address, cur.total)
    requires RowsInFlash(before, initial, req, cur.rows)
    requires row == RowBuffer(req.source, cur.offset, NextChunk(cur.total, InWorkSpan(cur.address, cur.total)))
    requires Overlaid(after, before, cur.address, row)
    ensures RowsInFlash(after, initial, req, Advance(cur, NextChunk(cur.total, InWorkSpan(cur.address, cur.total)).data).rows)
  {
    SameTarget(req.destination, |req.source|, cur.address, cur.total);
    ChunkProgrammed(req, cur, row, initial, before, after);
  }

  /** Programming the row of one pass extends the programmed prefix of the image by that row. */
  lemma ChunkProgrammed(req: WriteRequest, cur: Cursor, row: seq<byte>, initial: Memory, before: Memory, after: Memory)
    requires RowProgress(|req.source|, TargetsWorkFlash(req), cur) && cur.total > 0
    requires cur.address == req.destination + cur.offset
    requires var chunk := NextChunk(cur.total, TargetsWorkFlash(req));
             row == RowBuffer(req.source, cur.offset, chunk)
    requires RowsInFlash(before, initial, req, cur.rows)
    requires Overlaid(after, before, cur.address, row)
    ensures RowsInFlash(after, initial, req, cur.rows + 1)
  {
    var image := WriteImage(req);
    RowIsImageSlice(req, cur, row);
    var done := image[..cur.offset];
    assert req.destination + |done| == cur.address;
    OverlaidJoin(initial, before, after, req.destination, done, row);
  }

  /** The row of one pass is the next slice of the request's image. */
  lemma RowIsImageSlice(req: WriteRequest, cur: Cursor, row: seq<byte>)
    requires RowProgress(|req.source|, TargetsWorkFlash(req), cur) && cur.total > 0
    requires var chunk := NextChunk(cur.total, TargetsWorkFlash(req));
             row == RowBuffer(req.source, cur.offset, chunk)
    ensures var image := WriteImage(req);
            var work := TargetsWorkFlash(req);
            && Programmed(|req.source|, work, cur.rows) == cur.offset
            && Programmed(|req.source|, work, cur.rows + 1) <= |image|
            && image[..cur.offset] + row == image[..Programmed(|req.source|, work, cur.rows + 1)]
  {
    var work := TargetsWorkFlash(req);
    var chunk := NextChunk(cur.total, work);
    RowAdvance(|req.source|, work, cur);
    ImageSlice(req.source, Granule(work), cur.offset, chunk, row);
  }

  /** The last, partial row is padded exactly up to the image's end. */
  lemma PartialRowPad(size: nat, offset: nat, g: nat, data: nat)
    requires 0 < data < g && offset % g == 0 && offset + data == size
    ensures PadLength(size, g) == g - data
  {
    assert offset == offset / g * g;
    DivUnique(size, g, offset / g, data);
  }

  /** A row taken from the source and padded with 0xFF is the matching slice of the padded image. */
  lemma ImageSlice(src: seq<byte>, g: nat, offset: nat, c: Chunk, row: seq<byte>)
    requires g > 0 && c.data <= c.row && offset + c.data <= |src|
    requires offset + c.row <= |src| + PadLength(|src|, g)
    requires c.data < c.row ==> offset + c.data == |src|
    requires row == RowBuffer(src, offset, c)
    ensures Padded(src, g)[..offset] + row == Padded(src, g)[..offset + c.row]
  {
    var image := Padded(src, g);
    forall i | offset <= i < offset + c.row
      ensures row[i - offset] == image[i]
    {
      if i < offset + c.data {
        assert image[i] == image[..|src|][i] == src[i];
      }
    }
  }

  /**
   * The loop re-checks the remaining span on every pass; since the span's
   * end never moves, it lands in the flash the whole request targets.
   */
  lemma SameTarget(destination: nat, size: nat, address: nat, total: nat)
    requires destination <= address && address + total == destination + size
    ensures InCodeSpan(destination, size) ==> InCodeSpan(address, total) && !InWorkSpan(address, total)
    ensures InWorkSpan(destination, size) ==> InWorkSpan(address, total) && !InCodeSpan(address, total)
  {
  }
}
