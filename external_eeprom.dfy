// Model of the external EEPROM middleware
// (asdk-gen2/middleware/external_eeprom/asdk_external_eeprom.c).
//
// A request is split into page-sized chunks: the first chunk runs from the
// start address up to the end of its page, every later chunk is a whole
// page or the tail of the request.  asdk_external_eeprom_iteration serves
// one chunk of the pending write, or else of the pending read, per call.
// The I2C driver is outside the model: the statuses it returns are method
// parameters and the bytes handed to it are method results.

module ExternalEeprom {
  import opened Common
  import opened AsdkError

  const ASDK_EXTERNAL_EEPROM_MAX: nat := 1

  // asdk_external_eeprom_protocol_t
  const PROTOCOL_I2C: nat := 0
  const PROTOCOL_SPI: nat := 1

  // asdk_external_eeprom_status_t, the argument of the user callback
  const STATUS_WRITE_COMPLETE: nat := 0
  const STATUS_READ_COMPLETE: nat := 1

  // asdk_i2c_status_t values the I2C completion callback reacts to
  const I2C_STATUS_WR_COMPLETE: nat := 0
  const I2C_STATUS_RD_COMPLETE: nat := 2

  /** Where a finished manager parks its address (~0 as a uint32_t). */
  const PARKED_ADDRESS: nat := 0xFFFF_FFFF

  datatype I2cConfig = I2cConfig(i2cNo: nat, slaveAddress: nat, master: bool, useInterrupt: bool, priority: nat)

  /** asdk_external_eeprom_config_t; the tx_buffer pointer is kept beside it. */
  datatype Config = Config(
    memorySize: nat,    // memory_size_bytes (uint32_t)
    pageSize: nat,      // page_size_bytes (uint16_t)
    addrWidth: nat,     // addr_width (uint8_t)
    txBufferSize: nat,  // tx_buffer_size
    bigEndian: bool,    // is_big_endian
    protocol: nat,
    i2c: I2cConfig)

  predicate ConfigTypesOk(c: Config)
  {
    IsU32(c.memorySize) && IsU16(c.pageSize) && IsU8(c.addrWidth)
  }

  /** The zero-initialised static configuration before any init. */
  const ZeroConfig: Config := Config(0, 0, 0, 0, false, PROTOCOL_I2C, I2cConfig(0, 0, false, false, 0))

  /** eeprom_manager_t: progress of one read or write request. */
  datatype Manager = Manager(
    address: nat,                // EEPROM address of the current chunk
    buffer: Option<seq<byte>>,   // the caller's buffer, None for NULL
    bytesRemaining: nat,         // bytes after the current chunk
    length: nat,                 // length of the current chunk
    index: nat,                  // offset of the current chunk in the buffer
    opPending: bool,
    cbPending: bool)

  const IdleManager: Manager := Manager(0, None, 0, 0, 0, false, false)

  /** One page transfer: EEPROM address, offset in the caller's buffer, length. */
  datatype Chunk = Chunk(address: nat, offset: nat, length: nat)

  // ---------------------------------------------------------------------
  // Address bytes (the loop at the top of page_write and page_read)
  // ---------------------------------------------------------------------

  /** addr >> (8 * i) */
  function Shr8(addr: nat, i: nat): nat
  {
    if i == 0 then addr else Shr8(addr / 256, i - 1)
  }

  /** (addr >> (8 * i)) & 0xFF */
  function AddrByte(addr: nat, i: nat): byte
  {
    (Shr8(addr, i) % 256) as byte
  }

  /**
   * The addrWidth bytes placed in front of a page: with is_big_endian set,
   * byte i of the address goes to position i (least significant first);
   * otherwise it goes to position width - 1 - i (most significant first).
   */
  function AddressBytes(addr: nat, width: nat, bigEndian: bool): (r: seq<byte>)
    ensures |r| == width
  {
    seq(width, j requires 0 <= j < width => AddrByte(addr, if bigEndian then j else width - 1 - j))
  }

  function Pow256(n: nat): (r: nat)
    ensures r >= 1
  {
    if n == 0 then 1 else 256 * Pow256(n - 1)
  }

  /** The number a byte string denotes when its first byte is the least significant. */
  function LsbFirstValue(s: seq<byte>): nat
  {
    if |s| == 0 then 0 else s[0] as nat + 256 * LsbFirstValue(s[1..])
  }

  /** The number a byte string denotes when its first byte is the most significant. */
  function MsbFirstValue(s: seq<byte>): nat
  {
    if |s| == 0 then 0 else 256 * MsbFirstValue(s[..|s| - 1]) + s[|s| - 1] as nat
  }

  function Reversed(s: seq<byte>): (r: seq<byte>)
    ensures |r| == |s|
  {
    seq(|s|, j requires 0 <= j < |s| => s[|s| - 1 - j])
  }

  /** Dropping the low byte of the address shifts the bytes down by one position. */
  lemma AddressBytesTail(addr: nat, width: nat)
    requires width > 0
    ensures AddressBytes(addr, width, true) == [AddrByte(addr, 0)] + AddressBytes(addr / 256, width - 1, true)
  {
    var s, t := AddressBytes(addr, width, true), AddressBytes(addr / 256, width - 1, true);
    forall j | 1 <= j < width
      ensures s[j] == t[j - 1]
    {
      assert Shr8(addr, j) == Shr8(addr / 256, j - 1);
    }
    assert s == [s[0]] + t;
  }

  /**
   * With is_big_endian set the address goes out least significant byte
   * first: the bytes read back little-endian give the address.
   */
  lemma {:induction false} AddressBytesLsbFirst(addr: nat, width: nat)
    requires addr < Pow256(width)
    ensures LsbFirstValue(AddressBytes(addr, width, true)) == addr
    decreases width
  {
    if width == 0 {
      assert AddressBytes(addr, width, true) == [];
    } else {
      var s := AddressBytes(addr, width, true);
      AddressBytesTail(addr, width);
      assert s[1..] == AddressBytes(addr / 256, width - 1, true);
      AddressBytesLsbFirst(addr / 256, width - 1);
      assert s[0] as nat == addr % 256;
    }
  }

  lemma {:induction false} MsbFirstOfReversed(s: seq<byte>)
    ensures MsbFirstValue(Reversed(s)) == LsbFirstValue(s)
    decreases |s|
  {
    if |s| > 0 {
      var r := Reversed(s);
      assert r[..|r| - 1] == Reversed(s[1..]);
      MsbFirstOfReversed(s[1..]);
    }
  }

  /**
   * With is_big_endian clear the address goes out most significant byte
   * first: the same bytes in reverse order.
   */
  lemma AddressBytesMsbFirst(addr: nat, width: nat)
    requires addr < Pow256(width)
    ensures AddressBytes(addr, width, false) == Reversed(AddressBytes(addr, width, true))
    ensures MsbFirstValue(AddressBytes(addr, width, false)) == addr
  {
    assert AddressBytes(addr, width, false) == Reversed(AddressBytes(addr, width, true));
    MsbFirstOfReversed(AddressBytes(addr, width, true));
    AddressBytesLsbFirst(addr, width);
  }

  // ---------------------------------------------------------------------
  // Request checks of the non-blocking read and write
  // ---------------------------------------------------------------------

  /**
   * The address and length checks as the source writes them, in uint32_t
   * arithmetic: size - 1 <= addr is refused, then size < addr + len.
   */
  function CheckAsWritten(size: nat, addr: nat, len: nat): (r: ErrorCode)
    requires IsU32(size) && IsU32(addr) && IsU32(len)
    ensures r == ASDK_MW_EXTERNAL_EEPROM_STATUS_SUCCESS ||
            r == ASDK_MW_EXTERNAL_EEPROM_ERROR_INVALID_ADDRESS ||
            r == ASDK_MW_EXTERNAL_EEPROM_ERROR_INVALID_LENGTH
  {
    if SubU32(size, 1) <= addr then ASDK_MW_EXTERNAL_EEPROM_ERROR_INVALID_ADDRESS
    else if size < AddU32(addr, len) then ASDK_MW_EXTERNAL_EEPROM_ERROR_INVALID_LENGTH
    else ASDK_MW_EXTERNAL_EEPROM_STATUS_SUCCESS
  }

  /** The last byte of the memory cannot be read or written, even alone. */
  lemma LastByteRefused(size: nat)
    requires 1 <= size && IsU32(size)
    ensures CheckAsWritten(size, size - 1, 1) == ASDK_MW_EXTERNAL_EEPROM_ERROR_INVALID_ADDRESS
    ensures CheckRange(size, size - 1, 1) == ASDK_MW_EXTERNAL_EEPROM_STATUS_SUCCESS
  {
  }

  /** addr + len wraps past 2^32, so a request far beyond the memory passes. */
  lemma LengthOverflowAccepted()
    ensures CheckAsWritten(256, 16, 0xFFFF_FFF8) == ASDK_MW_EXTERNAL_EEPROM_STATUS_SUCCESS
    ensures 16 + 0xFFFF_FFF8 > 256
    ensures CheckRange(256, 16, 0xFFFF_FFF8) == ASDK_MW_EXTERNAL_EEPROM_ERROR_INVALID_LENGTH
  {
  }

  /** Away from the last byte and from wrap-around the two checks agree. */
  lemma CheckAsWrittenAgrees(size: nat, addr: nat, len: nat)
    requires IsU32(size) && IsU32(addr) && IsU32(len)
    requires addr + 1 != size && addr + len < U32_LIMIT && size > 0
    ensures CheckAsWritten(size, addr, len) == CheckRange(size, addr, len)
  {
  }

  /**
   * The corrected check: the request [addr, addr + len) must start at an
   * address of the memory and end inside it.
   */
  function CheckRange(size: nat, addr: nat, len: nat): (r: ErrorCode)
    ensures r == ASDK_MW_EXTERNAL_EEPROM_STATUS_SUCCESS <==> addr < size && addr + len <= size
    ensures r == ASDK_MW_EXTERNAL_EEPROM_ERROR_INVALID_ADDRESS <==> size <= addr
    ensures r == ASDK_MW_EXTERNAL_EEPROM_ERROR_INVALID_LENGTH <==> addr < size < addr + len
  {
    if size <= addr then ASDK_MW_EXTERNAL_EEPROM_ERROR_INVALID_ADDRESS
    else if size - addr < len then ASDK_MW_EXTERNAL_EEPROM_ERROR_INVALID_LENGTH
    else ASDK_MW_EXTERNAL_EEPROM_STATUS_SUCCESS
  }

  /** The whole admission chain of a non-blocking request. */
  function Admission(eepromIndex: nat, size: nat, addr: nat, hasBuffer: bool, len: nat, busy: bool): (r: ErrorCode)
    ensures r == ASDK_MW_EXTERNAL_EEPROM_STATUS_SUCCESS <==>
            eepromIndex < ASDK_EXTERNAL_EEPROM_MAX && addr < size && addr + len <= size && hasBuffer && !busy
    ensures eepromIndex < ASDK_EXTERNAL_EEPROM_MAX && CheckRange(size, addr, len) != ASDK_MW_EXTERNAL_EEPROM_STATUS_SUCCESS ==>
            r == CheckRange(size, addr, len)
    ensures eepromIndex < ASDK_EXTERNAL_EEPROM_MAX && addr < size && addr + len <= size && hasBuffer && busy ==>
            r == ASDK_MW_EXTERNAL_EEPROM_ERROR_BUSY
  {
    if eepromIndex >= ASDK_EXTERNAL_EEPROM_MAX then ASDK_MW_EXTERNAL_EEPROM_ERROR_INVALID_INDEX
    else if CheckRange(size, addr, len) != ASDK_MW_EXTERNAL_EEPROM_STATUS_SUCCESS then CheckRange(size, addr, len)
    else if !hasBuffer then ASDK_MW_EXTERNAL_EEPROM_ERROR_INVALID_BUFFER
    else if busy then ASDK_MW_EXTERNAL_EEPROM_ERROR_BUSY
    else ASDK_MW_EXTERNAL_EEPROM_STATUS_SUCCESS
  }

  // ---------------------------------------------------------------------
  // Chunking
  // ---------------------------------------------------------------------

  /** First chunk of a request: up to the end of the start page, at most len. */
  function FirstChunk(addr: nat, len: nat, page: nat): (r: nat)
    requires page > 0
    ensures r <= len && addr % page + r <= page
    ensures r == len || addr % page + r == page
  {
    var toPageEnd := page - addr % page;
    if len < toPageEnd then len else toPageEnd
  }

  /** Every later chunk: a whole page, or what is left. */
  function NextChunk(remaining: nat, page: nat): (r: nat)
    requires page > 0
    ensures r <= remaining && r <= page
    ensures r == remaining || r == page
    ensures remaining > 0 ==> r > 0
  {
    if remaining >= page then page else remaining
  }

  /** The chunks still to be served when the current one is (address, offset, length). */
  function Plan(address: nat, offset: nat, length: nat, remaining: nat, page: nat): (r: seq<Chunk>)
    requires page > 0
    ensures |r| >= 1 && r[0] == Chunk(address, offset, length)
    decreases remaining
  {
    if remaining == 0 then [Chunk(address, offset, length)]
    else [Chunk(address, offset, length)] +
         Plan(address + length, offset + length, NextChunk(remaining, page), remaining - NextChunk(remaining, page), page)
  }

  /** The chunks of a fresh request of len bytes at addr. */
  function RequestPlan(addr: nat, len: nat, page: nat): seq<Chunk>
    requires page > 0
  {
    Plan(addr, 0, FirstChunk(addr, len, page), len - FirstChunk(addr, len, page), page)
  }

  function Total(cs: seq<Chunk>): nat
  {
    if |cs| == 0 then 0 else cs[0].length + Total(cs[1..])
  }

  /** Each chunk starts where the previous one ended, in the EEPROM and in the buffer. */
  predicate Contiguous(cs: seq<Chunk>)
  {
    |cs| <= 1 ||
    (cs[1].address == cs[0].address + cs[0].length && cs[1].offset == cs[0].offset + cs[0].length &&
     Contiguous(cs[1..]))
  }

  /** No chunk crosses a page boundary. */
  predicate WithinPages(cs: seq<Chunk>, page: nat)
    requires page > 0
  {
    |cs| == 0 || (cs[0].address % page + cs[0].length <= page && WithinPages(cs[1..], page))
  }

  /** No chunk is empty. */
  predicate NonEmpty(cs: seq<Chunk>)
  {
    |cs| == 0 || (cs[0].length > 0 && NonEmpty(cs[1..]))
  }

  /** A plan starts with the current chunk, is contiguous, and covers exactly length + remaining bytes. */
  lemma {:induction false} PlanShape(address: nat, offset: nat, length: nat, remaining: nat, page: nat)
    requires page > 0
    ensures var p := Plan(address, offset, length, remaining, page);
      |p| >= 1 && p[0] == Chunk(address, offset, length) && Contiguous(p) && Total(p) == length + remaining
    decreases remaining
  {
    if remaining > 0 {
      var next := NextChunk(remaining, page);
      var rest := Plan(address + length, offset + length, next, remaining - next, page);
      PlanShape(address + length, offset + length, next, remaining - next, page);
      var p := Plan(address, offset, length, remaining, page);
      assert p[1..] == rest;
    }
  }

  /** When the current chunk stays in its page and a non-final chunk ends on a page boundary, no chunk crosses a page. */
  lemma {:induction false} PlanWithinPages(address: nat, offset: nat, length: nat, remaining: nat, page: nat)
    requires page > 0 && address % page + length <= page
    requires remaining > 0 ==> (address + length) % page == 0
    ensures WithinPages(Plan(address, offset, length, remaining, page), page)
    decreases remaining
  {
    if remaining > 0 {
      var next := NextChunk(remaining, page);
      var rest := Plan(address + length, offset + length, next, remaining - next, page);
      if remaining - next > 0 {
        MultipleMod(1, page);
        MultipleSum(address + length, page, page);
      }
      PlanWithinPages(address + length, offset + length, next, remaining - next, page);
      var p := Plan(address, offset, length, remaining, page);
      assert p[1..] == rest;
    }
  }

  /** A non-empty current chunk is followed only by non-empty chunks. */
  lemma {:induction false} PlanNonEmpty(address: nat, offset: nat, length: nat, remaining: nat, page: nat)
    requires page > 0 && length > 0
    ensures NonEmpty(Plan(address, offset, length, remaining, page))
    decreases remaining
  {
    if remaining > 0 {
      var next := NextChunk(remaining, page);
      var rest := Plan(address + length, offset + length, next, remaining - next, page);
      PlanNonEmpty(address + length, offset + length, next, remaining - next, page);
      var p := Plan(address, offset, length, remaining, page);
      assert p[1..] == rest;
    }
  }

  /**
   * A request of len bytes at addr is served as chunks that tile
   * [addr, addr + len) and buffer offsets [0, len) in order, none crossing
   * a page boundary and none empty unless the request is.
   */
  lemma RequestPlanTiles(addr: nat, len: nat, page: nat)
    requires page > 0
    ensures var p := RequestPlan(addr, len, page);
      |p| >= 1 && p[0].address == addr && p[0].offset == 0 && Contiguous(p) && Total(p) == len &&
      WithinPages(p, page) && (len > 0 ==> NonEmpty(p))
  {
    var first := FirstChunk(addr, len, page);
    PlanShape(addr, 0, first, len - first, page);
    if len - first > 0 {
      AlignedAfterFirst(addr, page);
    }
    PlanWithinPages(addr, 0, first, len - first, page);
    if len > 0 {
      PlanNonEmpty(addr, 0, first, len - first, page);
    }
  }

  /** The end of the start page is page-aligned. */
  lemma AlignedAfterFirst(addr: nat, page: nat)
    requires page > 0
    ensures (addr + (page - addr % page)) % page == 0
  {
    assert addr + (page - addr % page) == (addr / page + 1) * page;
    MultipleMod(addr / page + 1, page);
  }

  /** The chunks a manager still has to serve. */
  function Pending(m: Manager, page: nat): seq<Chunk>
    requires page > 0
  {
    if m.opPending then Plan(m.address, m.index, m.length, m.bytesRemaining, page) else []
  }

  /** The consistency a manager keeps between requests and iterations. */
  predicate ManagerOk(m: Manager, c: Config)
  {
    (!m.opPending ==> m.index == 0) &&
    (m.opPending ==>
       c.pageSize > 0 && m.buffer.Some? && m.address < c.memorySize &&
       m.address + m.length + m.bytesRemaining <= c.memorySize &&
       m.address % c.pageSize + m.length <= c.pageSize &&
       (m.bytesRemaining > 0 ==> (m.address + m.length) % c.pageSize == 0) &&
       (m.length == 0 ==> m.bytesRemaining == 0) &&
       m.index + m.length + m.bytesRemaining <= |m.buffer.value|)
  }

  /** The manager a successful request installs: pending on the first chunk. */
  function Request(m: Manager, addr: nat, buff: Option<seq<byte>>, len: nat, page: nat): (r: Manager)
    requires page > 0
    ensures r.opPending && Pending(r, page) == Plan(addr, m.index, FirstChunk(addr, len, page), len - FirstChunk(addr, len, page), page)
    ensures r.buffer == buff && r.cbPending == m.cbPending
  {
    var first := FirstChunk(addr, len, page);
    m.(address := addr, buffer := buff, length := first, bytesRemaining := len - first, opPending := true)
  }

  /** The bytes of the caller's buffer that the next chunk covers. */
  function Payload(m: Manager): (r: seq<byte>)
    requires m.buffer.Some? && m.index + m.length <= |m.buffer.value|
    ensures |r| == m.length
  {
    m.buffer.value[m.index..m.index + m.length]
  }

  /** The chunk a manager hands to the bus next. */
  function Head(m: Manager): Chunk
  {
    Chunk(m.address, m.index, m.length)
  }

  /**
   * The bookkeeping of asdk_external_eeprom_iteration after a chunk was
   * handed to the bus: the plan loses its first chunk, and a manager that
   * has nothing left is parked with its callback armed.
   */
  function Advance(m: Manager, page: nat): (r: Manager)
    requires page > 0 && m.opPending
    ensures !r.opPending ==> r.cbPending && r.index == 0 && r.buffer.None? && r.address == PARKED_ADDRESS
    ensures r.opPending ==> r.cbPending == m.cbPending && r.buffer == m.buffer
    ensures !r.opPending <==> m.bytesRemaining == 0
  {
    var next := NextChunk(m.bytesRemaining, page);
    var moved := m.(index := m.index + m.length, address := m.address + m.length,
                    length := next, bytesRemaining := m.bytesRemaining - next);
    if moved.bytesRemaining == 0 && moved.length == 0 then
      moved.(buffer := None, address := PARKED_ADDRESS, index := 0, opPending := false, cbPending := true)
    else
      moved
  }

  /** The chunk a pending manager serves next fits in one page and in its buffer. */
  lemma ChunkFitsPage(m: Manager, c: Config)
    requires ManagerOk(m, c) && m.opPending
    ensures m.length <= c.pageSize && m.buffer.Some? && m.index + m.length <= |m.buffer.value|
  {
  }

  /** A served chunk leaves the rest of the plan pending, in order. */
  lemma AdvanceDropsHead(m: Manager, page: nat)
    requires page > 0 && m.opPending
    ensures Pending(m, page) != [] && Pending(m, page)[0] == Head(m)
    ensures Pending(Advance(m, page), page) == Pending(m, page)[1..]
  {
  }

  lemma AdvanceKeepsManagerOk(m: Manager, c: Config)
    requires ManagerOk(m, c) && m.opPending
    ensures ManagerOk(Advance(m, c.pageSize), c)
  {
    var page := c.pageSize;
    var next := NextChunk(m.bytesRemaining, page);
    if m.bytesRemaining - next > 0 {
      MultipleMod(1, page);
      MultipleSum(m.address + m.length, page, page);
    }
  }

  lemma RequestKeepsManagerOk(m: Manager, c: Config, addr: nat, buff: Option<seq<byte>>, len: nat)
    requires ManagerOk(m, c) && !m.opPending && c.pageSize > 0
    requires addr < c.memorySize && addr + len <= c.memorySize && buff.Some? && |buff.value| >= len
    ensures ManagerOk(Request(m, addr, buff, len, c.pageSize), c)
  {
    if len - FirstChunk(addr, len, c.pageSize) > 0 {
      AlignedAfterFirst(addr, c.pageSize);
    }
  }

  /** asdk_i2c_eeprom_init's adjustment of the I2C configuration. */
  function I2cSetup(c: I2cConfig): (r: I2cConfig)
    ensures r.master && r.useInterrupt && r.i2cNo == c.i2cNo && r.slaveAddress == c.slaveAddress
    ensures r.priority >= 2 && (c.priority >= 2 ==> r.priority == c.priority)
  {
    c.(master := true, useInterrupt := true, priority := if c.priority == 0 || c.priority == 1 then 2 else c.priority)
  }

  /** The validation chain and protocol dispatch of asdk_external_eeprom_init. */
  function InitStatus(eepromIndex: nat, cfg: Config, hasTxBuffer: bool, i2cInitStatus: ErrorCode): (r: ErrorCode)
    ensures r == ASDK_MW_EXTERNAL_EEPROM_STATUS_SUCCESS && i2cInitStatus != ASDK_MW_EXTERNAL_EEPROM_STATUS_SUCCESS ==>
            cfg.memorySize > 0 && cfg.pageSize > 0 && cfg.addrWidth > 0 && hasTxBuffer &&
            cfg.pageSize + cfg.addrWidth <= cfg.txBufferSize && eepromIndex < ASDK_EXTERNAL_EEPROM_MAX &&
            cfg.protocol == PROTOCOL_I2C && i2cInitStatus == ASDK_I2C_STATUS_SUCCESS
    ensures cfg.memorySize > 0 && cfg.pageSize > 0 && cfg.addrWidth > 0 && hasTxBuffer &&
            cfg.pageSize + cfg.addrWidth <= cfg.txBufferSize && eepromIndex < ASDK_EXTERNAL_EEPROM_MAX &&
            cfg.protocol == PROTOCOL_I2C && i2cInitStatus == ASDK_I2C_STATUS_SUCCESS ==>
            r == ASDK_MW_EXTERNAL_EEPROM_STATUS_SUCCESS
    ensures cfg.memorySize == 0 ==> r == ASDK_MW_EXTERNAL_EEPROM_ERROR_INVALID_SIZE
    ensures cfg.memorySize > 0 && cfg.pageSize == 0 ==> r == ASDK_MW_EXTERNAL_EEPROM_ERROR_INVALID_PAGE_SIZE
    ensures cfg.memorySize > 0 && cfg.pageSize > 0 && cfg.addrWidth == 0 ==> r == ASDK_MW_EXTERNAL_EEPROM_ERROR_INVALID_ADDRESS_WIDTH
  {
    if cfg.memorySize == 0 then ASDK_MW_EXTERNAL_EEPROM_ERROR_INVALID_SIZE
    else if cfg.pageSize == 0 then ASDK_MW_EXTERNAL_EEPROM_ERROR_INVALID_PAGE_SIZE
    else if cfg.addrWidth == 0 then ASDK_MW_EXTERNAL_EEPROM_ERROR_INVALID_ADDRESS_WIDTH
    else if !hasTxBuffer then ASDK_MW_EXTERNAL_EEPROM_ERROR_NULL_PTR
    else if cfg.pageSize + cfg.addrWidth > cfg.txBufferSize then ASDK_MW_EXTERNAL_EEPROM_ERROR_LESS_BUFFER_SIZE
    else if eepromIndex >= ASDK_EXTERNAL_EEPROM_MAX then ASDK_MW_EXTERNAL_EEPROM_ERROR_INVALID_INDEX
    else if cfg.protocol == PROTOCOL_I2C then
      (if i2cInitStatus != ASDK_I2C_STATUS_SUCCESS then i2cInitStatus else ASDK_MW_EXTERNAL_EEPROM_STATUS_SUCCESS)
    else if cfg.protocol == PROTOCOL_SPI then ASDK_MW_EXTERNAL_EEPROM_ERROR_FEATURE_NOT_IMPLEMENTED
    else ASDK_MW_EXTERNAL_EEPROM_ERROR_INVALID_PROTOCOL
  }

  /** The address loop of page_write: the address bytes go to the front of buf. */
  method WriteAddress(buf: array<byte>, width: nat, addr: nat, bigEndian: bool)
    requires width <= buf.Length
    modifies buf
    ensures buf[..width] == AddressBytes(addr, width, bigEndian)
    ensures buf[width..] == old(buf[width..])
  {
    var i := 0;
    while i < width
      invariant 0 <= i <= width
      invariant forall k | 0 <= k < i :: buf[if bigEndian then k else width - 1 - k] == AddrByte(addr, k)
      invariant buf[width..] == old(buf[width..])
    {
      buf[if bigEndian then i else width - 1 - i] := AddrByte(addr, i);
      i := i + 1;
    }
    forall j | 0 <= j < width
      ensures buf[j] == AddressBytes(addr, width, bigEndian)[j]
    {
      var k := if bigEndian then j else width - 1 - j;
      assert buf[if bigEndian then k else width - 1 - k] == AddrByte(addr, k);
    }
  }

  /** The memcpy of page_write: data lands right after the address. */
  method CopyIn(buf: array<byte>, at: nat, data: seq<byte>)
    requires at + |data| <= buf.Length
    modifies buf
    ensures buf[..at] == old(buf[..at])
    ensures buf[at..at + |data|] == data
  {
    forall k | 0 <= k < |data| {
      buf[at + k] := data[k];
    }
  }

  /**
   * The one slot of g_ext_eeprom (ASDK_EXTERNAL_EEPROM_MAX is 1): its
   * configuration, the write and read managers and the two completion
   * flags the I2C callback raises.
   */
  class ExternalEeprom {
    var config: Config
    var txBuffer: array?<byte>
    var writeMgr: Manager
    var readMgr: Manager
    var readComplete: bool
    var writeComplete: bool

    /** What a successful init guarantees about the configuration. */
    predicate Initialised()
      reads this
    {
      config.pageSize > 0 && config.addrWidth > 0 && txBuffer != null &&
      config.pageSize + config.addrWidth <= config.txBufferSize <= txBuffer.Length
    }

    predicate Valid()
      reads this
    {
      ConfigTypesOk(config) && (config.memorySize > 0 ==> Initialised()) &&
      ManagerOk(writeMgr, config) && ManagerOk(readMgr, config)
    }

    /** The zero-initialised static storage. */
    constructor ()
      ensures Valid()
      ensures config == ZeroConfig && txBuffer == null
      ensures writeMgr == IdleManager && readMgr == IdleManager
      ensures !readComplete && !writeComplete
    {
      config := ZeroConfig;
      txBuffer := null;
      writeMgr := IdleManager;
      readMgr := IdleManager;
      readComplete := false;
      writeComplete := false;
    }

    /**
     * asdk_external_eeprom_init.  A configuration that passes is stored
     * with its I2C part adjusted and both completion flags raised; a
     * request already pending is not carried across a re-initialisation.
     */
    method Init(eepromIndex: nat, cfg: Config, txBuf: array?<byte>, i2cInitStatus: ErrorCode) returns (status: ErrorCode)
      requires Valid() && ConfigTypesOk(cfg)
      requires txBuf != null ==> cfg.txBufferSize <= txBuf.Length
      modifies this
      ensures status == InitStatus(eepromIndex, cfg, txBuf != null, i2cInitStatus)
      ensures status != ASDK_MW_EXTERNAL_EEPROM_STATUS_SUCCESS ==>
              config == old(config) && txBuffer == old(txBuffer) &&
              readComplete == old(readComplete) && writeComplete == old(writeComplete)
      ensures status == ASDK_MW_EXTERNAL_EEPROM_STATUS_SUCCESS ==>
              config == cfg.(i2c := I2cSetup(cfg.i2c)) && txBuffer == txBuf && readComplete && writeComplete &&
              Initialised()
      ensures writeMgr == old(writeMgr) && readMgr == old(readMgr)
      ensures status != ASDK_MW_EXTERNAL_EEPROM_STATUS_SUCCESS || (!writeMgr.opPending && !readMgr.opPending) ==> Valid()
    {
      status := InitStatus(eepromIndex, cfg, txBuf != null, i2cInitStatus);
      if status != ASDK_MW_EXTERNAL_EEPROM_STATUS_SUCCESS {
        return;
      }
      config := cfg.(i2c := I2cSetup(cfg.i2c));
      txBuffer := txBuf;
      readComplete := true;
      writeComplete := true;
    }

    /** asdk_external_eeprom_non_blocking_write: queue a write of len bytes of buff at addr. */
    method NonBlockingWrite(eepromIndex: nat, addr: nat, buff: Option<seq<byte>>, len: nat) returns (status: ErrorCode)
      requires Valid() && IsU32(addr) && IsU32(len)
      requires buff.Some? ==> |buff.value| >= len
      modifies this`writeMgr
      ensures Valid()
      ensures status == Admission(eepromIndex, config.memorySize, addr, buff.Some?, len, old(writeMgr).opPending)
      ensures status != ASDK_MW_EXTERNAL_EEPROM_STATUS_SUCCESS ==> writeMgr == old(writeMgr)
      ensures status == ASDK_MW_EXTERNAL_EEPROM_STATUS_SUCCESS ==>
              writeMgr.opPending && writeMgr.buffer == buff && writeMgr.cbPending == old(writeMgr).cbPending &&
              Pending(writeMgr, config.pageSize) == RequestPlan(addr, len, config.pageSize)
    {
      status := Admission(eepromIndex, config.memorySize, addr, buff.Some?, len, writeMgr.opPending);
      if status == ASDK_MW_EXTERNAL_EEPROM_STATUS_SUCCESS {
        RequestKeepsManagerOk(writeMgr, config, addr, buff, len);
        writeMgr := Request(writeMgr, addr, buff, len, config.pageSize);
      }
    }

    /** asdk_external_eeprom_non_blocking_read: queue a read of len bytes at addr into buff. */
    method NonBlockingRead(eepromIndex: nat, addr: nat, buff: Option<seq<byte>>, len: nat) returns (status: ErrorCode)
      requires Valid() && IsU32(addr) && IsU32(len)
      requires buff.Some? ==> |buff.value| >= len
      modifies this`readMgr
      ensures Valid()
      ensures status == Admission(eepromIndex, config.memorySize, addr, buff.Some?, len, old(readMgr).opPending)
      ensures status != ASDK_MW_EXTERNAL_EEPROM_STATUS_SUCCESS ==> readMgr == old(readMgr)
      ensures status == ASDK_MW_EXTERNAL_EEPROM_STATUS_SUCCESS ==>
              readMgr.opPending && readMgr.buffer == buff && readMgr.cbPending == old(readMgr).cbPending &&
              Pending(readMgr, config.pageSize) == RequestPlan(addr, len, config.pageSize)
    {
      status := Admission(eepromIndex, config.memorySize, addr, buff.Some?, len, readMgr.opPending);
      if status == ASDK_MW_EXTERNAL_EEPROM_STATUS_SUCCESS {
        RequestKeepsManagerOk(readMgr, config, addr, buff, len);
        readMgr := Request(readMgr, addr, buff, len, config.pageSize);
      }
    }

    /**
     * __asdk_external_eeprom_page_write: refuse while a transfer is in
     * flight, otherwise lay out address and data in tx_buffer and hand
     * them to the I2C driver, whose status is i2cStatus.
     */
    method PageWrite(startAddr: nat, data: seq<byte>, i2cStatus: ErrorCode) returns (status: ErrorCode, frame: seq<byte>)
      requires Valid() && Initialised() && |data| <= config.pageSize
      modifies this`writeComplete, txBuffer
      ensures Valid()
      ensures !(old(readComplete) && old(writeComplete)) ==>
              status == ASDK_MW_EXTERNAL_EEPROM_ERROR_BUSY && frame == [] &&
              writeComplete == old(writeComplete) && txBuffer[..] == old(txBuffer[..])
      ensures old(readComplete) && old(writeComplete) ==>
              !writeComplete &&
              txBuffer[..config.addrWidth] == AddressBytes(startAddr, config.addrWidth, config.bigEndian) &&
              txBuffer[config.addrWidth..config.addrWidth + |data|] == data
      ensures old(readComplete) && old(writeComplete) && config.protocol == PROTOCOL_I2C ==>
              frame == AddressBytes(startAddr, config.addrWidth, config.bigEndian) + data &&
              status == (if i2cStatus == ASDK_I2C_STATUS_SUCCESS then ASDK_MW_EXTERNAL_EEPROM_STATUS_SUCCESS else i2cStatus)
      ensures old(readComplete) && old(writeComplete) && config.protocol != PROTOCOL_I2C ==>
              frame == [] && status == ASDK_MW_EXTERNAL_EEPROM_ERROR_FEATURE_NOT_IMPLEMENTED
      ensures status == ASDK_MW_EXTERNAL_EEPROM_STATUS_SUCCESS ==>
              !writeComplete && frame == AddressBytes(startAddr, config.addrWidth, config.bigEndian) + data
    {
      if !readComplete || !writeComplete {
        return ASDK_MW_EXTERNAL_EEPROM_ERROR_BUSY, [];
      }
      writeComplete := false;
      var buf, width := txBuffer, config.addrWidth;
      WriteAddress(buf, width, startAddr, config.bigEndian);
      CopyIn(buf, width, data);
      if config.protocol == PROTOCOL_I2C {
        frame := buf[..width + |data|];
        assert frame == buf[..width] + buf[width..width + |data|];
        status := if i2cStatus == ASDK_I2C_STATUS_SUCCESS then ASDK_MW_EXTERNAL_EEPROM_STATUS_SUCCESS else i2cStatus;
      } else {
        frame := [];
        status := ASDK_MW_EXTERNAL_EEPROM_ERROR_FEATURE_NOT_IMPLEMENTED;
      }
    }

    /**
     * __asdk_i2c_eeprom_callback: a finished I2C write or read raises its
     * completion flag and, when the manager armed it, notifies the user
     * once.  With a single slot the searched index is always 0.
     */
    method OnI2cEvent(i2cNo: nat, i2cStatus: nat) returns (notified: Option<nat>)
      requires Valid()
      modifies this`writeComplete, this`readComplete, this`writeMgr, this`readMgr
      ensures Valid()
      ensures i2cStatus == I2C_STATUS_WR_COMPLETE ==>
              writeComplete && readComplete == old(readComplete) && !writeMgr.cbPending && readMgr == old(readMgr) &&
              writeMgr == old(writeMgr).(cbPending := false) &&
              notified == (if old(writeMgr).cbPending then Some(STATUS_WRITE_COMPLETE) else None)
      ensures i2cStatus == I2C_STATUS_RD_COMPLETE ==>
              readComplete && writeComplete == old(writeComplete) && !readMgr.cbPending && writeMgr == old(writeMgr) &&
              readMgr == old(readMgr).(cbPending := false) &&
              notified == (if old(readMgr).cbPending then Some(STATUS_READ_COMPLETE) else None)
      ensures i2cStatus != I2C_STATUS_WR_COMPLETE && i2cStatus != I2C_STATUS_RD_COMPLETE ==>
              notified.None? && writeComplete == old(writeComplete) && readComplete == old(readComplete) &&
              writeMgr == old(writeMgr) && readMgr == old(readMgr)
    {
      notified := None;
      if i2cStatus == I2C_STATUS_WR_COMPLETE {
        writeComplete := true;
        if writeMgr.cbPending {
          notified := Some(STATUS_WRITE_COMPLETE);
          writeMgr := writeMgr.(cbPending := false);
        }
      }
      if i2cStatus == I2C_STATUS_RD_COMPLETE {
        readComplete := true;
        if readMgr.cbPending {
          notified := Some(STATUS_READ_COMPLETE);
          readMgr := readMgr.(cbPending := false);
        }
      }
    }

    /**
     * __asdk_external_eeprom_page_read: refuse while a transfer is in
     * flight, otherwise send the address (status i2cWriteStatus), wait for
     * its completion callback, then start the read (status i2cReadStatus).
     */
    method PageRead(startAddr: nat, i2cWriteStatus: ErrorCode, i2cReadStatus: ErrorCode)
      returns (status: ErrorCode, frame: seq<byte>, notified: Option<nat>)
      requires Valid()
      modifies this`writeComplete, this`readComplete, this`writeMgr, this`readMgr
      ensures Valid() && readMgr == old(readMgr)
      ensures !(old(readComplete) && old(writeComplete)) ==>
              status == ASDK_MW_EXTERNAL_EEPROM_ERROR_BUSY && frame == [] && notified.None? &&
              writeComplete == old(writeComplete) && readComplete == old(readComplete) && writeMgr == old(writeMgr)
      ensures old(readComplete) && old(writeComplete) && config.protocol == PROTOCOL_I2C ==>
              frame == AddressBytes(startAddr, config.addrWidth, config.bigEndian) && !readComplete &&
              (i2cWriteStatus != ASDK_I2C_STATUS_SUCCESS ==>
                 status == i2cWriteStatus && !writeComplete && notified.None? && writeMgr == old(writeMgr)) &&
              (i2cWriteStatus == ASDK_I2C_STATUS_SUCCESS ==>
                 writeComplete && writeMgr == old(writeMgr).(cbPending := false) &&
                 notified == (if old(writeMgr).cbPending then Some(STATUS_WRITE_COMPLETE) else None) &&
                 status == (if i2cReadStatus == ASDK_I2C_STATUS_SUCCESS then ASDK_MW_EXTERNAL_EEPROM_STATUS_SUCCESS else i2cReadStatus))
      ensures old(readComplete) && old(writeComplete) && config.protocol != PROTOCOL_I2C ==>
              frame == [] && notified.None? && !readComplete && !writeComplete && writeMgr == old(writeMgr) &&
              status == ASDK_MW_EXTERNAL_EEPROM_ERROR_FEATURE_NOT_IMPLEMENTED
      ensures status == ASDK_MW_EXTERNAL_EEPROM_STATUS_SUCCESS ==>
              !readComplete && frame == AddressBytes(startAddr, config.addrWidth, config.bigEndian)
    {
      notified := None;
      if !readComplete || !writeComplete {
        return ASDK_MW_EXTERNAL_EEPROM_ERROR_BUSY, [], None;
      }
      writeComplete := false;
      readComplete := false;
      if config.protocol != PROTOCOL_I2C {
        return ASDK_MW_EXTERNAL_EEPROM_ERROR_FEATURE_NOT_IMPLEMENTED, [], None;
      }
      frame := AddressBytes(startAddr, config.addrWidth, config.bigEndian);
      if i2cWriteStatus != ASDK_I2C_STATUS_SUCCESS {
        status := i2cWriteStatus;
        return;
      }
      // The address write completes: its callback ends the wait.
      notified := OnI2cEvent(config.i2c.i2cNo, I2C_STATUS_WR_COMPLETE);
      status := if i2cReadStatus == ASDK_I2C_STATUS_SUCCESS then ASDK_MW_EXTERNAL_EEPROM_STATUS_SUCCESS else i2cReadStatus;
    }

    /** The write branch of asdk_external_eeprom_iteration: serve the next chunk of the pending write. */
    method ServeWrite(i2cStatus: ErrorCode) returns (status: ErrorCode, served: Option<Chunk>, frame: seq<byte>)
      requires Valid() && writeMgr.opPending
      modifies this`writeComplete, this`writeMgr, txBuffer
      ensures Valid()
      ensures !(old(readComplete) && old(writeComplete)) ==> status == ASDK_MW_EXTERNAL_EEPROM_ERROR_BUSY
      ensures old(readComplete) && old(writeComplete) && config.protocol == PROTOCOL_I2C ==>
              status == (if i2cStatus == ASDK_I2C_STATUS_SUCCESS then ASDK_MW_EXTERNAL_EEPROM_STATUS_SUCCESS else i2cStatus)
      ensures status != ASDK_MW_EXTERNAL_EEPROM_STATUS_SUCCESS ==> served.None? && writeMgr == old(writeMgr)
      ensures status == ASDK_MW_EXTERNAL_EEPROM_STATUS_SUCCESS ==>
              served == Some(Head(old(writeMgr))) && !writeComplete && writeMgr == Advance(old(writeMgr), config.pageSize) &&
              frame == AddressBytes(old(writeMgr).address, config.addrWidth, config.bigEndian) + Payload(old(writeMgr))
    {
      var m := writeMgr;
      ChunkFitsPage(m, config);
      var data := Payload(m);
      status, frame := PageWrite(m.address, data, i2cStatus);
      served := None;
      if status != ASDK_MW_EXTERNAL_EEPROM_STATUS_SUCCESS {
        return;
      }
      served := Some(Head(m));
      FinishWrite();
    }

    /** The bookkeeping after a chunk of the pending write went to the bus. */
    method FinishWrite()
      requires Valid() && writeMgr.opPending
      modifies this`writeMgr
      ensures Valid() && writeMgr == Advance(old(writeMgr), config.pageSize)
    {
      AdvanceKeepsManagerOk(writeMgr, config);
      writeMgr := Advance(writeMgr, config.pageSize);
    }

    /** The read branch of asdk_external_eeprom_iteration: serve the next chunk of the pending read. */
    method ServeRead(i2cWriteStatus: ErrorCode, i2cReadStatus: ErrorCode)
      returns (status: ErrorCode, served: Option<Chunk>, frame: seq<byte>, notified: Option<nat>)
      requires Valid() && readMgr.opPending
      modifies this`writeComplete, this`readComplete, this`writeMgr, this`readMgr
      ensures Valid()
      ensures !(old(readComplete) && old(writeComplete)) ==> status == ASDK_MW_EXTERNAL_EEPROM_ERROR_BUSY
      ensures old(readComplete) && old(writeComplete) && config.protocol == PROTOCOL_I2C ==>
              status == (if i2cWriteStatus != ASDK_I2C_STATUS_SUCCESS then i2cWriteStatus
                         else if i2cReadStatus != ASDK_I2C_STATUS_SUCCESS then i2cReadStatus
                         else ASDK_MW_EXTERNAL_EEPROM_STATUS_SUCCESS)
      ensures status != ASDK_MW_EXTERNAL_EEPROM_STATUS_SUCCESS ==> served.None? && readMgr == old(readMgr)
      ensures status == ASDK_MW_EXTERNAL_EEPROM_STATUS_SUCCESS ==>
              served == Some(Head(old(readMgr))) && !readComplete && readMgr == Advance(old(readMgr), config.pageSize) &&
              frame == AddressBytes(old(readMgr).address, config.addrWidth, config.bigEndian)
    {
      var m := readMgr;
      status, frame, notified := PageRead(m.address, i2cWriteStatus, i2cReadStatus);
      served := None;
      if status != ASDK_MW_EXTERNAL_EEPROM_STATUS_SUCCESS {
        return;
      }
      served := Some(Head(m));
      FinishRead();
    }

    /** The bookkeeping after a chunk of the pending read went to the bus. */
    method FinishRead()
      requires Valid() && readMgr.opPending
      modifies this`readMgr
      ensures Valid() && readMgr == Advance(old(readMgr), config.pageSize)
    {
      AdvanceKeepsManagerOk(readMgr, config);
      readMgr := Advance(readMgr, config.pageSize);
    }

    /**
     * asdk_external_eeprom_iteration: one chunk of the pending write, or
     * else of the pending read, goes to the bus.  With nothing pending the
     * call answers ASDK_ERROR.
     */
    method Iteration(eepromIndex: nat, i2cWriteStatus: ErrorCode, i2cReadStatus: ErrorCode)
      returns (status: ErrorCode, served: Option<Chunk>, frame: seq<byte>, notified: Option<nat>)
      requires Valid()
      modifies this`writeComplete, this`readComplete, this`writeMgr, this`readMgr, txBuffer
      ensures Valid()
      ensures eepromIndex >= ASDK_EXTERNAL_EEPROM_MAX ==>
              status == ASDK_MW_EXTERNAL_EEPROM_ERROR_INVALID_INDEX && served.None? &&
              writeMgr == old(writeMgr) && readMgr == old(readMgr)
      ensures eepromIndex < ASDK_EXTERNAL_EEPROM_MAX && !old(writeMgr).opPending && !old(readMgr).opPending ==>
              status == ASDK_ERROR && served.None? && writeMgr == old(writeMgr) && readMgr == old(readMgr)
      ensures eepromIndex < ASDK_EXTERNAL_EEPROM_MAX && old(writeMgr).opPending ==>
              readMgr == old(readMgr) &&
              (status == ASDK_MW_EXTERNAL_EEPROM_STATUS_SUCCESS ==>
                 served == Some(Pending(old(writeMgr), config.pageSize)[0]) &&
                 Pending(writeMgr, config.pageSize) == Pending(old(writeMgr), config.pageSize)[1..]) &&
              (status != ASDK_MW_EXTERNAL_EEPROM_STATUS_SUCCESS ==> served.None? && writeMgr == old(writeMgr))
      ensures eepromIndex < ASDK_EXTERNAL_EEPROM_MAX && !old(writeMgr).opPending && old(readMgr).opPending ==>
              (status == ASDK_MW_EXTERNAL_EEPROM_STATUS_SUCCESS ==>
                 served == Some(Pending(old(readMgr), config.pageSize)[0]) &&
                 Pending(readMgr, config.pageSize) == Pending(old(readMgr), config.pageSize)[1..]) &&
              (status != ASDK_MW_EXTERNAL_EEPROM_STATUS_SUCCESS ==> served.None? && readMgr == old(readMgr))
    {
      served, frame, notified := None, [], None;
      if eepromIndex >= ASDK_EXTERNAL_EEPROM_MAX {
        return ASDK_MW_EXTERNAL_EEPROM_ERROR_INVALID_INDEX, None, [], None;
      }
      if writeMgr.opPending {
        AdvanceDropsHead(writeMgr, config.pageSize);
        status, served, frame := ServeWrite(i2cWriteStatus);
      } else if readMgr.opPending {
        AdvanceDropsHead(readMgr, config.pageSize);
        status, served, frame, notified := ServeRead(i2cWriteStatus, i2cReadStatus);
      } else {
        status := ASDK_ERROR;
      }
    }
  }
}
