// The CAN driver of the CYT2B75 platform
// (asdk-gen2/platform/cyt2b75/dal/src/asdk_can.c): the translation of an
// asdk_can_config_t into the controller configuration handed to the
// vendor's CAN-FD driver (buffer sizes, bit timing, acceptance filters),
// the status chain of init, and the driver's small query and event paths.
//
// The vendor driver, the pin mux and the clock driver are not part of this
// model: their outcomes are inputs. The controller's acceptance filtering
// follows the standard message ID filter element of the Bosch M_CAN
// controller (classic filter: ID AND mask equals filter AND mask; the
// first enabled matching element decides; non-matching frames are
// rejected, as the driver configures).

module CanDal {
  import opened Common
  import opened AsdkError
  import opened CanFrame

  const CAN_PERIPHERAL_CLOCK_HZ: nat := 40_000_000
  const CAN_HW_RX_FIFO_SIZE: nat := 64
  const CAN_HW_FILTER_ELEMENT_MAX: nat := 128
  /** ASDK_CAN_MODULE_NOT_DEFINED: no channel's interrupt is being served. */
  const CAN_MODULE_NOT_DEFINED: nat := 6

  const ASDK_CAN_MODE_STANDARD: nat := 0
  const ASDK_CAN_MODE_FD: nat := 1
  const ASDK_CAN_ID_STANDARD: nat := 0

  // ---------------------------------------------------------------------
  // Channel map
  // ---------------------------------------------------------------------

  /** An entry of can_map: the CAN-FD block and its channel. */
  datatype CanInstance = CanInstance(canfd: nat, channel: nat)

  /** can_map: channels 0-2 are CANFD_0's channels, 3-5 CANFD_1's. */
  function ChannelMap(ch: nat): (r: CanInstance)
    requires ch < CAN_CH_MAX
    ensures r.canfd < 2 && r.channel < 3
    ensures ch == r.canfd * 3 + r.channel
  {
    if ch < 3 then CanInstance(0, ch) else CanInstance(1, ch - 3)
  }

  // ---------------------------------------------------------------------
  // Buffer data sizes
  // ---------------------------------------------------------------------

  /** The four data-size fields of the controller configuration, in bytes. */
  datatype DataSizes = DataSizes(rxBuffer: nat, txBuffer: nat, rxFifo0: nat, rxFifo1: nat)

  /**
   * __asdk_set_can_max_dlc: a supported maximum payload size sets all four
   * buffer sizes to it; any other value is refused (INVALID_DLC, None).
   */
  function MaxDlc(maxDlc: nat): (r: Option<DataSizes>)
    ensures r.Some? <==> maxDlc in {8, 12, 16, 20, 24, 32, 48, 64}
    ensures r.Some? ==> r.value == DataSizes(maxDlc, maxDlc, maxDlc, maxDlc)
  {
    if maxDlc == 8 then Some(DataSizes(8, 8, 8, 8))
    else if maxDlc == 12 then Some(DataSizes(12, 12, 12, 12))
    else if maxDlc == 16 then Some(DataSizes(16, 16, 16, 16))
    else if maxDlc == 20 then Some(DataSizes(20, 20, 20, 20))
    else if maxDlc == 24 then Some(DataSizes(24, 24, 24, 24))
    else if maxDlc == 32 then Some(DataSizes(32, 32, 32, 32))
    else if maxDlc == 48 then Some(DataSizes(48, 48, 48, 48))
    else if maxDlc == 64 then Some(DataSizes(64, 64, 64, 64))
    else None
  }

  // ---------------------------------------------------------------------
  // Baud rates and bit timing
  // ---------------------------------------------------------------------

  /** The bit rate an asdk_can_baudrate_t value names (125K, 250K, 500K, 1M). */
  function NominalBps(baud: nat): nat
    requires baud < 4
  {
    [125_000, 250_000, 500_000, 1_000_000][baud]
  }

  /** The bit rate an asdk_can_data_baudrate_t value names (500K, 1M, 2M, 4M, 5M, 8M). */
  function DataBps(baud: nat): nat
    requires baud < 6
  {
    [500_000, 1_000_000, 2_000_000, 4_000_000, 5_000_000, 8_000_000][baud]
  }

  /** The time quanta per data bit the driver's design assumes for each data baud rate. */
  function DataQuanta(baud: nat): nat
    requires baud < 6
  {
    [40, 40, 20, 10, 8, 5][baud]
  }

  /**
   * __asdk_set_can_baudrate: the nominal prescaler. Each supported rate
   * divides the 40 MHz clock into 40 time quanta per bit; other values are
   * refused (INVALID_BAUDRATE, None).
   */
  function NominalPrescaler(baud: nat): (p: Option<nat>)
    ensures p.Some? <==> baud < 4
    ensures p.Some? ==> CAN_PERIPHERAL_CLOCK_HZ == NominalBps(baud) * (p.value + 1) * 40
  {
    if baud == 0 then Some(7)
    else if baud == 1 then Some(3)
    else if baud == 2 then Some(1)
    else if baud == 3 then Some(0)
    else None
  }

  /**
   * __asdk_set_can_data_baudrate: the data-phase prescaler; each
   * supported rate divides the clock into DataQuanta time quanta per bit;
   * other values are refused (INVALID_DATA_BAUDRATE, None).
   */
  function DataPrescaler(baud: nat): (p: Option<nat>)
    ensures p.Some? <==> baud < 6
    ensures p.Some? ==> CAN_PERIPHERAL_CLOCK_HZ == DataBps(baud) * (p.value + 1) * DataQuanta(baud)
  {
    if baud == 0 then Some(1)
    else if baud < 6 then Some(0)
    else None
  }

  /** asdk_can_bit_time_settings_t: segment lengths in time quanta (uint8 each). */
  datatype BitTime = BitTime(propSegment: nat, phaseSegment1: nat, phaseSegment2: nat, syncJumpWidth: nat)

  /** The vendor's bit-rate record: a prescaler and the uint8 segment registers. */
  datatype Bitrate = Bitrate(prescaler: nat, timeSegment1: nat, timeSegment2: nat, syncJumpWidth: nat)

  const ZERO_BITRATE: Bitrate := Bitrate(0, 0, 0, 0)

  /**
   * __asdk_set_can_bit_timing: the segment registers hold one less than the
   * lengths (propagation and phase 1 together before the sample point),
   * truncated to 8 bits; the prescaler is kept.
   */
  function WithBitTiming(b: Bitrate, bt: BitTime): (r: Bitrate)
    ensures r.prescaler == b.prescaler && r.syncJumpWidth == bt.syncJumpWidth
    ensures r.timeSegment1 < U8_LIMIT && r.timeSegment2 < U8_LIMIT
    ensures 1 <= bt.propSegment + bt.phaseSegment1 <= U8_LIMIT ==> r.timeSegment1 + 1 == bt.propSegment + bt.phaseSegment1
    ensures 1 <= bt.phaseSegment2 <= U8_LIMIT ==> r.timeSegment2 + 1 == bt.phaseSegment2
  {
    Bitrate(b.prescaler, (bt.propSegment + bt.phaseSegment1 - 1) % U8_LIMIT,
            (bt.phaseSegment2 - 1) % U8_LIMIT, bt.syncJumpWidth)
  }

  /**
   * The bit rate the controller runs at: each segment register counts one
   * quantum more than it holds, and a bit has one synchronisation quantum
   * besides.
   */
  function BitRate(b: Bitrate): nat
  {
    CAN_PERIPHERAL_CLOCK_HZ / ((b.prescaler + 1) * (b.timeSegment1 + b.timeSegment2 + 3))
  }

  /** A bit time of n quanta whose segments fit the 8-bit registers. */
  predicate QuantaFit(bt: BitTime, n: nat)
  {
    1 <= bt.propSegment + bt.phaseSegment1 <= U8_LIMIT && 1 <= bt.phaseSegment2 <= U8_LIMIT
    && 1 + bt.propSegment + bt.phaseSegment1 + bt.phaseSegment2 == n
  }

  /** asdk_can_bitrate_config_t; the classic view shares its layout with the first two FD members. */
  datatype BitrateConfig = BitrateConfig(nominalBaudrate: nat, nominalBitTime: BitTime,
                                         dataBaudrate: nat, dataBitTime: BitTime)

  /** The nominal (arbitration) and fast (data phase) bit-rate records. */
  datatype Bitrates = Bitrates(nominal: Bitrate, fast: Bitrate)

  /** A prescaler setter applied to a record: its value when the rate is supported, else unchanged. */
  function SetPrescaler(b: Bitrate, p: Option<nat>): Bitrate
  {
    if p.Some? then b.(prescaler := p.value) else b
  }

  /**
   * __asdk_set_can_bitrate_config as written: in FD mode the data baud
   * rate is handed to the nominal setter, so it overwrites the nominal
   * prescaler (read as a nominal enum) and the fast prescaler keeps 0.
   */
  function BitrateConfigAsWritten(mode: nat, c: BitrateConfig): (r: Bitrates)
    ensures mode != ASDK_CAN_MODE_STANDARD && c.dataBaudrate < 4 ==>
              r.nominal.prescaler == NominalPrescaler(c.dataBaudrate).value
    ensures mode != ASDK_CAN_MODE_STANDARD ==> r.fast.prescaler == 0
  {
    var nominal := WithBitTiming(SetPrescaler(ZERO_BITRATE, NominalPrescaler(c.nominalBaudrate)), c.nominalBitTime);
    if mode == ASDK_CAN_MODE_STANDARD then Bitrates(nominal, ZERO_BITRATE)
    else
      var nominal' := WithBitTiming(SetPrescaler(nominal, NominalPrescaler(c.dataBaudrate)), c.nominalBitTime);
      Bitrates(nominal', WithBitTiming(ZERO_BITRATE, c.dataBitTime))
  }

  /**
   * __asdk_set_can_bitrate_config with the data baud rate handed to the
   * data-phase setter. Like the source, an unsupported rate leaves that
   * prescaler at its zero initial value.
   */
  function ConfigureBitrates(mode: nat, c: BitrateConfig): (r: Bitrates)
    ensures r.nominal.prescaler == (if c.nominalBaudrate < 4 then NominalPrescaler(c.nominalBaudrate).value else 0)
    ensures mode == ASDK_CAN_MODE_STANDARD ==> r.fast == ZERO_BITRATE
    ensures mode != ASDK_CAN_MODE_STANDARD ==>
              r.fast.prescaler == (if c.dataBaudrate < 6 then DataPrescaler(c.dataBaudrate).value else 0)
  {
    var nominal := WithBitTiming(SetPrescaler(ZERO_BITRATE, NominalPrescaler(c.nominalBaudrate)), c.nominalBitTime);
    if mode == ASDK_CAN_MODE_STANDARD then Bitrates(nominal, ZERO_BITRATE)
    else Bitrates(nominal, WithBitTiming(SetPrescaler(ZERO_BITRATE, DataPrescaler(c.dataBaudrate)), c.dataBitTime))
  }

  /** A supported nominal rate with a 40-quantum bit time runs the bus at exactly that rate. */
  lemma NominalRateIsRequested(b: Bitrate, baud: nat, bt: BitTime)
    requires baud < 4 && QuantaFit(bt, 40)
    ensures BitRate(WithBitTiming(SetPrescaler(b, NominalPrescaler(baud)), bt)) == NominalBps(baud)
  {
    var r := WithBitTiming(SetPrescaler(b, NominalPrescaler(baud)), bt);
    assert r.timeSegment1 + r.timeSegment2 + 3 == 40;
    assert r.prescaler == NominalPrescaler(baud).value;
  }

  /** A supported data rate with its bit time of DataQuanta quanta runs the data phase at that rate. */
  lemma DataRateIsRequested(b: Bitrate, baud: nat, bt: BitTime)
    requires baud < 6 && QuantaFit(bt, DataQuanta(baud))
    ensures BitRate(WithBitTiming(SetPrescaler(b, DataPrescaler(baud)), bt)) == DataBps(baud)
  {
    var r := WithBitTiming(SetPrescaler(b, DataPrescaler(baud)), bt);
    assert r.timeSegment1 + r.timeSegment2 + 3 == DataQuanta(baud);
    assert r.prescaler == DataPrescaler(baud).value;
  }

  /**
   * The configured controller runs the arbitration phase at the nominal
   * rate and, in FD mode, the data phase at the data rate.
   */
  lemma ConfiguredRatesAreRequested(mode: nat, c: BitrateConfig)
    requires c.nominalBaudrate < 4 && QuantaFit(c.nominalBitTime, 40)
    requires mode != ASDK_CAN_MODE_STANDARD ==> c.dataBaudrate < 6 && QuantaFit(c.dataBitTime, DataQuanta(c.dataBaudrate))
    ensures BitRate(ConfigureBitrates(mode, c).nominal) == NominalBps(c.nominalBaudrate)
    ensures mode != ASDK_CAN_MODE_STANDARD ==> BitRate(ConfigureBitrates(mode, c).fast) == DataBps(c.dataBaudrate)
  {
    NominalRateIsRequested(ZERO_BITRATE, c.nominalBaudrate, c.nominalBitTime);
    if mode != ASDK_CAN_MODE_STANDARD {
      DataRateIsRequested(ZERO_BITRATE, c.dataBaudrate, c.dataBitTime);
    }
  }

  /**
   * FD mode at 500 kbit/s nominal and 500 kbit/s data, 40 quanta per bit:
   * as written, arbitration runs at 125 kbit/s and the data phase at
   * 1 Mbit/s; with the data setter both run at 500 kbit/s.
   */
  lemma FdDataBaudOverwritesNominal()
    ensures var bt := BitTime(1, 28, 10, 4);
            var c := BitrateConfig(2, bt, 0, bt);
            var w := BitrateConfigAsWritten(ASDK_CAN_MODE_FD, c);
            var f := ConfigureBitrates(ASDK_CAN_MODE_FD, c);
            && BitRate(w.nominal) == 125_000 && BitRate(w.fast) == 1_000_000
            && BitRate(f.nominal) == 500_000 && BitRate(f.fast) == 500_000
  {
    var bt := BitTime(1, 28, 10, 4);
    var c := BitrateConfig(2, bt, 0, bt);
    var w := BitrateConfigAsWritten(ASDK_CAN_MODE_FD, c);
    assert w.nominal == Bitrate(7, 28, 9, 4);
    assert w.fast == Bitrate(0, 28, 9, 4);
    ConfiguredRatesAreRequested(ASDK_CAN_MODE_FD, c);
  }

  // ---------------------------------------------------------------------
  // Acceptance filters
  // ---------------------------------------------------------------------

  /** The M_CAN standard filter element configuration (SFEC), in register order. */
  datatype FilterElementConfig =
    | Disable | StoreRxFifo0 | StoreRxFifo1 | Reject | SetPriority
    | SetPriorityStoreRxFifo0 | SetPriorityStoreRxFifo1 | StoreRxBuffer

  /** The M_CAN standard filter type (SFT), in register order. */
  datatype StdFilterType = Range | Dual | Classic | FilterDisabled

  /** A standard message ID filter element: two 11-bit identifiers, its action and its type. */
  datatype StdFilter = StdFilter(sfid1: bv11, sfid2: bv11, sfec: FilterElementConfig, sft: StdFilterType)

  /** The value of the zero-initialised static filter table's elements. */
  const CLEARED_FILTER: StdFilter := StdFilter(0, 0, Disable, Range)

  /** The element written when no ID list is given: every bit of the mask is 0. */
  const ACCEPT_ALL: StdFilter := StdFilter(0, 0, SetPriorityStoreRxFifo0, Classic)

  /** A 32-bit identifier stored into the 11-bit SFID1 field: its low eleven bits. */
  function Sfid(id: bv32): bv11
  {
    (id & 0x7FF) as bv11
  }

  /** The element written for one identifier of the list: an exact match. */
  function ClassicFilter(id: bv32): StdFilter
  {
    StdFilter(Sfid(id), 0x7FF, SetPriorityStoreRxFifo0, Classic)
  }

  /** A classic filter element matches an identifier when they agree on every bit of its mask. */
  predicate Matches(f: StdFilter, id: bv11)
  {
    f.sft == Classic && id & f.sfid2 == f.sfid1 & f.sfid2
  }

  /** The action taken for an identifier: that of the first enabled matching element, else rejection. */
  function Action(filters: seq<StdFilter>, id: bv11): FilterElementConfig
    decreases |filters|
  {
    if |filters| == 0 then Reject
    else if filters[0].sfec != Disable && Matches(filters[0], id) then filters[0].sfec
    else Action(filters[1..], id)
  }

  /** A frame with this identifier is stored into RX FIFO 0 by the first count elements. */
  predicate Accepted(filters: seq<StdFilter>, count: nat, id: bv11)
    requires count <= |filters|
  {
    Action(filters[..count], id) in {StoreRxFifo0, SetPriorityStoreRxFifo0}
  }

  /** asdk_can_hw_filter_t: whether mailbox lists are given, and the ID list with its length. */
  datatype HwFilter = HwFilter(txMailboxes: bool, rxMailboxes: bool, canIds: Option<seq<bv32>>, length: nat)

  /**
   * What the filter loop needs of its caller: the list holds length
   * identifiers, and there are no more of them than the static table has
   * elements.
   */
  predicate HwFilterFits(hw: HwFilter)
  {
    hw.canIds.Some? ==> hw.length <= |hw.canIds.value| && hw.length <= CAN_HW_FILTER_ELEMENT_MAX
  }

  /** The filter-related fields of the controller configuration. */
  datatype FilterSettings = FilterSettings(txBuffers: nat, rxBuffers: nat, sidFilters: nat, extidFilters: nat,
                                           rejectNonMatching: bool, rejectRemote: bool,
                                           rxFifo0Elements: nat, rxFifo1Elements: nat)

  /** The settings __asdk_set_can_hw_filter writes into a zero-initialised configuration. */
  function FilterSettingsFor(idType: nat, hw: HwFilter): (s: FilterSettings)
    ensures s.rejectNonMatching && s.rejectRemote
    ensures s.rxFifo0Elements == CAN_HW_RX_FIFO_SIZE && s.rxFifo1Elements == 0 && s.rxBuffers == 0
    ensures s.txBuffers == (if hw.txMailboxes then 0 else 1)
    ensures idType == ASDK_CAN_ID_STANDARD ==> s.extidFilters == 0 && s.sidFilters == (if hw.canIds.None? then 1 else hw.length)
    ensures idType != ASDK_CAN_ID_STANDARD ==> s.sidFilters == 0 && s.extidFilters == (if hw.canIds.None? then 1 else hw.length)
  {
    var count := if hw.canIds.None? then 1 else hw.length;
    FilterSettings(if hw.txMailboxes then 0 else 1, 0,
                   if idType == ASDK_CAN_ID_STANDARD then count else 0,
                   if idType == ASDK_CAN_ID_STANDARD then 0 else count,
                   true, true, CAN_HW_RX_FIFO_SIZE, 0)
  }

  /** The first n elements written for an ID list. */
  function ListFilters(ids: seq<bv32>, n: nat): (r: seq<StdFilter>)
    requires n <= |ids|
    ensures |r| == n
  {
    seq(n, i requires 0 <= i < n => ClassicFilter(ids[i]))
  }

  /** The static filter table after __asdk_set_can_hw_filter. */
  function FilterTableAfter(t: seq<StdFilter>, idType: nat, hw: HwFilter): (r: seq<StdFilter>)
    requires |t| == CAN_HW_FILTER_ELEMENT_MAX && HwFilterFits(hw)
    ensures |r| == |t|
  {
    if idType != ASDK_CAN_ID_STANDARD then t
    else match hw.canIds
      case None => t[0 := ACCEPT_ALL]
      case Some(ids) => ListFilters(ids, hw.length) + t[hw.length..]
  }

  /** The identifier is among the first n of the list, as stored in 11 bits. */
  predicate Listed(ids: seq<bv32>, n: nat, id: bv11)
    requires n <= |ids|
  {
    exists i :: 0 <= i < n && Sfid(ids[i]) == id
  }

  /** Listed, looked at from the head of the list. */
  lemma ListedFront(ids: seq<bv32>, n: nat, id: bv11)
    requires 0 < n <= |ids|
    ensures Listed(ids, n, id) <==> Sfid(ids[0]) == id || Listed(ids[1..], n - 1, id)
  {
    if Listed(ids, n, id) && Sfid(ids[0]) != id {
      var i :| 0 <= i < n && Sfid(ids[i]) == id;
      assert ids[1..][i - 1] == ids[i];
    }
    if Listed(ids[1..], n - 1, id) {
      var i :| 0 <= i < n - 1 && Sfid(ids[1..][i]) == id;
      assert ids[i + 1] == ids[1..][i];
    }
  }

  /** An exact-match element matches just the identifier it holds. */
  lemma ClassicFilterMatches(x: bv32, id: bv11)
    ensures Matches(ClassicFilter(x), id) <==> Sfid(x) == id
  {
    ExactFilterMatches(Sfid(x), id);
  }

  /** An element with a full mask matches just its identifier. */
  lemma ExactFilterMatches(s: bv11, id: bv11)
    ensures Matches(StdFilter(s, 0x7FF, SetPriorityStoreRxFifo0, Classic), id) <==> s == id
  {
    FullMask(s, id);
  }

  /** Two identifiers agree on all eleven bits exactly when they are equal. */
  lemma FullMask(s: bv11, id: bv11)
    ensures id & 0x7FF == s & 0x7FF <==> s == id
  {
  }

  /** The elements written for an ID list accept exactly the listed identifiers. */
  lemma {:induction false} ListFiltersAction(ids: seq<bv32>, n: nat, id: bv11)
    requires n <= |ids|
    ensures Action(ListFilters(ids, n), id) == if Listed(ids, n, id) then SetPriorityStoreRxFifo0 else Reject
    decreases n
  {
    if n > 0 {
      var l := ListFilters(ids, n);
      assert l[1..] == ListFilters(ids[1..], n - 1);
      ListFiltersAction(ids[1..], n - 1, id);
      ClassicFilterMatches(ids[0], id);
      ListedFront(ids, n, id);
    }
  }

  /**
   * With standard identifiers, the table and count the driver programs
   * accept every identifier when no list is given, and exactly the listed
   * identifiers (as stored in 11 bits) otherwise.
   */
  lemma StandardFilterAccepts(t: seq<StdFilter>, hw: HwFilter, id: bv11)
    requires |t| == CAN_HW_FILTER_ELEMENT_MAX && HwFilterFits(hw)
    ensures FilterSettingsFor(ASDK_CAN_ID_STANDARD, hw).sidFilters <= CAN_HW_FILTER_ELEMENT_MAX
    ensures Accepted(FilterTableAfter(t, ASDK_CAN_ID_STANDARD, hw), FilterSettingsFor(ASDK_CAN_ID_STANDARD, hw).sidFilters, id)
            <==> hw.canIds.None? || Listed(hw.canIds.value, hw.length, id)
  {
    var table := FilterTableAfter(t, ASDK_CAN_ID_STANDARD, hw);
    match hw.canIds
    case None =>
      assert table[..1] == [ACCEPT_ALL];
      assert Matches(ACCEPT_ALL, id);
    case Some(ids) =>
      assert table[..hw.length] == ListFilters(ids, hw.length);
      ListFiltersAction(ids, hw.length, id);
  }

  // ---------------------------------------------------------------------
  // Events
  // ---------------------------------------------------------------------

  /**
   * __asdk_cyt2b75_can_error_handler: bus error code 5 is reported as
   * bus-off, 7 (error passive) as a receive error, any other as an error.
   */
  function ErrorEventOf(code: nat): (e: CanEvent)
    ensures e == BusOff <==> code == 5
    ensures e == RxError <==> code == 7
    ensures e == ErrorEvent <==> code != 5 && code != 7
  {
    var initial := ErrorEvent;
    var afterBusOff := if code == 5 then BusOff else initial;
    if code == 7 then RxError else afterBusOff
  }

  /** What the vendor interrupt handler reports to the driver's handlers. */
  datatype IrqCause = TxDone | RxFrame(frame: Message) | BusError(code: nat)

  /** An invocation of the installed callback: the channel, the event and the message it points to. */
  datatype Notification = Notification(instance: nat, event: CanEvent, message: Option<Message>)

  // ---------------------------------------------------------------------
  // Status functions without driver state
  // ---------------------------------------------------------------------

  /** What asdk_can_init depends on besides its configuration: the outcomes of the calls it makes. */
  datatype InitEnv = InitEnv(pinmuxStatus: ErrorCode, clockStatus: ErrorCode, driverOk: bool)

  /** asdk_can_config_t, without the pin numbers (their effect is the pin mux outcome). */
  datatype CanConfig = CanConfig(mode: nat, idType: nat, maxDlc: nat, bitrate: BitrateConfig, hwFilter: HwFilter,
                                 useInterrupt: bool, intrNum: nat, priority: nat)

  /** The status asdk_can_init returns, in the order it checks. */
  function InitStatus(ch: nat, cfg: CanConfig, env: InitEnv): ErrorCode
  {
    if ch >= CAN_CH_MAX then ASDK_CAN_ERROR_INVALID_CHANNEL
    else if env.pinmuxStatus != ASDK_PINMUX_SUCCESS then env.pinmuxStatus
    else if env.clockStatus != ASDK_CLOCK_SUCCESS then env.clockStatus
    else if MaxDlc(cfg.maxDlc).None? then ASDK_CAN_ERROR_INVALID_DLC
    else if cfg.intrNum >= ASDK_EXTI_INTR_MAX then ASDK_CAN_ERROR_INVALID_INTR_NUM
    else if !env.driverOk then ASDK_CAN_ERROR_INIT_FAILED
    else ASDK_CAN_SUCCESS
  }

  /**
   * Init succeeds exactly when the channel exists, pins and clock are set
   * up, the maximum DLC is supported, the interrupt line exists and the
   * vendor driver accepts the configuration; the baud rates are not
   * checked.
   */
  lemma InitSucceedsIff(ch: nat, cfg: CanConfig, env: InitEnv)
    requires env.pinmuxStatus != ASDK_CAN_SUCCESS && env.clockStatus != ASDK_CAN_SUCCESS
    ensures InitStatus(ch, cfg, env) == ASDK_CAN_SUCCESS <==>
              && ch < CAN_CH_MAX && env.pinmuxStatus == ASDK_PINMUX_SUCCESS
              && env.clockStatus == ASDK_CLOCK_SUCCESS && cfg.maxDlc in {8, 12, 16, 20, 24, 32, 48, 64}
              && cfg.intrNum < ASDK_EXTI_INTR_MAX && env.driverOk
  {
  }

  /** An invalid channel is refused before anything else is looked at. */
  lemma InitChecksChannelFirst(ch: nat, cfg: CanConfig, env: InitEnv)
    requires ch >= CAN_CH_MAX
    ensures InitStatus(ch, cfg, env) == ASDK_CAN_ERROR_INVALID_CHANNEL
  {
  }

  /** An interrupt settings record for the interrupt controller. */
  datatype IrqSetup = IrqSetup(line: nat, priority: nat)

  /** The configuration handed to the vendor's init, with the interrupt set-up done before it. */
  datatype ControllerConfig = ControllerConfig(canFdMode: bool, sizes: DataSizes, bitrates: Bitrates,
                                               filters: FilterSettings, irq: Option<IrqSetup>)

  /**
   * The configuration asdk_can_init builds: FD mode exactly for mode FD,
   * the DLC's buffer sizes, the bit rates, the filter settings with the
   * extended-ID filter count then forced to 0, and the interrupt line when
   * interrupts are used.
   */
  function ControllerConfigFor(cfg: CanConfig): (r: ControllerConfig)
    requires MaxDlc(cfg.maxDlc).Some?
    ensures r.canFdMode <==> cfg.mode == ASDK_CAN_MODE_FD
    ensures r.filters.extidFilters == 0
    ensures r.irq.Some? <==> cfg.useInterrupt
  {
    ControllerConfig(cfg.mode == ASDK_CAN_MODE_FD, MaxDlc(cfg.maxDlc).value, ConfigureBitrates(cfg.mode, cfg.bitrate),
                     FilterSettingsFor(cfg.idType, cfg.hwFilter).(extidFilters := 0),
                     if cfg.useInterrupt then Some(IrqSetup(cfg.intrNum, cfg.priority)) else None)
  }

  /** The filter step of init is reached: the checks before it pass. */
  predicate FilterStepReached(ch: nat, cfg: CanConfig, env: InitEnv)
  {
    ch < CAN_CH_MAX && env.pinmuxStatus == ASDK_PINMUX_SUCCESS && env.clockStatus == ASDK_CLOCK_SUCCESS
    && MaxDlc(cfg.maxDlc).Some?
  }

  /** asdk_can_deinit. */
  function Deinit(ch: nat, driverOk: bool): (r: ErrorCode)
    ensures r == ASDK_CAN_ERROR_INVALID_CHANNEL <==> ch >= CAN_CH_MAX
    ensures r == ASDK_CAN_SUCCESS <==> ch < CAN_CH_MAX && driverOk
    ensures r == ASDK_CAN_ERROR_DEINIT_FAILED <==> ch < CAN_CH_MAX && !driverOk
  {
    if ch >= CAN_CH_MAX then ASDK_CAN_ERROR_INVALID_CHANNEL
    else if !driverOk then ASDK_CAN_ERROR_DEINIT_FAILED
    else ASDK_CAN_SUCCESS
  }

  /**
   * asdk_can_is_tx_busy: busy is false for an invalid channel, otherwise
   * the mailbox's bit of the transmission-request-pending register.
   */
  function IsTxBusy(ch: nat, mailbox: nat, txbrp: bv32): (r: (ErrorCode, bool))
    requires mailbox < 32
    ensures ch >= CAN_CH_MAX ==> r == (ASDK_CAN_ERROR_INVALID_CHANNEL, false)
    ensures ch < CAN_CH_MAX ==> r.0 == ASDK_CAN_SUCCESS
  {
    if ch >= CAN_CH_MAX then (ASDK_CAN_ERROR_INVALID_CHANNEL, false)
    else (ASDK_CAN_SUCCESS, (txbrp >> mailbox) & 1 == 1)
  }

  /** asdk_can_sleep: sleep is not supported by this port. */
  function Sleep(ch: nat): ErrorCode
  {
    ASDK_CAN_ERROR_HW_FEATURE_NOT_SUPPORTED
  }

  /** asdk_can_read: polling reception is not implemented; every read fails. */
  function Read(ch: nat, mailbox: nat): ErrorCode
  {
    ASDK_CAN_ERROR_READ_FAILED
  }

  // ---------------------------------------------------------------------
  // The driver's static state
  // ---------------------------------------------------------------------

  /** The static state of asdk_can.c. */
  class CanDriver {
    /** std_id_filter. */
    var stdIdFilter: array<StdFilter>
    /** can_callback, as an identity; None is NULL. */
    var callback: Option<nat>
    /** can_tx_buffer: the last message handed to write. */
    var txBuffer: Message
    /** active_interrupt_can_instance. */
    var activeInstance: nat

    ghost predicate Valid()
      reads this
    {
      stdIdFilter.Length == CAN_HW_FILTER_ELEMENT_MAX && activeInstance == CAN_MODULE_NOT_DEFINED
    }

    constructor()
      ensures Valid() && fresh(stdIdFilter)
      ensures stdIdFilter[..] == seq(CAN_HW_FILTER_ELEMENT_MAX, _ => CLEARED_FILTER)
      ensures callback == None && txBuffer == Message(0, 0, [])
    {
      stdIdFilter := new StdFilter[CAN_HW_FILTER_ELEMENT_MAX](_ => CLEARED_FILTER);
      callback := None;
      txBuffer := Message(0, 0, []);
      activeInstance := CAN_MODULE_NOT_DEFINED;
    }

    /** asdk_can_install_callback: NULL is refused and the installed callback kept. */
    method InstallCallback(cb: Option<nat>) returns (status: ErrorCode)
      modifies this`callback
      ensures cb.None? ==> status == ASDK_CAN_ERROR_NULL_PTR && callback == old(callback)
      ensures cb.Some? ==> status == ASDK_CAN_SUCCESS && callback == cb
    {
      if cb.None? {
        return ASDK_CAN_ERROR_NULL_PTR;
      }
      callback := cb;
      status := ASDK_CAN_SUCCESS;
    }

    /**
     * __asdk_set_can_hw_filter: writes the acceptance filter elements into
     * the static table and returns the filter settings.
     */
    method SetHwFilter(idType: nat, hw: HwFilter) returns (status: ErrorCode, settings: FilterSettings)
      requires Valid() && HwFilterFits(hw)
      modifies stdIdFilter
      ensures status == ASDK_CAN_SUCCESS
      ensures settings == FilterSettingsFor(idType, hw)
      ensures stdIdFilter[..] == FilterTableAfter(old(stdIdFilter[..]), idType, hw)
    {
      if idType == ASDK_CAN_ID_STANDARD {
        match hw.canIds
        case None =>
          stdIdFilter[0] := ACCEPT_ALL;
        case Some(ids) =>
          var i: nat := 0;
          while i < hw.length
            invariant i <= hw.length
            invariant forall k :: 0 <= k < i ==> stdIdFilter[k] == ClassicFilter(ids[k])
            invariant forall k :: i <= k < stdIdFilter.Length ==> stdIdFilter[k] == old(stdIdFilter[k])
          {
            stdIdFilter[i] := ClassicFilter(ids[i]);
            i := i + 1;
          }
          assert stdIdFilter[..] == ListFilters(ids, hw.length) + old(stdIdFilter[..])[hw.length..];
      }
      status := ASDK_CAN_SUCCESS;
      settings := FilterSettingsFor(idType, hw);
    }

    /**
     * asdk_can_init: the status chain of InitStatus. The filter table is
     * written once the DLC check passes, even when a later step fails; the
     * configuration is handed to the vendor driver once the interrupt
     * line is accepted.
     */
    method Init(ch: nat, cfg: CanConfig, env: InitEnv) returns (status: ErrorCode, programmed: Option<ControllerConfig>)
      requires Valid() && HwFilterFits(cfg.hwFilter)
      modifies stdIdFilter
      ensures Valid()
      ensures status == InitStatus(ch, cfg, env)
      ensures programmed.Some? <==> FilterStepReached(ch, cfg, env) && cfg.intrNum < ASDK_EXTI_INTR_MAX
      ensures programmed.Some? ==> MaxDlc(cfg.maxDlc).Some? && programmed.value == ControllerConfigFor(cfg)
      ensures stdIdFilter[..] == if FilterStepReached(ch, cfg, env)
                                 then FilterTableAfter(old(stdIdFilter[..]), cfg.idType, cfg.hwFilter)
                                 else old(stdIdFilter[..])
    {
      programmed := None;
      if ch >= CAN_CH_MAX {
        return ASDK_CAN_ERROR_INVALID_CHANNEL, None;
      }
      if env.pinmuxStatus != ASDK_PINMUX_SUCCESS {
        return env.pinmuxStatus, None;
      }
      if env.clockStatus != ASDK_CLOCK_SUCCESS {
        return env.clockStatus, None;
      }
      var sizes := MaxDlc(cfg.maxDlc);
      if sizes.None? {
        return ASDK_CAN_ERROR_INVALID_DLC, None;
      }
      var bitrates := ConfigureBitrates(cfg.mode, cfg.bitrate);
      var filterStatus, filters := SetHwFilter(cfg.idType, cfg.hwFilter);
      if cfg.intrNum >= ASDK_EXTI_INTR_MAX {
        return ASDK_CAN_ERROR_INVALID_INTR_NUM, None;
      }
      var irq := if cfg.useInterrupt then Some(IrqSetup(cfg.intrNum, cfg.priority)) else None;
      programmed := Some(ControllerConfig(cfg.mode == ASDK_CAN_MODE_FD, sizes.value, bitrates,
                                          filters.(extidFilters := 0), irq));
      status := if env.driverOk then filterStatus else ASDK_CAN_ERROR_INIT_FAILED;
    }

    /**
     * asdk_can_write: an invalid channel is refused; otherwise the frame
     * with the message's identifier and its first dlc bytes is handed to
     * the controller, a refusal reads as WRITE_FAILED, and the message is
     * recorded for the transmit-complete event either way.
     */
    method Write(ch: nat, msg: Message, driverOk: bool) returns (status: ErrorCode, sent: Option<Message>)
      requires msg.dlc <= |msg.data|
      modifies this`txBuffer
      ensures ch >= CAN_CH_MAX ==> status == ASDK_CAN_ERROR_INVALID_CHANNEL && sent.None? && txBuffer == old(txBuffer)
      ensures ch < CAN_CH_MAX ==> sent == Some(Message(msg.canId, msg.dlc, msg.data[..msg.dlc])) && txBuffer == msg
      ensures ch < CAN_CH_MAX ==> (status == ASDK_CAN_SUCCESS <==> driverOk)
      ensures ch < CAN_CH_MAX && !driverOk ==> status == ASDK_CAN_ERROR_WRITE_FAILED
    {
      if ch >= CAN_CH_MAX {
        return ASDK_CAN_ERROR_INVALID_CHANNEL, None;
      }
      sent := Some(Message(msg.canId, msg.dlc, msg.data[..msg.dlc]));
      status := if driverOk then ASDK_CAN_SUCCESS else ASDK_CAN_ERROR_WRITE_FAILED;
      txBuffer := msg;
    }

    /**
     * The driver's handlers as the vendor calls them from an interrupt:
     * the installed callback, if any, hears of the event on the channel
     * being served.
     */
    function Handler(cause: IrqCause): (n: Option<Notification>)
      reads this
      ensures n.Some? <==> callback.Some?
      ensures n.Some? ==> n.value.instance == activeInstance
    {
      if callback.None? then None
      else match cause
        case TxDone => Some(Notification(activeInstance, TxComplete, Some(txBuffer)))
        case RxFrame(frame) => Some(Notification(activeInstance, RxEvent, Some(frame)))
        case BusError(code) => Some(Notification(activeInstance, ErrorEventOf(code), None))
    }

    /**
     * asdk_cyt2b75_canN_isr: the channel is marked active while the vendor
     * handler runs, so the callback is told the channel, and is marked
     * NOT_DEFINED again afterwards.
     */
    method Isr(ch: nat, cause: IrqCause) returns (n: Option<Notification>)
      requires Valid() && ch < CAN_CH_MAX
      modifies this`activeInstance
      ensures Valid()
      ensures callback.None? ==> n.None?
      ensures callback.Some? && cause.BusError? ==> n == Some(Notification(ch, ErrorEventOf(cause.code), None))
      ensures callback.Some? && cause.RxFrame? ==> n == Some(Notification(ch, RxEvent, Some(cause.frame)))
      ensures callback.Some? && cause.TxDone? ==> n == Some(Notification(ch, TxComplete, Some(txBuffer)))
    {
      activeInstance := ch;
      n := Handler(cause);
      activeInstance := CAN_MODULE_NOT_DEFINED;
    }
  }
}
