// The SPI driver of the CYT2B75 platform
// (asdk-gen2/platform/cyt2b75/dal/src/asdk_spi.c).
//
// asdk_spi_init validates a configuration, asks for the peripheral clock,
// completes the driver's static master configuration (SCB_SPI_cfg) and
// hands either it or the fixed slave configuration to the vendor driver.
// The vendor driver, the clock, the pin multiplexer and the SCB registers
// are outside the model: what their calls report is an input, and the
// masks of the vendor transfer-status word are a parameter.

module Spi {
  import opened Common
  import opened AsdkError

  const ASDK_SPI_MAX: nat := 8
  const ASDK_SPI_SLAVE_MAX: nat := 8
  /** The slave-select lines an SCB provides: SS0 to SS3. */
  const SLAVE_SELECT_LINES: nat := 4
  /** The chip-select pin number that marks an unused line. */
  const CS_PIN_UNUSED: nat := 0xFF
  /** SCB_SPI_OVERSAMPLING: SPI clock cycles per bit. */
  const SCB_SPI_OVERSAMPLING: nat := 4

  const ASDK_SPI_DEVICE_SLAVE: nat := 0
  const ASDK_SPI_DEVICE_MASTER: nat := 1
  const ASDK_SPI_BIT_ORDER_LSB_FIRST: nat := 0
  const ASDK_SPI_BIT_ORDER_MSB_FIRST: nat := 1
  const ASDK_SPI_DATAWIDTH_8_BITS: nat := 0
  const ASDK_SPI_DATAWIDTH_16_BITS: nat := 1
  const ASDK_SPI_TRANSFER_RATE_8MHz: nat := 10
  const ASDK_SPI_TRANSFER_RATE_MAX: nat := 14

  // ---------------------------------------------------------------------
  // Transfer rates and clock modes
  // ---------------------------------------------------------------------

  /** The bit rate, in Hz, each asdk_spi_transfer_rate_t value names. */
  const RATE_HZ: seq<nat> := [ 125_000, 250_000, 500_000, 1_000_000, 2_000_000, 3_000_000, 4_000_000,
                               5_000_000, 6_000_000, 7_000_000, 8_000_000, 10_000_000, 16_000_000, 20_000_000 ]

  /**
   * The peripheral clock asked for a transfer rate: the clock runs at the
   * oversampling factor times the bit rate. Only 125 kHz to 8 MHz have a
   * clock setting; 10, 16 and 20 MHz have none.
   */
  function TargetFrequency(rate: nat): (f: Option<nat>)
    ensures f.Some? <==> rate <= ASDK_SPI_TRANSFER_RATE_8MHz
    ensures f.Some? ==> f.value == SCB_SPI_OVERSAMPLING * RATE_HZ[rate]
  {
    if rate == 0 then Some(500_000)
    else if rate == 1 then Some(1_000_000)
    else if rate == 2 then Some(2_000_000)
    else if rate == 3 then Some(4_000_000)
    else if rate == 4 then Some(8_000_000)
    else if rate == 5 then Some(12_000_000)
    else if rate == 6 then Some(16_000_000)
    else if rate == 7 then Some(20_000_000)
    else if rate == 8 then Some(24_000_000)
    else if rate == 9 then Some(28_000_000)
    else if rate == 10 then Some(32_000_000)
    else None
  }

  /** cy_en_scb_spi_sclk_mode_t: clock phase and polarity. */
  datatype SclkMode = Cpha0Cpol0 | Cpha1Cpol0 | Cpha0Cpol1 | Cpha1Cpol1

  function Cpha(m: SclkMode): nat
  {
    if m == Cpha1Cpol0 || m == Cpha1Cpol1 then 1 else 0
  }

  function Cpol(m: SclkMode): nat
  {
    if m == Cpha0Cpol1 || m == Cpha1Cpol1 then 1 else 0
  }

  /**
   * The clock mode of an asdk_spi_mode_t value: SPI modes 0 to 3 in the
   * usual numbering, where the low bit is the phase and the high bit the
   * polarity; no other value has one.
   */
  function SclkModeOf(mode: nat): (r: Option<SclkMode>)
    ensures r.Some? <==> mode < 4
    ensures r.Some? ==> Cpha(r.value) == mode % 2 && Cpol(r.value) == mode / 2
  {
    if mode == 0 then Some(Cpha0Cpol0)
    else if mode == 1 then Some(Cpha1Cpol0)
    else if mode == 2 then Some(Cpha0Cpol1)
    else if mode == 3 then Some(Cpha1Cpol1)
    else None
  }

  // ---------------------------------------------------------------------
  // Configurations
  // ---------------------------------------------------------------------

  /** asdk_spi_config_t, without the pin numbers of MOSI, MISO and SCLK. */
  datatype SpiConfig = SpiConfig(
    spiNo: nat, csPins: seq<nat>, mode: nat, spiType: nat, noOfSlaves: nat, rate: nat,
    bitOrder: nat, useInterrupt: bool, priority: nat, intrNum: nat, datawidth: nat)

  /** cy_stc_scb_spi_config_t, the fields the driver sets. */
  datatype ScbSpiConfig = ScbSpiConfig(
    spiMode: nat, sclkMode: SclkMode, oversample: nat, rxDataWidth: nat, txDataWidth: nat, msbFirst: bool)

  /** The initial value of SCB_SPI_cfg: a 16-bit, MSB-first master in mode 0. */
  const INITIAL_MASTER_CFG := ScbSpiConfig(ASDK_SPI_DEVICE_MASTER, Cpha0Cpol0, SCB_SPI_OVERSAMPLING, 16, 16, true)

  /** SCB_SPI_Slave_cfg: an 8-bit, MSB-first slave in mode 1, never changed. */
  const SLAVE_CFG := ScbSpiConfig(ASDK_SPI_DEVICE_SLAVE, Cpha1Cpol0, SCB_SPI_OVERSAMPLING, 8, 8, true)

  /** The word width, in bits, of an asdk_spi_datawidth_t value. */
  function WidthBits(datawidth: nat): nat
  {
    if datawidth == ASDK_SPI_DATAWIDTH_8_BITS then 8 else 16
  }

  /** Whether slave k has a usable select line: one of SS0 to SS3, with a pin. */
  predicate SlaveSelectOk(c: SpiConfig, k: nat)
    requires |c.csPins| == ASDK_SPI_SLAVE_MAX
  {
    k < SLAVE_SELECT_LINES && c.csPins[k] != CS_PIN_UNUSED
  }

  predicate SlaveSelectsOk(c: SpiConfig)
    requires |c.csPins| == ASDK_SPI_SLAVE_MAX
  {
    forall k :: 0 <= k < c.noOfSlaves ==> SlaveSelectOk(c, k)
  }

  /** What the vendor calls made by init report. */
  datatype InitEnv = InitEnv(scbAvailable: bool, clockStatus: ErrorCode, driverOk: bool)

  /**
   * The checks of asdk_spi_init after the NULL check, in the order they are
   * made: the parameter range checks, the SCB's availability, the interrupt,
   * the clock setting of the rate and the clock itself, the clock mode, and
   * the select line of every slave. (The data width is checked a second
   * time after the clock; that check can no longer fail.)
   */
  function InitChecks(c: SpiConfig, env: InitEnv): seq<Check>
    requires |c.csPins| == ASDK_SPI_SLAVE_MAX
  {
    [ Check(c.spiNo < ASDK_SPI_MAX, ASDK_SPI_ERROR_RANGE_EXCEEDED),
      Check(c.noOfSlaves < ASDK_SPI_SLAVE_MAX, ASDK_SPI_ERROR_SLAVE_RANGE_EXCEEDED),
      Check(c.datawidth == ASDK_SPI_DATAWIDTH_8_BITS || c.datawidth == ASDK_SPI_DATAWIDTH_16_BITS,
            ASDK_SPI_ERROR_INVALID_DATA_SIZE),
      Check(c.rate < ASDK_SPI_TRANSFER_RATE_MAX, ASDK_SPI_ERROR_INVALID_BAUD_RATE),
      Check(c.bitOrder == ASDK_SPI_BIT_ORDER_MSB_FIRST || c.bitOrder == ASDK_SPI_BIT_ORDER_LSB_FIRST,
            ASDK_SPI_ERROR_INVALID_BIT_ORDER),
      Check(c.spiType == ASDK_SPI_DEVICE_MASTER || c.spiType == ASDK_SPI_DEVICE_SLAVE, ASDK_SPI_ERROR_INVALID_TYPE),
      Check(env.scbAvailable, ASDK_SPI_ERROR_MODULE_UNAVAILABLE),
      Check(c.intrNum < ASDK_EXTI_INTR_MAX, ASDK_SPI_ERROR_INVALID_INTR_NUM),
      Check(c.useInterrupt, ASDK_SPI_ERROR_ISR_REQUIRED),
      Check(TargetFrequency(c.rate).Some?, ASDK_SPI_ERROR_INVALID_BAUD_RATE),
      Check(env.clockStatus == ASDK_CLOCK_SUCCESS, env.clockStatus),
      Check(c.mode < 4, ASDK_SPI_ERROR_INVALID_SPI_MODE),
      Check(SlaveSelectsOk(c), ASDK_SPI_ERROR_INVALID_SLAVE_SELECT) ]
  }

  /** The index of the clock check in InitChecks; the static configuration is written once it passes. */
  const CLOCK_CHECK: nat := 10
  /** The index of the clock-mode check in InitChecks. */
  const MODE_CHECK: nat := 11

  /** The status asdk_spi_init returns. */
  function InitStatus(cfg: Option<SpiConfig>, env: InitEnv): ErrorCode
    requires cfg.Some? ==> |cfg.value.csPins| == ASDK_SPI_SLAVE_MAX
  {
    if cfg.None? then ASDK_SPI_ERROR_NULL_PTR
    else
      var checks := InitChecks(cfg.value, env);
      var f := FirstFailing(checks);
      if f < |checks| then checks[f].code
      else if env.driverOk then ASDK_SPI_STATUS_SUCCESS
      else ASDK_SPI_ERROR_INIT_FAIL
  }

  /** How many of init's checks a configuration passes. */
  function Reached(c: SpiConfig, env: InitEnv): nat
    requires |c.csPins| == ASDK_SPI_SLAVE_MAX
  {
    FirstFailing(InitChecks(c, env))
  }

  /**
   * SCB_SPI_cfg after an init: once the clock is enabled the device type
   * and data width are written, and once the clock mode is known the clock
   * mode, the bit order and the oversampling too. The configuration is
   * static: what a failed init wrote stays.
   */
  function MasterCfgAfter(m: ScbSpiConfig, cfg: Option<SpiConfig>, env: InitEnv): ScbSpiConfig
    requires cfg.Some? ==> |cfg.value.csPins| == ASDK_SPI_SLAVE_MAX
  {
    if cfg.None? || Reached(cfg.value, env) <= CLOCK_CHECK then m
    else
      var c := cfg.value;
      var w := WidthBits(c.datawidth);
      var typed := m.(spiMode := c.spiType, rxDataWidth := w, txDataWidth := w);
      if SclkModeOf(c.mode).None? then typed
      else typed.(sclkMode := SclkModeOf(c.mode).value, msbFirst := c.bitOrder == ASDK_SPI_BIT_ORDER_MSB_FIRST,
                  oversample := SCB_SPI_OVERSAMPLING)
  }

  /**
   * The configuration handed to Cy_SCB_SPI_Init, when every check passes:
   * the fixed slave configuration for a slave, SCB_SPI_cfg for a master.
   */
  function HandedConfig(master: ScbSpiConfig, cfg: Option<SpiConfig>, env: InitEnv): Option<ScbSpiConfig>
    requires cfg.Some? ==> |cfg.value.csPins| == ASDK_SPI_SLAVE_MAX
  {
    if cfg.None? || Reached(cfg.value, env) < |InitChecks(cfg.value, env)| then None
    else if cfg.value.spiType == ASDK_SPI_DEVICE_SLAVE then Some(SLAVE_CFG)
    else Some(master)
  }

  /** When check i is the first to fail, init returns its error. */
  lemma InitRejectsAt(c: SpiConfig, env: InitEnv, i: nat)
    requires |c.csPins| == ASDK_SPI_SLAVE_MAX
    requires i < |InitChecks(c, env)| && !InitChecks(c, env)[i].passes
    requires PassThrough(InitChecks(c, env), i)
    ensures Reached(c, env) == i
    ensures InitStatus(Some(c), env) == InitChecks(c, env)[i].code
  {
    FirstFailingAfter(InitChecks(c, env), i);
  }

  /** When every check passes, the status is the vendor driver's verdict. */
  lemma InitPassesAll(c: SpiConfig, env: InitEnv)
    requires |c.csPins| == ASDK_SPI_SLAVE_MAX
    requires forall j :: 0 <= j < |InitChecks(c, env)| ==> InitChecks(c, env)[j].passes
    ensures Reached(c, env) == |InitChecks(c, env)|
    ensures InitStatus(Some(c), env) == if env.driverOk then ASDK_SPI_STATUS_SUCCESS else ASDK_SPI_ERROR_INIT_FAIL
  {
    FirstFailingIs(InitChecks(c, env), |InitChecks(c, env)|);
  }

  /** Once the first eleven checks pass, the first failure, if any, is after the clock. */
  lemma PassedUpToClock(c: SpiConfig, env: InitEnv)
    requires |c.csPins| == ASDK_SPI_SLAVE_MAX
    requires PassThrough(InitChecks(c, env), CLOCK_CHECK + 1)
    ensures Reached(c, env) > CLOCK_CHECK
  {
    var checks := InitChecks(c, env);
    var f := FirstFailing(checks);
    PassThroughAll(checks, CLOCK_CHECK + 1);
  }

  /** Once the first failure is after the clock, the first eleven checks pass. */
  lemma PassedThroughClock(c: SpiConfig, env: InitEnv)
    requires |c.csPins| == ASDK_SPI_SLAVE_MAX
    requires Reached(c, env) > CLOCK_CHECK
    ensures PassThrough(InitChecks(c, env), CLOCK_CHECK + 1)
  {
    AllPassThrough(InitChecks(c, env), CLOCK_CHECK + 1);
  }

  /**
   * The conditions asdk_spi_init demands of a configuration and of the
   * platform: every parameter in range, a rate of at most 8 MHz, a free SCB,
   * an interrupt on a valid line, a running clock, a mode from 0 to 3, and a
   * select line among the first four, with a pin, for every slave.
   */
  predicate InitAccepts(c: SpiConfig, env: InitEnv)
    requires |c.csPins| == ASDK_SPI_SLAVE_MAX
  {
    && c.spiNo < ASDK_SPI_MAX && c.noOfSlaves < ASDK_SPI_SLAVE_MAX
    && (c.datawidth == ASDK_SPI_DATAWIDTH_8_BITS || c.datawidth == ASDK_SPI_DATAWIDTH_16_BITS)
    && c.rate <= ASDK_SPI_TRANSFER_RATE_8MHz
    && (c.bitOrder == ASDK_SPI_BIT_ORDER_LSB_FIRST || c.bitOrder == ASDK_SPI_BIT_ORDER_MSB_FIRST)
    && (c.spiType == ASDK_SPI_DEVICE_MASTER || c.spiType == ASDK_SPI_DEVICE_SLAVE)
    && env.scbAvailable && c.intrNum < ASDK_EXTI_INTR_MAX && c.useInterrupt
    && env.clockStatus == ASDK_CLOCK_SUCCESS && c.mode < 4
    && c.noOfSlaves <= SLAVE_SELECT_LINES
    && (forall k :: 0 <= k < c.noOfSlaves ==> c.csPins[k] != CS_PIN_UNUSED)
  }

  /** Init's checks all pass exactly when it accepts the configuration. */
  lemma InitChecksPassIff(c: SpiConfig, env: InitEnv)
    requires |c.csPins| == ASDK_SPI_SLAVE_MAX
    ensures (forall j :: 0 <= j < |InitChecks(c, env)| ==> InitChecks(c, env)[j].passes) <==> InitAccepts(c, env)
  {
    var k := InitChecks(c, env);
    if forall j :: 0 <= j < |k| ==> k[j].passes {
      assert k[0].passes && k[1].passes && k[2].passes && k[3].passes && k[4].passes && k[5].passes && k[6].passes;
      assert k[7].passes && k[8].passes && k[9].passes && k[10].passes && k[11].passes && k[12].passes;
      forall n | 0 <= n < c.noOfSlaves
        ensures n < SLAVE_SELECT_LINES && c.csPins[n] != CS_PIN_UNUSED
      {
        assert SlaveSelectOk(c, n);
      }
      if c.noOfSlaves > 0 {
        assert SlaveSelectOk(c, c.noOfSlaves - 1);
      }
      assert InitAccepts(c, env);
    }
    if InitAccepts(c, env) {
      forall n | 0 <= n < c.noOfSlaves
        ensures SlaveSelectOk(c, n)
      {
        assert c.csPins[n] != CS_PIN_UNUSED;
      }
      forall j | 0 <= j < |k|
        ensures k[j].passes
      {
      }
    }
  }

  /**
   * Init reports success exactly when all its checks pass and the vendor
   * driver accepts the configuration. (A clock failure is reported with the
   * clock's own status, which is not the SPI success code.)
   */
  lemma InitStatusSuccess(c: SpiConfig, env: InitEnv)
    requires |c.csPins| == ASDK_SPI_SLAVE_MAX
    requires env.clockStatus != ASDK_SPI_STATUS_SUCCESS
    ensures InitStatus(Some(c), env) == ASDK_SPI_STATUS_SUCCESS <==>
              (forall j :: 0 <= j < |InitChecks(c, env)| ==> InitChecks(c, env)[j].passes) && env.driverOk
  {
    var k := InitChecks(c, env);
    var f := FirstFailing(k);
    if forall j :: 0 <= j < |k| ==> k[j].passes {
      FirstFailingIs(k, |k|);
    } else {
      var j :| 0 <= j < |k| && !k[j].passes;
      assert f <= j;
      assert k[f].code != ASDK_SPI_STATUS_SUCCESS by {
        assert forall i :: 0 <= i < |k| ==> k[i].code != ASDK_SPI_STATUS_SUCCESS;
      }
    }
  }

  /**
   * Init succeeds exactly when it accepts the configuration and the vendor
   * driver accepts it too.
   */
  lemma InitSucceedsIff(c: SpiConfig, env: InitEnv)
    requires |c.csPins| == ASDK_SPI_SLAVE_MAX
    requires env.clockStatus != ASDK_SPI_STATUS_SUCCESS
    ensures InitStatus(Some(c), env) == ASDK_SPI_STATUS_SUCCESS <==> InitAccepts(c, env) && env.driverOk
  {
    InitStatusSuccess(c, env);
    InitChecksPassIff(c, env);
  }

  /**
   * The slave count is checked against eight, but only four select lines
   * exist: a successful init never has more than four slaves.
   */
  lemma AtMostFourSlaves(c: SpiConfig, env: InitEnv)
    requires |c.csPins| == ASDK_SPI_SLAVE_MAX
    requires env.clockStatus != ASDK_SPI_STATUS_SUCCESS
    requires InitStatus(Some(c), env) == ASDK_SPI_STATUS_SUCCESS
    ensures c.noOfSlaves <= SLAVE_SELECT_LINES
  {
    InitSucceedsIff(c, env);
    assert InitAccepts(c, env);
  }

  /**
   * A master is handed exactly the configuration it asked for, whatever an
   * earlier init left in the static configuration: its data width, the
   * phase and polarity of its mode, its bit order, oversampling by four.
   */
  lemma MasterGetsRequest(m: ScbSpiConfig, c: SpiConfig, env: InitEnv)
    requires |c.csPins| == ASDK_SPI_SLAVE_MAX && c.spiType == ASDK_SPI_DEVICE_MASTER
    requires Reached(c, env) == |InitChecks(c, env)|
    ensures var h := HandedConfig(MasterCfgAfter(m, Some(c), env), Some(c), env);
            && h.Some? && h.value.spiMode == ASDK_SPI_DEVICE_MASTER
            && h.value.rxDataWidth == h.value.txDataWidth == (if c.datawidth == ASDK_SPI_DATAWIDTH_8_BITS then 8 else 16)
            && Cpha(h.value.sclkMode) == c.mode % 2 && Cpol(h.value.sclkMode) == c.mode / 2
            && (h.value.msbFirst <==> c.bitOrder == ASDK_SPI_BIT_ORDER_MSB_FIRST)
            && h.value.oversample == SCB_SPI_OVERSAMPLING
  {
    assert InitChecks(c, env)[11].passes;
  }

  /**
   * A slave is always handed the fixed slave configuration: the clock mode,
   * data width and bit order it asked for are written to SCB_SPI_cfg but
   * not used.
   */
  lemma SlaveGetsFixedConfig(m: ScbSpiConfig, c: SpiConfig, env: InitEnv)
    requires |c.csPins| == ASDK_SPI_SLAVE_MAX && c.spiType == ASDK_SPI_DEVICE_SLAVE
    requires Reached(c, env) == |InitChecks(c, env)|
    ensures HandedConfig(MasterCfgAfter(m, Some(c), env), Some(c), env) == Some(SLAVE_CFG)
    ensures MasterCfgAfter(m, Some(c), env).rxDataWidth == WidthBits(c.datawidth)
  {
  }

  // ---------------------------------------------------------------------
  // Transfer status
  // ---------------------------------------------------------------------

  /** asdk_spi_transfer_status_t. */
  datatype TransferStatus = Active | InFifo | Overflow | Underflow | SlaveError

  /** The CY_SCB_SPI_* bits of the vendor's transfer-status word. */
  datatype StatusMasks = StatusMasks(active: bv32, inFifo: bv32, slaveErr: bv32, overflow: bv32, underflow: bv32)

  /** The flags asdk_spi_transfer_status tests, in the order it tests them. */
  function Flags(m: StatusMasks): seq<(bv32, TransferStatus)>
  {
    [ (m.active, Active), (m.inFifo, InFifo), (m.slaveErr, SlaveError), (m.overflow, Overflow), (m.underflow, Underflow) ]
  }

  predicate Raised(word: bv32, mask: bv32)
  {
    word & mask != 0
  }

  /** A run of tests each of which overwrites the output when its flag is raised. */
  function LastRaised(word: bv32, flags: seq<(bv32, TransferStatus)>, out: TransferStatus): TransferStatus
    decreases |flags|
  {
    if |flags| == 0 then out
    else LastRaised(word, flags[1..], if Raised(word, flags[0].0) then flags[0].1 else out)
  }

  /** When no flag is raised the output is left as it was. */
  lemma {:induction false} NoneRaisedKeeps(word: bv32, flags: seq<(bv32, TransferStatus)>, out: TransferStatus)
    requires forall j :: 0 <= j < |flags| ==> !Raised(word, flags[j].0)
    ensures LastRaised(word, flags, out) == out
    decreases |flags|
  {
    if |flags| > 0 {
      assert !Raised(word, flags[0].0);
      NoneRaisedKeeps(word, flags[1..], out);
    }
  }

  /** The last raised flag decides the output. */
  lemma {:induction false} LastRaisedWins(word: bv32, flags: seq<(bv32, TransferStatus)>, out: TransferStatus, i: nat)
    requires i < |flags| && Raised(word, flags[i].0)
    requires forall j :: i < j < |flags| ==> !Raised(word, flags[j].0)
    ensures LastRaised(word, flags, out) == flags[i].1
    decreases |flags|
  {
    var next := if Raised(word, flags[0].0) then flags[0].1 else out;
    if i == 0 {
      NoneRaisedKeeps(word, flags[1..], next);
    } else {
      LastRaisedWins(word, flags[1..], next, i - 1);
    }
  }

  /**
   * asdk_spi_transfer_status: the status and the value of the output
   * variable afterwards (out is its value before the call).
   */
  function GetTransferStatus(spiNo: nat, word: bv32, m: StatusMasks, out: TransferStatus): (r: (ErrorCode, TransferStatus))
    ensures spiNo >= ASDK_SPI_MAX ==> r == (ASDK_SPI_ERROR_RANGE_EXCEEDED, out)
    ensures spiNo < ASDK_SPI_MAX && word == 0 ==> r == (ASDK_SPI_STATUS_ERROR, out)
    ensures spiNo < ASDK_SPI_MAX && word != 0 ==> r.0 == ASDK_SPI_STATUS_SUCCESS
  {
    if spiNo >= ASDK_SPI_MAX then (ASDK_SPI_ERROR_RANGE_EXCEEDED, out)
    else if word == 0 then (ASDK_SPI_STATUS_ERROR, out)
    else (ASDK_SPI_STATUS_SUCCESS, LastRaised(word, Flags(m), out))
  }

  /**
   * With several flags raised the last one tested wins: active, then in
   * FIFO, slave error, overflow and underflow.
   */
  lemma TransferStatusLastFlagWins(spiNo: nat, word: bv32, m: StatusMasks, out: TransferStatus, i: nat)
    requires spiNo < ASDK_SPI_MAX && i < |Flags(m)| && Raised(word, Flags(m)[i].0)
    requires forall j :: i < j < |Flags(m)| ==> !Raised(word, Flags(m)[j].0)
    ensures GetTransferStatus(spiNo, word, m, out) == (ASDK_SPI_STATUS_SUCCESS, Flags(m)[i].1)
  {
    LastRaisedWins(word, Flags(m), out, i);
  }

  /** A nonzero word with none of the five flags reports success and leaves the output alone. */
  lemma TransferStatusNoFlag(spiNo: nat, word: bv32, m: StatusMasks, out: TransferStatus)
    requires spiNo < ASDK_SPI_MAX && word != 0
    requires forall j :: 0 <= j < |Flags(m)| ==> !Raised(word, Flags(m)[j].0)
    ensures GetTransferStatus(spiNo, word, m, out) == (ASDK_SPI_STATUS_SUCCESS, out)
  {
    NoneRaisedKeeps(word, Flags(m), out);
  }

  // ---------------------------------------------------------------------
  // Deinit and transfers
  // ---------------------------------------------------------------------

  /** asdk_spi_deinit. */
  function Deinit(spiNo: nat): (status: ErrorCode)
    ensures status == ASDK_SPI_STATUS_SUCCESS <==> spiNo < ASDK_SPI_MAX
    ensures status != ASDK_SPI_STATUS_SUCCESS ==> status == ASDK_SPI_ERROR_RANGE_EXCEEDED
  {
    if ASDK_SPI_MAX <= spiNo then ASDK_SPI_ERROR_RANGE_EXCEEDED else ASDK_SPI_STATUS_SUCCESS
  }

  /** asdk_spi_transfer_non_blocking: the vendor transfer's verdict is an input. */
  function TransferNonBlocking(spiNo: nat, driverOk: bool): (status: ErrorCode)
    ensures spiNo >= ASDK_SPI_MAX ==> status == ASDK_SPI_ERROR_RANGE_EXCEEDED
    ensures spiNo < ASDK_SPI_MAX ==> (status == ASDK_SPI_STATUS_SUCCESS <==> driverOk)
    ensures spiNo < ASDK_SPI_MAX && !driverOk ==> status == ASDK_SPI_ERROR_TRANSFER_FAIL
  {
    if ASDK_SPI_MAX <= spiNo then ASDK_SPI_ERROR_RANGE_EXCEEDED
    else if !driverOk then ASDK_SPI_ERROR_TRANSFER_FAIL
    else ASDK_SPI_STATUS_SUCCESS
  }

  /** asdk_spi_transfer_blocking: not implemented; it never succeeds. */
  function TransferBlocking(spiNo: nat): (status: ErrorCode)
    ensures status != ASDK_SPI_STATUS_SUCCESS
    ensures spiNo < ASDK_SPI_MAX <==> status == ASDK_SPI_ERROR_FEATURE_NOT_IMPLEMENTED
    ensures spiNo >= ASDK_SPI_MAX ==> status == ASDK_SPI_ERROR_RANGE_EXCEEDED
  {
    if ASDK_SPI_MAX <= spiNo then ASDK_SPI_ERROR_RANGE_EXCEEDED else ASDK_SPI_ERROR_FEATURE_NOT_IMPLEMENTED
  }

  // ---------------------------------------------------------------------
  // Transfer completion
  // ---------------------------------------------------------------------

  /**
   * The part of a vendor driver context the completion handlers read: the
   * address the receive pointer has advanced to, and the number of words
   * received.
   */
  datatype RxContext = RxContext(rxBuf: int, rxBufIdx: nat)

  /** The arguments of the user callback: SPI number, buffer start, word count, device type. */
  datatype Completion = Completion(spiNo: nat, buf: int, count: nat, device: nat)

  /** Bytes per word at a data width of a vendor configuration. */
  function BytesPerWord(width: nat): nat
  {
    if width == 16 then 2 else 1
  }

  /**
   * The context each scb_spiN_callback_handler rewinds, as written: the
   * handler of SPI 3 reads the context of SPI 1.
   */
  function RewoundContextAsWritten(spiNo: nat): nat
    requires spiNo < ASDK_SPI_MAX
  {
    if spiNo == 3 then 1 else spiNo
  }

  /**
   * The width each handler tests, as written: the even-numbered handlers
   * test the shared SCB_SPI_cfg, which holds the width of the last master
   * init; the odd-numbered ones test the fixed slave configuration, whose
   * width is always 8.
   */
  function HandlerWidthAsWritten(spiNo: nat, masterWidth: nat): (w: nat)
    ensures spiNo % 2 == 0 ==> w == masterWidth
    ensures spiNo % 2 == 1 ==> w == SLAVE_CFG.rxDataWidth
  {
    if spiNo % 2 == 1 then SLAVE_CFG.rxDataWidth else masterWidth
  }

  /**
   * scb_spiN_callback_handler on a transfer-complete event, as written: the
   * receive pointer of the rewound context moved back by its word count at
   * the width the handler tests, the word count of SPI N's own context, and
   * the master device type. width is the data width of SCB_SPI_cfg.
   */
  function CompletionAsWritten(spiNo: nat, ctx: seq<RxContext>, width: nat): (r: Completion)
    requires spiNo < ASDK_SPI_MAX && |ctx| == ASDK_SPI_MAX
    ensures r.spiNo == spiNo && r.count == ctx[spiNo].rxBufIdx && r.device == ASDK_SPI_DEVICE_MASTER
  {
    var k := RewoundContextAsWritten(spiNo);
    var w := HandlerWidthAsWritten(spiNo, width);
    Completion(spiNo, ctx[k].rxBuf - BytesPerWord(w) * ctx[k].rxBufIdx, ctx[spiNo].rxBufIdx, ASDK_SPI_DEVICE_MASTER)
  }

  /**
   * The handler of SPI N with its own context rewound at width, the data
   * width SPI N transfers with.
   */
  function CompletionOf(spiNo: nat, ctx: seq<RxContext>, width: nat): (r: Completion)
    requires spiNo < ASDK_SPI_MAX && |ctx| == ASDK_SPI_MAX
    ensures r.spiNo == spiNo && r.count == ctx[spiNo].rxBufIdx && r.device == ASDK_SPI_DEVICE_MASTER
  {
    Completion(spiNo, ctx[spiNo].rxBuf - BytesPerWord(width) * ctx[spiNo].rxBufIdx, ctx[spiNo].rxBufIdx, ASDK_SPI_DEVICE_MASTER)
  }

  /**
   * The callback gets the start of the words SPI N received: its buffer,
   * filled with count words, ends where SPI N's receive pointer stands.
   */
  lemma CompletionSpansReceivedWords(spiNo: nat, ctx: seq<RxContext>, width: nat)
    requires spiNo < ASDK_SPI_MAX && |ctx| == ASDK_SPI_MAX
    ensures var r := CompletionOf(spiNo, ctx, width);
            r.buf + BytesPerWord(width) * r.count == ctx[spiNo].rxBuf
  {
  }

  /**
   * The handlers as written report the intended completion when SPI N
   * transfers with the width they test: every even-numbered handler, given
   * the width of SCB_SPI_cfg, and every odd-numbered one but that of SPI 3,
   * given a width other than 16.
   */
  lemma CompletionAsWrittenAgrees(spiNo: nat, ctx: seq<RxContext>, width: nat)
    requires spiNo < ASDK_SPI_MAX && |ctx| == ASDK_SPI_MAX
    ensures spiNo % 2 == 0 ==> CompletionAsWritten(spiNo, ctx, width) == CompletionOf(spiNo, ctx, width)
    ensures spiNo % 2 == 1 && spiNo != 3 && width != 16 ==>
              CompletionAsWritten(spiNo, ctx, width) == CompletionOf(spiNo, ctx, width)
  {
  }

  /**
   * SPI 3 completing a transfer of 4 bytes into a buffer ending at 0x2000,
   * while SPI 1's context holds 2 bytes ending at 0x1000: the handler as
   * written reports 0x0FFE as the start of SPI 3's data instead of 0x1FFC.
   */
  lemma Spi3HandlerReadsSpi1Context()
    ensures var ctx := [ RxContext(0, 0), RxContext(0x1000, 2), RxContext(0, 0), RxContext(0x2000, 4),
                         RxContext(0, 0), RxContext(0, 0), RxContext(0, 0), RxContext(0, 0) ];
            && CompletionAsWritten(3, ctx, 8).buf == 0x0FFE
            && CompletionOf(3, ctx, 8).buf == 0x1FFC
  {
  }

  /**
   * SPI 1 initialised as a 16-bit master, completing 2 words ending at
   * 0x1000: its handler tests the slave configuration's width of 8 and
   * reports 0x0FFE as the start of the data instead of 0x0FFC.
   */
  lemma OddHandlerRewindsSixteenBitWordsAsBytes()
    ensures var ctx := [ RxContext(0, 0), RxContext(0x1000, 2), RxContext(0, 0), RxContext(0, 0),
                         RxContext(0, 0), RxContext(0, 0), RxContext(0, 0), RxContext(0, 0) ];
            && CompletionAsWritten(1, ctx, 16).buf == 0x0FFE
            && CompletionOf(1, ctx, 16).buf == 0x0FFC
  {
  }

  /**
   * The checks of asdk_spi_init up to and including the clock: on a
   * failure, init's status; nothing is written before the clock starts.
   */
  method CheckUpToClock(c: SpiConfig, env: InitEnv) returns (status: ErrorCode, passed: bool)
    requires |c.csPins| == ASDK_SPI_SLAVE_MAX
    ensures passed <==> Reached(c, env) > CLOCK_CHECK
    ensures !passed ==> status == InitStatus(Some(c), env)
  {
    passed := false;
    ghost var checks := InitChecks(c, env);
    if ASDK_SPI_MAX <= c.spiNo {
      InitRejectsAt(c, env, 0);
      return ASDK_SPI_ERROR_RANGE_EXCEEDED, false;
    }
    assert PassThrough(checks, 1);
    if ASDK_SPI_SLAVE_MAX <= c.noOfSlaves {
      InitRejectsAt(c, env, 1);
      return ASDK_SPI_ERROR_SLAVE_RANGE_EXCEEDED, false;
    }
    assert PassThrough(checks, 2);
    if c.datawidth != ASDK_SPI_DATAWIDTH_8_BITS && c.datawidth != ASDK_SPI_DATAWIDTH_16_BITS {
      InitRejectsAt(c, env, 2);
      return ASDK_SPI_ERROR_INVALID_DATA_SIZE, false;
    }
    assert PassThrough(checks, 3);
    if ASDK_SPI_TRANSFER_RATE_MAX <= c.rate {
      InitRejectsAt(c, env, 3);
      return ASDK_SPI_ERROR_INVALID_BAUD_RATE, false;
    }
    assert PassThrough(checks, 4);
    if c.bitOrder != ASDK_SPI_BIT_ORDER_MSB_FIRST && c.bitOrder != ASDK_SPI_BIT_ORDER_LSB_FIRST {
      InitRejectsAt(c, env, 4);
      return ASDK_SPI_ERROR_INVALID_BIT_ORDER, false;
    }
    assert PassThrough(checks, 5);
    if c.spiType != ASDK_SPI_DEVICE_MASTER && c.spiType != ASDK_SPI_DEVICE_SLAVE {
      InitRejectsAt(c, env, 5);
      return ASDK_SPI_ERROR_INVALID_TYPE, false;
    }
    assert PassThrough(checks, 6);
    if !env.scbAvailable {
      InitRejectsAt(c, env, 6);
      return ASDK_SPI_ERROR_MODULE_UNAVAILABLE, false;
    }
    assert PassThrough(checks, 7);
    if ASDK_EXTI_INTR_MAX <= c.intrNum {
      InitRejectsAt(c, env, 7);
      return ASDK_SPI_ERROR_INVALID_INTR_NUM, false;
    }
    assert PassThrough(checks, 8);
    if !c.useInterrupt {
      InitRejectsAt(c, env, 8);
      return ASDK_SPI_ERROR_ISR_REQUIRED, false;
    }
    assert PassThrough(checks, 9);
    var target := TargetFrequency(c.rate);
    if target.None? {
      InitRejectsAt(c, env, 9);
      return ASDK_SPI_ERROR_INVALID_BAUD_RATE, false;
    }
    assert PassThrough(checks, 10);
    if env.clockStatus != ASDK_CLOCK_SUCCESS {
      InitRejectsAt(c, env, 10);
      return env.clockStatus, false;
    }
    assert PassThrough(checks, CLOCK_CHECK + 1);
    PassedUpToClock(c, env);
    status, passed := ASDK_SPI_STATUS_SUCCESS, true;
  }

  // ---------------------------------------------------------------------
  // The driver's static state
  // ---------------------------------------------------------------------

  /** The static state of asdk_spi.c: SCB_SPI_cfg and the user callbacks. */
  class SpiDriver {
    /** SCB_SPI_cfg. */
    var masterCfg: ScbSpiConfig
    /** user_spi_callback_fun_list. */
    var callbacks: seq<Option<nat>>

    ghost predicate Valid()
      reads this
    {
      |callbacks| == ASDK_SPI_MAX
    }

    constructor()
      ensures Valid() && masterCfg == INITIAL_MASTER_CFG
      ensures callbacks == seq(ASDK_SPI_MAX, _ => None)
    {
      masterCfg := INITIAL_MASTER_CFG;
      callbacks := seq(ASDK_SPI_MAX, _ => None);
    }

    /**
     * asdk_spi_install_callback: the callback is stored for any SPI number
     * in range, a NULL one included.
     */
    method InstallCallback(spiNo: nat, fn: Option<nat>) returns (status: ErrorCode)
      requires Valid()
      modifies this`callbacks
      ensures Valid()
      ensures spiNo >= ASDK_SPI_MAX ==> status == ASDK_SPI_ERROR_RANGE_EXCEEDED && callbacks == old(callbacks)
      ensures spiNo < ASDK_SPI_MAX ==> status == ASDK_SPI_STATUS_SUCCESS && callbacks == old(callbacks)[spiNo := fn]
    {
      if ASDK_SPI_MAX <= spiNo {
        return ASDK_SPI_ERROR_RANGE_EXCEEDED;
      }
      callbacks := callbacks[spiNo := fn];
      status := ASDK_SPI_STATUS_SUCCESS;
    }

    /**
     * asdk_spi_init: the status, and the configuration handed to the
     * vendor driver (None when init returns before that).
     */
    method Init(cfg: Option<SpiConfig>, env: InitEnv) returns (status: ErrorCode, handed: Option<ScbSpiConfig>)
      requires Valid()
      requires cfg.Some? ==> |cfg.value.csPins| == ASDK_SPI_SLAVE_MAX
      modifies this`masterCfg
      ensures Valid()
      ensures status == InitStatus(cfg, env)
      ensures masterCfg == MasterCfgAfter(old(masterCfg), cfg, env)
      ensures handed == HandedConfig(masterCfg, cfg, env)
    {
      handed := None;
      if cfg.None? {
        return ASDK_SPI_ERROR_NULL_PTR, None;
      }
      var c := cfg.value;
      var passed;
      status, passed := CheckUpToClock(c, env);
      if !passed {
        return;
      }
      ghost var checks := InitChecks(c, env);
      PassedThroughClock(c, env);
      var width := WidthBits(c.datawidth);
      masterCfg := masterCfg.(spiMode := c.spiType, rxDataWidth := width, txDataWidth := width);
      var sclk := SclkModeOf(c.mode);
      if sclk.None? {
        InitRejectsAt(c, env, MODE_CHECK);
        return ASDK_SPI_ERROR_INVALID_SPI_MODE, None;
      }
      masterCfg := masterCfg.(sclkMode := sclk.value, msbFirst := c.bitOrder == ASDK_SPI_BIT_ORDER_MSB_FIRST,
                              oversample := SCB_SPI_OVERSAMPLING);
      ghost var programmed := masterCfg;
      var slave := 0;
      while slave < c.noOfSlaves
        invariant slave <= c.noOfSlaves
        invariant forall j :: 0 <= j < slave ==> SlaveSelectOk(c, j)
        invariant masterCfg == programmed
      {
        if !(slave < SLAVE_SELECT_LINES && c.csPins[slave] != CS_PIN_UNUSED) {
          assert !SlaveSelectOk(c, slave);
          assert PassThrough(checks, MODE_CHECK + 1);
          InitRejectsAt(c, env, 12);
          return ASDK_SPI_ERROR_INVALID_SLAVE_SELECT, None;
        }
        slave := slave + 1;
      }
      assert PassThrough(checks, MODE_CHECK + 1);
      assert SlaveSelectsOk(c);
      InitPassesAll(c, env);
      handed := Some(if c.spiType == ASDK_SPI_DEVICE_SLAVE then SLAVE_CFG else masterCfg);
      status := if env.driverOk then ASDK_SPI_STATUS_SUCCESS else ASDK_SPI_ERROR_INIT_FAIL;
    }
  }
}
