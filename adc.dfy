// The ADC driver of the CYT2B75 platform
// (asdk-gen2/platform/cyt2b75/dal/src/asdk_adc.c).
//
// The driver checks a configuration, then either registers the pins of a
// conversion group or initialises each pin as a single channel. It keeps a
// table of the 32 pins it has activated (asdk_adc_active_pins), a flag for
// the one-time reset of that table, and five group handles. The SAR ADC
// hardware, the clock and the pin multiplexer are vendor code: what their
// calls report for each pin is an input of the model.

module Adc {
  import opened Common
  import opened AsdkError

  const ASDK_ADC_MAX_TOTAL_CHANNELS: nat := 32
  const ASDK_ADC_MAX_GROUP_COUNT: nat := 5

  const MCU_PIN_0: nat := 0
  const MCU_PIN_MAX: nat := 100
  /** MCU_PIN_NOT_DEFINED, the marker of a free slot in the active-pin table. */
  const MCU_PIN_NOT_DEFINED: nat := 100

  const ASDK_ADC_RESOLUTION_MAX: nat := 8
  const ASDK_ADC_REF_VOLTAGE_SRC_MAX: nat := 3
  const ASDK_ADC_SAMPLING_FREQ_MAX: nat := 11
  const ASDK_ADC_HW_TRG_SRC_MAX: nat := 6

  const ASDK_ADC_CONVERSION_STATUS_RESET: nat := 0

  // ---------------------------------------------------------------------
  // The pin map
  // ---------------------------------------------------------------------

  /** The three SAR ADC modules. */
  datatype Module = Module0 | Module1 | Module2

  /** A SAR multiplexer input: an analog input ANn or the motor-voltage input. */
  datatype Channel = AN(n: nat) | VMotor

  /** The module and channel an ADC-capable pin is wired to. */
  datatype PinInfo = PinInfo(sar: Module, channel: Channel)

  /**
   * adc_pin_map: the module and channel of each of the 100 MCU pins that
   * is wired to an ADC input; None for the other pins.
   */
  function PinMap(pin: nat): (r: Option<PinInfo>)
    ensures r.Some? ==> pin < MCU_PIN_MAX
  {
    if 18 <= pin <= 23 then Some(PinInfo(Module0, AN(pin - 18)))
    else if 29 <= pin <= 34 then Some(PinInfo(Module0, AN(pin - 21)))
    else if 36 <= pin <= 37 then Some(PinInfo(Module0, AN(pin - 20)))
    else if pin == 38 then Some(PinInfo(Module0, VMotor))
    else if pin == 39 then Some(PinInfo(Module1, VMotor))
    else if pin == 40 then Some(PinInfo(Module2, VMotor))
    else if 45 <= pin <= 49 then Some(PinInfo(Module1, AN(pin - 41)))
    else if 52 <= pin <= 63 then Some(PinInfo(Module1, AN(pin - 40)))
    else if 67 <= pin <= 74 then Some(PinInfo(Module2, AN(pin - 67)))
    else None
  }

  /**
   * No two pins share a module input, so the interrupt handlers, which
   * search the map for the pin of a module channel, find exactly one.
   */
  lemma PinMapInjective(p: nat, q: nat)
    requires PinMap(p).Some? && PinMap(p) == PinMap(q)
    ensures p == q
  {
  }

  /** The answer of asdk_adc_get_module_info. */
  datatype Lookup = Found(info: PinInfo) | Refused(code: ErrorCode)

  /**
   * asdk_adc_get_module_info. Every row of adc_pin_map carries its own
   * index, so the table-mismatch error can only come from a pin past the
   * table's end; a pin without an ADC input is INVALID_PIN.
   */
  function GetModuleInfo(pin: nat): (r: Lookup)
    ensures r.Found? <==> PinMap(pin).Some?
    ensures r.Found? ==> r.info == PinMap(pin).value
    ensures r.Refused? ==> r.code == (if pin < MCU_PIN_MAX then ASDK_ADC_ERROR_INVALID_PIN else ASDK_ADC_ERROR_DAL_INVALID_PIN_MAP)
  {
    if pin >= MCU_PIN_MAX then Refused(ASDK_ADC_ERROR_DAL_INVALID_PIN_MAP)
    else if PinMap(pin).None? then Refused(ASDK_ADC_ERROR_INVALID_PIN)
    else Found(PinMap(pin).value)
  }

  // ---------------------------------------------------------------------
  // asdk_adc_config_input_check
  // ---------------------------------------------------------------------

  /**
   * asdk_adc_config_t. Pointers are Options: pinNums is the pin array,
   * groupInstance and dmaDest stand for the pointers' non-NULL values.
   */
  datatype AdcConfig = AdcConfig(
    pinNums: Option<seq<nat>>, pinCount: nat,
    resolution: nat, referenceVoltageSrc: nat, samplingFreq: nat,
    enableInterrupt: bool, intrNum: nat,
    enableHwTrigger: bool, hwTriggerSrc: nat,
    enableGroup: bool, groupInstance: Option<nat>, groupCallback: Option<nat>,
    enableDma: bool, dmaDest: Option<nat>, dmaDestLen: nat)


  /** The checks of asdk_adc_config_input_check after the NULL test, in the order they are made. */
  function InputChecks(c: AdcConfig): seq<Check>
  {
    [ Check(c.pinCount != 0, ASDK_ADC_ERROR_INVALID_PIN_COUNT),
      Check(c.pinNums.Some?, ASDK_ADC_ERROR_INVALID_PIN),
      Check(c.resolution < ASDK_ADC_RESOLUTION_MAX, ASDK_ADC_ERROR_INVALID_RESOLUTION),
      Check(c.referenceVoltageSrc < ASDK_ADC_REF_VOLTAGE_SRC_MAX, ASDK_ADC_ERROR_INVALID_REFERENCE_VOLTAGE_SRC),
      Check(c.samplingFreq < ASDK_ADC_SAMPLING_FREQ_MAX, ASDK_ADC_ERROR_INVALID_SAMPLE_FREQ),
      Check(c.hwTriggerSrc < ASDK_ADC_HW_TRG_SRC_MAX, ASDK_ADC_ERROR_INVALID_TRIGGER_SRC),
      Check(c.groupInstance.None?, ASDK_ADC_ERROR_INVALID_GROUP_INSTANCE),
      Check(!(c.dmaDest.None? && c.enableDma), ASDK_ADC_ERROR_INVALID_DMA_DESTINATION),
      Check(!(c.dmaDestLen == 0 && c.enableDma), ASDK_ADC_ERROR_INVALID_DMA_DESTINATION_LEN),
      Check(c.enableInterrupt, ASDK_ADC_ERROR_ISR_REQUIRED) ]
  }

  /** asdk_adc_config_input_check. */
  function ConfigInputCheck(cfg: Option<AdcConfig>): ErrorCode
  {
    if cfg.None? then ASDK_ADC_ERROR_NULL_PTR
    else
      var c := cfg.value;
      if c.pinCount == 0 then ASDK_ADC_ERROR_INVALID_PIN_COUNT
      else if c.pinNums.None? then ASDK_ADC_ERROR_INVALID_PIN
      else if c.resolution >= ASDK_ADC_RESOLUTION_MAX then ASDK_ADC_ERROR_INVALID_RESOLUTION
      else if c.referenceVoltageSrc >= ASDK_ADC_REF_VOLTAGE_SRC_MAX then ASDK_ADC_ERROR_INVALID_REFERENCE_VOLTAGE_SRC
      else if c.samplingFreq >= ASDK_ADC_SAMPLING_FREQ_MAX then ASDK_ADC_ERROR_INVALID_SAMPLE_FREQ
      else if c.hwTriggerSrc >= ASDK_ADC_HW_TRG_SRC_MAX then ASDK_ADC_ERROR_INVALID_TRIGGER_SRC
      else if c.groupInstance.Some? then ASDK_ADC_ERROR_INVALID_GROUP_INSTANCE
      else if c.dmaDest.None? && c.enableDma then ASDK_ADC_ERROR_INVALID_DMA_DESTINATION
      else if c.dmaDestLen == 0 && c.enableDma then ASDK_ADC_ERROR_INVALID_DMA_DESTINATION_LEN
      else if !c.enableInterrupt then ASDK_ADC_ERROR_ISR_REQUIRED
      else ASDK_SUCCESS
  }

  /**
   * The input check reports NULL for a missing configuration, otherwise
   * the error of the first check that fails, and succeeds exactly when
   * every check passes.
   */
  lemma InputCheckIsFirstFailure(cfg: Option<AdcConfig>)
    ensures cfg.None? ==> ConfigInputCheck(cfg) == ASDK_ADC_ERROR_NULL_PTR
    ensures cfg.Some? ==> ConfigInputCheck(cfg) == ChecksStatus(InputChecks(cfg.value), ASDK_SUCCESS)
    ensures ConfigInputCheck(cfg) == ASDK_SUCCESS <==>
              cfg.Some? && forall i :: 0 <= i < |InputChecks(cfg.value)| ==> InputChecks(cfg.value)[i].passes
  {
    if cfg.Some? {
      var k := InputChecks(cfg.value);
      var f := FirstFailing(k);
      // Name each check, so that the facts about f reach all ten.
      assert k[0].passes || f == 0;
      assert k[1].passes || f <= 1;
      assert k[2].passes || f <= 2;
      assert k[3].passes || f <= 3;
      assert k[4].passes || f <= 4;
      assert k[5].passes || f <= 5;
      assert k[6].passes || f <= 6;
      assert k[7].passes || f <= 7;
      assert k[8].passes || f <= 8;
      assert k[9].passes || f <= 9;
    }
  }

  /**
   * The checks asdk_adc_init makes before it initialises anything: the
   * input check, then the refusal of the hardware trigger and of DMA.
   */
  function InitPrecheck(cfg: Option<AdcConfig>): (r: ErrorCode)
    ensures r == ASDK_SUCCESS ==> ConfigInputCheck(cfg) == ASDK_SUCCESS && !cfg.value.enableHwTrigger && !cfg.value.enableDma
    ensures ConfigInputCheck(cfg) != ASDK_SUCCESS ==> r == ConfigInputCheck(cfg)
    ensures ConfigInputCheck(cfg) == ASDK_SUCCESS && cfg.value.enableHwTrigger ==> r == ASDK_ADC_ERROR_HW_TRIG_NOT_SUPPORTED
    ensures ConfigInputCheck(cfg) == ASDK_SUCCESS && !cfg.value.enableHwTrigger && cfg.value.enableDma ==>
              r == ASDK_ADC_ERROR_DMA_TRIG_NOT_SUPPORTED
  {
    var check := ConfigInputCheck(cfg);
    if check != ASDK_SUCCESS then check
    else if cfg.value.enableHwTrigger then ASDK_ADC_ERROR_HW_TRIG_NOT_SUPPORTED
    else if cfg.value.enableDma then ASDK_ADC_ERROR_DMA_TRIG_NOT_SUPPORTED
    else ASDK_SUCCESS
  }

  /** A configuration asdk_adc_init accepts asks for neither DMA nor a hardware trigger, and has pins. */
  lemma AcceptedConfigIsSoftwareTriggered(cfg: Option<AdcConfig>)
    requires InitPrecheck(cfg) == ASDK_SUCCESS
    ensures cfg.Some? && cfg.value.pinCount > 0 && cfg.value.pinNums.Some?
    ensures cfg.value.enableInterrupt && !cfg.value.enableDma && !cfg.value.enableHwTrigger
  {
    assert InputChecks(cfg.value)[0].passes && InputChecks(cfg.value)[1].passes && InputChecks(cfg.value)[9].passes;
  }

  // ---------------------------------------------------------------------
  // The active-pin table
  // ---------------------------------------------------------------------

  /** The table after the one-time reset: every slot free. */
  function Unused(): (t: seq<nat>)
    ensures |t| == ASDK_ADC_MAX_TOTAL_CHANNELS
    ensures forall j :: 0 <= j < |t| ==> t[j] == MCU_PIN_NOT_DEFINED
  {
    seq(ASDK_ADC_MAX_TOTAL_CHANNELS, _ => MCU_PIN_NOT_DEFINED)
  }

  /** The first free slot at or after i, or the table's length when there is none. */
  function FirstFreeFrom(table: seq<nat>, i: nat): (r: nat)
    requires i <= |table|
    ensures i <= r <= |table|
    ensures forall j :: i <= j < r ==> table[j] != MCU_PIN_NOT_DEFINED
    ensures r < |table| ==> table[r] == MCU_PIN_NOT_DEFINED
    decreases |table| - i
  {
    if i == |table| || table[i] == MCU_PIN_NOT_DEFINED then i else FirstFreeFrom(table, i + 1)
  }

  /** The slot the init functions append at: the first free one. */
  function FirstFree(table: seq<nat>): nat
  {
    FirstFreeFrom(table, 0)
  }

  /** The used slots of the table are its first `used` ones. */
  ghost predicate Compact(table: seq<nat>, used: nat)
  {
    && used <= |table|
    && (forall j :: 0 <= j < used ==> table[j] != MCU_PIN_NOT_DEFINED)
    && (forall j :: used <= j < |table| ==> table[j] == MCU_PIN_NOT_DEFINED)
  }

  /** No pin is active in two slots. */
  ghost predicate NoRepeats(table: seq<nat>)
  {
    forall j, k :: 0 <= j < k < |table| && table[j] != MCU_PIN_NOT_DEFINED ==> table[j] != table[k]
  }

  /** In a compact table the first free slot is just past the used ones. */
  lemma CompactFirstFree(table: seq<nat>, used: nat)
    requires Compact(table, used)
    ensures FirstFree(table) == used
  {
    var r := FirstFree(table);
    assert r < |table| ==> table[r] == MCU_PIN_NOT_DEFINED;
    assert used < |table| ==> table[used] == MCU_PIN_NOT_DEFINED;
  }

  // ---------------------------------------------------------------------
  // asdk_adc_single_init
  // ---------------------------------------------------------------------

  /**
   * What the vendor and helper calls report for one pin:
   * asdk_adc_module_init and asdk_adc_channel_init (ASDK_SUCCESS when they
   * succeed) and asdk_set_pinmux (ASDK_PINMUX_SUCCESS when it succeeds).
   */
  datatype PinHw = PinHw(moduleInit: ErrorCode, channelInit: ErrorCode, pinmux: ErrorCode)

  /**
   * The set-up of one pin after its checks: module, channel, interrupt
   * (whose number must be below ASDK_EXTI_INTR_MAX), pin mux. Some(e)
   * when single_init returns e there, None when it goes on.
   */
  function PinSetup(hw: PinHw, intrNum: nat): (r: Option<ErrorCode>)
    ensures r.None? <==> hw.moduleInit == ASDK_SUCCESS && hw.channelInit == ASDK_SUCCESS
                         && intrNum < ASDK_EXTI_INTR_MAX && hw.pinmux == ASDK_PINMUX_SUCCESS
  {
    if hw.moduleInit != ASDK_SUCCESS then Some(hw.moduleInit)
    else if hw.channelInit != ASDK_SUCCESS then Some(hw.channelInit)
    else if intrNum >= ASDK_EXTI_INTR_MAX then Some(ASDK_ADC_ERROR_INVALID_INTR_NUM)
    else if hw.pinmux != ASDK_PINMUX_SUCCESS then Some(hw.pinmux)
    else None
  }

  /** The status of an init, the active-pin table it leaves, and how many pins it added. */
  datatype PinsOutcome = PinsOutcome(status: ErrorCode, table: seq<nat>, added: nat)

  /**
   * The pin loop of asdk_adc_single_init from pin i on, appending at slot:
   * a pin without an ADC input, a pin already in the table and a failing
   * set-up each end the init, keeping the pins added before it.
   */
  function AddPins(table: seq<nat>, pins: seq<nat>, i: nat, slot: nat, hw: nat -> PinHw, intrNum: nat): (r: PinsOutcome)
    requires i <= |pins| && slot + (|pins| - i) <= |table|
    ensures |r.table| == |table| && r.added <= |pins| - i
    ensures r.added == |pins| - i ==> r.status == ASDK_SUCCESS
    decreases |pins| - i
  {
    if i == |pins| then PinsOutcome(ASDK_SUCCESS, table, 0)
    else
      var pin := pins[i];
      match GetModuleInfo(pin)
      case Refused(code) => PinsOutcome(code, table, 0)
      case Found(_) =>
        if pin in table then PinsOutcome(ASDK_ADC_ERROR_PIN_ALREADY_INITIALIZED, table, 0)
        else match PinSetup(hw(i), intrNum)
          case Some(e) => PinsOutcome(e, table, 0)
          case None =>
            var rest := AddPins(table[slot := pin], pins, i + 1, slot + 1, hw, intrNum);
            PinsOutcome(rest.status, rest.table, rest.added + 1)
  }

  /** One step of the pin loop, pin by pin as asdk_adc_single_init takes it. */
  lemma AddPinsStep(table: seq<nat>, pins: seq<nat>, i: nat, slot: nat, hw: nat -> PinHw, intrNum: nat)
    requires i < |pins| && slot + (|pins| - i) <= |table|
    ensures var r := AddPins(table, pins, i, slot, hw, intrNum);
            var p := pins[i];
            && (PinMap(p).None? ==> r == PinsOutcome(GetModuleInfo(p).code, table, 0))
            && (PinMap(p).Some? && p in table ==> r == PinsOutcome(ASDK_ADC_ERROR_PIN_ALREADY_INITIALIZED, table, 0))
            && (PinMap(p).Some? && p !in table && PinSetup(hw(i), intrNum).Some? ==>
                  r == PinsOutcome(PinSetup(hw(i), intrNum).value, table, 0))
            && (PinMap(p).Some? && p !in table && PinSetup(hw(i), intrNum).None? ==>
                  var rest := AddPins(table[slot := p], pins, i + 1, slot + 1, hw, intrNum);
                  r == PinsOutcome(rest.status, rest.table, rest.added + 1))
  {
  }

  /**
   * The pins the loop adds land, in order, in the slots from slot on;
   * every other slot keeps its pin.
   */
  lemma {:induction false} AddPinsWrites(table: seq<nat>, pins: seq<nat>, i: nat, slot: nat, hw: nat -> PinHw, intrNum: nat)
    requires i <= |pins| && slot + (|pins| - i) <= |table|
    ensures forall j :: 0 <= j < |table| ==>
              AddPins(table, pins, i, slot, hw, intrNum).table[j]
              == if slot <= j < slot + AddPins(table, pins, i, slot, hw, intrNum).added then pins[i + (j - slot)] else table[j]
    decreases |pins| - i
  {
    if i < |pins| {
      var pin := pins[i];
      if PinMap(pin).Some? && pin !in table && PinSetup(hw(i), intrNum).None? {
        var t := table[slot := pin];
        var rest := AddPins(t, pins, i + 1, slot + 1, hw, intrNum);
        var r := AddPins(table, pins, i, slot, hw, intrNum);
        assert r == PinsOutcome(rest.status, rest.table, rest.added + 1);
        AddPinsWrites(t, pins, i + 1, slot + 1, hw, intrNum);
        forall j | 0 <= j < |table|
          ensures r.table[j] == if slot <= j < slot + r.added then pins[i + (j - slot)] else table[j]
        {
          assert rest.table[j] == if slot + 1 <= j < slot + 1 + rest.added then pins[i + 1 + (j - (slot + 1))] else t[j];
        }
      }
    }
  }

  /**
   * When the loop stops before the last pin, the pin it stopped at has no
   * ADC input, or is already active, or its set-up failed, and the status
   * says which.
   */
  lemma {:induction false} AddPinsStops(table: seq<nat>, pins: seq<nat>, i: nat, slot: nat, hw: nat -> PinHw, intrNum: nat)
    requires i <= |pins| && slot + (|pins| - i) <= |table|
    ensures var r := AddPins(table, pins, i, slot, hw, intrNum);
            r.added < |pins| - i ==>
              var p := pins[i + r.added];
              || (PinMap(p).None? && r.status == GetModuleInfo(p).code)
              || (PinMap(p).Some? && p in r.table && r.status == ASDK_ADC_ERROR_PIN_ALREADY_INITIALIZED)
              || (PinMap(p).Some? && p !in r.table && PinSetup(hw(i + r.added), intrNum) == Some(r.status))
    decreases |pins| - i
  {
    if i < |pins| {
      var pin := pins[i];
      if PinMap(pin).Some? && pin !in table && PinSetup(hw(i), intrNum).None? {
        AddPinsStops(table[slot := pin], pins, i + 1, slot + 1, hw, intrNum);
      }
    }
  }

  /**
   * The pin loop keeps the table compact and free of repeats: each pin it
   * adds is an ADC pin (never the free marker) not yet in the table.
   */
  lemma {:induction false} AddPinsKeepsTable(table: seq<nat>, pins: seq<nat>, i: nat, slot: nat, hw: nat -> PinHw, intrNum: nat)
    requires i <= |pins| && slot + (|pins| - i) <= |table|
    requires Compact(table, slot) && NoRepeats(table)
    ensures var r := AddPins(table, pins, i, slot, hw, intrNum);
            Compact(r.table, slot + r.added) && NoRepeats(r.table)
    decreases |pins| - i
  {
    if i < |pins| {
      var pin := pins[i];
      if PinMap(pin).Some? && pin !in table && PinSetup(hw(i), intrNum).None? {
        var t := table[slot := pin];
        assert Compact(t, slot + 1);
        forall j, k | 0 <= j < k < |t| && t[j] != MCU_PIN_NOT_DEFINED
          ensures t[j] != t[k]
        {
          if j == slot {
            assert t[k] == MCU_PIN_NOT_DEFINED;
          } else if k == slot {
            assert t[j] == table[j] && table[j] in table;
          }
        }
        AddPinsKeepsTable(t, pins, i + 1, slot + 1, hw, intrNum);
      }
    }
  }

  /**
   * When every pin is an ADC pin not yet active, no pin is listed twice and
   * every set-up succeeds, the loop adds all the pins and succeeds.
   */
  lemma {:induction false} AddPinsAll(table: seq<nat>, pins: seq<nat>, i: nat, slot: nat, hw: nat -> PinHw, intrNum: nat)
    requires i <= |pins| && slot + (|pins| - i) <= |table|
    requires forall k :: i <= k < |pins| ==> PinMap(pins[k]).Some? && pins[k] !in table && PinSetup(hw(k), intrNum).None?
    requires forall k, l :: i <= k < l < |pins| ==> pins[k] != pins[l]
    ensures var r := AddPins(table, pins, i, slot, hw, intrNum);
            r.added == |pins| - i && r.status == ASDK_SUCCESS
    decreases |pins| - i
  {
    if i < |pins| {
      var t := table[slot := pins[i]];
      AddPinsAll(t, pins, i + 1, slot + 1, hw, intrNum);
    }
  }

  /**
   * asdk_adc_single_init: on the first call the table is reset to all
   * free; then, when the free slots from the first free one on are fewer
   * than the pins, PIN_BUFFER_NOT_AVAILABLE; otherwise the pin loop.
   */
  function SingleInitSpec(table: seq<nat>, paramsInit: bool, c: AdcConfig, hw: nat -> PinHw): (r: PinsOutcome)
    requires |table| == ASDK_ADC_MAX_TOTAL_CHANNELS
    requires c.pinNums.Some? && c.pinCount <= |c.pinNums.value|
    ensures |r.table| == ASDK_ADC_MAX_TOTAL_CHANNELS
  {
    var t := if paramsInit then table else Unused();
    var free := FirstFree(t);
    if ASDK_ADC_MAX_TOTAL_CHANNELS - free < c.pinCount then PinsOutcome(ASDK_ADC_ERROR_PIN_BUFFER_NOT_AVAILABLE, t, 0)
    else AddPins(t, c.pinNums.value[..c.pinCount], 0, free, hw, c.intrNum)
  }

  /**
   * Single init keeps the active-pin table compact and free of repeats,
   * starting from the zeroed table of the first call or from such a table.
   */
  lemma SingleInitKeepsTable(table: seq<nat>, paramsInit: bool, c: AdcConfig, hw: nat -> PinHw)
    requires |table| == ASDK_ADC_MAX_TOTAL_CHANNELS
    requires c.pinNums.Some? && c.pinCount <= |c.pinNums.value|
    requires paramsInit ==> Compact(table, FirstFree(table)) && NoRepeats(table)
    ensures var r := SingleInitSpec(table, paramsInit, c, hw);
            Compact(r.table, FirstFree(r.table)) && NoRepeats(r.table)
  {
    var t := if paramsInit then table else Unused();
    var free := FirstFree(t);
    if !paramsInit {
      CompactFirstFree(t, 0);
    }
    if ASDK_ADC_MAX_TOTAL_CHANNELS - free >= c.pinCount {
      var pins := c.pinNums.value[..c.pinCount];
      AddPinsKeepsTable(t, pins, 0, free, hw, c.intrNum);
      var r := AddPins(t, pins, 0, free, hw, c.intrNum);
      CompactFirstFree(r.table, free + r.added);
    }
  }

  /** A table that holds pins from slot free on, and t's pins elsewhere, is t with those slots replaced. */
  lemma Splice(t: seq<nat>, u: seq<nat>, free: nat, pins: seq<nat>)
    requires |u| == |t| && free + |pins| <= |t|
    requires forall j :: 0 <= j < |t| ==> u[j] == if free <= j < free + |pins| then pins[j - free] else t[j]
    ensures u == t[..free] + pins + t[free + |pins|..]
  {
    var spliced := t[..free] + pins + t[free + |pins|..];
    forall j | 0 <= j < |t|
      ensures u[j] == spliced[j]
    {
      if j < free {
        assert spliced[j] == t[j];
      } else if j < free + |pins| {
        assert spliced[j] == pins[j - free];
      } else {
        assert spliced[j] == t[free + |pins|..][j - free - |pins|];
      }
    }
  }

  /** A pin loop that adds every pin splices them into the table from slot free on. */
  lemma AddPinsSplices(t: seq<nat>, pins: seq<nat>, free: nat, hw: nat -> PinHw, intrNum: nat)
    requires free + |pins| <= |t|
    requires forall k :: 0 <= k < |pins| ==> PinMap(pins[k]).Some? && pins[k] !in t && PinSetup(hw(k), intrNum).None?
    requires forall k, l :: 0 <= k < l < |pins| ==> pins[k] != pins[l]
    ensures var r := AddPins(t, pins, 0, free, hw, intrNum);
            r.status == ASDK_SUCCESS && r.table == t[..free] + pins + t[free + |pins|..]
  {
    AddPinsAll(t, pins, 0, free, hw, intrNum);
    AddPinsWrites(t, pins, 0, free, hw, intrNum);
    var r := AddPins(t, pins, 0, free, hw, intrNum);
    Splice(t, r.table, free, pins);
  }

  /**
   * A successful single init of distinct, not yet active ADC pins whose
   * set-up succeeds writes the pins, in order, into the free slots from
   * the first free one on and leaves every other slot as it was.
   */
  lemma SingleInitAppends(table: seq<nat>, paramsInit: bool, c: AdcConfig, hw: nat -> PinHw)
    requires |table| == ASDK_ADC_MAX_TOTAL_CHANNELS
    requires c.pinNums.Some? && c.pinCount <= |c.pinNums.value|
    requires var t := if paramsInit then table else Unused();
             ASDK_ADC_MAX_TOTAL_CHANNELS - FirstFree(t) >= c.pinCount
    requires forall k :: 0 <= k < c.pinCount ==>
               var p := c.pinNums.value[k];
               PinMap(p).Some? && (paramsInit ==> p !in table) && PinSetup(hw(k), c.intrNum).None?
    requires forall k, l :: 0 <= k < l < c.pinCount ==> c.pinNums.value[k] != c.pinNums.value[l]
    ensures var r := SingleInitSpec(table, paramsInit, c, hw);
            var t := if paramsInit then table else Unused();
            var free := FirstFree(t);
            && r.status == ASDK_SUCCESS
            && r.table == t[..free] + c.pinNums.value[..c.pinCount] + t[free + c.pinCount..]
  {
    var t := if paramsInit then table else Unused();
    var pins := c.pinNums.value[..c.pinCount];
    forall k | 0 <= k < |pins|
      ensures pins[k] !in t
    {
      assert PinMap(pins[k]).Some?;
    }
    AddPinsSplices(t, pins, FirstFree(t), hw, c.intrNum);
  }

  // ---------------------------------------------------------------------
  // asdk_adc_group_init
  // ---------------------------------------------------------------------

  /** asdk_adc_grp_private_handle_t: grp_pins as the slot of the active-pin table it points at. */
  datatype GroupHandle = GroupHandle(pins: Option<nat>, pinCount: nat, status: nat, callback: Option<nat>)

  /** The zero-initialised handle: no pins. */
  const FREE_HANDLE: GroupHandle := GroupHandle(None, 0, ASDK_ADC_CONVERSION_STATUS_RESET, None)

  /** The first handle with no pins, or the number of handles when every one is taken. */
  function FirstFreeHandle(groups: seq<GroupHandle>): (r: nat)
    ensures r <= |groups|
    ensures forall h :: 0 <= h < r ==> groups[h].pins.Some?
    ensures r < |groups| ==> groups[r].pins.None?
  {
    if |groups| == 0 || groups[0].pins.None? then 0 else 1 + FirstFreeHandle(groups[1..])
  }

  /** The status of a group init, the handles and table it leaves, and the instance it returns. */
  datatype GroupOutcome = GroupOutcome(status: ErrorCode, groups: seq<GroupHandle>, table: seq<nat>, instance: Option<nat>)

  /**
   * asdk_adc_group_init: the first free handle, else GROUP_HANDLE_NOT_AVAILABLE;
   * the first free slot, else PIN_BUFFER_NOT_AVAILABLE when the pins do not
   * fit after it; then the handle points at that slot and the pins are
   * copied there. Neither the pins nor the table's one-time reset are
   * checked here.
   */
  function GroupInitSpec(groups: seq<GroupHandle>, table: seq<nat>, c: AdcConfig): (r: GroupOutcome)
    requires |table| == ASDK_ADC_MAX_TOTAL_CHANNELS
    requires c.pinNums.Some? && c.pinCount <= |c.pinNums.value|
    ensures |r.groups| == |groups| && |r.table| == |table|
  {
    var h := FirstFreeHandle(groups);
    if h == |groups| then GroupOutcome(ASDK_ADC_ERROR_GROUP_HANDLE_NOT_AVAILABLE, groups, table, None)
    else
      var free := FirstFree(table);
      if ASDK_ADC_MAX_TOTAL_CHANNELS - free < c.pinCount then
        GroupOutcome(ASDK_ADC_ERROR_PIN_BUFFER_NOT_AVAILABLE, groups, table, None)
      else
        GroupOutcome(ASDK_SUCCESS,
                     groups[h := GroupHandle(Some(free), c.pinCount, ASDK_ADC_CONVERSION_STATUS_RESET, c.groupCallback)],
                     table[..free] + c.pinNums.value[..c.pinCount] + table[free + c.pinCount..],
                     Some(h))
  }

  /**
   * A successful group init hands out a handle that was free, every
   * earlier one being taken, and the handle's pins read back from the
   * table as the configured pins.
   */
  lemma GroupInitClaimsFreeHandle(groups: seq<GroupHandle>, table: seq<nat>, c: AdcConfig)
    requires |table| == ASDK_ADC_MAX_TOTAL_CHANNELS
    requires c.pinNums.Some? && c.pinCount <= |c.pinNums.value|
    requires GroupInitSpec(groups, table, c).status == ASDK_SUCCESS
    ensures var r := GroupInitSpec(groups, table, c);
            && r.instance.Some? && r.instance.value < |groups|
            && groups[r.instance.value].pins.None?
            && (forall h :: 0 <= h < r.instance.value ==> groups[h].pins.Some?)
            && var g := r.groups[r.instance.value];
               && g.pins.Some? && g.pinCount == c.pinCount
               && g.pins.value + g.pinCount <= |r.table|
               && r.table[g.pins.value..g.pins.value + g.pinCount] == c.pinNums.value[..c.pinCount]
  {
    var free := FirstFree(table);
    var pins := c.pinNums.value[..c.pinCount];
    var t := table[..free] + pins + table[free + c.pinCount..];
    assert t[free..free + c.pinCount] == pins;
  }

  /**
   * Before any single init, the table still holds its zero initial
   * contents (MCU_PIN_0 everywhere) and has no free slot, so a group init
   * with a free handle is refused for lack of pin buffer.
   */
  lemma GroupInitBeforeSingleInitRefused(groups: seq<GroupHandle>, c: AdcConfig)
    requires c.pinNums.Some? && 0 < c.pinCount <= |c.pinNums.value|
    requires FirstFreeHandle(groups) < |groups|
    ensures GroupInitSpec(groups, seq(ASDK_ADC_MAX_TOTAL_CHANNELS, _ => MCU_PIN_0), c).status
            == ASDK_ADC_ERROR_PIN_BUFFER_NOT_AVAILABLE
  {
    var zeros := seq(ASDK_ADC_MAX_TOTAL_CHANNELS, _ => MCU_PIN_0);
    assert FirstFree(zeros) == ASDK_ADC_MAX_TOTAL_CHANNELS;
  }

  // ---------------------------------------------------------------------
  // Conversion requests
  // ---------------------------------------------------------------------

  /**
   * asdk_adc_start_conversion_non_blocking: the pin's module and channel;
   * a failing or busy group status (vendor answers statusOk and busy) is
   * CONVERSION_FAIL; otherwise the software trigger is issued.
   */
  function StartConversionStatus(pin: nat, statusOk: bool, busy: bool): (r: ErrorCode)
    ensures r == ASDK_SUCCESS <==> PinMap(pin).Some? && statusOk && !busy
    ensures PinMap(pin).None? ==> r == GetModuleInfo(pin).code
    ensures PinMap(pin).Some? && (!statusOk || busy) ==> r == ASDK_ADC_ERROR_CONVERSION_FAIL
  {
    match GetModuleInfo(pin)
    case Refused(code) => code
    case Found(_) => if !statusOk || busy then ASDK_ADC_ERROR_CONVERSION_FAIL else ASDK_SUCCESS
  }

  /**
   * asdk_adc_read_conversion_value_non_blocking: the vendor result of the
   * pin's channel, for a pin with an ADC input.
   */
  function ReadConversionValue(pin: nat, channelResult: nat): (r: (ErrorCode, Option<nat>))
    ensures r.0 == ASDK_SUCCESS <==> PinMap(pin).Some?
    ensures r.1.Some? <==> PinMap(pin).Some?
    ensures r.1.Some? ==> r.1.value == channelResult
    ensures PinMap(pin).None? ==> r.0 == GetModuleInfo(pin).code
  {
    match GetModuleInfo(pin)
    case Refused(code) => (code, None)
    case Found(_) => (ASDK_SUCCESS, Some(channelResult))
  }

  // ---------------------------------------------------------------------
  // The driver state
  // ---------------------------------------------------------------------

  /** The static state of asdk_adc.c. */
  class AdcDriver {
    /** asdk_adc_active_pins. */
    var activePins: seq<nat>
    /** is_adc_params_init: whether single init has reset the table. */
    var paramsInit: bool
    /** adc_grp_handle. */
    var groups: seq<GroupHandle>
    /** asdk_adc_application_callback. */
    var callback: Option<nat>

    ghost predicate Valid()
      reads this
    {
      && |activePins| == ASDK_ADC_MAX_TOTAL_CHANNELS
      && |groups| == ASDK_ADC_MAX_GROUP_COUNT
    }

    /** The zero-initialised statics. */
    constructor()
      ensures Valid() && !paramsInit && callback.None?
      ensures activePins == seq(ASDK_ADC_MAX_TOTAL_CHANNELS, _ => MCU_PIN_0)
      ensures groups == seq(ASDK_ADC_MAX_GROUP_COUNT, _ => FREE_HANDLE)
    {
      activePins := seq(ASDK_ADC_MAX_TOTAL_CHANNELS, _ => MCU_PIN_0);
      paramsInit := false;
      groups := seq(ASDK_ADC_MAX_GROUP_COUNT, _ => FREE_HANDLE);
      callback := None;
    }

    /** asdk_adc_install_callback: a NULL callback is refused and the installed one kept. */
    method InstallCallback(fn: Option<nat>) returns (status: ErrorCode)
      modifies this`callback
      ensures fn.None? ==> status == ASDK_ADC_ERROR_INVALID_CALLBACK && callback == old(callback)
      ensures fn.Some? ==> status == ASDK_SUCCESS && callback == fn
    {
      if fn.None? {
        return ASDK_ADC_ERROR_INVALID_CALLBACK;
      }
      callback := fn;
      status := ASDK_SUCCESS;
    }

    /** The reset loop of the first single init: every slot free. */
    method ResetPins()
      modifies this`activePins
      ensures activePins == Unused()
    {
      activePins := seq(ASDK_ADC_MAX_TOTAL_CHANNELS, _ => MCU_PIN_0);
      var index := 0;
      while index < ASDK_ADC_MAX_TOTAL_CHANNELS
        invariant index <= ASDK_ADC_MAX_TOTAL_CHANNELS && |activePins| == ASDK_ADC_MAX_TOTAL_CHANNELS
        invariant forall j :: 0 <= j < index ==> activePins[j] == MCU_PIN_NOT_DEFINED
      {
        activePins := activePins[index := MCU_PIN_NOT_DEFINED];
        index := index + 1;
      }
    }

    /** The search for the first free slot, as both init functions make it. */
    method FindFreeSlot() returns (slot: nat)
      ensures slot == FirstFree(activePins)
    {
      slot := 0;
      while slot < |activePins|
        invariant slot <= |activePins|
        invariant FirstFreeFrom(activePins, slot) == FirstFree(activePins)
        decreases |activePins| - slot
      {
        if activePins[slot] == MCU_PIN_NOT_DEFINED {
          return;
        }
        slot := slot + 1;
      }
    }

    /** The search for the first handle without pins. */
    method FindFreeHandle() returns (handle: nat)
      ensures handle == FirstFreeHandle(groups)
    {
      handle := 0;
      while handle < |groups|
        invariant handle <= |groups|
        invariant forall h :: 0 <= h < handle ==> groups[h].pins.Some?
      {
        if groups[handle].pins.None? {
          FirstFreeHandleUnique(groups, handle);
          return;
        }
        handle := handle + 1;
      }
      FirstFreeHandleUnique(groups, handle);
    }

    /** The duplicate check of single init: whether any slot holds the pin. */
    method IsActive(pin: nat) returns (found: bool)
      ensures found <==> pin in activePins
    {
      var index := 0;
      while index < |activePins|
        invariant index <= |activePins|
        invariant pin !in activePins[..index]
      {
        if pin == activePins[index] {
          return true;
        }
        assert activePins[..index + 1] == activePins[..index] + [activePins[index]];
        index := index + 1;
      }
      assert activePins[..index] == activePins;
      found := false;
    }

    /**
     * asdk_adc_single_init. hw(k) is what the set-up calls report for the
     * k-th pin of the configuration.
     */
    method SingleInit(c: AdcConfig, hw: nat -> PinHw) returns (status: ErrorCode)
      requires Valid()
      requires c.pinNums.Some? && c.pinCount <= |c.pinNums.value|
      modifies this`activePins, this`paramsInit
      ensures Valid() && paramsInit
      ensures var r := SingleInitSpec(old(activePins), old(paramsInit), c, hw);
              status == r.status && activePins == r.table
    {
      if !paramsInit {
        paramsInit := true;
        ResetPins();
      }
      var slot := FindFreeSlot();
      if ASDK_ADC_MAX_TOTAL_CHANNELS - slot < c.pinCount {
        return ASDK_ADC_ERROR_PIN_BUFFER_NOT_AVAILABLE;
      }
      status := AppendPins(c, hw, slot);
    }

    /** The pin loop of single init, appending from the free slot `free` on. */
    method AppendPins(c: AdcConfig, hw: nat -> PinHw, free: nat) returns (status: ErrorCode)
      requires c.pinNums.Some? && c.pinCount <= |c.pinNums.value|
      requires free + c.pinCount <= |activePins|
      modifies this`activePins
      ensures var r := AddPins(old(activePins), c.pinNums.value[..c.pinCount], 0, free, hw, c.intrNum);
              status == r.status && activePins == r.table
    {
      ghost var pins := c.pinNums.value[..c.pinCount];
      var slot := free;
      var index := 0;
      while index < c.pinCount
        invariant index <= c.pinCount && slot == free + index && |activePins| == |old(activePins)|
        invariant var r := AddPins(activePins, pins, index, slot, hw, c.intrNum);
                  AddPins(old(activePins), pins, 0, free, hw, c.intrNum) == PinsOutcome(r.status, r.table, r.added + index)
      {
        var pin := c.pinNums.value[index];
        assert pin == pins[index];
        AddPinsStep(activePins, pins, index, slot, hw, c.intrNum);
        var lookup := GetModuleInfo(pin);
        if lookup.Refused? {
          return lookup.code;
        }
        var active := IsActive(pin);
        if active {
          return ASDK_ADC_ERROR_PIN_ALREADY_INITIALIZED;
        }
        var setup := PinSetup(hw(index), c.intrNum);
        if setup.Some? {
          return setup.value;
        }
        activePins := activePins[slot := pin];
        slot := slot + 1;
        index := index + 1;
      }
      status := ASDK_SUCCESS;
    }

    /** asdk_adc_group_init; instance is the handle written back into the configuration. */
    method GroupInit(c: AdcConfig) returns (status: ErrorCode, instance: Option<nat>)
      requires Valid()
      requires c.pinNums.Some? && c.pinCount <= |c.pinNums.value|
      modifies this`activePins, this`groups
      ensures Valid()
      ensures GroupInitSpec(old(groups), old(activePins), c) == GroupOutcome(status, groups, activePins, instance)
    {
      var handle := FindFreeHandle();
      if handle == |groups| {
        return ASDK_ADC_ERROR_GROUP_HANDLE_NOT_AVAILABLE, None;
      }
      var slot := FindFreeSlot();
      if ASDK_ADC_MAX_TOTAL_CHANNELS - slot < c.pinCount {
        return ASDK_ADC_ERROR_PIN_BUFFER_NOT_AVAILABLE, None;
      }
      groups := groups[handle := GroupHandle(Some(slot), c.pinCount, ASDK_ADC_CONVERSION_STATUS_RESET, c.groupCallback)];
      instance := Some(handle);
      ghost var before := activePins;
      ghost var handles := groups;
      var index := 0;
      while index < c.pinCount
        invariant index <= c.pinCount && |activePins| == ASDK_ADC_MAX_TOTAL_CHANNELS
        invariant groups == handles
        invariant activePins == before[..slot] + c.pinNums.value[..index] + before[slot + index..]
      {
        activePins := activePins[slot + index := c.pinNums.value[index]];
        assert c.pinNums.value[..index + 1] == c.pinNums.value[..index] + [c.pinNums.value[index]];
        index := index + 1;
      }
      status := ASDK_SUCCESS;
    }

    /**
     * asdk_adc_init: the prechecks, then group or single init. A group
     * init returns the handle it assigned as the configuration's group
     * instance.
     */
    method Init(cfg: Option<AdcConfig>, hw: nat -> PinHw) returns (status: ErrorCode, instance: Option<nat>)
      requires Valid()
      requires cfg.Some? && cfg.value.pinNums.Some? ==> cfg.value.pinCount <= |cfg.value.pinNums.value|
      modifies this`activePins, this`paramsInit, this`groups
      ensures Valid()
      ensures InitPrecheck(cfg) != ASDK_SUCCESS ==>
                && status == InitPrecheck(cfg) && instance.None?
                && activePins == old(activePins) && paramsInit == old(paramsInit) && groups == old(groups)
      ensures InitPrecheck(cfg) == ASDK_SUCCESS && cfg.value.enableGroup ==>
                && GroupInitSpec(old(groups), old(activePins), cfg.value) == GroupOutcome(status, groups, activePins, instance)
                && paramsInit == old(paramsInit)
      ensures InitPrecheck(cfg) == ASDK_SUCCESS && !cfg.value.enableGroup ==>
                && var r := SingleInitSpec(old(activePins), old(paramsInit), cfg.value, hw);
                   status == r.status && activePins == r.table && paramsInit && instance.None? && groups == old(groups)
    {
      var check := ConfigInputCheck(cfg);
      if check != ASDK_SUCCESS {
        return check, None;
      }
      var c := cfg.value;
      if c.enableHwTrigger {
        return ASDK_ADC_ERROR_HW_TRIG_NOT_SUPPORTED, None;
      }
      if c.enableDma {
        return ASDK_ADC_ERROR_DMA_TRIG_NOT_SUPPORTED, None;
      }
      AcceptedConfigIsSoftwareTriggered(cfg);
      if c.enableGroup {
        status, instance := GroupInit(c);
      } else {
        status := SingleInit(c, hw);
        instance := None;
      }
    }
  }

  /** FirstFreeHandle is the only index with its two defining properties. */
  lemma FirstFreeHandleUnique(groups: seq<GroupHandle>, h: nat)
    requires h <= |groups|
    requires forall k :: 0 <= k < h ==> groups[k].pins.Some?
    requires h < |groups| ==> groups[h].pins.None?
    ensures h == FirstFreeHandle(groups)
  {
    var r := FirstFreeHandle(groups);
    assert r < |groups| ==> groups[r].pins.None?;
    assert h < |groups| ==> groups[h].pins.None?;
  }
}
