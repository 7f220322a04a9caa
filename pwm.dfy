// The PWM driver of the CYT2B75 platform
// (asdk-gen2/platform/cyt2b75/dal/src/asdk_pwm.c).
//
// PWM channels use the same 79 TCPWM counters as the timer driver, and the
// driver carries its own copy of the timer's channel mapping and period check
// (asdk_pwm.c:614-650); the model uses the Timer module's definitions for
// both. The driver owns a callback table and one static counter configuration
// (cyt2b75_pwm_config) that every init edits field by field before handing it
// to the counter init. The outcomes of the clock-enable and PWM-init calls and
// the values read back from a counter are inputs of the model.

module Pwm {
  import opened Common
  import opened AsdkError
  import Timer

  const ASDK_PWM_MODULE_CH_MAX: nat := 79

  const MAX_DUTY_CYCLE: nat := 100
  const PERCENT: nat := 100

  const ASDK_PWM_RUN_MODE_ONE_SHOT: nat := 0
  const ASDK_PWM_RUN_MODE_CONTINUOUS: nat := 1
  const ASDK_PWM_COUNT_DIRECTION_MAX: nat := 2
  const ASDK_PWM_OUTPUT_RIGHT_ALIGN: nat := 0
  const ASDK_PWM_OUTPUT_LEFT_ALIGN: nat := 1
  const ASDK_PWM_OUTPUT_CENTRE_ALIGN: nat := 2
  const ASDK_PWM_PRESCALER_DIVBY_1: nat := 0
  const ASDK_PWM_PRESCALER_DIVBY_MAX: nat := 8
  const ASDK_PWM_MODE_PWM: nat := 0
  const ASDK_PWM_MODE_DEADTIME: nat := 1


  /** Largest dead time the 8-bit dead-time counters of groups 0 and 2 hold. */
  const DEADTIME_8BIT_MAX: nat := 0xFF

  // ---------------------------------------------------------------------
  // Period and compare arithmetic
  // ---------------------------------------------------------------------

  /**
   * The prescaler switch of set_frequency and _init_pwm: DIVBY_2^k for
   * k = 0..7 gives (clock / 2^k) / freq; any other value gives None
   * (INVALID_PRESCALER).
   */
  function PwmPeriod(clock: nat, prescaler: nat, freq: nat): (r: Option<nat>)
    requires 0 < freq
    ensures r.Some? <==> prescaler < ASDK_PWM_PRESCALER_DIVBY_MAX
    ensures r.Some? ==> r.value == clock / (Pow2(prescaler) * freq)
  {
    if prescaler < ASDK_PWM_PRESCALER_DIVBY_MAX then
      DivDiv(clock, Pow2(prescaler), freq);
      Some((clock / Pow2(prescaler)) / freq)
    else
      None
  }

  /** A period computed from a uint32_t clock is itself a uint32_t. */
  lemma PwmPeriodIsU32(clock: nat, prescaler: nat, freq: nat)
    requires IsU32(clock) && 0 < freq && prescaler < ASDK_PWM_PRESCALER_DIVBY_MAX
    ensures IsU32(PwmPeriod(clock, prescaler, freq).value)
  {
    DivDiv(clock, Pow2(prescaler), freq);
    DivLe(clock, Pow2(prescaler) * freq);
  }

  /**
   * The compare value of set_duty and _init_pwm as written:
   * duty * period is a uint32_t product and wraps modulo 2^32.
   */
  function DutyCompareAsWritten(duty: nat, period: nat): nat
  {
    ((duty * period) % U32_LIMIT) / PERCENT
  }

  /**
   * The compare value for a duty cycle, computed without wrapping: the
   * largest count whose share of the period does not exceed duty percent.
   */
  function DutyCompare(duty: nat, period: nat): (r: nat)
    ensures r * PERCENT <= duty * period < (r + 1) * PERCENT
    ensures duty <= MAX_DUTY_CYCLE ==> r <= period
    ensures duty == MAX_DUTY_CYCLE ==> r == period
    ensures duty == 0 ==> r == 0
  {
    DutyBounds(duty, period);
    (duty * period) / PERCENT
  }

  lemma DutyBounds(duty: nat, period: nat)
    ensures duty <= MAX_DUTY_CYCLE ==> (duty * period) / PERCENT <= period
    ensures duty == MAX_DUTY_CYCLE ==> (duty * period) / PERCENT == period
  {
    if duty <= MAX_DUTY_CYCLE {
      MulMono(duty, MAX_DUTY_CYCLE, period, period);
    }
    if duty == MAX_DUTY_CYCLE {
      DivUnique(duty * period, PERCENT, period, 0);
    }
  }

  /** Below 2^32 the product does not wrap and the two computations agree. */
  lemma DutyCompareAgrees(duty: nat, period: nat)
    requires duty * period < U32_LIMIT
    ensures DutyCompareAsWritten(duty, period) == DutyCompare(duty, period)
  {
  }

  /** On the 16-bit groups every uint8_t duty cycle stays below 2^32. */
  lemma DutyCompareAgreesOn16Bit(duty: nat, period: nat)
    requires IsU8(duty) && period <= 0xFFFF
    ensures DutyCompareAsWritten(duty, period) == DutyCompare(duty, period)
  {
    MulMono(duty, 0xFF, period, 0xFFFF);
    assert duty * period < U32_LIMIT;
    DutyCompareAgrees(duty, period);
  }

  /**
   * On a 32-bit group with a period of 80 000 000 counts (an 80 MHz clock at
   * 1 Hz), a 100 % duty cycle wraps to a compare value of 37 050 327 instead
   * of the full period.
   */
  lemma DutyCompareOverflows()
    ensures Timer.PeriodValid(Timer.GROUP_2, 80_000_000)
    ensures PwmPeriod(80_000_000, ASDK_PWM_PRESCALER_DIVBY_1, 1) == Some(80_000_000)
    ensures DutyCompareAsWritten(100, 80_000_000) == 37_050_327
    ensures DutyCompare(100, 80_000_000) == 80_000_000
  {
    assert Pow2(0) == 1;
  }

  // ---------------------------------------------------------------------
  // The configuration the driver hands to the counter
  // ---------------------------------------------------------------------

  /** The fields of cyt2b75_pwm_config that the driver writes. */
  datatype PwmRegs = PwmRegs(
    deadtimeMode: bool,    // pwmMode: CY_TCPWM_PWM_MODE_DEADTIME, else PWM
    clockPrescaler: nat,   // clockPrescaler
    period: nat,           // period
    compare: nat,          // compare0
    continuous: bool,      // runMode
    align: nat,            // output alignment selecting cc0Match/overflow/underflow modes
    deadTime: nat,         // deadTime
    deadTimeComp: nat,     // deadTimeComp
    interruptOnTc: bool)   // interruptSources == CY_TCPWM_INT_ON_TC

  /** The static initialiser of cyt2b75_pwm_config. */
  const INITIAL_REGS: PwmRegs :=
    PwmRegs(false, ASDK_PWM_PRESCALER_DIVBY_1, 999, 49, true, ASDK_PWM_OUTPUT_LEFT_ALIGN, 0, 0, false)

  /** asdk_pwm_config_t, without the MCU pins (their pin-mux results are not checked). */
  datatype PwmConfig = PwmConfig(
    mode: nat,
    leftDeadtime: nat,
    rightDeadtime: nat,
    runMode: nat,
    direction: nat,
    interruptEnable: bool,
    intrNum: nat,
    clockFrequency: nat,
    prescaler: nat,
    frequency: nat,
    dutyPercent: nat,
    align: nat,
    callback: Option<nat>)

  /** The outcomes of the foreign calls made by asdk_pwm_init. */
  datatype Platform = Platform(
    clockStatus: ErrorCode,  // asdk_clock_enable
    pwmInitOk: bool)         // Cy_Tcpwm_Pwm_Init == CY_RET_SUCCESS

  /** The dead-time check of _init_pwm as coded: one side within 8 bits is enough. */
  predicate DeadtimeAccepted(group: nat, left: nat, right: nat)
  {
    (group == Timer.GROUP_0 || group == Timer.GROUP_2) ==>
      (left <= DEADTIME_8BIT_MAX || right <= DEADTIME_8BIT_MAX)
  }

  /** A left dead time of 0x100 clocks passes the check on group 0 next to a zero right side. */
  lemma DeadtimeOneSideSuffices()
    ensures DeadtimeAccepted(Timer.GROUP_0, 0x100, 0)
    ensures !DeadtimeAccepted(Timer.GROUP_0, 0x100, 0x100)
  {
  }

  /** The status _init_pwm returns, in its coded order. */
  function InitPwmStatus(group: nat, cfg: PwmConfig, p: Platform): ErrorCode
    requires 0 < cfg.frequency
  {
    var period := PwmPeriod(cfg.clockFrequency, cfg.prescaler, cfg.frequency);
    if period.None? then ASDK_PWM_ERROR_INVALID_PRESCALER
    else if !Timer.PeriodValid(group, period.value) then ASDK_PWM_ERROR_INVALID_FREQUENCY
    else if ASDK_EXTI_INTR_MAX <= cfg.intrNum then ASDK_PWM_ERROR_INVALID_INTR_NUM
    else if cfg.runMode > ASDK_PWM_RUN_MODE_CONTINUOUS then ASDK_PWM_ERROR_INVALID_RUN_MODE
    else if cfg.align > ASDK_PWM_OUTPUT_CENTRE_ALIGN then ASDK_PWM_ERROR_INVALID_OUTPUT_ALIGN
    else if cfg.mode == ASDK_PWM_MODE_DEADTIME && !DeadtimeAccepted(group, cfg.leftDeadtime, cfg.rightDeadtime)
    then ASDK_PWM_ERROR_INVALID_DEADTIME
    else if cfg.mode > ASDK_PWM_MODE_DEADTIME then ASDK_PWM_ERROR_INVALID_MODE
    else if !p.pwmInitOk then ASDK_PWM_ERROR_INIT_FAILED
    else ASDK_PWM_SUCCESS
  }

  /** The status asdk_pwm_init returns; None stands for a NULL configuration. */
  function InitStatus(ch: nat, cfg: Option<PwmConfig>, p: Platform): ErrorCode
    requires cfg.Some? ==> 0 < cfg.value.frequency
  {
    if cfg.None? then ASDK_PWM_ERROR_NULL_PTR
    else if ASDK_PWM_MODULE_CH_MAX <= ch then ASDK_PWM_ERROR_INVALID_CHANNEL
    else if ASDK_PWM_COUNT_DIRECTION_MAX <= cfg.value.direction then ASDK_PWM_ERROR_INVALID_COUNT_DIRECTION
    else if p.clockStatus != ASDK_CLOCK_SUCCESS then p.clockStatus
    else InitPwmStatus(Timer.GroupAndChannel(ch).group, cfg.value, p)
  }

  /** Every requirement of asdk_pwm_init, stated as one list. */
  predicate Acceptable(ch: nat, cfg: PwmConfig, p: Platform)
    requires 0 < cfg.frequency
  {
    var group := Timer.GroupAndChannel(ch).group;
    var period := PwmPeriod(cfg.clockFrequency, cfg.prescaler, cfg.frequency);
    && ch < ASDK_PWM_MODULE_CH_MAX
    && cfg.direction < ASDK_PWM_COUNT_DIRECTION_MAX
    && p.clockStatus == ASDK_CLOCK_SUCCESS
    && cfg.prescaler < ASDK_PWM_PRESCALER_DIVBY_MAX
    && Timer.PeriodValid(group, period.value)
    && cfg.intrNum < ASDK_EXTI_INTR_MAX
    && cfg.runMode <= ASDK_PWM_RUN_MODE_CONTINUOUS
    && cfg.align <= ASDK_PWM_OUTPUT_CENTRE_ALIGN
    && cfg.mode <= ASDK_PWM_MODE_DEADTIME
    && (cfg.mode == ASDK_PWM_MODE_DEADTIME ==> DeadtimeAccepted(group, cfg.leftDeadtime, cfg.rightDeadtime))
    && p.pwmInitOk
  }

  /** A NULL configuration is reported as NULL_PTR whatever the channel. */
  lemma InitNullConfig(ch: nat, p: Platform)
    ensures InitStatus(ch, None, p) == ASDK_PWM_ERROR_NULL_PTR
  {
  }

  /** asdk_pwm_init succeeds exactly when every requirement holds. */
  lemma InitSucceedsIff(ch: nat, cfg: PwmConfig, p: Platform)
    requires 0 < cfg.frequency && p.clockStatus != ASDK_PWM_SUCCESS
    ensures InitStatus(ch, Some(cfg), p) == ASDK_PWM_SUCCESS <==> Acceptable(ch, cfg, p)
  {
  }

  /**
   * The checks _init_pwm passes before it registers the callback: prescaler,
   * frequency and interrupt number.
   */
  predicate Registers(ch: nat, cfg: PwmConfig, p: Platform)
    requires 0 < cfg.frequency
  {
    var period := PwmPeriod(cfg.clockFrequency, cfg.prescaler, cfg.frequency);
    && ch < ASDK_PWM_MODULE_CH_MAX
    && cfg.direction < ASDK_PWM_COUNT_DIRECTION_MAX
    && p.clockStatus == ASDK_CLOCK_SUCCESS
    && period.Some?
    && Timer.PeriodValid(Timer.GroupAndChannel(ch).group, period.value)
    && cfg.intrNum < ASDK_EXTI_INTR_MAX
  }

  /**
   * The clock prescaler field after the interrupt block of _init_pwm as
   * written: the `else` whose body was commented out adopts the prescaler
   * assignment, which therefore happens only with interrupts disabled.
   */
  function ProgrammedPrescalerAsWritten(previous: nat, requested: nat, interruptEnable: bool): nat
  {
    if interruptEnable then previous else requested
  }

  /**
   * With interrupts enabled and DIVBY_8 requested on a fresh driver, the
   * counter keeps DIVBY_1 while the period was computed for DIVBY_8: an
   * 80 MHz clock and a 1 kHz request give a period of 10 000 counts that the
   * counter runs at 8 kHz.
   */
  lemma PrescalerIgnoredWithInterrupts()
    ensures ProgrammedPrescalerAsWritten(INITIAL_REGS.clockPrescaler, 3, true) == ASDK_PWM_PRESCALER_DIVBY_1
    ensures PwmPeriod(80_000_000, 3, 1000) == Some(10_000)
    ensures 80_000_000 / (Pow2(ASDK_PWM_PRESCALER_DIVBY_1) * 10_000) == 8000
    ensures 80_000_000 / (Pow2(3) * 10_000) == 1000
  {
    assert Pow2(0) == 1 && Pow2(3) == 8;
  }

  /**
   * The configuration a passing init leaves behind: the general settings,
   * run mode, alignment and dead times, with the prescaler always programmed.
   */
  function ProgrammedRegs(old_regs: PwmRegs, group: nat, cfg: PwmConfig): (r: PwmRegs)
    requires 0 < cfg.frequency && cfg.prescaler < ASDK_PWM_PRESCALER_DIVBY_MAX && IsU32(cfg.clockFrequency)
    ensures r.clockPrescaler == cfg.prescaler
    ensures (r.period + 1) % U32_LIMIT == PwmPeriod(cfg.clockFrequency, cfg.prescaler, cfg.frequency).value
    ensures cfg.dutyPercent <= MAX_DUTY_CYCLE ==>
              r.compare <= PwmPeriod(cfg.clockFrequency, cfg.prescaler, cfg.frequency).value
  {
    var period := PwmPeriod(cfg.clockFrequency, cfg.prescaler, cfg.frequency).value;
    PwmPeriodIsU32(cfg.clockFrequency, cfg.prescaler, cfg.frequency);
    var deadtime := cfg.mode == ASDK_PWM_MODE_DEADTIME;
    old_regs.(
      interruptOnTc := old_regs.interruptOnTc || cfg.interruptEnable,
      clockPrescaler := cfg.prescaler,
      period := SubU32(period, 1),
      compare := DutyCompare(cfg.dutyPercent, period),
      continuous := cfg.runMode == ASDK_PWM_RUN_MODE_CONTINUOUS,
      align := cfg.align,
      deadtimeMode := deadtime,
      deadTime := if deadtime then cfg.leftDeadtime else old_regs.deadTime,
      deadTimeComp := if deadtime then cfg.rightDeadtime else old_regs.deadTimeComp)
  }

  class PwmDriver {
    /** pwm_callback[]: the callback per PWM channel. */
    var callbacks: seq<Option<nat>>
    /** cyt2b75_pwm_config, shared by every channel's init. */
    var regs: PwmRegs

    predicate Valid()
      reads this
    {
      |callbacks| == ASDK_PWM_MODULE_CH_MAX
    }

    /** No callback registered; the configuration holds its static initialiser. */
    constructor()
      ensures Valid() && regs == INITIAL_REGS
      ensures forall ch :: 0 <= ch < ASDK_PWM_MODULE_CH_MAX ==> callbacks[ch] == None
    {
      callbacks := seq(ASDK_PWM_MODULE_CH_MAX, _ => None);
      regs := INITIAL_REGS;
    }

    /**
     * asdk_pwm_init. Returns the configuration handed to the counter init
     * when the call gets that far. The callback is registered once the
     * interrupt number is checked, even when a later check fails; a later
     * failure can leave the shared configuration partly rewritten.
     */
    method Init(ch: nat, cfg: Option<PwmConfig>, p: Platform) returns (status: ErrorCode, handed: Option<PwmRegs>)
      requires Valid()
      requires cfg.Some? ==> 0 < cfg.value.frequency && IsU32(cfg.value.clockFrequency)
      modifies this
      ensures Valid()
      ensures status == InitStatus(ch, cfg, p)
      ensures cfg.Some? && Registers(ch, cfg.value, p) && cfg.value.interruptEnable && cfg.value.callback.Some? ==>
                callbacks == old(callbacks)[ch := cfg.value.callback]
      ensures !(cfg.Some? && Registers(ch, cfg.value, p) && cfg.value.interruptEnable && cfg.value.callback.Some?) ==>
                callbacks == old(callbacks)
      ensures cfg.None? || !Registers(ch, cfg.value, p) ==> regs == old(regs) && handed.None?
      ensures cfg.Some? && Acceptable(ch, cfg.value, p) ==>
                regs == ProgrammedRegs(old(regs), Timer.GroupAndChannel(ch).group, cfg.value)
                && handed == Some(regs)
    {
      handed := None;
      if cfg.None? {
        return ASDK_PWM_ERROR_NULL_PTR, None;
      }
      var c := cfg.value;
      if ASDK_PWM_MODULE_CH_MAX <= ch {
        return ASDK_PWM_ERROR_INVALID_CHANNEL, None;
      }
      var counter := Timer.GroupAndChannel(ch);
      if ASDK_PWM_COUNT_DIRECTION_MAX <= c.direction {
        return ASDK_PWM_ERROR_INVALID_COUNT_DIRECTION, None;
      }
      if p.clockStatus != ASDK_CLOCK_SUCCESS {
        return p.clockStatus, None;
      }
      status, handed := InitPwm(ch, counter.group, c, p);
    }

    /** _asdk_cyt2b75_init_pwm. */
    method InitPwm(ch: nat, group: nat, cfg: PwmConfig, p: Platform) returns (status: ErrorCode, handed: Option<PwmRegs>)
      requires Valid() && ch < ASDK_PWM_MODULE_CH_MAX && group == Timer.GroupAndChannel(ch).group
      requires 0 < cfg.frequency && IsU32(cfg.clockFrequency)
      requires cfg.direction < ASDK_PWM_COUNT_DIRECTION_MAX && p.clockStatus == ASDK_CLOCK_SUCCESS
      modifies this
      ensures Valid()
      ensures status == InitPwmStatus(group, cfg, p)
      ensures Registers(ch, cfg, p) && cfg.interruptEnable && cfg.callback.Some? ==>
                callbacks == old(callbacks)[ch := cfg.callback]
      ensures !(Registers(ch, cfg, p) && cfg.interruptEnable && cfg.callback.Some?) ==> callbacks == old(callbacks)
      ensures !Registers(ch, cfg, p) ==> regs == old(regs) && handed.None?
      ensures Acceptable(ch, cfg, p) ==> regs == ProgrammedRegs(old(regs), group, cfg) && handed == Some(regs)
    {
      var period := PwmPeriod(cfg.clockFrequency, cfg.prescaler, cfg.frequency);
      if period.None? {
        return ASDK_PWM_ERROR_INVALID_PRESCALER, None;
      }
      if !Timer.PeriodValid(group, period.value) {
        return ASDK_PWM_ERROR_INVALID_FREQUENCY, None;
      }
      if ASDK_EXTI_INTR_MAX <= cfg.intrNum {
        return ASDK_PWM_ERROR_INVALID_INTR_NUM, None;
      }
      PwmPeriodIsU32(cfg.clockFrequency, cfg.prescaler, cfg.frequency);
      if cfg.interruptEnable {
        regs := regs.(interruptOnTc := true);
        if cfg.callback.Some? {
          callbacks := callbacks[ch := cfg.callback];
        }
      }
      regs := regs.(clockPrescaler := cfg.prescaler,
                    period := SubU32(period.value, 1),
                    compare := DutyCompare(cfg.dutyPercent, period.value));
      if cfg.runMode > ASDK_PWM_RUN_MODE_CONTINUOUS {
        return ASDK_PWM_ERROR_INVALID_RUN_MODE, None;
      }
      regs := regs.(continuous := cfg.runMode == ASDK_PWM_RUN_MODE_CONTINUOUS);
      if cfg.align > ASDK_PWM_OUTPUT_CENTRE_ALIGN {
        return ASDK_PWM_ERROR_INVALID_OUTPUT_ALIGN, None;
      }
      regs := regs.(align := cfg.align);
      if cfg.mode == ASDK_PWM_MODE_DEADTIME {
        regs := regs.(deadtimeMode := true);
        if !DeadtimeAccepted(group, cfg.leftDeadtime, cfg.rightDeadtime) {
          return ASDK_PWM_ERROR_INVALID_DEADTIME, None;
        }
        regs := regs.(deadTime := cfg.leftDeadtime, deadTimeComp := cfg.rightDeadtime);
      } else if cfg.mode == ASDK_PWM_MODE_PWM {
        regs := regs.(deadtimeMode := false);
      } else {
        return ASDK_PWM_ERROR_INVALID_MODE, None;
      }
      handed := Some(regs);
      if !p.pwmInitOk {
        return ASDK_PWM_ERROR_INIT_FAILED, handed;
      }
      status := ASDK_PWM_SUCCESS;
    }

    /** asdk_pwm_deinit: clears the channel's callback. */
    method Deinit(ch: nat) returns (status: ErrorCode)
      requires Valid()
      modifies this`callbacks
      ensures Valid()
      ensures status == (if ch < ASDK_PWM_MODULE_CH_MAX then ASDK_PWM_SUCCESS else ASDK_PWM_ERROR_INVALID_CHANNEL)
      ensures ch < ASDK_PWM_MODULE_CH_MAX ==> callbacks == old(callbacks)[ch := None]
      ensures ch >= ASDK_PWM_MODULE_CH_MAX ==> callbacks == old(callbacks)
    {
      if ASDK_PWM_MODULE_CH_MAX <= ch {
        return ASDK_PWM_ERROR_INVALID_CHANNEL;
      }
      callbacks := callbacks[ch := None];
      status := ASDK_PWM_SUCCESS;
    }
  }

  /** asdk_pwm_start and asdk_pwm_stop: a software trigger on a valid channel. */
  method Trigger(ch: nat) returns (status: ErrorCode)
    ensures status == ASDK_PWM_SUCCESS <==> ch < ASDK_PWM_MODULE_CH_MAX
    ensures status != ASDK_PWM_SUCCESS ==> status == ASDK_PWM_ERROR_INVALID_CHANNEL
  {
    if ASDK_PWM_MODULE_CH_MAX <= ch {
      return ASDK_PWM_ERROR_INVALID_CHANNEL;
    }
    status := ASDK_PWM_SUCCESS;
  }

  /** asdk_pwm_get_counter; hwCount is what the counter reports. */
  method GetCounter(ch: nat, hwCount: nat) returns (status: ErrorCode, counter: nat)
    ensures status == ASDK_PWM_SUCCESS <==> ch < ASDK_PWM_MODULE_CH_MAX
    ensures status != ASDK_PWM_SUCCESS ==> status == ASDK_PWM_ERROR_INVALID_CHANNEL
    ensures status == ASDK_PWM_SUCCESS ==> counter == hwCount
  {
    if ASDK_PWM_MODULE_CH_MAX <= ch {
      return ASDK_PWM_ERROR_INVALID_CHANNEL, 0;
    }
    counter := hwCount;
    status := ASDK_PWM_SUCCESS;
  }

  /**
   * asdk_pwm_set_duty: returns the compare value written to the counter,
   * computed from the period register the counter reports.
   */
  method SetDuty(ch: nat, duty: nat, periodRegister: nat) returns (status: ErrorCode, compare: Option<nat>)
    requires IsU8(duty) && IsU32(periodRegister)
    ensures ch >= ASDK_PWM_MODULE_CH_MAX ==> status == ASDK_PWM_ERROR_INVALID_CHANNEL
    ensures ch < ASDK_PWM_MODULE_CH_MAX && duty > MAX_DUTY_CYCLE ==> status == ASDK_PWM_ERROR_INVALID_DUTY_CYCLE
    ensures status == ASDK_PWM_SUCCESS <==> ch < ASDK_PWM_MODULE_CH_MAX && duty <= MAX_DUTY_CYCLE
    ensures compare.Some? <==> status == ASDK_PWM_SUCCESS
    ensures compare.Some? ==>
              compare.value <= periodRegister
              && compare.value * PERCENT <= duty * periodRegister < (compare.value + 1) * PERCENT
  {
    if ASDK_PWM_MODULE_CH_MAX <= ch {
      return ASDK_PWM_ERROR_INVALID_CHANNEL, None;
    }
    if MAX_DUTY_CYCLE < duty {
      return ASDK_PWM_ERROR_INVALID_DUTY_CYCLE, None;
    }
    compare := Some(DutyCompare(duty, periodRegister));
    status := ASDK_PWM_SUCCESS;
  }

  /** asdk_pwm_set_output_alignment: right, left or centre. */
  method SetOutputAlignment(ch: nat, align: nat) returns (status: ErrorCode)
    ensures status == ASDK_PWM_SUCCESS <==> ch < ASDK_PWM_MODULE_CH_MAX && align <= ASDK_PWM_OUTPUT_CENTRE_ALIGN
    ensures ch >= ASDK_PWM_MODULE_CH_MAX ==> status == ASDK_PWM_ERROR_INVALID_CHANNEL
    ensures ch < ASDK_PWM_MODULE_CH_MAX && align > ASDK_PWM_OUTPUT_CENTRE_ALIGN ==>
              status == ASDK_PWM_ERROR_INVALID_OUTPUT_ALIGN
  {
    if ASDK_PWM_MODULE_CH_MAX <= ch {
      return ASDK_PWM_ERROR_INVALID_CHANNEL;
    }
    if align > ASDK_PWM_OUTPUT_CENTRE_ALIGN {
      return ASDK_PWM_ERROR_INVALID_OUTPUT_ALIGN;
    }
    status := ASDK_PWM_SUCCESS;
  }

  /**
   * asdk_pwm_set_frequency: returns the period written to the counter; it is
   * written only when it fits the counter of the channel's group.
   */
  method SetFrequency(ch: nat, clock: nat, prescaler: nat, freq: nat) returns (status: ErrorCode, period: Option<nat>)
    requires 0 < freq
    ensures ch >= ASDK_PWM_MODULE_CH_MAX ==> status == ASDK_PWM_ERROR_INVALID_CHANNEL
    ensures ch < ASDK_PWM_MODULE_CH_MAX && prescaler >= ASDK_PWM_PRESCALER_DIVBY_MAX ==>
              status == ASDK_PWM_ERROR_INVALID_PRESCALER
    ensures ch < ASDK_PWM_MODULE_CH_MAX && prescaler < ASDK_PWM_PRESCALER_DIVBY_MAX ==>
              (status == ASDK_PWM_SUCCESS <==>
                 Timer.PeriodValid(Timer.GroupAndChannel(ch).group, clock / (Pow2(prescaler) * freq)))
    ensures status != ASDK_PWM_SUCCESS ==> period.None?
    ensures status == ASDK_PWM_SUCCESS ==>
              period == Some(clock / (Pow2(prescaler) * freq))
              && Timer.PeriodValid(Timer.GroupAndChannel(ch).group, period.value)
    ensures status == ASDK_PWM_SUCCESS || status == ASDK_PWM_ERROR_INVALID_CHANNEL
            || status == ASDK_PWM_ERROR_INVALID_PRESCALER || status == ASDK_PWM_ERROR_INVALID_FREQUENCY
  {
    if ASDK_PWM_MODULE_CH_MAX <= ch {
      return ASDK_PWM_ERROR_INVALID_CHANNEL, None;
    }
    var counter := Timer.GroupAndChannel(ch);
    var p := PwmPeriod(clock, prescaler, freq);
    if p.None? {
      return ASDK_PWM_ERROR_INVALID_PRESCALER, None;
    }
    if !Timer.PeriodValid(counter.group, p.value) {
      return ASDK_PWM_ERROR_INVALID_FREQUENCY, None;
    }
    period := p;
    status := ASDK_PWM_SUCCESS;
  }
}
