// The TIMER driver of the CYT2B75 platform
// (asdk-gen2/platform/cyt2b75/dal/src/asdk_timer.c).
//
// The 79 ASDK timer channels are spread over three TCPWM counter groups:
// 63 16-bit counters in group 0, 12 16-bit counters in group 1 and four
// 32-bit counters in group 2. The driver keeps two callback tables indexed
// by ASDK channel; the counters themselves are hardware, represented here by
// the configuration the driver last programmed into each one. The outcomes of
// the clock, pin-mux and counter-init calls are inputs of the model.

module Timer {
  import opened Common
  import opened AsdkError

  const ASDK_TIMER_MODULE_CH_62: nat := 62
  const ASDK_TIMER_MODULE_CH_63: nat := 63
  const ASDK_TIMER_MODULE_CH_74: nat := 74
  const ASDK_TIMER_MODULE_CH_75: nat := 75
  const ASDK_TIMER_MODULE_CH_MAX: nat := 79

  const GROUP_0: nat := 0
  const GROUP_1: nat := 1
  const GROUP_2: nat := 2

  const ASDK_TIMER_TYPE_PERIODIC: nat := 1
  const ASDK_TIMER_TYPE_MAX: nat := 2
  const ASDK_TIMER_COUNT_DIRECTION_UP: nat := 0
  const ASDK_TIMER_COUNT_DIRECTION_MAX: nat := 2

  const ASDK_TIMER_MODE_TIMER: nat := 0
  const ASDK_TIMER_MODE_COMPARE: nat := 1
  const ASDK_TIMER_MODE_CAPTURE: nat := 2

  const ASDK_TIMER_CAPTURE_ON_RISING_EDGE: nat := 0
  const ASDK_TIMER_CAPTURE_ON_BOTH_EDGES: nat := 2

  const ASDK_CLOCK_PRESCALER_1: nat := 1
  const ASDK_CLOCK_PRESCALER_MAX: nat := 9


  /** Microseconds per second, the scale of get_counter_in_us. */
  const US_PER_SECOND: nat := 1000000

  // ---------------------------------------------------------------------
  // Channel mapping
  // ---------------------------------------------------------------------

  /** A TCPWM counter: its group and its index inside the group. */
  datatype Counter = Counter(group: nat, index: nat)

  /** Number of counters in each group. */
  function GroupSize(group: nat): nat
  {
    if group == GROUP_0 then 63 else if group == GROUP_1 then 12 else if group == GROUP_2 then 4 else 0
  }

  /** Counter width in bits of each group. */
  function CounterWidth(group: nat): nat
  {
    if group <= GROUP_1 then 16 else 32
  }

  /** The first ASDK channel of each group. */
  function GroupBase(group: nat): nat
  {
    if group == GROUP_0 then 0
    else if group == GROUP_1 then ASDK_TIMER_MODULE_CH_63
    else ASDK_TIMER_MODULE_CH_75
  }

  /** The ASDK channel that drives a counter: the inverse of GroupAndChannel. */
  function ChannelOf(c: Counter): nat
  {
    GroupBase(c.group) + c.index
  }

  /** _asdk_cyt2b75_get_timer_group_and_channel. */
  function GroupAndChannel(ch: nat): (r: Counter)
    ensures r.group <= GROUP_2
  {
    if ch <= ASDK_TIMER_MODULE_CH_62 then Counter(GROUP_0, ch)
    else if ch <= ASDK_TIMER_MODULE_CH_74 then Counter(GROUP_1, ch - ASDK_TIMER_MODULE_CH_63)
    else Counter(GROUP_2, ch - ASDK_TIMER_MODULE_CH_75)
  }

  /** Every valid channel lands on an existing counter, and the counter names the channel back. */
  lemma GroupAndChannelInverse(ch: nat)
    requires ch < ASDK_TIMER_MODULE_CH_MAX
    ensures GroupAndChannel(ch).index < GroupSize(GroupAndChannel(ch).group)
    ensures ChannelOf(GroupAndChannel(ch)) == ch
  {
  }

  /** Every existing counter is reached from exactly one valid channel. */
  lemma ChannelOfInverse(c: Counter)
    requires c.group <= GROUP_2 && c.index < GroupSize(c.group)
    ensures ChannelOf(c) < ASDK_TIMER_MODULE_CH_MAX
    ensures GroupAndChannel(ChannelOf(c)) == c
  {
  }

  /** Two distinct channels never share a counter. */
  lemma GroupAndChannelInjective(ch1: nat, ch2: nat)
    requires ch1 < ASDK_TIMER_MODULE_CH_MAX && ch2 < ASDK_TIMER_MODULE_CH_MAX
    requires GroupAndChannel(ch1) == GroupAndChannel(ch2)
    ensures ch1 == ch2
  {
    GroupAndChannelInverse(ch1);
    GroupAndChannelInverse(ch2);
  }

  // ---------------------------------------------------------------------
  // Period and prescaler validity
  // ---------------------------------------------------------------------

  /** _asdk_cyt2b75_is_period_valid: a period fits groups 0 and 1 when at most 0xFFFF. */
  predicate PeriodValid(group: nat, period: nat)
  {
    group <= GROUP_1 ==> period <= 0xFFFF
  }

  /** A uint32_t period is valid exactly when it fits the counter of its group. */
  lemma PeriodValidFitsCounter(group: nat, period: nat)
    requires group <= GROUP_2 && IsU32(period)
    ensures PeriodValid(group, period) <==> period < Pow2(CounterWidth(group))
  {
    Pow2Values();
  }

  /** _asdk_cyt2b75_is_prescaler_valid: PRESCALER_1 <= p < PRESCALER_MAX. */
  predicate PrescalerValid(p: nat)
  {
    ASDK_CLOCK_PRESCALER_1 <= p < ASDK_CLOCK_PRESCALER_MAX
  }

  /** The clock divider a prescaler value selects: PRESCALER_k divides by 2^(k-1). */
  function Divider(p: nat): nat
    requires 1 <= p
  {
    Pow2(p - 1)
  }

  /** The valid prescalers divide the counter clock by 1 to 128. */
  lemma PrescalerDivider(p: nat)
    requires PrescalerValid(p)
    ensures 1 <= Divider(p) <= 128
  {
    Pow2Values();
    Pow2Mono(p - 1, 7);
  }

  // ---------------------------------------------------------------------
  // asdk_timer_get_counter_in_us
  // ---------------------------------------------------------------------

  /**
   * The uint64_t arithmetic of get_counter_in_us: the count shifted left by
   * (prescaler - 1), multiplied by 1 000 000, both modulo 2^64, then divided
   * by the counter frequency.
   */
  function CounterInUs(count: nat, prescaler: nat, frequency: nat): (r: nat)
    requires IsU32(count) && 1 <= prescaler <= 64 && 0 < frequency
    ensures PrescalerValid(prescaler) ==>
              r * frequency <= count * Divider(prescaler) * US_PER_SECOND < (r + 1) * frequency
  {
    if PrescalerValid(prescaler) then
      CounterInUsExact(count, prescaler, frequency);
      Scaled(count, prescaler) / frequency
    else
      Scaled(count, prescaler) / frequency
  }

  /** The uint64_t value divided by the frequency in get_counter_in_us. */
  function Scaled(count: nat, prescaler: nat): nat
    requires 1 <= prescaler
  {
    ((count * Pow2(prescaler - 1)) % U64_LIMIT * US_PER_SECOND) % U64_LIMIT
  }

  lemma CounterInUsExact(count: nat, prescaler: nat, frequency: nat)
    requires IsU32(count) && PrescalerValid(prescaler) && 0 < frequency
    ensures var r := Scaled(count, prescaler) / frequency;
            r * frequency <= count * Divider(prescaler) * US_PER_SECOND < (r + 1) * frequency
  {
    NoWrap(count, prescaler);
    var exact := count * Pow2(prescaler - 1) * US_PER_SECOND;
    assert Scaled(count, prescaler) == exact;
    QuotientBounds(exact, frequency);
  }

  /** The quotient brackets the dividend. */
  lemma QuotientBounds(a: nat, b: nat)
    requires b > 0
    ensures (a / b) * b <= a < (a / b + 1) * b
  {
  }

  /** With a valid prescaler neither the shift nor the multiplication wraps. */
  lemma NoWrap(count: nat, prescaler: nat)
    requires IsU32(count) && PrescalerValid(prescaler)
    ensures count * Pow2(prescaler - 1) < U64_LIMIT
    ensures (count * Pow2(prescaler - 1)) % U64_LIMIT * US_PER_SECOND < U64_LIMIT
    ensures (count * Pow2(prescaler - 1)) % U64_LIMIT * US_PER_SECOND
            == count * Pow2(prescaler - 1) * US_PER_SECOND
    ensures Scaled(count, prescaler) == count * Pow2(prescaler - 1) * US_PER_SECOND
  {
    PrescalerDivider(prescaler);
    var shifted := count * Pow2(prescaler - 1);
    ShiftedBound(count, Pow2(prescaler - 1));
    SmallMod(shifted, U64_LIMIT);
    ScaledBound(shifted);
    SmallMod(shifted * US_PER_SECOND, U64_LIMIT);
  }

  /** A 32-bit count shifted left by at most 7 bits fits in 39 bits. */
  lemma ShiftedBound(count: nat, factor: nat)
    requires count < U32_LIMIT && factor <= 128
    ensures count * factor <= 0x80_0000_0000
  {
    MulMono(count, U32_LIMIT, factor, 128);
  }

  /** A 39-bit value times 10^6 stays below 2^64. */
  lemma ScaledBound(shifted: nat)
    requires shifted <= 0x80_0000_0000
    ensures shifted * US_PER_SECOND < U64_LIMIT
  {
    MulMono(shifted, 0x80_0000_0000, US_PER_SECOND, US_PER_SECOND);
  }

  lemma SmallMod(x: nat, m: nat)
    requires x < m
    ensures x % m == x
  {
  }

  // ---------------------------------------------------------------------
  // asdk_timer_init
  // ---------------------------------------------------------------------

  /**
   * The mode part of asdk_timer_t. The source keeps the three mode
   * configurations in a union; only the fields of the selected kind are read.
   */
  datatype ModeConfig = ModeConfig(
    kind: nat,              // asdk_timer_mode_type_t
    period: nat,            // timer_period (uint32_t)
    compareValue: nat,      // compare_value, compare mode only
    edge: nat,              // asdk_timer_capture_edge_t, capture mode only
    callback: Option<nat>)  // the mode's callback, None for NULL

  /** asdk_timer_t. */
  datatype TimerConfig = TimerConfig(
    timerType: nat,
    mode: ModeConfig,
    direction: nat,
    interruptEnable: bool,
    intrNum: nat,
    frequency: nat,
    prescaler: nat)

  /** The outcomes of the foreign calls made by asdk_timer_init. */
  datatype Platform = Platform(
    clockStatus: ErrorCode,    // asdk_clock_enable
    pinmuxStatus: ErrorCode,   // asdk_set_pinmux (capture mode)
    counterInitOk: bool)       // Cy_Tcpwm_Counter_Init == CY_RET_SUCCESS

  /** What the driver programmed into a counter (cy_stc_tcpwm_counter_config_t). */
  datatype Setup =
    | Unconfigured
    | Configured(
        capture: bool,          // CY_TCPWM_COUNTER_MODE_CAPTURE, else COMPARE
        clockPrescaler: nat,    // prescaler - 1
        periodRegister: nat,    // timer_period - 1, modulo 2^32
        compareRegister: nat,   // compare0
        continuous: bool,       // run mode
        countUp: bool,          // count direction
        captureRising: bool,    // capture0 input on a rising edge
        captureFalling: bool,   // capture1 input on a falling edge
        running: bool)          // started by a trigger

  /** The mode-specific checks of _init_timer, _init_timer_compare and _init_capture. */
  function ModeStatus(group: nat, cfg: TimerConfig, p: Platform): ErrorCode
  {
    var m := cfg.mode;
    if m.kind == ASDK_TIMER_MODE_TIMER then
      if !PeriodValid(group, m.period) then ASDK_TIMER_ERROR_INVALID_PERIOD
      else if ASDK_EXTI_INTR_MAX <= cfg.intrNum then ASDK_TIMER_ERROR_INVALID_INTR_NUM
      else if p.counterInitOk then ASDK_TIMER_SUCCESS
      else ASDK_TIMER_INIT_FAILED
    else if m.kind == ASDK_TIMER_MODE_COMPARE then
      if !PeriodValid(group, m.period) then ASDK_TIMER_ERROR_INVALID_PERIOD
      else if !PeriodValid(group, m.compareValue) then ASDK_TIMER_ERROR_INVALID_COMPARE_PERIOD
      else if ASDK_EXTI_INTR_MAX <= cfg.intrNum then ASDK_TIMER_ERROR_INVALID_INTR_NUM
      else if p.counterInitOk then ASDK_TIMER_SUCCESS
      else ASDK_TIMER_INIT_FAILED
    else if m.kind == ASDK_TIMER_MODE_CAPTURE then
      if !PeriodValid(group, m.period) then ASDK_TIMER_ERROR_INVALID_PERIOD
      else if p.pinmuxStatus != ASDK_PINMUX_SUCCESS then ASDK_TIMER_ERROR_PINMUX
      else if ASDK_EXTI_INTR_MAX <= cfg.intrNum then ASDK_TIMER_ERROR_INVALID_INTR_NUM
      else if p.counterInitOk then ASDK_TIMER_SUCCESS
      else ASDK_TIMER_INIT_FAILED
    else ASDK_TIMER_ERROR_INVALID_MODE
  }

  /** The status asdk_timer_init returns: the first failing check in the coded order. */
  function InitStatus(ch: nat, cfg: TimerConfig, p: Platform): ErrorCode
  {
    if ASDK_TIMER_MODULE_CH_MAX <= ch then ASDK_TIMER_ERROR_INVALID_CHANNEL
    else if ASDK_TIMER_TYPE_MAX <= cfg.timerType then ASDK_TIMER_ERROR_INVALID_TYPE
    else if ASDK_TIMER_COUNT_DIRECTION_MAX <= cfg.direction then ASDK_TIMER_ERROR_INVALID_COUNT_DIRECTION
    else if !PrescalerValid(cfg.prescaler) then ASDK_TIMER_ERROR_INVALID_PRESCALER
    else if p.clockStatus != ASDK_CLOCK_SUCCESS then p.clockStatus
    else ModeStatus(GroupAndChannel(ch).group, cfg, p)
  }

  /** The checks of the sub-inits up to and including the interrupt number. */
  predicate ModeAdmitted(group: nat, cfg: TimerConfig, p: Platform)
  {
    && cfg.mode.kind <= ASDK_TIMER_MODE_CAPTURE
    && PeriodValid(group, cfg.mode.period)
    && (cfg.mode.kind == ASDK_TIMER_MODE_COMPARE ==> PeriodValid(group, cfg.mode.compareValue))
    && (cfg.mode.kind == ASDK_TIMER_MODE_CAPTURE ==> p.pinmuxStatus == ASDK_PINMUX_SUCCESS)
    && cfg.intrNum < ASDK_EXTI_INTR_MAX
  }

  /**
   * Every requirement asdk_timer_init checks before it registers the callback
   * and calls the counter init, stated as one list.
   */
  predicate Admitted(ch: nat, cfg: TimerConfig, p: Platform)
  {
    && ch < ASDK_TIMER_MODULE_CH_MAX
    && cfg.timerType < ASDK_TIMER_TYPE_MAX
    && cfg.direction < ASDK_TIMER_COUNT_DIRECTION_MAX
    && PrescalerValid(cfg.prescaler)
    && p.clockStatus == ASDK_CLOCK_SUCCESS
    && ModeAdmitted(GroupAndChannel(ch).group, cfg, p)
  }

  /** Admitted, and the counter init itself succeeds. */
  predicate Acceptable(ch: nat, cfg: TimerConfig, p: Platform)
  {
    Admitted(ch, cfg, p) && p.counterInitOk
  }

  /** asdk_timer_init succeeds exactly when every requirement holds. */
  lemma InitSucceedsIff(ch: nat, cfg: TimerConfig, p: Platform)
    requires p.clockStatus != ASDK_TIMER_SUCCESS
    ensures InitStatus(ch, cfg, p) == ASDK_TIMER_SUCCESS <==> Acceptable(ch, cfg, p)
  {
  }

  /** A failing counter init is the only cause of INIT_FAILED. */
  lemma InitFailedIff(ch: nat, cfg: TimerConfig, p: Platform)
    requires p.clockStatus != ASDK_TIMER_INIT_FAILED
    ensures InitStatus(ch, cfg, p) == ASDK_TIMER_INIT_FAILED <==> Admitted(ch, cfg, p) && !p.counterInitOk
  {
  }

  /** A failed clock enable is reported unchanged once the arguments are valid. */
  lemma InitReportsClockError(ch: nat, cfg: TimerConfig, p: Platform)
    requires ch < ASDK_TIMER_MODULE_CH_MAX && cfg.timerType < ASDK_TIMER_TYPE_MAX
    requires cfg.direction < ASDK_TIMER_COUNT_DIRECTION_MAX && PrescalerValid(cfg.prescaler)
    requires p.clockStatus != ASDK_CLOCK_SUCCESS
    ensures InitStatus(ch, cfg, p) == p.clockStatus
  {
  }

  /** The counter configuration a successful init programs. */
  function ProgrammedSetup(cfg: TimerConfig): (s: Setup)
    requires PrescalerValid(cfg.prescaler) && IsU32(cfg.mode.period)
    ensures s.Configured? && !s.running && IsU32(s.periodRegister)
    ensures (s.periodRegister + 1) % U32_LIMIT == cfg.mode.period
    ensures s.captureRising || s.captureFalling
  {
    var m := cfg.mode;
    var capture := m.kind == ASDK_TIMER_MODE_CAPTURE;
    Configured(
      capture,
      cfg.prescaler - 1,
      SubU32(m.period, 1),
      if m.kind == ASDK_TIMER_MODE_COMPARE then m.compareValue else 0,
      cfg.timerType == ASDK_TIMER_TYPE_PERIODIC,
      cfg.direction == ASDK_TIMER_COUNT_DIRECTION_UP,
      !capture || m.edge == ASDK_TIMER_CAPTURE_ON_BOTH_EDGES || m.edge == ASDK_TIMER_CAPTURE_ON_RISING_EDGE,
      !capture || m.edge != ASDK_TIMER_CAPTURE_ON_RISING_EDGE,
      false)
  }

  /** Every edge value other than rising or both-edges captures on the falling edge only. */
  lemma CaptureEdgeDefault(cfg: TimerConfig)
    requires PrescalerValid(cfg.prescaler) && IsU32(cfg.mode.period)
    requires cfg.mode.kind == ASDK_TIMER_MODE_CAPTURE
    requires cfg.mode.edge != ASDK_TIMER_CAPTURE_ON_RISING_EDGE && cfg.mode.edge != ASDK_TIMER_CAPTURE_ON_BOTH_EDGES
    ensures !ProgrammedSetup(cfg).captureRising && ProgrammedSetup(cfg).captureFalling
  {
  }

  // ---------------------------------------------------------------------
  // The driver state
  // ---------------------------------------------------------------------

  class TimerDriver {
    /** timer_callbacks[]: the timer/compare callback per ASDK channel. */
    var timerCallbacks: seq<Option<nat>>
    /** capture_callbacks[]: the capture callback per ASDK channel. */
    var captureCallbacks: seq<Option<nat>>
    /** The configuration last programmed into the counter behind each ASDK channel. */
    var setups: seq<Setup>

    predicate Valid()
      reads this
    {
      && |timerCallbacks| == ASDK_TIMER_MODULE_CH_MAX
      && |captureCallbacks| == ASDK_TIMER_MODULE_CH_MAX
      && |setups| == ASDK_TIMER_MODULE_CH_MAX
    }

    /** Both callback tables start out NULL and no counter is configured. */
    constructor()
      ensures Valid()
      ensures forall ch :: 0 <= ch < ASDK_TIMER_MODULE_CH_MAX ==>
                timerCallbacks[ch] == None && captureCallbacks[ch] == None && setups[ch] == Unconfigured
    {
      timerCallbacks := seq(ASDK_TIMER_MODULE_CH_MAX, _ => None);
      captureCallbacks := seq(ASDK_TIMER_MODULE_CH_MAX, _ => None);
      setups := seq(ASDK_TIMER_MODULE_CH_MAX, _ => Unconfigured);
    }

    /**
     * asdk_timer_init. On reaching the registration point with interrupts
     * enabled and a non-NULL callback, the callback is stored (in the capture
     * table for capture mode); the counter is configured only on success.
     */
    method Init(ch: nat, cfg: TimerConfig, p: Platform) returns (status: ErrorCode)
      requires Valid() && IsU32(cfg.mode.period)
      modifies this
      ensures Valid()
      ensures status == InitStatus(ch, cfg, p)
      ensures var register := Admitted(ch, cfg, p) && cfg.interruptEnable && cfg.mode.callback.Some?;
              var capture := cfg.mode.kind == ASDK_TIMER_MODE_CAPTURE;
              && timerCallbacks == (if register && !capture then old(timerCallbacks)[ch := cfg.mode.callback] else old(timerCallbacks))
              && captureCallbacks == (if register && capture then old(captureCallbacks)[ch := cfg.mode.callback] else old(captureCallbacks))
      ensures setups == (if Acceptable(ch, cfg, p) then old(setups)[ch := ProgrammedSetup(cfg)] else old(setups))
    {
      if ASDK_TIMER_MODULE_CH_MAX <= ch {
        return ASDK_TIMER_ERROR_INVALID_CHANNEL;
      }
      var counter := GroupAndChannel(ch);
      if ASDK_TIMER_TYPE_MAX <= cfg.timerType {
        return ASDK_TIMER_ERROR_INVALID_TYPE;
      }
      if ASDK_TIMER_COUNT_DIRECTION_MAX <= cfg.direction {
        return ASDK_TIMER_ERROR_INVALID_COUNT_DIRECTION;
      }
      if !PrescalerValid(cfg.prescaler) {
        return ASDK_TIMER_ERROR_INVALID_PRESCALER;
      }
      if p.clockStatus != ASDK_CLOCK_SUCCESS {
        return p.clockStatus;
      }
      status := InitMode(ch, counter.group, cfg, p);
    }

    /** The three mode-specific sub-inits, with the switch's default case. */
    method InitMode(ch: nat, group: nat, cfg: TimerConfig, p: Platform) returns (status: ErrorCode)
      requires Valid() && ch < ASDK_TIMER_MODULE_CH_MAX
      requires PrescalerValid(cfg.prescaler) && IsU32(cfg.mode.period)
      modifies this
      ensures Valid()
      ensures status == ModeStatus(group, cfg, p)
      ensures var register := ModeAdmitted(group, cfg, p) && cfg.interruptEnable && cfg.mode.callback.Some?;
              var capture := cfg.mode.kind == ASDK_TIMER_MODE_CAPTURE;
              && timerCallbacks == (if register && !capture then old(timerCallbacks)[ch := cfg.mode.callback] else old(timerCallbacks))
              && captureCallbacks == (if register && capture then old(captureCallbacks)[ch := cfg.mode.callback] else old(captureCallbacks))
      ensures setups == (if ModeAdmitted(group, cfg, p) && p.counterInitOk then old(setups)[ch := ProgrammedSetup(cfg)] else old(setups))
    {
      var m := cfg.mode;
      if m.kind > ASDK_TIMER_MODE_CAPTURE {
        return ASDK_TIMER_ERROR_INVALID_MODE;
      }
      if !PeriodValid(group, m.period) {
        return ASDK_TIMER_ERROR_INVALID_PERIOD;
      }
      if m.kind == ASDK_TIMER_MODE_COMPARE && !PeriodValid(group, m.compareValue) {
        return ASDK_TIMER_ERROR_INVALID_COMPARE_PERIOD;
      }
      if m.kind == ASDK_TIMER_MODE_CAPTURE && p.pinmuxStatus != ASDK_PINMUX_SUCCESS {
        return ASDK_TIMER_ERROR_PINMUX;
      }
      if ASDK_EXTI_INTR_MAX <= cfg.intrNum {
        return ASDK_TIMER_ERROR_INVALID_INTR_NUM;
      }
      if cfg.interruptEnable && m.callback.Some? {
        if m.kind == ASDK_TIMER_MODE_CAPTURE {
          captureCallbacks := captureCallbacks[ch := m.callback];
        } else {
          timerCallbacks := timerCallbacks[ch := m.callback];
        }
      }
      if !p.counterInitOk {
        return ASDK_TIMER_INIT_FAILED;
      }
      setups := setups[ch := ProgrammedSetup(cfg)];
      status := ASDK_TIMER_SUCCESS;
    }

    /** asdk_timer_deinit: resets the counter and clears both callbacks of the channel. */
    method Deinit(ch: nat) returns (status: ErrorCode)
      requires Valid()
      modifies this
      ensures Valid()
      ensures status == (if ch < ASDK_TIMER_MODULE_CH_MAX then ASDK_TIMER_SUCCESS else ASDK_TIMER_ERROR_INVALID_CHANNEL)
      ensures ch < ASDK_TIMER_MODULE_CH_MAX ==>
                && timerCallbacks == old(timerCallbacks)[ch := None]
                && captureCallbacks == old(captureCallbacks)[ch := None]
                && setups == old(setups)[ch := Unconfigured]
      ensures ch >= ASDK_TIMER_MODULE_CH_MAX ==>
                timerCallbacks == old(timerCallbacks) && captureCallbacks == old(captureCallbacks) && setups == old(setups)
    {
      if ASDK_TIMER_MODULE_CH_MAX <= ch {
        return ASDK_TIMER_ERROR_INVALID_CHANNEL;
      }
      setups := setups[ch := Unconfigured];
      captureCallbacks := captureCallbacks[ch := None];
      timerCallbacks := timerCallbacks[ch := None];
      status := ASDK_TIMER_SUCCESS;
    }

    /** asdk_timer_start (run = true) and asdk_timer_stop (run = false): a start or stop trigger. */
    method Trigger(ch: nat, run: bool) returns (status: ErrorCode)
      requires Valid()
      modifies this`setups
      ensures Valid()
      ensures status == (if ch < ASDK_TIMER_MODULE_CH_MAX then ASDK_TIMER_SUCCESS else ASDK_TIMER_ERROR_INVALID_CHANNEL)
      ensures ch < ASDK_TIMER_MODULE_CH_MAX && old(setups)[ch].Configured? ==>
                setups == old(setups)[ch := old(setups)[ch].(running := run)]
      ensures ch >= ASDK_TIMER_MODULE_CH_MAX || old(setups)[ch].Unconfigured? ==> setups == old(setups)
    {
      if ASDK_TIMER_MODULE_CH_MAX <= ch {
        return ASDK_TIMER_ERROR_INVALID_CHANNEL;
      }
      if setups[ch].Configured? {
        setups := setups[ch := setups[ch].(running := run)];
      }
      status := ASDK_TIMER_SUCCESS;
    }

    /** asdk_timer_get_counter; hwCount is the counter value the hardware reports. */
    method GetCounter(ch: nat, hwCount: nat) returns (status: ErrorCode, counter: nat)
      ensures status == (if ch < ASDK_TIMER_MODULE_CH_MAX then ASDK_TIMER_SUCCESS else ASDK_TIMER_ERROR_INVALID_CHANNEL)
      ensures status == ASDK_TIMER_SUCCESS ==> counter == hwCount
    {
      if ASDK_TIMER_MODULE_CH_MAX <= ch {
        return ASDK_TIMER_ERROR_INVALID_CHANNEL, 0;
      }
      counter := hwCount;
      status := ASDK_TIMER_SUCCESS;
    }

    /**
     * asdk_timer_get_counter_in_us; hwCount is the counter value the hardware
     * reports. The prescaler and frequency are the caller's and are not checked.
     */
    method GetCounterInUs(ch: nat, prescaler: nat, frequency: nat, hwCount: nat) returns (status: ErrorCode, us: nat)
      requires IsU32(hwCount) && 1 <= prescaler <= 64 && 0 < frequency
      ensures status == (if ch < ASDK_TIMER_MODULE_CH_MAX then ASDK_TIMER_SUCCESS else ASDK_TIMER_ERROR_INVALID_CHANNEL)
      ensures status == ASDK_TIMER_SUCCESS && PrescalerValid(prescaler) ==>
                us * frequency <= hwCount * Divider(prescaler) * US_PER_SECOND < (us + 1) * frequency
    {
      if ASDK_TIMER_MODULE_CH_MAX <= ch {
        return ASDK_TIMER_ERROR_INVALID_CHANNEL, 0;
      }
      us := CounterInUs(hwCount, prescaler, frequency);
      status := ASDK_TIMER_SUCCESS;
    }

    /**
     * asdk_timer_set_period: the period is written, as given, into the
     * counter's period register only when it is valid for the counter's group.
     */
    method SetPeriod(ch: nat, period: nat) returns (status: ErrorCode)
      requires Valid() && IsU32(period)
      modifies this`setups
      ensures Valid()
      ensures status == ASDK_TIMER_SUCCESS <==>
                ch < ASDK_TIMER_MODULE_CH_MAX && PeriodValid(GroupAndChannel(ch).group, period)
      ensures ch >= ASDK_TIMER_MODULE_CH_MAX ==> status == ASDK_TIMER_ERROR_INVALID_CHANNEL
      ensures ch < ASDK_TIMER_MODULE_CH_MAX && !PeriodValid(GroupAndChannel(ch).group, period) ==>
                status == ASDK_TIMER_ERROR_INVALID_PERIOD
      ensures status == ASDK_TIMER_SUCCESS && old(setups)[ch].Configured? ==>
                setups == old(setups)[ch := old(setups)[ch].(periodRegister := period)]
      ensures status != ASDK_TIMER_SUCCESS || old(setups)[ch].Unconfigured? ==> setups == old(setups)
    {
      if ASDK_TIMER_MODULE_CH_MAX <= ch {
        return ASDK_TIMER_ERROR_INVALID_CHANNEL;
      }
      var counter := GroupAndChannel(ch);
      if PeriodValid(counter.group, period) {
        if setups[ch].Configured? {
          setups := setups[ch := setups[ch].(periodRegister := period)];
        }
        return ASDK_TIMER_SUCCESS;
      }
      status := ASDK_TIMER_ERROR_INVALID_PERIOD;
    }
  }

  /**
   * The period register after init(period) holds period - 1, after
   * set_period(period) it holds period itself: the two APIs disagree by one
   * count for the same argument.
   */
  lemma InitAndSetPeriodDiffer(cfg: TimerConfig)
    requires PrescalerValid(cfg.prescaler) && IsU32(cfg.mode.period) && cfg.mode.period > 0
    ensures ProgrammedSetup(cfg).periodRegister + 1 == cfg.mode.period
  {
  }
}
