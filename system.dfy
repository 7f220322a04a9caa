// The SYSTEM module of the CYT2B75 platform
// (asdk-gen2/platform/cyt2b75/dal/src/asdk_system.c): decoding of the
// reset cause and the millisecond clock kept by the system timer.
//
// The reset-cause registers are read by vendor calls; their values are
// inputs here. The CY_SYSRESET_* masks the switch compares against are
// defined by the vendor headers, which are not part of this model: they
// are a parameter, and the properties that need them ask only what the C
// switch itself guarantees, that its case labels are distinct.

module System {
  import opened AsdkError
  import opened TimerEvents

  // ---------------------------------------------------------------------
  // Reset reason
  // ---------------------------------------------------------------------

  /** asdk_sys_reset_t. */
  datatype ResetReason =
    | Default | Wdg | Segv | Sw | Host | LowVoltage | PowerOn | ExtPin | CoreLock | ClockLoss
    | JtagReset | Pmic | OvdVddd | OvdVdda | OvdVccd | BodVdda | BodVccd | DpslpFault | Pxres
    | StructXres | Unknown

  /**
   * x ^ (x & (x - 1)) on a 32-bit register: the lowest set bit of x, or 0
   * when no bit is set.
   */
  function LowestSetBit(x: bv32): (r: bv32)
    ensures x == 0 ==> r == 0
    ensures x != 0 ==> r != 0 && r & (r - 1) == 0
    ensures r & x == r
    ensures x & (r - 1) == 0 || x == 0
  {
    x ^ (x & (x - 1))
  }

  /** The single-bit masks the reset-cause switch compares against. */
  datatype CauseMasks = CauseMasks(
    bodVddd: bv32, csvHf: bv32, wdt: bv32, xres: bv32, porVddd: bv32, soft: bv32, pmic: bv32,
    ovdVddd: bv32, ovdVdda: bv32, ovdVccd: bv32, bodVdda: bv32, bodVccd: bv32,
    dpslpFault: bv32, pxres: bv32, structXres: bv32)

  /** The cases of the switch in asdk_sys_get_reset_reason, in order: a mask and the reason it gives. */
  function Cases(m: CauseMasks): seq<(bv32, ResetReason)>
  {
    [ (m.bodVddd, LowVoltage), (m.csvHf, ClockLoss), (m.wdt, Wdg), (m.xres, ExtPin),
      (m.porVddd, PowerOn), (m.soft, Sw), (m.pmic, Pmic), (m.ovdVddd, OvdVddd),
      (m.ovdVdda, OvdVdda), (m.ovdVccd, OvdVccd), (m.bodVdda, BodVdda), (m.bodVccd, BodVccd),
      (m.dpslpFault, DpslpFault), (m.pxres, Pxres), (m.structXres, StructXres) ]
  }

  /** The case labels of a C switch are distinct. */
  ghost predicate DistinctCases(m: CauseMasks)
  {
    forall i, j :: 0 <= i < j < |Cases(m)| ==> Cases(m)[i].0 != Cases(m)[j].0
  }

  /**
   * The switch as a table lookup: the reason of the first case whose label
   * is the cause, UNKNOWN (the default branch) when none is.
   */
  function FirstMatch(cause: bv32, cases: seq<(bv32, ResetReason)>): (r: ResetReason)
    decreases |cases|
  {
    if |cases| == 0 then Unknown
    else if cases[0].0 == cause then cases[0].1
    else FirstMatch(cause, cases[1..])
  }

  /** The switch of asdk_sys_get_reset_reason on an isolated cause bit. */
  function ReasonOf(cause: bv32, m: CauseMasks): ResetReason
  {
    FirstMatch(cause, Cases(m))
  }

  /** The lookup answers the reason of the first case with the cause as its label. */
  lemma {:induction false} FirstMatchFinds(cause: bv32, cases: seq<(bv32, ResetReason)>, i: nat)
    requires i < |cases| && cases[i].0 == cause
    requires forall j :: 0 <= j < i ==> cases[j].0 != cause
    ensures FirstMatch(cause, cases) == cases[i].1
    decreases i
  {
    if i > 0 {
      FirstMatchFinds(cause, cases[1..], i - 1);
    }
  }

  /** A cause that is no case's label takes the default branch. */
  lemma {:induction false} NoMatchIsUnknown(cause: bv32, cases: seq<(bv32, ResetReason)>)
    requires forall j :: 0 <= j < |cases| ==> cases[j].0 != cause
    ensures FirstMatch(cause, cases) == Unknown
    decreases |cases|
  {
    if |cases| > 0 {
      assert cases[0].0 != cause;
      NoMatchIsUnknown(cause, cases[1..]);
    }
  }

  /** With distinct labels, the label of case i gives case i's reason. */
  lemma EachCaseItsReason(m: CauseMasks, i: nat)
    requires DistinctCases(m) && i < |Cases(m)|
    ensures ReasonOf(Cases(m)[i].0, m) == Cases(m)[i].1
  {
    FirstMatchFinds(Cases(m)[i].0, Cases(m), i);
  }

  /** A cause that is none of the labels reads as UNKNOWN. */
  lemma UnlabelledIsUnknown(cause: bv32, m: CauseMasks)
    requires forall j :: 0 <= j < |Cases(m)| ==> Cases(m)[j].0 != cause
    ensures ReasonOf(cause, m) == Unknown
  {
    NoMatchIsUnknown(cause, Cases(m));
  }

  /**
   * asdk_sys_get_reset_reason: the lowest set bit of the clock
   * supervision cause when that is nonzero, otherwise the lowest set bit
   * of the system reset cause, looked up in the switch.
   */
  function GetResetReason(sysCause: bv32, clkCause: bv32, m: CauseMasks): ResetReason
  {
    ReasonOf(if clkCause != 0 then LowestSetBit(clkCause) else LowestSetBit(sysCause), m)
  }

  /** A nonzero clock cause decides the reason whatever the system cause is. */
  lemma ClockCauseTakesPrecedence(sysCause: bv32, other: bv32, clkCause: bv32, m: CauseMasks)
    requires clkCause != 0
    ensures GetResetReason(sysCause, clkCause, m) == GetResetReason(other, clkCause, m)
  {
  }

  /**
   * When several system causes are latched, the lowest one decides: a
   * cause register whose lowest set bit is case i's label gives case i's
   * reason, whatever higher bits are set.
   */
  lemma LowestCauseDecides(sysCause: bv32, m: CauseMasks, i: nat)
    requires DistinctCases(m) && i < |Cases(m)|
    requires Cases(m)[i].0 != 0 && Cases(m)[i].0 & (Cases(m)[i].0 - 1) == 0
    requires sysCause & Cases(m)[i].0 != 0 && sysCause & (Cases(m)[i].0 - 1) == 0
    ensures GetResetReason(sysCause, 0, m) == Cases(m)[i].1
  {
    LowestBitIsUnique(sysCause, Cases(m)[i].0);
    EachCaseItsReason(m, i);
  }

  /** A single bit present in x with no lower bit of x set is x's lowest set bit. */
  lemma LowestBitIsUnique(x: bv32, b: bv32)
    requires b != 0 && b & (b - 1) == 0
    requires x & b != 0 && x & (b - 1) == 0
    ensures LowestSetBit(x) == b
  {
  }

  /** With no cause latched at all the reason is UNKNOWN, as no label is 0. */
  lemma NoCauseIsUnknown(m: CauseMasks)
    requires forall j :: 0 <= j < |Cases(m)| ==> Cases(m)[j].0 != 0
    ensures GetResetReason(0, 0, m) == Unknown
  {
    UnlabelledIsUnknown(0, m);
  }

  // ---------------------------------------------------------------------
  // The millisecond clock
  // ---------------------------------------------------------------------

  /** The build options the clock depends on: USE_RTOS and SYS_TIMER. */
  datatype Build = Build(useRtos: bool, sysTimer: bool)

  /** The millisecond count after a run of timer events: one per terminal-count event. */
  function Replay(start: int, events: seq<nat>): (r: int)
    ensures r >= start
    decreases |events|
  {
    if |events| == 0 then start
    else Replay(start + (if events[0] == ASDK_TIMER_TERMINAL_COUNT_EVENT then 1 else 0), events[1..])
  }

  /** The number of terminal-count events in a run. */
  function TerminalCounts(events: seq<nat>): (n: nat)
    ensures n <= |events|
  {
    if |events| == 0 then 0
    else (if events[|events| - 1] == ASDK_TIMER_TERMINAL_COUNT_EVENT then 1 else 0) + TerminalCounts(events[..|events| - 1])
  }

  /** Replaying a run adds exactly its terminal-count events to the count. */
  lemma {:induction false} ReplayCounts(start: int, events: seq<nat>)
    ensures Replay(start, events) == start + TerminalCounts(events)
    decreases |events|
  {
    if |events| > 0 {
      var e := events[0];
      ReplayCounts(start + (if e == ASDK_TIMER_TERMINAL_COUNT_EVENT then 1 else 0), events[1..]);
      TerminalCountsFront(events);
    }
  }

  /** TerminalCounts counted from the front. */
  lemma {:induction false} TerminalCountsFront(events: seq<nat>)
    requires |events| > 0
    ensures TerminalCounts(events) == (if events[0] == ASDK_TIMER_TERMINAL_COUNT_EVENT then 1 else 0) + TerminalCounts(events[1..])
    decreases |events|
  {
    if |events| > 1 {
      var front := events[..|events| - 1];
      TerminalCountsFront(front);
      assert front[1..] == events[1..][..|events[1..]| - 1];
      assert front[0] == events[0];
    } else {
      assert events[1..] == [];
    }
  }

  /** The static state of asdk_system.c under SYS_TIMER. */
  class SystemClock {
    /** ms_counter_value. */
    var msCounter: int

    /** ms_counter_value starts at -1: no time before init. */
    constructor()
      ensures msCounter == -1
    {
      msCounter := -1;
    }

    /** asdk_sys_init: with the system timer, the count restarts from 0 as the timer starts. */
    method Init(build: Build) returns (status: ErrorCode)
      modifies this
      ensures status == ASDK_SYS_SUCCESS
      ensures msCounter == if build.sysTimer then 0 else old(msCounter)
    {
      if build.sysTimer {
        msCounter := 0;
      }
      status := ASDK_SYS_SUCCESS;
    }

    /** __sys_timer_callback: a terminal-count event (one per 1000 ticks of 1 MHz) is one millisecond. */
    method OnTimerEvent(event: nat)
      modifies this
      ensures msCounter == Replay(old(msCounter), [event])
    {
      if event == ASDK_TIMER_TERMINAL_COUNT_EVENT {
        msCounter := msCounter + 1;
      }
    }

    /**
     * asdk_sys_get_time_ms: the RTOS's time when built with an RTOS, else
     * the counter when built with the system timer, else -1.
     */
    function GetTimeMs(build: Build, osTimeMs: int): (t: int)
      reads this
      ensures build.useRtos ==> t == osTimeMs
      ensures !build.useRtos && !build.sysTimer ==> t == -1
      ensures !build.useRtos && build.sysTimer ==> t == msCounter
    {
      if build.useRtos then osTimeMs
      else if build.sysTimer then msCounter
      else -1
    }
  }

  /**
   * After init with the system timer and a run of timer events, the time
   * read is the number of terminal-count events in the run.
   */
  lemma TimeCountsTerminalEvents(events: seq<nat>)
    ensures Replay(0, events) == TerminalCounts(events)
  {
    ReplayCounts(0, events);
  }

  /** Replaying two runs one after the other is replaying their concatenation. */
  lemma {:induction false} ReplayAppend(start: int, a: seq<nat>, b: seq<nat>)
    ensures Replay(start, a + b) == Replay(Replay(start, a), b)
    decreases |a|
  {
    if |a| > 0 {
      var e := a[0];
      assert (a + b)[1..] == a[1..] + b;
      ReplayAppend(start + (if e == ASDK_TIMER_TERMINAL_COUNT_EVENT then 1 else 0), a[1..], b);
    } else {
      assert a + b == b;
    }
  }
}
