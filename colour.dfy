// The colour sensor of sensors/colour/colour.c: a light-to-frequency sensor
// whose colour filter is chosen by the levels of two pins, S2 and S3. The
// application cycles the filter once per iteration; the sensor's output pin
// raises an edge callback, which times one pulse with a free-running 1 MHz
// timer; a reading stores that pulse width in the component of the filter
// that is selected.
//
// The timer, the GPIO driver and the interrupt mask are outside the model:
// the timer's count at an edge is a parameter of the callback, the pins are
// two fields, and disabling interrupts around a step is what makes each
// method below one atomic step.

module Colour {
  import opened Common

  /** colour_sensor_filter_t: NO_FILTER is 1, MAX_FILTER is 5. */
  const NO_FILTER: nat := 1
  const RED_FILTER: nat := 2
  const GREEN_FILTER: nat := 3
  const BLUE_FILTER: nat := 4
  const MAX_FILTER: nat := 5

  const U16_MOD: nat := 0x1_0000
  const U64_MOD: nat := 0x1_0000_0000_0000_0000

  predicate IsFilter(f: nat)
  {
    NO_FILTER <= f < MAX_FILTER
  }

  /** Unsigned 64-bit subtraction, which wraps when b > a. */
  function Sub64(a: nat, b: nat): (r: nat)
    requires a < U64_MOD && b < U64_MOD
    ensures r < U64_MOD
    ensures b <= a ==> r == a - b
    ensures a < b ==> r == a + U64_MOD - b
  {
    (a - b) % U64_MOD
  }

  // ---------------------------------------------------------------------------
  // Filter cycling
  // ---------------------------------------------------------------------------

  /**
   * The filter after one colour_sensor_iteration as written: one more,
   * modulo MAX_FILTER. Since the enumeration starts at 1, BLUE_FILTER is
   * followed by 0, which is no filter at all.
   */
  function NextFilterAsWritten(f: nat): (r: nat)
    ensures r < MAX_FILTER
    ensures f + 1 < MAX_FILTER ==> r == f + 1
  {
    (f + 1) % MAX_FILTER
  }

  /** After BLUE_FILTER the code as written selects the value 0, which is not a filter. */
  lemma IterationAsWrittenLeavesFilters()
    ensures IsFilter(BLUE_FILTER) && !IsFilter(NextFilterAsWritten(BLUE_FILTER))
    ensures NextFilterAsWritten(BLUE_FILTER) == 0
  {
  }

  /**
   * The filter after one iteration, cycling through the filters in their
   * order of declaration: clear, red, green, blue, and clear again.
   */
  function NextFilter(f: nat): (r: nat)
    requires IsFilter(f)
    ensures IsFilter(r)
    ensures f < BLUE_FILTER ==> r == f + 1
    ensures f == BLUE_FILTER ==> r == NO_FILTER
  {
    if f + 1 < MAX_FILTER then f + 1 else NO_FILTER
  }

  /** The corrected cycle agrees with the code as written on every filter but the last. */
  lemma NextFilterAgreesBeforeBlue(f: nat)
    requires IsFilter(f) && f != BLUE_FILTER
    ensures NextFilter(f) == NextFilterAsWritten(f)
  {
  }

  /** n iterations from filter f. */
  function Advance(f: nat, n: nat): (r: nat)
    requires IsFilter(f)
    ensures IsFilter(r)
    decreases n
  {
    if n == 0 then f else Advance(NextFilter(f), n - 1)
  }

  /**
   * The filters form one cycle of length four: four iterations return to the
   * same filter, and any four iterations in a row visit every filter.
   */
  lemma {:induction false} FilterCycle(f: nat)
    requires IsFilter(f)
    ensures Advance(f, 4) == f
    ensures {Advance(f, 0), Advance(f, 1), Advance(f, 2), Advance(f, 3)} == {NO_FILTER, RED_FILTER, GREEN_FILTER, BLUE_FILTER}
  {
    assert Advance(f, 1) == NextFilter(f);
    assert Advance(f, 2) == NextFilter(NextFilter(f));
    assert Advance(f, 3) == NextFilter(NextFilter(NextFilter(f)));
    assert Advance(f, 4) == NextFilter(NextFilter(NextFilter(NextFilter(f))));
  }

  /** n iterations from filter value f, as colour_sensor_iteration is written. */
  function AdvanceAsWritten(f: nat, n: nat): (r: nat)
    requires f < MAX_FILTER
    ensures r < MAX_FILTER
    decreases n
  {
    if n == 0 then f else AdvanceAsWritten(NextFilterAsWritten(f), n - 1)
  }

  /**
   * As written, the iteration cycles through five values, not four: the
   * four filters and then 0, which selects none of them.
   */
  lemma {:induction false} FilterCycleAsWritten(f: nat)
    requires f < MAX_FILTER
    ensures AdvanceAsWritten(f, 5) == f
    ensures AdvanceAsWritten(f, 4) != f
    ensures {AdvanceAsWritten(f, 0), AdvanceAsWritten(f, 1), AdvanceAsWritten(f, 2), AdvanceAsWritten(f, 3), AdvanceAsWritten(f, 4)}
            == {0, NO_FILTER, RED_FILTER, GREEN_FILTER, BLUE_FILTER}
  {
    var f1 := NextFilterAsWritten(f);
    var f2 := NextFilterAsWritten(f1);
    var f3 := NextFilterAsWritten(f2);
    var f4 := NextFilterAsWritten(f3);
    assert AdvanceAsWritten(f, 1) == f1 by { assert AdvanceAsWritten(f1, 0) == f1; }
    assert AdvanceAsWritten(f, 2) == f2 by { assert AdvanceAsWritten(f, 2) == AdvanceAsWritten(f1, 1) == AdvanceAsWritten(f2, 0); }
    assert AdvanceAsWritten(f, 3) == f3 by {
      assert AdvanceAsWritten(f, 3) == AdvanceAsWritten(f1, 2) == AdvanceAsWritten(f2, 1) == AdvanceAsWritten(f3, 0);
    }
    assert AdvanceAsWritten(f, 4) == f4 by {
      assert AdvanceAsWritten(f, 4) == AdvanceAsWritten(f1, 3) == AdvanceAsWritten(f2, 2) == AdvanceAsWritten(f3, 1);
      assert AdvanceAsWritten(f3, 1) == AdvanceAsWritten(f4, 0);
    }
    assert AdvanceAsWritten(f, 5) == NextFilterAsWritten(f4) by {
      assert AdvanceAsWritten(f, 5) == AdvanceAsWritten(f1, 4) == AdvanceAsWritten(f2, 3) == AdvanceAsWritten(f3, 2);
      assert AdvanceAsWritten(f3, 2) == AdvanceAsWritten(f4, 1) == AdvanceAsWritten(NextFilterAsWritten(f4), 0);
    }
  }

  /** The S2 and S3 levels (true is high) that select each filter. */
  datatype Levels = Levels(s2: bool, s3: bool)

  /**
   * The pin levels set_colour_sensor_filter drives for a filter, or None for
   * a value outside the enumeration, which leaves the pins alone.
   */
  function FilterLevels(f: nat): (r: Option<Levels>)
    ensures r.Some? <==> IsFilter(f)
    ensures f == NO_FILTER ==> r == Some(Levels(true, false))
    ensures f == RED_FILTER ==> r == Some(Levels(false, false))
    ensures f == GREEN_FILTER ==> r == Some(Levels(true, true))
    ensures f == BLUE_FILTER ==> r == Some(Levels(false, true))
  {
    match f
    case 1 => Some(Levels(true, false))
    case 2 => Some(Levels(false, false))
    case 3 => Some(Levels(true, true))
    case 4 => Some(Levels(false, true))
    case _ => None
  }

  /** Each filter has its own pair of levels, so the pins identify the filter. */
  lemma FilterLevelsDistinct(f: nat, g: nat)
    requires IsFilter(f) && IsFilter(g) && f != g
    ensures FilterLevels(f) != FilterLevels(g)
  {
  }

  // ---------------------------------------------------------------------------
  // Readings
  // ---------------------------------------------------------------------------

  /** colour_components_t: four 16-bit pulse widths in microseconds. */
  datatype Components = Components(clear: nat, red: nat, green: nat, blue: nat)

  /**
   * get_colour_sensor_reading on components c: the component of filter f
   * takes the pulse width, truncated to 16 bits; the others keep their value.
   */
  function Reading(f: nat, pulse: nat, c: Components): (r: Components)
    ensures f == NO_FILTER ==> r == c.(clear := pulse % U16_MOD)
    ensures f == RED_FILTER ==> r == c.(red := pulse % U16_MOD)
    ensures f == GREEN_FILTER ==> r == c.(green := pulse % U16_MOD)
    ensures f == BLUE_FILTER ==> r == c.(blue := pulse % U16_MOD)
    ensures !IsFilter(f) ==> r == c
  {
    var v := pulse % U16_MOD;
    match f
    case 1 => c.(clear := v)
    case 2 => c.(red := v)
    case 3 => c.(green := v)
    case 4 => c.(blue := v)
    case _ => c
  }

  /**
   * A cycle of four iterations, each followed by a reading, fills every
   * component: the components of a cycle started at NO_FILTER are the four
   * pulse widths seen under clear, red, green and blue.
   */
  lemma CycleFillsComponents(c: Components, p0: nat, p1: nat, p2: nat, p3: nat)
    ensures var r := Reading(Advance(NO_FILTER, 3), p3,
                       Reading(Advance(NO_FILTER, 2), p2,
                         Reading(Advance(NO_FILTER, 1), p1,
                           Reading(Advance(NO_FILTER, 0), p0, c))));
            r == Components(p0 % U16_MOD, p1 % U16_MOD, p2 % U16_MOD, p3 % U16_MOD)
  {
    assert Advance(NO_FILTER, 1) == RED_FILTER;
    assert Advance(NO_FILTER, 2) == GREEN_FILTER by {
      assert Advance(NO_FILTER, 2) == Advance(RED_FILTER, 1);
    }
    assert Advance(NO_FILTER, 3) == BLUE_FILTER by {
      assert Advance(NO_FILTER, 3) == Advance(RED_FILTER, 2) == Advance(GREEN_FILTER, 1);
    }
  }

  /**
   * The cycle as written, started at NO_FILTER: the four filters fill the
   * four components in turn, and the fifth iteration, on the value 0,
   * leaves every component as it was.
   */
  lemma CycleAsWrittenFillsComponents(c: Components, p0: nat, p1: nat, p2: nat, p3: nat, p4: nat)
    ensures var r := Reading(AdvanceAsWritten(NO_FILTER, 3), p3,
                       Reading(AdvanceAsWritten(NO_FILTER, 2), p2,
                         Reading(AdvanceAsWritten(NO_FILTER, 1), p1,
                           Reading(AdvanceAsWritten(NO_FILTER, 0), p0, c))));
            && r == Components(p0 % U16_MOD, p1 % U16_MOD, p2 % U16_MOD, p3 % U16_MOD)
            && Reading(AdvanceAsWritten(NO_FILTER, 4), p4, r) == r
  {
    FilterCycleAsWritten(NO_FILTER);
    assert AdvanceAsWritten(NO_FILTER, 1) == RED_FILTER by {
      assert AdvanceAsWritten(NO_FILTER, 1) == AdvanceAsWritten(RED_FILTER, 0);
    }
    assert AdvanceAsWritten(NO_FILTER, 2) == GREEN_FILTER by {
      assert AdvanceAsWritten(NO_FILTER, 2) == AdvanceAsWritten(RED_FILTER, 1) == AdvanceAsWritten(GREEN_FILTER, 0);
    }
    assert AdvanceAsWritten(NO_FILTER, 3) == BLUE_FILTER by {
      assert AdvanceAsWritten(NO_FILTER, 3) == AdvanceAsWritten(RED_FILTER, 2) == AdvanceAsWritten(GREEN_FILTER, 1);
      assert AdvanceAsWritten(GREEN_FILTER, 1) == AdvanceAsWritten(BLUE_FILTER, 0);
    }
    assert AdvanceAsWritten(NO_FILTER, 4) == 0 by {
      assert AdvanceAsWritten(NO_FILTER, 4) == AdvanceAsWritten(RED_FILTER, 3) == AdvanceAsWritten(GREEN_FILTER, 2);
      assert AdvanceAsWritten(GREEN_FILTER, 2) == AdvanceAsWritten(BLUE_FILTER, 1) == AdvanceAsWritten(0, 0);
    }
  }

  // ---------------------------------------------------------------------------
  // The sensor's static state
  // ---------------------------------------------------------------------------

  class ColourSensor {
    /** current_filter. */
    var currentFilter: nat
    /** first_edge_time, second_edge_time and _pulse_duration_in_us (64-bit). */
    var firstEdgeTime: nat
    var secondEdgeTime: nat
    var pulseDurationUs: nat
    /** first_edge_completed_flag. */
    var firstEdgeCompleted: bool
    /** The levels driven on COLOUR_SENSOR_S2 and COLOUR_SENSOR_S3. */
    var pins: Levels

    /**
     * The filter value is below MAX_FILTER (one of the four filters, or the
     * 0 the iteration reaches after BLUE_FILTER), the times fit 64 bits, and
     * until a rising edge has been seen since the filter was set every
     * timing value is still 0.
     */
    predicate Valid()
      reads this
    {
      && currentFilter < MAX_FILTER
      && firstEdgeTime < U64_MOD && secondEdgeTime < U64_MOD && pulseDurationUs < U64_MOD
      && (!firstEdgeCompleted ==> firstEdgeTime == 0 && secondEdgeTime == 0 && pulseDurationUs == 0)
    }

    /** The statics before colour_sensor_init; the pins are at their reset levels. */
    constructor(resetPins: Levels)
      ensures Valid() && currentFilter == NO_FILTER && !firstEdgeCompleted && pins == resetPins
    {
      currentFilter := NO_FILTER;
      firstEdgeTime, secondEdgeTime, pulseDurationUs := 0, 0, 0;
      firstEdgeCompleted := false;
      pins := resetPins;
    }

    /**
     * set_colour_sensor_filter: select filter value f, forget any edge timed
     * so far, and drive the filter's pin levels; a value that is not a
     * filter (the 0 after BLUE_FILTER) leaves the pins alone. Its callers,
     * colour_sensor_init and colour_sensor_iteration, pass values below
     * MAX_FILTER.
     */
    method SetFilter(f: nat)
      requires f < MAX_FILTER
      modifies this
      ensures Valid()
      ensures currentFilter == f
      ensures IsFilter(f) ==> Some(pins) == FilterLevels(f)
      ensures !IsFilter(f) ==> pins == old(pins)
      ensures !firstEdgeCompleted && firstEdgeTime == 0 && secondEdgeTime == 0 && pulseDurationUs == 0
    {
      currentFilter := f;
      firstEdgeCompleted := false;
      firstEdgeTime := 0;
      secondEdgeTime := 0;
      pulseDurationUs := 0;
      match f {
        case 1 => pins := Levels(true, false);
        case 2 => pins := Levels(false, false);
        case 3 => pins := Levels(true, true);
        case 4 => pins := Levels(false, true);
        case _ =>
      }
    }

    /**
     * colour_sensor_init: start the pulse timer and select NO_FILTER. A
     * failed timer call stops the program in ASDK_DEV_ERROR_ASSERT's endless
     * loop, reported as hung with nothing changed.
     */
    method Init(timerInitOk: bool, timerStartOk: bool) returns (hung: bool)
      requires Valid()
      modifies this
      ensures Valid()
      ensures hung <==> !(timerInitOk && timerStartOk)
      ensures hung ==> unchanged(this)
      ensures !hung ==> currentFilter == NO_FILTER && Some(pins) == FilterLevels(NO_FILTER) && !firstEdgeCompleted && pulseDurationUs == 0
    {
      if !timerInitOk || !timerStartOk {
        return true;
      }
      SetFilter(NO_FILTER);
      hung := false;
    }

    /**
     * colour_sensor_iteration: move to the next filter value, one more
     * modulo MAX_FILTER, and select it; after BLUE_FILTER that is 0, which
     * drives no pins.
     */
    method Iterate()
      requires Valid()
      modifies this
      ensures Valid()
      ensures currentFilter == NextFilterAsWritten(old(currentFilter))
      ensures IsFilter(currentFilter) ==> Some(pins) == FilterLevels(currentFilter)
      ensures !IsFilter(currentFilter) ==> currentFilter == 0 && pins == old(pins)
      ensures !firstEdgeCompleted && pulseDurationUs == 0
    {
      SetFilter(NextFilterAsWritten(currentFilter));
    }

    /**
     * colour_sensor_callback with the timer's count nowUs (in microseconds):
     * a high pin records the start of a pulse; a low pin after a recorded
     * start ends it and stores its width; a low pin before any start is
     * ignored. The filter and the pins never change.
     */
    method OnEdge(pinState: nat, nowUs: nat)
      requires Valid() && nowUs < U64_MOD
      modifies this`firstEdgeTime, this`secondEdgeTime, this`pulseDurationUs, this`firstEdgeCompleted
      ensures Valid()
      ensures pinState != 0 ==>
                && firstEdgeCompleted && firstEdgeTime == nowUs
                && secondEdgeTime == old(secondEdgeTime) && pulseDurationUs == old(pulseDurationUs)
      ensures pinState == 0 && old(firstEdgeCompleted) ==>
                && firstEdgeCompleted && firstEdgeTime == old(firstEdgeTime) && secondEdgeTime == nowUs
                && pulseDurationUs == Sub64(nowUs, old(firstEdgeTime))
      ensures pinState == 0 && !old(firstEdgeCompleted) ==> unchanged(this)
    {
      if pinState != 0 {
        firstEdgeTime := nowUs;
        firstEdgeCompleted := true;
      } else if firstEdgeCompleted {
        secondEdgeTime := nowUs;
        pulseDurationUs := Sub64(secondEdgeTime, firstEdgeTime);
      }
    }

    /**
     * get_current_filter: one of the four filters, or the 0 the iteration
     * selects after BLUE_FILTER.
     */
    function CurrentFilter(): (r: nat)
      reads this
      requires Valid()
      ensures IsFilter(r) || r == 0
    {
      currentFilter
    }

    /**
     * get_colour_sensor_reading: the components with the current filter's
     * component replaced by the last pulse width, truncated to 16 bits.
     */
    method GetReading(c: Components) returns (r: Components)
      requires Valid()
      ensures r == Reading(currentFilter, pulseDurationUs, c)
      ensures currentFilter != NO_FILTER ==> r.clear == c.clear
      ensures currentFilter != RED_FILTER ==> r.red == c.red
      ensures currentFilter != GREEN_FILTER ==> r.green == c.green
      ensures currentFilter != BLUE_FILTER ==> r.blue == c.blue
    {
      var v := pulseDurationUs % U16_MOD;
      r := c;
      if currentFilter == NO_FILTER {
        r := r.(clear := v);
      } else if currentFilter == RED_FILTER {
        r := r.(red := v);
      } else if currentFilter == GREEN_FILTER {
        r := r.(green := v);
      } else if currentFilter == BLUE_FILTER {
        r := r.(blue := v);
      }
    }
  }

  /**
   * A pulse is measured only between edges seen under one filter: right
   * after a filter change, a falling edge stores nothing, and the reading
   * reports 0 for the new filter until a rising and a falling edge follow.
   */
  lemma FreshFilterReadsZero(s: ColourSensor, c: Components)
    requires s.Valid() && !s.firstEdgeCompleted
    ensures Reading(s.currentFilter, s.pulseDurationUs, c) == Reading(s.currentFilter, 0, c)
  {
  }
}
