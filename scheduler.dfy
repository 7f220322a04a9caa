// The cooperative task scheduler of the vehicle application
// (arsenal/scheduler.c): a millisecond tick counted by a periodic timer
// interrupt, and an iteration that runs every task whose period has elapsed.

module Scheduler {
  import opened Common
  import opened TimerEvents

  /**
   * scheduler_t: the task (identified by a number standing for its function
   * pointer), the tick at which it last ran, and its period in ticks
   * (0 means "run on every iteration").
   */
  datatype Task = Task(taskFn: nat, lastTick: nat, periodicity: nat)

  predicate TaskOk(t: Task)
  {
    IsU64(t.lastTick) && IsU64(t.periodicity)
  }

  /** Whether a task is run by an iteration that sees tick now (uint64_t arithmetic). */
  predicate Due(t: Task, now: nat)
    requires TaskOk(t) && IsU64(now)
  {
    t.periodicity == 0 || SubU64(now, t.lastTick) >= t.periodicity
  }

  /** The indices, in table order, of the tasks among the first n that an iteration at tick now runs. */
  function DueTasks(table: seq<Task>, n: nat, now: nat): (r: seq<nat>)
    requires n <= |table| && IsU64(now)
    requires forall i :: 0 <= i < |table| ==> TaskOk(table[i])
  {
    if n == 0 then []
    else DueTasks(table, n - 1, now) + (if Due(table[n - 1], now) then [n - 1] else [])
  }

  /** The table after an iteration at tick now: periodic tasks that ran remember now. */
  function Advance(t: Task, now: nat): (r: Task)
    requires TaskOk(t) && IsU64(now)
  {
    if t.periodicity != 0 && Due(t, now) then t.(lastTick := now) else t
  }

  /** Every index DueTasks(table, n, now) lists is below n. */
  lemma {:induction false} DueTasksBelow(table: seq<Task>, n: nat, now: nat)
    requires n <= |table| && IsU64(now)
    requires forall i :: 0 <= i < |table| ==> TaskOk(table[i])
    ensures forall k :: 0 <= k < |DueTasks(table, n, now)| ==> DueTasks(table, n, now)[k] < n
  {
    if n > 0 {
      DueTasksBelow(table, n - 1, now);
      var prev := DueTasks(table, n - 1, now);
      var tail: seq<nat> := if Due(table[n - 1], now) then [n - 1] else [];
      assert DueTasks(table, n, now) == prev + tail;
    }
  }

  /** DueTasks(table, n, now) lists its indices in strictly increasing order. */
  lemma {:induction false} DueTasksAscending(table: seq<Task>, n: nat, now: nat)
    requires n <= |table| && IsU64(now)
    requires forall i :: 0 <= i < |table| ==> TaskOk(table[i])
    ensures forall k, l :: 0 <= k < l < |DueTasks(table, n, now)| ==>
      DueTasks(table, n, now)[k] < DueTasks(table, n, now)[l]
  {
    if n > 0 {
      DueTasksAscending(table, n - 1, now);
      DueTasksBelow(table, n - 1, now);
      var prev := DueTasks(table, n - 1, now);
      var tail: seq<nat> := if Due(table[n - 1], now) then [n - 1] else [];
      assert DueTasks(table, n, now) == prev + tail;
    }
  }

  /** Among the first n tasks, DueTasks(table, n, now) lists exactly the due ones. */
  lemma {:induction false} DueTasksExact(table: seq<Task>, n: nat, now: nat)
    requires n <= |table| && IsU64(now)
    requires forall i :: 0 <= i < |table| ==> TaskOk(table[i])
    ensures forall j :: 0 <= j < n ==> (j in DueTasks(table, n, now) <==> Due(table[j], now))
  {
    if n > 0 {
      DueTasksExact(table, n - 1, now);
      DueTasksBelow(table, n - 1, now);
      var prev := DueTasks(table, n - 1, now);
      var tail: seq<nat> := if Due(table[n - 1], now) then [n - 1] else [];
      assert DueTasks(table, n, now) == prev + tail;
      forall j | 0 <= j < n
        ensures j in prev + tail <==> Due(table[j], now)
      {
        if j < n - 1 {
          assert j !in tail;
        } else {
          assert j !in prev;
        }
      }
    }
  }

  /** A task is run iff it is due; the indices are strictly increasing and below n. */
  lemma DueTasksSpec(table: seq<Task>, n: nat, now: nat)
    requires n <= |table| && IsU64(now)
    requires forall i :: 0 <= i < |table| ==> TaskOk(table[i])
    ensures forall k :: 0 <= k < |DueTasks(table, n, now)| ==> DueTasks(table, n, now)[k] < n
    ensures forall k, l :: 0 <= k < l < |DueTasks(table, n, now)| ==>
      DueTasks(table, n, now)[k] < DueTasks(table, n, now)[l]
    ensures forall j :: 0 <= j < n ==> (j in DueTasks(table, n, now) <==> Due(table[j], now))
  {
    DueTasksBelow(table, n, now);
    DueTasksAscending(table, n, now);
    DueTasksExact(table, n, now);
  }

  /** A task with period 0 is run by every iteration. */
  lemma EveryIterationRunsPeriodZero(table: seq<Task>, n: nat, now: nat, j: nat)
    requires n <= |table| && IsU64(now)
    requires forall i :: 0 <= i < |table| ==> TaskOk(table[i])
    requires j < n && table[j].periodicity == 0
    ensures j in DueTasks(table, n, now)
  {
    DueTasksSpec(table, n, now);
  }

  /**
   * Two iterations at the same tick: a periodic task run by the first is not
   * run by the second, since no tick has elapsed.
   */
  lemma NoRerunWithinATick(t: Task, now: nat)
    requires TaskOk(t) && IsU64(now) && t.periodicity != 0 && Due(t, now)
    ensures !Due(Advance(t, now), now)
  {
  }

  class Scheduler {
    var config: array<Task>
    var size: nat
    var tickMs: nat
    var currentTick: nat

    ghost predicate Valid()
      reads this, config
    {
      IsU8(size) && size <= config.Length && IsU64(tickMs) && IsU64(currentTick)
      && forall i :: 0 <= i < config.Length ==> TaskOk(config[i])
    }

    /** scheduler_init: remember the task table and its size (the timer set-up is hardware). */
    constructor (table: array<Task>, n: nat)
      requires IsU8(n) && n <= table.Length
      requires forall i :: 0 <= i < table.Length ==> TaskOk(table[i])
      ensures Valid() && config == table && size == n && tickMs == 0 && currentTick == 0
    {
      config := table;
      size := n;
      tickMs := 0;
      currentTick := 0;
    }

    /** timer_callback: only a terminal-count event advances the millisecond tick (uint64_t). */
    method TimerCallback(event: nat)
      requires Valid()
      modifies this`tickMs
      ensures Valid()
      ensures event == ASDK_TIMER_TERMINAL_COUNT_EVENT ==> tickMs == (old(tickMs) + 1) % U64_LIMIT
      ensures event != ASDK_TIMER_TERMINAL_COUNT_EVENT ==> tickMs == old(tickMs)
    {
      if event == ASDK_TIMER_TERMINAL_COUNT_EVENT {
        tickMs := (tickMs + 1) % U64_LIMIT;
      }
    }

    /**
     * scheduler_iteration: take the current tick, then visit the table in
     * order, running each due task; a periodic task that runs records the
     * tick. Returns the indices of the tasks run, in the order they ran.
     */
    method Iteration() returns (ran: seq<nat>)
      requires Valid()
      modifies this`currentTick, config
      ensures Valid() && currentTick == tickMs
      ensures ran == DueTasks(old(config[..]), size, tickMs)
      ensures forall i :: 0 <= i < config.Length ==>
        config[i] == if i < size then Advance(old(config[i]), tickMs) else old(config[i])
    {
      currentTick := tickMs;
      ran := [];
      var i := 0;
      while i < size
        invariant 0 <= i <= size && Valid() && currentTick == tickMs
        invariant ran == DueTasks(old(config[..]), i, currentTick)
        invariant forall j :: 0 <= j < config.Length ==>
          config[j] == if j < i then Advance(old(config[j]), currentTick) else old(config[j])
      {
        var t := config[i];
        if t.periodicity == 0 {
          ran := ran + [i];
        } else if SubU64(currentTick, t.lastTick) >= t.periodicity {
          ran := ran + [i];
          config[i] := t.(lastTick := currentTick);
        }
        i := i + 1;
      }
    }
  }
}
