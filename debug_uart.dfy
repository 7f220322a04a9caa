// The debug console of arsenal/debug_uart.c: characters printed by the
// application are queued in a 4096-byte ring buffer and sent to UART 0 in
// chunks of at most 64 bytes by a three-state machine, stepped by the
// application's main loop and by the UART's transmit-complete callback.
//
// The UART driver is outside the model: whether its init, callback
// installation and write succeed is an input of each step, and a write's
// bytes are returned to the caller. A failed call stops the program in
// ASDK_DEV_ERROR_ASSERT's endless loop; a step reports that it hung.

module DebugUart {
  import opened Common
  import RB = RingBuffer

  /** PRINT_BUFFER_SIZE: the largest chunk handed to one UART write. */
  const PRINT_BUFFER_SIZE: nat := 64
  /** The size of _debug_uart_char_buffer. */
  const DEBUG_BUFFER_SIZE: nat := 4096
  const ASDK_UART_0: nat := 0

  /** debug_uart_state_t. */
  datatype State = Init | Send | WaitForTxEvt

  /** asdk_uart_status_t. */
  datatype UartEvent =
    | TransmitComplete | TransmitError | ReceiveComplete | ReceiveOverflow
    | ReceiveErrFrame | ReceiveErrParity | ReceiveBreakDetect

  /** What the UART driver reports to the calls one step makes. */
  datatype UartEnv = UartEnv(initOk: bool, installOk: bool, writeOk: bool)

  /** The number of queued bytes one SEND step takes: all of them, up to 64. */
  function ChunkSize(used: nat): (n: nat)
    ensures n <= PRINT_BUFFER_SIZE && n <= used
    ensures used > 0 ==> n > 0
    ensures n == used || n == PRINT_BUFFER_SIZE
  {
    if used >= PRINT_BUFFER_SIZE then PRINT_BUFFER_SIZE else used
  }

  /** The static state of debug_uart.c. */
  class DebugUart {
    /** _debug_uart_buff, over _debug_uart_char_buffer. */
    var buff: RB.RingBuffer
    /** _rc: the chunk handed to the UART. */
    var rc: array<byte>
    /** _wc: the character being queued. */
    var wc: array<byte>
    /** _uart_state. */
    var state: State
    /** max_buff_usage. */
    var maxBuffUsage: nat
    /** Every byte the buffer has accepted since init, in order. */
    ghost var accepted: seq<byte>
    /** Every byte handed to the UART since init, in order. */
    ghost var transmitted: seq<byte>

    /**
     * The buffer is the 4096-byte, one-byte-block buffer without overwrite
     * or callback, and it holds exactly the accepted bytes not yet handed to
     * the UART.
     */
    ghost predicate Valid()
      reads this, buff, buff.buffer
    {
      && buff.Valid()
      && buff.totalCapacity == DEBUG_BUFFER_SIZE && buff.blockSize == 1
      && !buff.enableOverwrite && !buff.hasCallback
      && rc.Length == PRINT_BUFFER_SIZE && wc.Length == 1
      && rc != buff.buffer && wc != buff.buffer && rc != wc
      && transmitted + buff.Contents() == accepted
    }

    /** The queued bytes, oldest first. */
    ghost function Contents(): seq<byte>
      reads this, buff, buff.buffer
      requires Valid()
    {
      buff.Contents()
    }

    /** The zero-initialised statics: state INIT, no usage recorded, an empty buffer. */
    constructor()
      ensures Valid() && fresh(buff) && fresh(buff.buffer) && fresh(rc) && fresh(wc)
      ensures state == Init && maxBuffUsage == 0 && Contents() == [] && accepted == [] && transmitted == []
    {
      var storage := new byte[DEBUG_BUFFER_SIZE];
      buff := new RB.RingBuffer(storage, DEBUG_BUFFER_SIZE, 1, false, false);
      rc := new byte[PRINT_BUFFER_SIZE];
      wc := new byte[1];
      state := Init;
      maxBuffUsage := 0;
      accepted := [];
      transmitted := [];
      new;
      assert buff.Contents() == [];
    }

    /** debug_uart_init: empty the buffer and restart the machine in INIT. */
    method DebugUartInit()
      requires Valid()
      modifies this, buff
      ensures Valid() && buff == old(buff) && buff.buffer == old(buff.buffer)
      ensures state == Init && maxBuffUsage == old(maxBuffUsage) && Contents() == []
      ensures transmitted == old(transmitted) && accepted == transmitted
    {
      var e := RB.Init(buff);
      state := Init;
      accepted := transmitted;
    }

    /** _putchar: queue one character; a full buffer drops it. */
    method Putchar(ch: byte)
      requires Valid()
      modifies this`accepted, wc, buff, buff.buffer
      ensures state == old(state) && maxBuffUsage == old(maxBuffUsage)
      ensures Valid() && buff.buffer == old(buff.buffer)
      ensures |old(Contents())| < DEBUG_BUFFER_SIZE ==> Contents() == old(Contents()) + [ch] && accepted == old(accepted) + [ch]
      ensures |old(Contents())| == DEBUG_BUFFER_SIZE ==> Contents() == old(Contents()) && accepted == old(accepted)
      ensures transmitted == old(transmitted)
    {
      ghost var before := buff.Contents();
      wc[0] := ch;
      assert wc[..1] == [ch];
      var blocks, note := RB.Write(buff, wc, 1);
      assert buff.Contents() == RB.Newest(before + wc[..RB.Accepted(|before|, DEBUG_BUFFER_SIZE, false, 1)], DEBUG_BUFFER_SIZE);
      if |before| < DEBUG_BUFFER_SIZE {
        accepted := accepted + [ch];
      }
    }

    /**
     * __uart_callback: a transmit-complete event of UART 0 ends the wait for
     * the transmitter; any other event, or an event of another UART, changes
     * nothing.
     */
    method OnUartEvent(uartNo: nat, event: UartEvent)
      modifies this`state
      ensures event == TransmitComplete && uartNo == ASDK_UART_0 && old(state) == WaitForTxEvt ==> state == Send
      ensures !(event == TransmitComplete && uartNo == ASDK_UART_0) ==> state == old(state)
      ensures old(state) != WaitForTxEvt ==> state == old(state)
    {
      match event {
        case TransmitComplete =>
          if uartNo == ASDK_UART_0 {
            if state == WaitForTxEvt {
              state := Send;
            }
          }
        case _ =>
      }
    }

    /**
     * The SEND state of debug_uart_iteration: an empty buffer leaves it in
     * SEND; otherwise up to 64 queued bytes go to one UART write and the
     * machine waits for the transmitter.
     */
    method SendStep(env: UartEnv) returns (sent: Option<seq<byte>>, hung: bool)
      requires Valid() && state == Send
      modifies this`state, this`transmitted, buff, rc
      ensures Valid() && buff.buffer == old(buff.buffer)
      ensures |old(Contents())| == 0 ==>
                sent == None && !hung && state == Send && Contents() == old(Contents()) && transmitted == old(transmitted)
      ensures |old(Contents())| > 0 ==>
                var n := ChunkSize(|old(Contents())|);
                && sent == Some(old(Contents())[..n]) && Contents() == old(Contents())[n..]
                && transmitted == old(transmitted) + old(Contents())[..n]
                && state == WaitForTxEvt && hung == !env.writeOk
    {
      var buffLen := buff.usedCapacity;
      if buffLen == 0 {
        return None, false;
      }
      if buffLen >= PRINT_BUFFER_SIZE {
        buffLen := PRINT_BUFFER_SIZE;
      }
      ghost var before := buff.Contents();
      var readLen := RB.Read(buff, rc, buffLen);
      state := WaitForTxEvt;
      var chunk := rc[..readLen];
      transmitted := transmitted + chunk;
      assert before == chunk + before[readLen..];
      sent := Some(chunk);
      hung := !env.writeOk;
    }

    /**
     * debug_uart_iteration: record the buffer's high-water mark, then step
     * the machine. Returns the bytes handed to the UART, if any, and whether
     * a failed driver call left the program hung.
     */
    method Iterate(env: UartEnv) returns (sent: Option<seq<byte>>, hung: bool)
      requires Valid()
      modifies this`state, this`transmitted, this`maxBuffUsage, buff, rc
      ensures Valid() && buff.buffer == old(buff.buffer)
      ensures maxBuffUsage == if old(maxBuffUsage) < |old(Contents())| then |old(Contents())| else old(maxBuffUsage)
      ensures maxBuffUsage >= old(maxBuffUsage) && maxBuffUsage >= |Contents()|
      ensures old(state) == Init ==>
                && sent == None && Contents() == old(Contents()) && transmitted == old(transmitted)
                && hung == !(env.initOk && env.installOk)
                && state == (if hung then Init else Send)
      ensures old(state) == Send && |old(Contents())| == 0 ==>
                sent == None && !hung && state == Send && Contents() == old(Contents()) && transmitted == old(transmitted)
      ensures old(state) == Send && |old(Contents())| > 0 ==>
                var n := ChunkSize(|old(Contents())|);
                && sent == Some(old(Contents())[..n]) && Contents() == old(Contents())[n..]
                && transmitted == old(transmitted) + old(Contents())[..n]
                && state == WaitForTxEvt && hung == !env.writeOk
      ensures old(state) == WaitForTxEvt ==>
                sent == None && !hung && state == WaitForTxEvt && Contents() == old(Contents()) && transmitted == old(transmitted)
    {
      if maxBuffUsage < buff.usedCapacity {
        maxBuffUsage := buff.usedCapacity;
      }
      match state {
        case Init =>
          if !env.initOk || !env.installOk {
            return None, true;
          }
          state := Send;
          sent, hung := None, false;
        case Send =>
          sent, hung := SendStep(env);
        case WaitForTxEvt =>
          sent, hung := None, false;
      }
    }
  }
}
