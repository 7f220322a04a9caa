// The CAN service middleware (asdk-gen2/middleware/can_service): per-channel
// transmit and receive queues of CAN frames, each a ring buffer of 40
// sixteen-byte frames, filled by send and by the driver's receive event and
// drained by the send and receive iterations.

module CanFrame {
  import opened Common

  /** ASDK_CAN_MODULE_CAN_CH_MAX: the number of CAN channels. */
  const CAN_CH_MAX: nat := 6
  const FRAME_SIZE: nat := 16
  const MAX_DLC: nat := 8

  /** asdk_can_event_t; EventMax stands for any value the handler's switch does not name. */
  datatype CanEvent = TxComplete | RxEvent | TxError | RxError | ErrorEvent | BusOff | SleepEvent | WakeUp | EventMax

  /** asdk_can_message_t: identifier, length and the payload it points to. */
  datatype Message = Message(canId: nat, dlc: nat, data: seq<byte>)

  /** asdk_can_frame_t: a 32-bit identifier, a length and eight payload bytes. */
  datatype Frame = Frame(canId: nat, dlc: nat, message: seq<byte>)

  predicate WellFormed(f: Frame)
  {
    IsU32(f.canId) && f.dlc <= MAX_DLC && |f.message| == MAX_DLC
  }

  /**
   * The frame's in-memory layout on a little-endian core: the identifier in
   * bytes 0-3, the length in byte 4, the payload in bytes 5-12, and three
   * bytes of structure padding (modelled as zero).
   */
  function Encode(f: Frame): (b: seq<byte>)
    requires WellFormed(f)
    ensures |b| == FRAME_SIZE
  {
    [(f.canId % 0x100) as byte, (f.canId / 0x100 % 0x100) as byte,
     (f.canId / 0x1_0000 % 0x100) as byte, (f.canId / 0x100_0000) as byte,
     f.dlc as byte]
    + f.message + [0, 0, 0]
  }

  function Decode(b: seq<byte>): Frame
    requires |b| >= FRAME_SIZE
  {
    Frame(b[0] as nat + 0x100 * b[1] as nat + 0x1_0000 * b[2] as nat + 0x100_0000 * b[3] as nat,
          b[4] as nat, b[5..13])
  }

  lemma {:induction false} DecodeEncode(f: Frame)
    requires WellFormed(f)
    ensures Decode(Encode(f)) == f
  {
    var b := Encode(f);
    IdBytes(f.canId);
    assert b[5..13] == f.message;
  }

  /** A 32-bit identifier is the sum of its four little-endian bytes. */
  lemma IdBytes(id: nat)
    requires IsU32(id)
    ensures id == id % 0x100 + 0x100 * (id / 0x100 % 0x100)
      + 0x1_0000 * (id / 0x1_0000 % 0x100) + 0x100_0000 * (id / 0x100_0000)
  {
    var q1 := id / 0x100;
    var q2 := q1 / 0x100;
    var q3 := q2 / 0x100;
    DivDiv(id, 0x100, 0x100);
    DivDiv(q1, 0x100, 0x100);
    DivDiv(id, 0x100, 0x1_0000);
    assert id / 0x1_0000 == q2;
    assert id / 0x100_0000 == q3;
    assert id == id % 0x100 + 0x100 * q1;
    assert q1 == q1 % 0x100 + 0x100 * q2;
    assert q2 == q2 % 0x100 + 0x100 * q3;
  }

  /** The bytes of a queue of frames, oldest first. */
  function EncodeAll(fs: seq<Frame>): (b: seq<byte>)
    requires forall i :: 0 <= i < |fs| ==> WellFormed(fs[i])
    ensures |b| == FRAME_SIZE * |fs|
  {
    if fs == [] then [] else Encode(fs[0]) + EncodeAll(fs[1..])
  }

  lemma {:induction false} EncodeAllAppend(fs: seq<Frame>, f: Frame)
    requires forall i :: 0 <= i < |fs| ==> WellFormed(fs[i])
    requires WellFormed(f)
    ensures EncodeAll(fs + [f]) == EncodeAll(fs) + Encode(f)
    decreases |fs|
  {
    if fs == [] {
      assert [f][1..] == [];
    } else {
      assert (fs + [f])[1..] == fs[1..] + [f];
      EncodeAllAppend(fs[1..], f);
    }
  }

  /** The first sixteen bytes of a queue decode to its oldest frame. */
  lemma EncodeAllFront(fs: seq<Frame>)
    requires forall i :: 0 <= i < |fs| ==> WellFormed(fs[i])
    requires fs != []
    ensures Decode(EncodeAll(fs)[..FRAME_SIZE]) == fs[0]
    ensures EncodeAll(fs)[FRAME_SIZE..] == EncodeAll(fs[1..])
  {
    var b := EncodeAll(fs);
    assert b == Encode(fs[0]) + EncodeAll(fs[1..]);
    assert b[..FRAME_SIZE] == Encode(fs[0]);
    DecodeEncode(fs[0]);
  }
}

module CanService {
  import opened Common
  import opened AsdkError
  import opened CanFrame
  import RB = RingBuffer

  const MAX_POOL_SIZE: nat := 40
  const QUEUE_BYTES: nat := 640

  predicate MessageOk(m: Message)
  {
    IsU32(m.canId) && m.dlc <= MAX_DLC && |m.data| >= m.dlc
  }

  /** An invocation of the application's service callback. */
  datatype Delivery = Delivery(ch: nat, event: CanEvent, message: Option<Message>)

  /**
   * The frame built from a message: its dlc payload bytes are copied; the
   * remaining payload bytes of the frame are modelled as zero.
   */
  function ToFrame(m: Message): (f: Frame)
    requires MessageOk(m)
    ensures WellFormed(f) && f.canId == m.canId && f.dlc == m.dlc && f.message[..m.dlc] == m.data[..m.dlc]
  {
    Frame(m.canId, m.dlc, m.data[..m.dlc] + seq(MAX_DLC - m.dlc, _ => 0 as byte))
  }

  /** The message handed on for a frame: identifier, length and the eight payload bytes. */
  function ToMessage(f: Frame): Message
  {
    Message(f.canId, f.dlc, f.message)
  }

  predicate AllWellFormed(fs: seq<Frame>)
  {
    forall i :: 0 <= i < |fs| ==> WellFormed(fs[i])
  }

  /**
   * One queue: either still zeroed (no buffer attached, nothing queued) or a
   * ring buffer over its own storage of 640 bytes, blocks of one frame, no
   * overwrite and no event callback, whose bytes are the queued frames.
   */
  ghost predicate QueueOk(rb: RB.RingBuffer, storage: array<byte>, frames: seq<Frame>)
    reads rb, storage
  {
    AllWellFormed(frames) && |frames| <= MAX_POOL_SIZE
    && (rb.buffer == null ==> frames == [])
    && (rb.buffer != null ==>
          rb.buffer == storage && rb.Valid() && rb.totalCapacity == QUEUE_BYTES
          && rb.blockSize == FRAME_SIZE && !rb.enableOverwrite && !rb.hasCallback
          && rb.Contents() == EncodeAll(frames))
  }

  /**
   * ring_buffer_write of one frame, as send and the receive event do it: the
   * frame is laid out in a local asdk_can_frame_t and written as one block.
   * It is stored exactly when the queue is set up and holds fewer than 40.
   */
  method WriteFrame(rb: RB.RingBuffer, ghost storage: array<byte>, ghost frames: seq<Frame>, f: Frame)
    returns (blocks: nat)
    requires QueueOk(rb, storage, frames) && WellFormed(f)
    modifies rb, rb.buffer
    ensures blocks == 0 || blocks == 1
    ensures blocks == 1 <==> old(rb.buffer) != null && |frames| < MAX_POOL_SIZE
    ensures rb.buffer == old(rb.buffer)
    ensures QueueOk(rb, storage, if blocks == 1 then frames + [f] else frames)
  {
    var enc := Encode(f);
    var bytes := new byte[FRAME_SIZE](i requires 0 <= i < FRAME_SIZE => enc[i]);
    assert bytes[..] == enc;
    var note;
    blocks, note := RB.Write(rb, bytes, 1);
    if old(rb.buffer) != null {
      assert |old(rb.Contents())| == FRAME_SIZE * |frames|;
      if |frames| < MAX_POOL_SIZE {
        assert bytes[..FRAME_SIZE] == enc;
        EncodeAllAppend(frames, f);
      }
    }
  }

  /**
   * ring_buffer_read of one frame into a local asdk_can_frame_t: on a queue
   * that is set up and not empty it yields the oldest frame and removes it.
   */
  method ReadFrame(rb: RB.RingBuffer, ghost storage: array<byte>, ghost frames: seq<Frame>)
    returns (blocks: nat, f: Frame)
    requires QueueOk(rb, storage, frames)
    modifies rb
    ensures blocks == 0 || blocks == 1
    ensures blocks == 1 <==> frames != []
    ensures rb.buffer == old(rb.buffer)
    ensures blocks == 1 ==> f == frames[0] && QueueOk(rb, storage, frames[1..])
    ensures blocks == 0 ==> QueueOk(rb, storage, frames)
  {
    var bytes := new byte[FRAME_SIZE];
    blocks := RB.Read(rb, bytes, 1);
    f := Decode(bytes[..]);
    if frames != [] {
      EncodeAllFront(frames);
      assert bytes[..] == bytes[..FRAME_SIZE];
    }
  }

  /**
   * The queue set-up of asdk_can_service_init for one direction of one
   * channel: attach the 640-byte pool, 16-byte blocks, no overwrite, no
   * event callback, then ring_buffer_init.
   */
  method SetupQueue(rb: RB.RingBuffer, storage: array<byte>)
    requires storage.Length == QUEUE_BYTES
    modifies rb
    ensures rb.buffer == storage && QueueOk(rb, storage, [])
  {
    rb.buffer := storage;
    rb.totalCapacity := QUEUE_BYTES;
    rb.blockSize := FRAME_SIZE;
    rb.enableOverwrite := false;
    rb.hasCallback := false;
    var e := RB.Init(rb);
  }

  class CanService {
    const tx: seq<RB.RingBuffer>
    const rx: seq<RB.RingBuffer>
    const txStorage: seq<array<byte>>
    const rxStorage: seq<array<byte>>
    var hasUserCallback: bool
    ghost var txFrames: seq<seq<Frame>>
    ghost var rxFrames: seq<seq<Frame>>

    /** Six channels, each with its own two queues and its own two pools. */
    ghost predicate Layout()
    {
      |tx| == CAN_CH_MAX && |rx| == CAN_CH_MAX && |txStorage| == CAN_CH_MAX && |rxStorage| == CAN_CH_MAX
      && (forall i :: 0 <= i < CAN_CH_MAX ==> txStorage[i].Length == QUEUE_BYTES && rxStorage[i].Length == QUEUE_BYTES)
      && (forall i, j :: 0 <= i < CAN_CH_MAX && 0 <= j < CAN_CH_MAX ==>
            tx[i] != rx[j] && txStorage[i] != rxStorage[j]
            && (i != j ==> tx[i] != tx[j] && rx[i] != rx[j]
                           && txStorage[i] != txStorage[j] && rxStorage[i] != rxStorage[j]))
    }

    ghost predicate Shape()
      reads this
    {
      Layout() && |txFrames| == CAN_CH_MAX && |rxFrames| == CAN_CH_MAX
    }

    /** Channel i's queues hold exactly the encodings of its pending frames. */
    ghost predicate ChannelOk(i: nat)
      reads this, tx, rx, txStorage, rxStorage
      requires Shape() && i < CAN_CH_MAX
    {
      QueueOk(tx[i], txStorage[i], txFrames[i]) && QueueOk(rx[i], rxStorage[i], rxFrames[i])
    }

    ghost predicate Valid()
      reads this, tx, rx, txStorage, rxStorage
    {
      Shape() && forall i :: 0 <= i < CAN_CH_MAX ==> ChannelOk(i)
    }

    /** A channel whose queues, pools and frames were left alone stays consistent. */
    twostate lemma ChannelKept(i: nat)
      requires old(Shape()) && Shape() && i < CAN_CH_MAX && old(ChannelOk(i))
      requires unchanged(tx[i], rx[i], txStorage[i], rxStorage[i])
      requires txFrames[i] == old(txFrames[i]) && rxFrames[i] == old(rxFrames[i])
      ensures ChannelOk(i)
    {
    }

    /** The channel's queues have been set up by a successful init. */
    ghost predicate Ready(ch: nat)
      reads this, tx, rx
      requires Shape() && ch < CAN_CH_MAX
    {
      tx[ch].buffer != null && rx[ch].buffer != null
    }

    /** The zero-initialised statics: no queue set up, no application callback. */
    constructor ()
      ensures Valid() && !hasUserCallback
      ensures forall i :: 0 <= i < CAN_CH_MAX ==> !Ready(i) && txFrames[i] == [] && rxFrames[i] == []
    {
      var t: seq<RB.RingBuffer> := [];
      var r: seq<RB.RingBuffer> := [];
      var ts: seq<array<byte>> := [];
      var rs: seq<array<byte>> := [];
      var k := 0;
      while k < CAN_CH_MAX
        invariant 0 <= k <= CAN_CH_MAX && |t| == k && |r| == k && |ts| == k && |rs| == k
        invariant forall i :: 0 <= i < k ==> fresh(t[i]) && fresh(r[i]) && fresh(ts[i]) && fresh(rs[i])
        invariant forall i :: 0 <= i < k ==> t[i].buffer == null && r[i].buffer == null
        invariant forall i :: 0 <= i < k ==> ts[i].Length == QUEUE_BYTES && rs[i].Length == QUEUE_BYTES
        invariant forall i, j :: 0 <= i < k && 0 <= j < k ==>
            t[i] != r[j] && ts[i] != rs[j]
            && (i != j ==> t[i] != t[j] && r[i] != r[j] && ts[i] != ts[j] && rs[i] != rs[j])
      {
        var a := new RB.RingBuffer(null, 0, 0, false, false);
        var b := new RB.RingBuffer(null, 0, 0, false, false);
        var sa := new byte[QUEUE_BYTES];
        var sb := new byte[QUEUE_BYTES];
        t, r, ts, rs := t + [a], r + [b], ts + [sa], rs + [sb];
        k := k + 1;
      }
      tx, rx, txStorage, rxStorage := t, r, ts, rs;
      new;
      hasUserCallback := false;
      txFrames := seq(CAN_CH_MAX, _ => []);
      rxFrames := seq(CAN_CH_MAX, _ => []);
      assert Layout();
      forall i | 0 <= i < CAN_CH_MAX
        ensures ChannelOk(i) && !Ready(i)
      {
        assert txFrames[i] == [] && rxFrames[i] == [];
      }
    }

    /**
     * asdk_can_service_init: driverStatus is what asdk_can_init returned for
     * the channel (it refuses a channel number out of range). On success
     * both queues of the channel are attached to their pools and emptied,
     * and the driver's status is passed back.
     */
    method Init(ch: nat, driverStatus: ErrorCode) returns (status: ErrorCode)
      requires Valid() && IsU8(ch)
      requires ch >= CAN_CH_MAX ==> driverStatus == ASDK_CAN_ERROR_INVALID_CHANNEL
      modifies this, if ch < CAN_CH_MAX then {tx[ch], rx[ch]} else {}
      ensures Valid() && status == driverStatus
      ensures hasUserCallback == old(hasUserCallback)
      ensures status != ASDK_CAN_SUCCESS ==> txFrames == old(txFrames) && rxFrames == old(rxFrames)
      ensures status == ASDK_CAN_SUCCESS ==>
        ch < CAN_CH_MAX && Ready(ch)
        && txFrames == old(txFrames)[ch := []] && rxFrames == old(rxFrames)[ch := []]
      ensures forall c :: 0 <= c < CAN_CH_MAX && c != ch ==> (Ready(c) <==> old(Ready(c)))
    {
      status := driverStatus;
      if status != ASDK_CAN_SUCCESS {
        return;
      }
      SetupQueue(tx[ch], txStorage[ch]);
      SetupQueue(rx[ch], rxStorage[ch]);
      txFrames := txFrames[ch := []];
      rxFrames := rxFrames[ch := []];
      forall i | 0 <= i < CAN_CH_MAX && i != ch
        ensures ChannelOk(i)
      {
        ChannelKept(i);
      }
    }

    /**
     * asdk_can_service_install_callback: a missing callback is refused and the
     * previous one stays; otherwise it is recorded and the status of
     * installing the service handler with the driver (driverStatus) is returned.
     */
    method InstallCallback(userCallback: bool, driverStatus: ErrorCode) returns (status: ErrorCode)
      modifies this`hasUserCallback
      ensures !userCallback ==> status == ASDK_MW_CAN_SERVICE_ERROR_NULL_PTR && hasUserCallback == old(hasUserCallback)
      ensures userCallback ==> status == driverStatus && hasUserCallback
    {
      if !userCallback {
        return ASDK_MW_CAN_SERVICE_ERROR_NULL_PTR;
      }
      hasUserCallback := true;
      status := driverStatus;
    }

    /**
     * asdk_can_service_send: queue a message for transmission. A full queue,
     * or one never set up, refuses it with TX_QUEUE_FULL.
     */
    method Send(ch: nat, msg: Message) returns (status: ErrorCode)
      requires Valid() && IsU8(ch) && MessageOk(msg)
      modifies this, if ch < CAN_CH_MAX then {tx[ch] as object, txStorage[ch]} else {}
      ensures Valid()
      ensures hasUserCallback == old(hasUserCallback) && rxFrames == old(rxFrames)
      ensures ch >= CAN_CH_MAX ==> status == ASDK_CAN_ERROR_INVALID_CHANNEL && txFrames == old(txFrames)
      ensures ch < CAN_CH_MAX ==>
        var stored := old(tx[ch].buffer) != null && |old(txFrames[ch])| < MAX_POOL_SIZE;
        status == (if stored then ASDK_MW_CAN_SERVICE_SUCCESS else ASDK_MW_CAN_SERVICE_TX_QUEUE_FULL)
        && txFrames == if stored then old(txFrames)[ch := old(txFrames[ch]) + [ToFrame(msg)]] else old(txFrames)
      ensures forall c :: 0 <= c < CAN_CH_MAX ==> (Ready(c) <==> old(Ready(c)))
    {
      if CAN_CH_MAX <= ch {
        return ASDK_CAN_ERROR_INVALID_CHANNEL;
      }
      var frame := ToFrame(msg);
      assert ChannelOk(ch);
      var blocks := WriteFrame(tx[ch], txStorage[ch], txFrames[ch], frame);
      if blocks == 1 {
        txFrames := txFrames[ch := txFrames[ch] + [frame]];
        status := ASDK_MW_CAN_SERVICE_SUCCESS;
      } else {
        status := ASDK_MW_CAN_SERVICE_TX_QUEUE_FULL;
      }
      forall i | 0 <= i < CAN_CH_MAX && i != ch
        ensures ChannelOk(i)
      {
        ChannelKept(i);
      }
    }

    /**
     * asdk_can_service_send_iteration: busy is the driver's report on the
     * transmit mailbox and writeStatus what asdk_can_write returns; the
     * driver itself refuses a channel number out of range. When the mailbox
     * is free the oldest queued frame is taken off and handed to the driver.
     */
    method SendIteration(ch: nat, busy: bool, writeStatus: ErrorCode) returns (status: ErrorCode, sent: Option<Message>)
      requires Valid() && IsU8(ch)
      modifies this, if ch < CAN_CH_MAX then {tx[ch]} else {}
      ensures Valid() && hasUserCallback == old(hasUserCallback) && rxFrames == old(rxFrames)
      ensures ch >= CAN_CH_MAX ==> status == ASDK_CAN_ERROR_INVALID_CHANNEL && sent == None && txFrames == old(txFrames)
      ensures ch < CAN_CH_MAX && busy ==> status == ASDK_MW_CAN_SERVICE_TX_BUSY && sent == None && txFrames == old(txFrames)
      ensures ch < CAN_CH_MAX && !busy && old(txFrames[ch]) == [] ==>
        status == ASDK_MW_CAN_SERVICE_TX_QUEUE_EMPTY && sent == None && txFrames == old(txFrames)
      ensures ch < CAN_CH_MAX && !busy && old(txFrames[ch]) != [] ==>
        status == writeStatus && sent == Some(ToMessage(old(txFrames[ch][0])))
        && txFrames == old(txFrames)[ch := old(txFrames[ch][1..])]
      ensures forall c :: 0 <= c < CAN_CH_MAX ==> (Ready(c) <==> old(Ready(c)))
    {
      if CAN_CH_MAX <= ch {
        return ASDK_CAN_ERROR_INVALID_CHANNEL, None;
      }
      if busy {
        return ASDK_MW_CAN_SERVICE_TX_BUSY, None;
      }
      assert ChannelOk(ch);
      var blocks, frame := ReadFrame(tx[ch], txStorage[ch], txFrames[ch]);
      if blocks == 0 {
        status, sent := ASDK_MW_CAN_SERVICE_TX_QUEUE_EMPTY, None;
      } else {
        txFrames := txFrames[ch := txFrames[ch][1..]];
        status, sent := writeStatus, Some(ToMessage(frame));
      }
      forall i | 0 <= i < CAN_CH_MAX && i != ch
        ensures ChannelOk(i)
      {
        ChannelKept(i);
      }
    }

    /**
     * asdk_can_service_receive_iteration: take the oldest received frame off
     * the channel's queue and, when an application callback is installed,
     * deliver it as a receive event. The frame is consumed either way.
     */
    method ReceiveIteration(ch: nat) returns (status: ErrorCode, delivered: Option<Delivery>)
      requires Valid() && IsU8(ch)
      modifies this, if ch < CAN_CH_MAX then {rx[ch]} else {}
      ensures Valid() && hasUserCallback == old(hasUserCallback) && txFrames == old(txFrames)
      ensures ch >= CAN_CH_MAX ==> status == ASDK_CAN_ERROR_INVALID_CHANNEL && delivered == None && rxFrames == old(rxFrames)
      ensures ch < CAN_CH_MAX && old(rxFrames[ch]) == [] ==>
        status == ASDK_MW_CAN_SERVICE_RX_QUEUE_EMPTY && delivered == None && rxFrames == old(rxFrames)
      ensures ch < CAN_CH_MAX && old(rxFrames[ch]) != [] ==>
        status == ASDK_MW_CAN_SERVICE_SUCCESS
        && rxFrames == old(rxFrames)[ch := old(rxFrames[ch][1..])]
        && delivered == (if hasUserCallback then Some(Delivery(ch, RxEvent, Some(ToMessage(old(rxFrames[ch][0]))))) else None)
      ensures forall c :: 0 <= c < CAN_CH_MAX ==> (Ready(c) <==> old(Ready(c)))
    {
      if CAN_CH_MAX <= ch {
        return ASDK_CAN_ERROR_INVALID_CHANNEL, None;
      }
      assert ChannelOk(ch);
      var blocks, frame := ReadFrame(rx[ch], rxStorage[ch], rxFrames[ch]);
      if blocks == 0 {
        status, delivered := ASDK_MW_CAN_SERVICE_RX_QUEUE_EMPTY, None;
      } else {
        rxFrames := rxFrames[ch := rxFrames[ch][1..]];
        status := ASDK_MW_CAN_SERVICE_SUCCESS;
        delivered := if hasUserCallback then Some(Delivery(ch, RxEvent, Some(ToMessage(frame)))) else None;
      }
      forall i | 0 <= i < CAN_CH_MAX && i != ch
        ensures ChannelOk(i)
      {
        ChannelKept(i);
      }
    }

    /**
     * __asdk_can_service_callback_handler, called by the driver for channel
     * ch: a received message is queued on the channel's receive queue
     * (dropped when the queue is full or was never set up); transmit
     * completion and the error events are passed on to the application
     * callback, the error events without a message; any other event is
     * ignored.
     */
    method Handler(ch: nat, event: CanEvent, msg: Option<Message>) returns (delivered: Option<Delivery>)
      requires Valid() && ch < CAN_CH_MAX
      requires event == RxEvent ==> msg.Some? && MessageOk(msg.value)
      modifies this, rx[ch], rxStorage[ch]
      ensures Valid() && hasUserCallback == old(hasUserCallback) && txFrames == old(txFrames)
      ensures event == RxEvent ==>
        delivered == None
        && rxFrames == if old(rx[ch].buffer) != null && |old(rxFrames[ch])| < MAX_POOL_SIZE
                       then old(rxFrames)[ch := old(rxFrames[ch]) + [ToFrame(msg.value)]]
                       else old(rxFrames)
      ensures event == TxComplete ==>
        rxFrames == old(rxFrames) && delivered == if hasUserCallback then Some(Delivery(ch, event, msg)) else None
      ensures event in {TxError, RxError, ErrorEvent, BusOff, SleepEvent, WakeUp} ==>
        rxFrames == old(rxFrames) && delivered == if hasUserCallback then Some(Delivery(ch, event, None)) else None
      ensures event == EventMax ==> rxFrames == old(rxFrames) && delivered == None
      ensures forall c :: 0 <= c < CAN_CH_MAX ==> (Ready(c) <==> old(Ready(c)))
    {
      delivered := None;
      match event {
        case RxEvent =>
          var frame := ToFrame(msg.value);
          assert ChannelOk(ch);
          var blocks := WriteFrame(rx[ch], rxStorage[ch], rxFrames[ch], frame);
          if blocks == 1 {
            rxFrames := rxFrames[ch := rxFrames[ch] + [frame]];
          }
          forall i | 0 <= i < CAN_CH_MAX && i != ch
            ensures ChannelOk(i)
          {
            ChannelKept(i);
          }
        case TxComplete =>
          if hasUserCallback {
            delivered := Some(Delivery(ch, event, msg));
          }
        case TxError | RxError | ErrorEvent | BusOff | SleepEvent | WakeUp =>
          if hasUserCallback {
            delivered := Some(Delivery(ch, event, None));
          }
        case EventMax =>
      }
    }
  }
}
