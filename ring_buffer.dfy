// The byte ring buffer of asdk-gen2/lib/ring_buffer: a FIFO of bytes over a
// caller-supplied array, moved in whole blocks, with an optional overwrite
// mode and an event callback for the FULL and OVERWRITE conditions.

module RingBuffer {
  import opened Common

  datatype RingBufferError = Success | InvalidPtr | InvalidLen

  datatype RingBufferEvent = Full | Overwrite

  /** What the event callback is handed: the event and the number of bytes overwritten. */
  datatype Notification = Notification(event: RingBufferEvent, overwritten: nat)

  // ---------------------------------------------------------------------------
  // Index arithmetic on a circular buffer of n bytes
  // ---------------------------------------------------------------------------

  /** x mod n for an x below 2n: one subtraction at most. */
  function Wrap(x: nat, n: nat): (r: nat)
    requires 0 < n && x < 2 * n
    ensures r < n
  {
    if x < n then x else x - n
  }

  /** How far position p lies after position w going forward round the circle. */
  function Off(p: nat, w: nat, n: nat): (r: nat)
    requires p < n && w < n
    ensures r < n
  {
    if p >= w then p - w else p + n - w
  }

  lemma ModIsWrap(x: nat, n: nat)
    requires 0 < n && x < 2 * n
    ensures x % n == Wrap(x, n)
  {
    if x >= n {
      assert x == 1 * n + (x - n);
    }
  }

  /** The len bytes of buf that start at position start, going round the circle. */
  function Window(buf: seq<byte>, start: nat, len: nat): (r: seq<byte>)
    requires |buf| > 0 && start < |buf| && len <= |buf|
    ensures |r| == len
  {
    seq(len, i requires 0 <= i < len => buf[Wrap(start + i, |buf|)])
  }

  // ---------------------------------------------------------------------------
  // Specification of a write, on the abstract contents
  // ---------------------------------------------------------------------------

  /**
   * How many of t offered bytes a buffer holding used of cap bytes takes:
   * nothing when it is full without overwrite, at most the free space
   * without overwrite, everything with overwrite.
   */
  function Accepted(used: nat, cap: nat, overwrite: bool, t: nat): nat
    requires used <= cap
  {
    if used == cap && !overwrite then 0
    else if t > cap - used && !overwrite then cap - used
    else t
  }

  /** The last cap elements of s: what a buffer of cap bytes still holds. */
  function Newest(s: seq<byte>, cap: nat): seq<byte>
  {
    if |s| <= cap then s else s[|s| - cap..]
  }

  /** The contents after offering d to a buffer that holds c. */
  function Written(c: seq<byte>, cap: nat, overwrite: bool, d: seq<byte>): (r: seq<byte>)
    requires |c| <= cap
    ensures |r| <= cap
  {
    var k := Accepted(|c|, cap, overwrite, |d|);
    Newest(c + d[..if k <= |d| then k else |d|], cap)
  }

  /** Bytes lost to the overwrite when t bytes are offered. */
  function OverwrittenBytes(used: nat, cap: nat, overwrite: bool, t: nat): nat
  {
    if overwrite && used + t > cap then used + t - cap else 0
  }

  /**
   * The callback invocation of a write of t bytes (t at most cap): FULL when
   * a full buffer refuses the data, and after a write that leaves the buffer
   * full, OVERWRITE if bytes were lost or FULL if it filled exactly.
   */
  function Notice(used: nat, cap: nat, overwrite: bool, hasCallback: bool, t: nat): Option<Notification>
    requires used <= cap
  {
    if !hasCallback then None
    else if used == cap && !overwrite then Some(Notification(Full, 0))
    else if used + Accepted(used, cap, overwrite, t) < cap then None
    else if OverwrittenBytes(used, cap, overwrite, t) > 0
    then Some(Notification(Overwrite, OverwrittenBytes(used, cap, overwrite, t)))
    else Some(Notification(Full, 0))
  }

  /** Without overwrite a write never loses queued bytes: it appends what fits. */
  lemma NoOverwriteAppends(c: seq<byte>, cap: nat, d: seq<byte>)
    requires |c| <= cap
    ensures Written(c, cap, false, d) == c + d[..Min(|d|, cap - |c|)]
  {
  }

  /**
   * With overwrite the data offered (at most cap bytes) always goes in whole
   * and ends the contents; only the oldest bytes are lost.
   */
  lemma OverwriteKeepsNewest(c: seq<byte>, cap: nat, d: seq<byte>)
    requires |c| <= cap && |d| <= cap
    ensures var r := Written(c, cap, true, d);
      |r| == Min(|c| + |d|, cap) && r[|r| - |d|..] == d
  {
    var r := Written(c, cap, true, d);
    var s := c + d;
    assert d[..|d|] == d;
    assert s[|s| - |r|..][|r| - |d|..] == s[|c|..];
  }

  function Concat(chunks: seq<seq<byte>>): (r: seq<byte>)
  {
    if chunks == [] then [] else chunks[0] + Concat(chunks[1..])
  }

  /** The contents after offering each chunk in turn. */
  function WriteAll(c: seq<byte>, cap: nat, overwrite: bool, chunks: seq<seq<byte>>): (r: seq<byte>)
    requires |c| <= cap
    ensures |r| <= cap
    decreases |chunks|
  {
    if chunks == [] then c else WriteAll(Written(c, cap, overwrite, chunks[0]), cap, overwrite, chunks[1..])
  }

  /**
   * First in, first out: as long as nothing overflows, successive writes
   * queue their bytes behind each other in the order they were written.
   */
  lemma {:induction false} FifoOrder(c: seq<byte>, cap: nat, overwrite: bool, chunks: seq<seq<byte>>)
    requires |c| + |Concat(chunks)| <= cap
    ensures WriteAll(c, cap, overwrite, chunks) == c + Concat(chunks)
    decreases |chunks|
  {
    if chunks != [] {
      var d := chunks[0];
      assert Concat(chunks) == d + Concat(chunks[1..]);
      assert d[..|d|] == d;
      assert Written(c, cap, overwrite, d) == c + d;
      FifoOrder(c + d, cap, overwrite, chunks[1..]);
      assert (c + d) + Concat(chunks[1..]) == c + (d + Concat(chunks[1..]));
    }
  }

  // ---------------------------------------------------------------------------
  // The ring buffer object (ring_buffer_t)
  // ---------------------------------------------------------------------------

  class RingBuffer {
    var buffer: array?<byte>
    var totalCapacity: nat
    var blockSize: nat
    var writeIndex: nat
    var readIndex: nat
    var usedCapacity: nat
    var enableOverwrite: bool
    var hasCallback: bool

    /** A ring_buffer_t as the caller fills it in before ring_buffer_init. */
    constructor (buffer: array?<byte>, totalCapacity: nat, blockSize: nat, enableOverwrite: bool, hasCallback: bool)
      ensures this.buffer == buffer && this.totalCapacity == totalCapacity && this.blockSize == blockSize
      ensures this.enableOverwrite == enableOverwrite && this.hasCallback == hasCallback
      ensures writeIndex == 0 && readIndex == 0 && usedCapacity == 0
    {
      this.buffer := buffer;
      this.totalCapacity := totalCapacity;
      this.blockSize := blockSize;
      this.enableOverwrite := enableOverwrite;
      this.hasCallback := hasCallback;
      writeIndex, readIndex, usedCapacity := 0, 0, 0;
    }

    /** An initialised buffer: the write index sits used bytes after the read index. */
    ghost predicate Valid()
      reads this, buffer
    {
      buffer != null && buffer.Length == totalCapacity && totalCapacity > 0
      && blockSize > 0 && totalCapacity % blockSize == 0
      && readIndex < totalCapacity && writeIndex < totalCapacity
      && usedCapacity <= totalCapacity && usedCapacity % blockSize == 0
      && writeIndex == Wrap(readIndex + usedCapacity, totalCapacity)
    }

    /** The queued bytes, oldest first. */
    ghost function Contents(): (c: seq<byte>)
      reads this, buffer
      requires Valid()
      ensures |c| == usedCapacity
    {
      Window(buffer[..], readIndex, usedCapacity)
    }
  }

  /** memcpy of len bytes from src[srcStart..] to dst[dstStart..]. */
  method Copy(dst: array<byte>, dstStart: nat, src: array<byte>, srcStart: nat, len: nat)
    requires dst != src
    requires dstStart + len <= dst.Length && srcStart + len <= src.Length
    modifies dst
    ensures forall p :: 0 <= p < dst.Length ==>
      dst[p] == if dstStart <= p < dstStart + len then src[srcStart + p - dstStart] else old(dst[p])
  {
    var i := 0;
    while i < len
      invariant 0 <= i <= len
      invariant forall p :: 0 <= p < dst.Length ==>
        dst[p] == if dstStart <= p < dstStart + i then src[srcStart + p - dstStart] else old(dst[p])
    {
      dst[dstStart + i] := src[srcStart + i];
      i := i + 1;
    }
  }

  /** memcpy of len bytes out of the circle of buf, starting at position start, into out[0..]. */
  method CopyOut(out: array<byte>, buf: array<byte>, start: nat, len: nat)
    requires out != buf && buf.Length > 0 && start < buf.Length
    requires len <= buf.Length && len <= out.Length
    modifies out
    ensures forall k :: 0 <= k < out.Length ==>
      out[k] == if k < len then buf[Wrap(start + k, buf.Length)] else old(out[k])
  {
    var n := buf.Length;
    var seg := if start + len < n then len else n - start;
    Copy(out, 0, buf, start, seg);
    if seg != len {
      ModIsWrap(start + seg, n);
      var idx := (start + seg) % n;
      Copy(out, seg, buf, idx, len - seg);
    }
  }

  // ---------------------------------------------------------------------------
  // Operations
  // ---------------------------------------------------------------------------

  /** ring_buffer_init: validate the configuration and empty the buffer. */
  method Init(rb: RingBuffer?) returns (e: RingBufferError)
    requires rb != null && rb.buffer != null ==> rb.buffer.Length == rb.totalCapacity
    modifies rb
    ensures e == InvalidPtr <==> rb == null || rb.buffer == null
    ensures e == InvalidLen <==>
      rb != null && rb.buffer != null
      && (rb.totalCapacity == 0 || rb.blockSize == 0 || rb.totalCapacity % rb.blockSize != 0)
    ensures rb != null ==>
      rb.buffer == old(rb.buffer) && rb.totalCapacity == old(rb.totalCapacity)
      && rb.blockSize == old(rb.blockSize) && rb.enableOverwrite == old(rb.enableOverwrite)
      && rb.hasCallback == old(rb.hasCallback)
    ensures e != Success ==> rb == null || unchanged(rb)
    ensures e == Success ==> rb.Valid() && rb.readIndex == 0 && rb.writeIndex == 0 && rb.Contents() == []
  {
    if rb == null || rb.buffer == null {
      return InvalidPtr;
    }
    if rb.totalCapacity == 0 || rb.blockSize == 0 || rb.totalCapacity % rb.blockSize != 0 {
      return InvalidLen;
    }
    rb.readIndex := 0;
    rb.writeIndex := 0;
    rb.usedCapacity := 0;
    return Success;
  }

  /**
   * The buffer after a write of t bytes at write index w: every position
   * less than t bytes after w holds the corresponding data byte.
   */
  ghost predicate WrittenAt(before: seq<byte>, after: seq<byte>, w: nat, d: seq<byte>)
    requires |before| == |after| && w < |before| && |d| <= |before|
  {
    forall p :: 0 <= p < |after| ==>
      after[p] == if Off(p, w, |after|) < |d| then d[Off(p, w, |after|)] else before[p]
  }

  /**
   * Reading the circle after a write of d at the write index gives the old
   * contents followed by d, cut down to the newest n bytes, starting from the
   * read index the write leaves behind.
   */
  lemma WindowAfterWrite(before: seq<byte>, after: seq<byte>, read: nat, used: nat, d: seq<byte>)
    requires |before| == |after| && |before| > 0 && read < |before| && used <= |before| && |d| <= |before|
    requires WrittenAt(before, after, Wrap(read + used, |before|), d)
    ensures var n := |before|;
      var w := Wrap(read + used, n);
      var read' := if used + |d| > n then Wrap(w + |d|, n) else read;
      var used' := if used + |d| > n then n else used + |d|;
      Window(after, read', used') == Newest(Window(before, read, used) + d, n)
  {
    if used + |d| > |before| {
      WindowAfterOverwrite(before, after, read, used, d);
    } else {
      WindowAfterAppend(before, after, read, used, d);
    }
  }

  /** The overflowing case of WindowAfterWrite: the read index follows the write index. */
  lemma WindowAfterOverwrite(before: seq<byte>, after: seq<byte>, read: nat, used: nat, d: seq<byte>)
    requires |before| == |after| && |before| > 0 && read < |before| && used <= |before| && |d| <= |before|
    requires WrittenAt(before, after, Wrap(read + used, |before|), d)
    requires used + |d| > |before|
    ensures var n := |before|;
      Window(after, Wrap(Wrap(read + used, n) + |d|, n), n) == Newest(Window(before, read, used) + d, n)
  {
    var n := |before|;
    var w := Wrap(read + used, n);
    var s := Window(before, read, used) + d;
    var read' := Wrap(w + |d|, n);
    var r := Window(after, read', n);
    var nw := Newest(s, n);
    assert |nw| == n;
    forall i | 0 <= i < n
      ensures r[i] == nw[i]
    {
      var p := Wrap(read' + i, n);
      var j := used + |d| - n + i;
      assert nw[i] == s[j];
      if |d| + i < n {
        assert Off(p, w, n) == |d| + i;
        assert j < used;
        assert p == Wrap(read + j, n);
      } else {
        assert Off(p, w, n) == |d| + i - n;
      }
    }
  }

  /** The case of WindowAfterWrite where everything fits: d is appended. */
  lemma WindowAfterAppend(before: seq<byte>, after: seq<byte>, read: nat, used: nat, d: seq<byte>)
    requires |before| == |after| && |before| > 0 && read < |before| && used <= |before| && |d| <= |before|
    requires WrittenAt(before, after, Wrap(read + used, |before|), d)
    requires used + |d| <= |before|
    ensures Window(after, read, used + |d|) == Newest(Window(before, read, used) + d, |before|)
  {
    var n := |before|;
    var w := Wrap(read + used, n);
    var s := Window(before, read, used) + d;
    var r := Window(after, read, used + |d|);
    forall i | 0 <= i < used + |d|
      ensures r[i] == s[i]
    {
      var p := Wrap(read + i, n);
      if i < used {
        assert Off(p, w, n) == n - used + i;
      } else {
        assert Off(p, w, n) == i - used;
      }
    }
  }

  /** Taking t bytes off the front moves the read index t positions on. */
  lemma WindowAfterRead(buf: seq<byte>, read: nat, used: nat, t: nat)
    requires |buf| > 0 && read < |buf| && t <= used <= |buf|
    ensures Window(buf, Wrap(read + t, |buf|), used - t) == Window(buf, read, used)[t..]
  {
    var n := |buf|;
    var a := Window(buf, Wrap(read + t, n), used - t);
    var b := Window(buf, read, used)[t..];
    forall i | 0 <= i < used - t
      ensures a[i] == b[i]
    {
      assert Wrap(Wrap(read + t, n) + i, n) == Wrap(read + t + i, n);
    }
  }

  /**
   * ring_buffer_write: offer numBlocks blocks from data. Returns the number of
   * blocks stored and the callback invocation, if any.
   */
  method Write(rb: RingBuffer?, data: array?<byte>, numBlocks: nat) returns (blocks: nat, note: Option<Notification>)
    requires rb != null && rb.buffer != null ==> rb.Valid()
    requires rb != null && rb.buffer != null && data != null ==>
      data != rb.buffer && IsU32(numBlocks * rb.blockSize) && numBlocks * rb.blockSize <= data.Length
    modifies rb, if rb == null then null else rb.buffer
    ensures rb == null || data == null || numBlocks == 0 || old(rb.buffer) == null ==>
      blocks == 0 && note == None && (rb == null || (unchanged(rb) && (rb.buffer == null || unchanged(rb.buffer))))
    ensures rb != null && data != null && numBlocks > 0 && old(rb.buffer) != null ==>
      rb.Valid() && rb.buffer == old(rb.buffer) && rb.totalCapacity == old(rb.totalCapacity)
      && rb.blockSize == old(rb.blockSize) && rb.enableOverwrite == old(rb.enableOverwrite)
      && rb.hasCallback == old(rb.hasCallback)
    ensures rb != null && data != null && numBlocks > 0 && old(rb.buffer) != null ==>
      numBlocks * rb.blockSize > rb.totalCapacity ==>
        blocks == 0 && note == None && unchanged(rb) && unchanged(rb.buffer)
    ensures rb != null && data != null && numBlocks > 0 && old(rb.buffer) != null ==>
      numBlocks * rb.blockSize <= rb.totalCapacity ==>
        Stored(rb, old(rb.Contents()), old(rb.usedCapacity), old(rb.readIndex), data, numBlocks * rb.blockSize, blocks, note)
  {
    if rb == null || numBlocks == 0 || data == null {
      return 0, None;
    }
    var buf := rb.buffer;
    if buf == null {
      return 0, None;
    }
    blocks, note := WriteBlocks(rb, data, numBlocks);
  }

  /**
   * What a write of t bytes (at most the capacity) leaves behind: the stored
   * byte count as blocks, the contents, the callback invocation, and the read
   * index moved onto the write index exactly when bytes were overwritten.
   */
  ghost predicate Stored(rb: RingBuffer, before: seq<byte>, used: nat, read: nat, data: array<byte>, t: nat,
                         blocks: nat, note: Option<Notification>)
    reads rb, rb.buffer, data
    requires rb.Valid() && used <= rb.totalCapacity && |before| == used
  {
    var k := Accepted(used, rb.totalCapacity, rb.enableOverwrite, t);
    var lost := OverwrittenBytes(used, rb.totalCapacity, rb.enableOverwrite, t);
    k <= data.Length
    && blocks * rb.blockSize == k
    && rb.Contents() == Newest(before + data[..k], rb.totalCapacity)
    && note == Notice(used, rb.totalCapacity, rb.enableOverwrite, rb.hasCallback, t)
    && (lost > 0 ==> rb.readIndex == rb.writeIndex)
    && (lost == 0 ==> rb.readIndex == read)
  }

  /** ring_buffer_write once the pointers are known to be valid. */
  method WriteBlocks(rb: RingBuffer, data: array<byte>, numBlocks: nat) returns (blocks: nat, note: Option<Notification>)
    requires rb.Valid() && data != rb.buffer
    requires IsU32(numBlocks * rb.blockSize) && numBlocks * rb.blockSize <= data.Length
    modifies rb, rb.buffer
    ensures rb.Valid() && rb.buffer == old(rb.buffer) && rb.totalCapacity == old(rb.totalCapacity)
      && rb.blockSize == old(rb.blockSize) && rb.enableOverwrite == old(rb.enableOverwrite)
      && rb.hasCallback == old(rb.hasCallback)
    ensures numBlocks * rb.blockSize > rb.totalCapacity ==>
      blocks == 0 && note == None && unchanged(rb) && unchanged(rb.buffer)
    ensures numBlocks * rb.blockSize <= rb.totalCapacity ==>
      Stored(rb, old(rb.Contents()), old(rb.usedCapacity), old(rb.readIndex), data, numBlocks * rb.blockSize, blocks, note)
  {
    var n := rb.totalCapacity;
    var block := rb.blockSize;
    var t := numBlocks * block;
    if t > n {
      return 0, None;
    }
    BlockMultiple(n, block, rb.usedCapacity, numBlocks, t);
    var k;
    k, note := Offer(rb, data, t);
    blocks := BlockCount(k, block);
  }

  /**
   * Lines after the size check of ring_buffer_write: a full buffer without
   * overwrite refuses the data; otherwise the data is cut to the free space
   * (no overwrite) or the overflow is counted (overwrite), then stored.
   * Returns the number of bytes stored.
   */
  method Offer(rb: RingBuffer, data: array<byte>, t: nat) returns (k: nat, note: Option<Notification>)
    requires rb.Valid() && data != rb.buffer && t <= rb.totalCapacity && t <= data.Length
    requires t % rb.blockSize == 0
    modifies rb`readIndex, rb`writeIndex, rb`usedCapacity, rb.buffer
    ensures rb.Valid()
    ensures k == Accepted(old(rb.usedCapacity), rb.totalCapacity, rb.enableOverwrite, t)
    ensures k % rb.blockSize == 0
    ensures rb.Contents() == Newest(old(rb.Contents()) + data[..k], rb.totalCapacity)
    ensures note == Notice(old(rb.usedCapacity), rb.totalCapacity, rb.enableOverwrite, rb.hasCallback, t)
    ensures OverwrittenBytes(old(rb.usedCapacity), rb.totalCapacity, rb.enableOverwrite, t) > 0 ==>
      rb.readIndex == rb.writeIndex
    ensures OverwrittenBytes(old(rb.usedCapacity), rb.totalCapacity, rb.enableOverwrite, t) == 0 ==>
      rb.readIndex == old(rb.readIndex)
  {
    var n := rb.totalCapacity;
    var used := rb.usedCapacity;
    var full := n == used;
    var overwritten := 0;
    if full && !rb.enableOverwrite {
      if rb.hasCallback {
        note := Some(Notification(Full, overwritten));
      } else {
        note := None;
      }
      BlockMultiple(n, rb.blockSize, used, 0, 0);
      return 0, note;
    }
    var remaining := n - used;
    k := t;
    if k > remaining {
      if !rb.enableOverwrite {
        k := n - used;
      } else {
        overwritten := k - remaining;
      }
    }
    BlockMultiple(n, rb.blockSize, used, BlockCount(t, rb.blockSize), k);
    note := Deposit(rb, data, k, overwritten);
  }

  /**
   * The second half of ring_buffer_write: store the t accepted bytes at the
   * write index, cap the used count at the capacity, move the read index to
   * the write index when bytes were overwritten, and raise the event when the
   * buffer ends up full.
   */
  method Deposit(rb: RingBuffer, data: array<byte>, t: nat, overwritten: nat) returns (note: Option<Notification>)
    requires rb.Valid() && data != rb.buffer && t <= rb.totalCapacity && t <= data.Length
    requires (rb.usedCapacity + t) % rb.blockSize == 0
    requires overwritten == if rb.usedCapacity + t > rb.totalCapacity then rb.usedCapacity + t - rb.totalCapacity else 0
    modifies rb`readIndex, rb`writeIndex, rb`usedCapacity, rb.buffer
    ensures rb.Valid()
    ensures rb.Contents() == Newest(old(rb.Contents()) + data[..t], rb.totalCapacity)
    ensures overwritten > 0 ==> rb.readIndex == rb.writeIndex
    ensures overwritten == 0 ==> rb.readIndex == old(rb.readIndex)
    ensures note == if rb.hasCallback && old(rb.usedCapacity) + t >= rb.totalCapacity
      then Some(Notification(if overwritten > 0 then Overwrite else Full, overwritten)) else None
  {
    var buf := rb.buffer;
    var n := rb.totalCapacity;
    ghost var oldBuf := buf[..];
    ghost var oldContents := rb.Contents();
    var w, used := CopyIn(buf, rb.writeIndex, rb.usedCapacity, data, t);
    if used > n {
      used := n;
    }
    var full := n == used;
    note := None;
    if full {
      var event := Full;
      if overwritten > 0 {
        rb.readIndex := w;
        event := Overwrite;
      }
      if rb.hasCallback {
        note := Some(Notification(event, overwritten));
      }
    }
    rb.writeIndex := w;
    rb.usedCapacity := used;
    WindowAfterWrite(oldBuf, buf[..], old(rb.readIndex), old(rb.usedCapacity), data[..t]);
  }

  /**
   * The two memcpys of ring_buffer_write: t bytes of data go in at write
   * index w, wrapping round the end of buf; used grows by t.
   */
  method CopyIn(buf: array<byte>, w: nat, used: nat, data: array<byte>, t: nat) returns (w': nat, used': nat)
    requires buf != data && 0 < buf.Length && w < buf.Length && t <= buf.Length && t <= data.Length
    modifies buf
    ensures WrittenAt(old(buf[..]), buf[..], w, data[..t])
    ensures w' == Wrap(w + t, buf.Length) && used' == used + t
  {
    var n := buf.Length;
    var seg := if w + t < n then t else n - w;
    Copy(buf, w, data, 0, seg);
    ModIsWrap(w + seg, n);
    w' := (w + seg) % n;
    used' := used + seg;
    if seg != t {
      Copy(buf, w', data, seg, t - seg);
      ModIsWrap(w' + (t - seg), n);
      w' := (w' + (t - seg)) % n;
      used' := used' + (t - seg);
    }
  }

  /**
   * ring_buffer_read: move up to numBlocks blocks, oldest first, into data.
   * Returns the number of blocks moved.
   */
  method Read(rb: RingBuffer?, data: array?<byte>, numBlocks: nat) returns (blocks: nat)
    requires rb != null && rb.buffer != null ==> rb.Valid()
    requires rb != null && rb.buffer != null && data != null ==>
      data != rb.buffer && numBlocks * rb.blockSize <= data.Length
    modifies rb, data
    ensures rb == null || data == null || numBlocks == 0 || old(rb.buffer) == null ==>
      blocks == 0 && (rb == null || unchanged(rb)) && (data == null || unchanged(data))
    ensures rb != null && data != null && numBlocks > 0 && old(rb.buffer) != null ==>
      var c := old(rb.Contents());
      var t := Min(numBlocks * old(rb.blockSize), |c|);
      rb.Valid() && rb.buffer == old(rb.buffer) && rb.totalCapacity == old(rb.totalCapacity)
      && rb.blockSize == old(rb.blockSize) && rb.enableOverwrite == old(rb.enableOverwrite)
      && rb.hasCallback == old(rb.hasCallback) && rb.writeIndex == old(rb.writeIndex)
      && blocks * rb.blockSize == t
      && data[..t] == c[..t] && data[t..] == old(data[t..])
      && rb.Contents() == c[t..]
  {
    if rb == null || numBlocks == 0 || data == null {
      return 0;
    }
    var buf := rb.buffer;
    if buf == null {
      return 0;
    }
    var used := rb.usedCapacity;
    if used == 0 {
      return 0;
    }
    var block := rb.blockSize;
    assert block > 0;
    var t := numBlocks * block;
    if t > used {
      t := used;
    }
    BlockMultiple(rb.totalCapacity, block, used, numBlocks, t);
    Take(rb, data, t);
    blocks := BlockCount(t, block);
  }

  /**
   * The second half of ring_buffer_read: copy t queued bytes out in at most
   * two segments, advancing the read index and shrinking the used count.
   */
  method Take(rb: RingBuffer, data: array<byte>, t: nat)
    requires rb.Valid() && data != rb.buffer && t <= rb.usedCapacity && t <= data.Length
    requires (rb.usedCapacity - t) % rb.blockSize == 0
    modifies rb`readIndex, rb`usedCapacity, data
    ensures rb.Valid()
    ensures data[..t] == old(rb.Contents())[..t] && data[t..] == old(data[t..])
    ensures rb.Contents() == old(rb.Contents())[t..]
  {
    ghost var c := rb.Contents();
    var buf := rb.buffer;
    var n := rb.totalCapacity;
    var rd := rb.readIndex;
    CopyOut(data, buf, rd, t);
    forall k | 0 <= k < t
      ensures data[k] == c[k]
    {
      assert c[k] == buf[Wrap(rd + k, n)];
    }
    ModIsWrap(rd + t, n);
    rb.readIndex := (rd + t) % n;
    rb.usedCapacity := rb.usedCapacity - t;
    WindowAfterRead(buf[..], old(rb.readIndex), old(rb.usedCapacity), t);
    assert data[..t] == c[..t];
  }

  /**
   * ring_buffer_peek: copy up to numBlocks blocks, oldest first, into data
   * without taking them out of the buffer.
   */
  method Peek(rb: RingBuffer?, data: array?<byte>, numBlocks: nat) returns (blocks: nat)
    requires rb != null && rb.buffer != null ==> rb.Valid()
    requires rb != null && rb.buffer != null && data != null ==>
      data != rb.buffer && numBlocks * rb.blockSize <= data.Length
    modifies data
    ensures rb == null || data == null || numBlocks == 0 || rb.buffer == null ==>
      blocks == 0 && (data == null || unchanged(data))
    ensures rb != null && data != null && numBlocks > 0 && rb.buffer != null ==>
      var c := rb.Contents();
      var t := Min(numBlocks * rb.blockSize, |c|);
      blocks * rb.blockSize == t && data[..t] == c[..t] && data[t..] == old(data[t..])
  {
    if rb == null || numBlocks == 0 || data == null {
      return 0;
    }
    var buf := rb.buffer;
    if buf == null {
      return 0;
    }
    var used := rb.usedCapacity;
    if used == 0 {
      return 0;
    }
    var block := rb.blockSize;
    assert block > 0;
    var t := numBlocks * block;
    if t > used {
      t := used;
    }
    CopyOut(data, buf, rb.readIndex, t);
    BlockMultiple(rb.totalCapacity, block, used, numBlocks, t);
    assert data[..t] == rb.Contents()[..t];
    blocks := BlockCount(t, block);
  }

  /** ring_buffer_is_empty. */
  method IsEmpty(rb: RingBuffer) returns (empty: bool)
    ensures empty <==> rb.usedCapacity == 0
    ensures rb.Valid() ==> (empty <==> rb.Contents() == [])
  {
    return rb.usedCapacity == 0;
  }

  /** ring_buffer_is_full: a full buffer refuses writes unless overwrite is on. */
  method IsFull(rb: RingBuffer) returns (full: bool)
    ensures full <==> rb.usedCapacity == rb.totalCapacity
    ensures rb.Valid() && full && !rb.enableOverwrite ==>
      forall d: seq<byte> :: Written(rb.Contents(), rb.totalCapacity, false, d) == rb.Contents()
  {
    return rb.usedCapacity == rb.totalCapacity;
  }

  /** The number of whole blocks in k bytes, k being a multiple of the block size. */
  function BlockCount(k: nat, block: nat): (r: nat)
    requires block > 0 && k % block == 0
    ensures r * block == k
  {
    k / block
  }

  /** Every byte count the buffer deals in is a whole number of blocks. */
  lemma BlockMultiple(cap: nat, block: nat, used: nat, numBlocks: nat, t: nat)
    requires block > 0 && cap % block == 0 && used % block == 0 && used <= cap
    requires t == numBlocks * block || t == cap - used || t == used
    ensures t % block == 0
    ensures (used + t) % block == 0 && (t <= used ==> (used - t) % block == 0)
  {
    if t == numBlocks * block {
      MultipleMod(numBlocks, block);
    } else if t == cap - used {
      MultipleSum(cap, used, block);
    }
    MultipleSum(used, t, block);
    MultipleSum(t, 0, block);
  }
}
