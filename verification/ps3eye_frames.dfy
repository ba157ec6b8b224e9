/** Frame assembly in the PS3 Eye driver (`ps3eye.cpp`):
  * - the two-slot ring that the USB callback fills and the reader drains
  *   (`FrameQueue`);
  * - the per-packet bookkeeping (`URBDesc::frame_add`);
  * - `URBDesc::pkt_scan`, which splits a bulk transfer into payloads and
  *   checks each payload header. The header bits are the bmHeaderInfo
  *   field of the USB Video Class 1.1 payload header (section 2.4.3.3 of
  *   the UVC 1.1 specification).
  *
  * Locks, condition variables and the transfer thread are left out. Each
  * operation is modelled by its sequential effect. */
module Ps3EyeFrames {

  // bmHeaderInfo bits of a payload header
  const UVC_STREAM_EOH: bv8 := 0x80
  const UVC_STREAM_ERR: bv8 := 0x40
  const UVC_STREAM_STI: bv8 := 0x20
  const UVC_STREAM_RES: bv8 := 0x10
  const UVC_STREAM_SCR: bv8 := 0x08
  const UVC_STREAM_PTS: bv8 := 0x04
  const UVC_STREAM_EOF: bv8 := 0x02
  const UVC_STREAM_FID: bv8 := 0x01

  /** Every payload header the camera sends is twelve bytes long. */
  const HEADER_LENGTH: nat := 12
  /** A bulk transfer is scanned in payloads of at most this many bytes. */
  const PAYLOAD_LENGTH: nat := 2048
  /** Slots in the frame ring. */
  const NUM_FRAMES: nat := 2
  const TRANSFER_SIZE: nat := 65536
  const NUM_TRANSFERS: nat := 5

  datatype PacketType = Discard | First | Inter | Last

  /** `PS3EYECam::EOutputFormat`. */
  datatype OutputFormat = Bayer | BGR | RGB

  // ---------------------------------------------------------------------------
  // The frame ring
  // ---------------------------------------------------------------------------

  /** The ring's indices. `head` is the slot the producer is writing.
    * The `available` completed frames sit in the slots from `tail` on. */
  datatype Ring = Ring(head: nat, tail: nat, available: nat)

  predicate RingValid(r: Ring)
  {
    && r.head < NUM_FRAMES && r.tail < NUM_FRAMES && r.available < NUM_FRAMES
    && r.head == (r.tail + r.available) % NUM_FRAMES
  }

  /** `Enqueue`. The producer moves on to the next slot only while the
    * consumer is fewer than `NUM_FRAMES - 1` frames behind. Otherwise the
    * ring is unchanged, and the producer overwrites the frame it just
    * finished. */
  function EnqueueRing(r: Ring): (r': Ring)
    requires RingValid(r)
    ensures RingValid(r')
    ensures r'.tail == r.tail
    ensures r.available < NUM_FRAMES - 1 ==> r'.available == r.available + 1 && r'.head != r.head
    ensures r.available >= NUM_FRAMES - 1 ==> r' == r
  {
    if r.available >= NUM_FRAMES - 1 then r
    else Ring((r.head + 1) % NUM_FRAMES, r.tail, r.available + 1)
  }

  /** `Dequeue` on a non-empty ring: the oldest frame leaves. */
  function DequeueRing(r: Ring): (r': Ring)
    requires RingValid(r) && r.available > 0
    ensures RingValid(r')
    ensures r'.head == r.head && r'.available == r.available - 1
  {
    Ring(r.head, (r.tail + 1) % NUM_FRAMES, r.available - 1)
  }

  /** The slot the producer writes never holds a frame that is waiting for
    * the consumer. The producer stays at most `NUM_FRAMES - 1` frames
    * ahead. */
  lemma ProducerSlotIsFree(r: Ring)
    requires RingValid(r)
    ensures forall k :: 0 <= k < r.available ==> Slot(r, k) != r.head
  {
  }

  /** The slot of the `k`-th waiting frame. */
  function Slot(r: Ring, k: nat): nat
  {
    (r.tail + k) % NUM_FRAMES
  }

  /** A frame enqueued into an empty ring is the next one dequeued. */
  lemma EnqueueThenDequeue(r: Ring)
    requires RingValid(r) && r.available == 0
    ensures var e := EnqueueRing(r);
            e.available == 1 && e.tail == r.head && DequeueRing(e).tail == e.head
  {
  }

  /** The frame buffer: `numFrames` slots of `frameSize` bytes each, plus the
    * ring indices over them. */
  class FrameQueue {
    const frameSize: nat
    const numFrames: nat
    const frameBuffer: array<bv8>
    var head: nat
    var tail: nat
    var available: nat

    function RingState(): Ring
      reads this
    {
      Ring(head, tail, available)
    }

    ghost predicate Valid()
      reads this
    {
      && numFrames == NUM_FRAMES
      && frameBuffer.Length == frameSize * numFrames
      && RingValid(RingState())
      && SlotStart(head) + frameSize <= frameBuffer.Length
      && SlotStart(tail) + frameSize <= frameBuffer.Length
    }

    constructor (frameSize: nat)
      ensures Valid() && fresh(frameBuffer)
      ensures this.frameSize == frameSize && RingState() == Ring(0, 0, 0)
    {
      this.frameSize := frameSize;
      numFrames := NUM_FRAMES;
      frameBuffer := new bv8[frameSize * NUM_FRAMES];
      head, tail, available := 0, 0, 0;
      new;
      SlotInBuffer(0);
    }

    /** The offset of slot `k` in `frameBuffer`. */
    function SlotStart(k: nat): nat
      reads this
    {
      k * frameSize
    }

    lemma SlotInBuffer(k: nat)
      requires numFrames == NUM_FRAMES && frameBuffer.Length == frameSize * numFrames && k < numFrames
      ensures SlotStart(k) + frameSize <= frameBuffer.Length
    {
      assert k == 0 || k == 1;
    }

    /** `Enqueue`: signals a finished frame. Returns the offset of the slot
      * the producer writes next. */
    method Enqueue() returns (newFrame: nat)
      requires Valid()
      modifies this
      ensures Valid()
      ensures RingState() == EnqueueRing(old(RingState()))
      ensures newFrame == SlotStart(head)
    {
      if available >= numFrames - 1 {
        return head * frameSize;
      }
      head := (head + 1) % numFrames;
      available := available + 1;
      SlotInBuffer(head);
      newFrame := head * frameSize;
    }

    /** `Dequeue`, once a frame is available (the wait for one is left out).
      * In Bayer format the oldest frame's bytes are copied out. The
      * demosaicing for BGR and RGB is not part of this model. */
    method Dequeue(newFrame: array<bv8>, outputFormat: OutputFormat)
      requires Valid() && available > 0
      requires newFrame != frameBuffer && newFrame.Length >= frameSize
      modifies this, newFrame
      ensures Valid()
      ensures RingState() == DequeueRing(old(RingState()))
      ensures outputFormat == Bayer ==>
                newFrame[..frameSize] == frameBuffer[SlotStart(old(tail))..SlotStart(old(tail)) + frameSize]
      ensures outputFormat == Bayer ==> newFrame[frameSize..] == old(newFrame[frameSize..])
    {
      var source := tail * frameSize;
      if outputFormat == Bayer {
        forall i | 0 <= i < frameSize {
          newFrame[i] := frameBuffer[source + i];
        }
      }
      ghost var r := DequeueRing(RingState());
      tail := (tail + 1) % numFrames;
      SlotInBuffer(tail);
      available := available - 1;
      assert RingState() == r;
    }
  }

  // ---------------------------------------------------------------------------
  // frame_add and pkt_scan on the assembler's state
  // ---------------------------------------------------------------------------

  /** The fields of `URBDesc` that the packet logic reads and writes. The
    * ring of its frame queue is included. */
  datatype Scanner = Scanner(last: PacketType, pts: nat, fid: nat, curLen: nat, ring: Ring)

  /** `frame_add` ignores every packet except a FIRST one once the last
    * packet was a DISCARD or a LAST. */
  predicate Accepts(last: PacketType, t: PacketType)
  {
    t == First || last == First || last == Inter
  }

  /** The frame length the packet's bytes are appended to. */
  function Base(s: Scanner, t: PacketType): nat
  {
    if t == First then 0 else s.curLen
  }

  predicate Overflows(s: Scanner, t: PacketType, len: nat, frameSize: nat)
  {
    len > 0 && Base(s, t) + len > frameSize
  }

  /** Whether `frame_add` copies the packet's bytes into the frame. */
  predicate Appends(s: Scanner, t: PacketType, len: nat, frameSize: nat)
  {
    Accepts(s.last, t) && len > 0 && Base(s, t) + len <= frameSize
  }

  /** Whether `frame_add` hands the frame to the queue. */
  predicate Completes(s: Scanner, t: PacketType, len: nat, frameSize: nat)
  {
    Accepts(s.last, t) && t == Last && !Overflows(s, t, len, frameSize)
  }

  /** The second half of `frame_add`, for a packet it did not ignore: the
    * bytes are appended, or the packet becomes a DISCARD if they do not
    * fit, and a LAST packet hands the frame to the queue. */
  function StorePacket(s: Scanner, t: PacketType, len: nat, frameSize: nat): (r: Scanner)
    requires RingValid(s.ring)
    ensures RingValid(r.ring)
    ensures r.pts == s.pts && r.fid == s.fid
    ensures s.curLen <= frameSize ==> r.curLen <= frameSize
  {
    if len > 0 && s.curLen + len > frameSize then
      s.(last := Discard, curLen := 0)
    else if t == Last then
      s.(last := Last, curLen := 0, ring := EnqueueRing(s.ring))
    else
      s.(last := t, curLen := s.curLen + len)
  }

  /** `frame_add` for a packet of type `t` carrying `len` bytes. */
  function AddPacket(s: Scanner, t: PacketType, len: nat, frameSize: nat): (r: Scanner)
    requires RingValid(s.ring)
    ensures RingValid(r.ring)
    ensures r.pts == s.pts && r.fid == s.fid
    ensures r.ring == if Completes(s, t, len, frameSize) then EnqueueRing(s.ring) else s.ring
    ensures s.curLen <= frameSize ==> r.curLen <= frameSize
  {
    if !Accepts(s.last, t) then
      if s.last == Discard && t == Last then s.(last := Last, curLen := 0) else s
    else
      StorePacket(s.(curLen := Base(s, t)), t, len, frameSize)
  }

  /** What `frame_add` promises about the frame's length and its
    * ignoring of packets:
    * - a FIRST packet restarts the frame with its own bytes, or discards
    *   them if they do not fit;
    * - a LAST packet leaves an empty frame, unless it is ignored;
    * - after a DISCARD, everything except FIRST and LAST is ignored;
    * - after a LAST, everything except FIRST is ignored. */
  lemma AddPacketCases(s: Scanner, t: PacketType, len: nat, frameSize: nat)
    requires RingValid(s.ring)
    ensures var r := AddPacket(s, t, len, frameSize);
            && (t == First ==> r.curLen == (if len <= frameSize then len else 0) && r.ring == s.ring)
            && (t == Last ==> r.curLen == 0 || r == s)
            && (s.last == Discard && t != First && t != Last ==> r == s)
            && (s.last == Last && t != First ==> r == s)
  {
  }

  /** The presentation time stamp: bytes 2 to 5, least significant first. */
  function Pts(header: seq<bv8>): (pts: nat)
    requires |header| >= 6
    ensures pts < 0x1_0000_0000
  {
    var lo := Word(ByteValue(header[2]), ByteValue(header[3]));
    var hi := Word(ByteValue(header[4]), ByteValue(header[5]));
    DoubleWord(lo, hi)
  }

  /** A 32-bit double word from its low and high word. */
  function DoubleWord(low: nat, high: nat): (d: nat)
    requires low < 0x1_0000 && high < 0x1_0000
    ensures d < 0x1_0000_0000
  {
    low + 0x1_0000 * high
  }

  /** A 16-bit word from its low and high byte. */
  function Word(low: nat, high: nat): (w: nat)
    requires low < 0x100 && high < 0x100
    ensures w < 0x1_0000
  {
    low + 0x100 * high
  }

  /** The unsigned value of a byte. */
  function ByteValue(b: bv8): (n: nat)
    ensures n < 0x100
  {
    b as nat
  }

  /** The frame identifier bit. */
  function Fid(header: seq<bv8>): nat
    requires |header| >= 2
  {
    if header[1] & UVC_STREAM_FID != 0 then 1 else 0
  }

  /** A payload is kept only when the header length is 12, the error bit is
    * clear and a time stamp is present. */
  predicate HeaderOk(payload: seq<bv8>)
  {
    && |payload| >= HEADER_LENGTH
    && payload[0] == 12
    && payload[1] & UVC_STREAM_ERR == 0
    && payload[1] & UVC_STREAM_PTS != 0
  }

  predicate IsEof(payload: seq<bv8>)
    requires |payload| >= 2
  {
    payload[1] & UVC_STREAM_EOF != 0
  }

  /** One payload of `pkt_scan`:
    * - a new time stamp or frame id starts a frame, dropping an unfinished
    *   one;
    * - an end-of-frame payload finishes the frame, but only when the frame
    *   then holds exactly `frameSize` bytes;
    * - any other payload is appended. */
  function ScanPayload(s: Scanner, payload: seq<bv8>, frameSize: nat): (r: Scanner)
    requires RingValid(s.ring)
    ensures RingValid(r.ring)
    ensures s.curLen <= frameSize ==> r.curLen <= frameSize
  {
    if !HeaderOk(payload) then AddPacket(s, Discard, 0, frameSize)
    else
      var len := |payload| - HEADER_LENGTH;
      var pts := Pts(payload);
      var fid := Fid(payload);
      if pts != s.pts || fid != s.fid then NewId(s, pts, fid, len, frameSize)
      else if IsEof(payload) then EndOfFrame(s, len, frameSize)
      else AddPacket(s, Inter, len, frameSize)
  }

  /** A payload with a new time stamp or frame id: an unfinished frame is
    * discarded, the ids are recorded and a FIRST packet of `len` bytes
    * follows. */
  function NewId(s: Scanner, pts: nat, fid: nat, len: nat, frameSize: nat): (r: Scanner)
    requires RingValid(s.ring)
    ensures RingValid(r.ring)
    ensures s.curLen <= frameSize ==> r.curLen <= frameSize
  {
    var s1 := if s.last == Inter then AddPacket(s, Discard, 0, frameSize) else s;
    AddPacket(s1.(pts := pts, fid := fid), First, len, frameSize)
  }

  /** An end-of-frame payload of `len` bytes: the time stamp is cleared, and
    * the packet is a LAST one only if it brings the frame to `frameSize`
    * bytes. */
  function EndOfFrame(s: Scanner, len: nat, frameSize: nat): (r: Scanner)
    requires RingValid(s.ring)
    ensures RingValid(r.ring)
    ensures s.curLen <= frameSize ==> r.curLen <= frameSize
  {
    var s1 := s.(pts := 0);
    if s1.curLen + len != frameSize then AddPacket(s1, Discard, 0, frameSize)
    else AddPacket(s1, Last, len, frameSize)
  }

  /** `pkt_scan` over a whole transfer. It reads payloads of at most
    * `PAYLOAD_LENGTH` bytes. The loop is a do-while, so an empty transfer
    * is still scanned once, as one empty payload. */
  function Scan(s: Scanner, data: seq<bv8>, frameSize: nat): (r: Scanner)
    requires RingValid(s.ring)
    ensures RingValid(r.ring)
    ensures s.curLen <= frameSize ==> r.curLen <= frameSize
    decreases |data|
  {
    var len := if |data| < PAYLOAD_LENGTH then |data| else PAYLOAD_LENGTH;
    var s1 := ScanPayload(s, data[..len], frameSize);
    if |data| - len > 0 then Scan(s1, data[len..], frameSize) else s1
  }

  /** The payload that hands a frame to the queue: an end-of-frame payload
    * whose time stamp and frame id are unchanged, following a FIRST or
    * INTER packet, that brings the frame to exactly `frameSize` bytes. */
  predicate FinishesFrame(s: Scanner, payload: seq<bv8>, frameSize: nat)
  {
    && HeaderOk(payload)
    && Pts(payload) == s.pts && Fid(payload) == s.fid
    && IsEof(payload)
    && (s.last == First || s.last == Inter)
    && s.curLen + (|payload| - HEADER_LENGTH) == frameSize
  }

  /** The queue sees a frame exactly when the payload finishes one, so every
    * frame handed over is `frameSize` bytes long. */
  lemma {:induction false} OnlyFinishedFramesQueued(s: Scanner, payload: seq<bv8>, frameSize: nat)
    requires RingValid(s.ring)
    ensures ScanPayload(s, payload, frameSize).ring
            == if FinishesFrame(s, payload, frameSize) then EnqueueRing(s.ring) else s.ring
  {
    if HeaderOk(payload) {
      var len := |payload| - HEADER_LENGTH;
      if Pts(payload) != s.pts || Fid(payload) != s.fid {
        var s1 := if s.last == Inter then AddPacket(s, Discard, 0, frameSize) else s;
        assert s1.ring == s.ring;
      } else if IsEof(payload) {
        var s1 := s.(pts := 0);
        if s1.curLen + len == frameSize {
          assert Completes(s1, Last, len, frameSize) <==> (s.last == First || s.last == Inter);
        }
      }
    }
  }

  /** A new time stamp or frame id in a good header starts a new frame:
    * - the frame so far is dropped and the new ids are recorded;
    * - the frame restarts with the payload's bytes (or is discarded if they
    *   do not fit);
    * - nothing reaches the queue. */
  lemma NewIdStartsFrame(s: Scanner, payload: seq<bv8>, frameSize: nat)
    requires RingValid(s.ring)
    requires HeaderOk(payload) && (Pts(payload) != s.pts || Fid(payload) != s.fid)
    ensures var r := ScanPayload(s, payload, frameSize);
            var len := |payload| - HEADER_LENGTH;
            && r.pts == Pts(payload) && r.fid == Fid(payload)
            && r.ring == s.ring
            && r.curLen == (if len <= frameSize then len else 0)
            && r.last == (if len <= frameSize then First else Discard)
  {
  }

  /** A bad header stops the frame: the scanner keeps ignoring packets until
    * a new frame starts, and nothing reaches the queue. */
  lemma BadHeaderDiscards(s: Scanner, payload: seq<bv8>, frameSize: nat)
    requires RingValid(s.ring) && !HeaderOk(payload)
    ensures var r := ScanPayload(s, payload, frameSize);
            && r.ring == s.ring && r.pts == s.pts && r.fid == s.fid
            && (r.last == Discard || r.last == Last)
  {
  }

  /** `s[..offset] ++ data ++ s[offset + |data|..]`: a `memcpy` into a buffer. */
  function Overwrite(s: seq<bv8>, offset: nat, data: seq<bv8>): (r: seq<bv8>)
    requires offset + |data| <= |s|
    ensures |r| == |s|
  {
    s[..offset] + data + s[offset + |data|..]
  }

  /** The copied bytes land at `offset` and no other byte changes. */
  lemma OverwriteSpec(s: seq<bv8>, offset: nat, data: seq<bv8>)
    requires offset + |data| <= |s|
    ensures var r := Overwrite(s, offset, data);
            && r[offset..offset + |data|] == data
            && forall i :: 0 <= i < |s| && !(offset <= i < offset + |data|) ==> r[i] == s[i]
  {
  }

  // ---------------------------------------------------------------------------
  // USB manager and transfer descriptor
  // ---------------------------------------------------------------------------

  /** `USBMgr`'s count of streaming cameras. The event thread runs while
    * that count is positive. */
  class UsbMgr {
    var activeCameraCount: int
    var transferThreadRunning: bool

    ghost predicate Valid()
      reads this
    {
      activeCameraCount >= 0 && (transferThreadRunning <==> activeCameraCount > 0)
    }

    constructor ()
      ensures Valid() && activeCameraCount == 0 && !transferThreadRunning
    {
      activeCameraCount := 0;
      transferThreadRunning := false;
    }

    /** `cameraStarted`: the first camera starts the thread. */
    method CameraStarted()
      requires Valid()
      modifies this
      ensures Valid() && activeCameraCount == old(activeCameraCount) + 1
    {
      if activeCameraCount == 0 {
        transferThreadRunning := true;
      }
      activeCameraCount := activeCameraCount + 1;
    }

    /** `cameraStopped`: the last camera stops the thread. The count is not
      * guarded. Only a camera that was started is stopped, so the
      * invariant is kept only when the count was positive. */
    method CameraStopped()
      requires Valid()
      modifies this
      ensures activeCameraCount == old(activeCameraCount) - 1
      ensures transferThreadRunning == (old(transferThreadRunning) && activeCameraCount != 0)
      ensures old(activeCameraCount) > 0 ==> Valid()
    {
      activeCameraCount := activeCameraCount - 1;
      if activeCameraCount == 0 {
        transferThreadRunning := false;
      }
    }
  }

  /** `URBDesc`: the frame being assembled and the queue it goes to. */
  class Urb {
    var numActiveTransfers: nat
    var lastPacketType: PacketType
    var lastPts: nat
    var lastFid: nat
    var curFrameStart: nat
    var curFrameDataLen: nat
    var frameSize: nat
    var frameQueue: FrameQueue?

    ghost predicate Valid()
      reads this, frameQueue
    {
      frameQueue != null ==>
        && frameQueue.Valid()
        && frameQueue.frameSize == frameSize
        && curFrameStart == frameQueue.SlotStart(frameQueue.head)
        && curFrameDataLen <= frameSize
    }

    ghost function State(): Scanner
      reads this, frameQueue
      requires frameQueue != null
    {
      Scanner(lastPacketType, lastPts, lastFid, curFrameDataLen, frameQueue.RingState())
    }

    constructor ()
      ensures Valid() && frameQueue == null && numActiveTransfers == 0
      ensures lastPacketType == Discard && lastPts == 0 && lastFid == 0
      ensures curFrameStart == 0 && curFrameDataLen == 0 && frameSize == 0
    {
      numActiveTransfers := 0;
      lastPacketType := Discard;
      lastPts, lastFid := 0, 0;
      curFrameStart, curFrameDataLen, frameSize := 0, 0, 0;
      frameQueue := null;
    }

    /** `start_transfers`: a fresh queue, writing from its first slot. The
      * last packet type is not reset. `submitted` is whether libusb
      * accepted every transfer. */
    method StartTransfers(currFrameSize: nat, mgr: UsbMgr, submitted: bool) returns (ok: bool)
      requires mgr.Valid()
      modifies this, mgr
      ensures Valid() && frameQueue != null && fresh(frameQueue)
      ensures frameSize == currFrameSize && curFrameDataLen == 0
      ensures frameQueue.RingState() == Ring(0, 0, 0)
      ensures lastPts == 0 && lastFid == 0 && lastPacketType == old(lastPacketType)
      ensures numActiveTransfers == old(numActiveTransfers) + NUM_TRANSFERS
      ensures mgr.Valid() && mgr.activeCameraCount == old(mgr.activeCameraCount) + 1
      ensures ok == submitted
    {
      frameSize := currFrameSize;
      frameQueue := new FrameQueue(frameSize);
      curFrameStart := 0;
      curFrameDataLen := 0;
      numActiveTransfers := numActiveTransfers + NUM_TRANSFERS;
      lastPts := 0;
      lastFid := 0;
      mgr.CameraStarted();
      ok := submitted;
    }

    /** `close_transfers`, after every cancelled transfer has reported back.
      * Nothing happens without active transfers. Otherwise the manager is
      * told and the queue is freed. */
    method CloseTransfers(mgr: UsbMgr)
      requires Valid() && mgr.Valid()
      modifies this, mgr
      ensures Valid() && numActiveTransfers == 0
      ensures old(numActiveTransfers) == 0 ==> frameQueue == old(frameQueue) && unchanged(mgr)
      ensures old(numActiveTransfers) != 0 ==>
                frameQueue == null && mgr.activeCameraCount == old(mgr.activeCameraCount) - 1
      ensures old(mgr.activeCameraCount) > 0 ==> mgr.Valid()
      ensures lastPacketType == old(lastPacketType) && curFrameDataLen == old(curFrameDataLen)
    {
      if numActiveTransfers == 0 {
        return;
      }
      numActiveTransfers := 0;
      mgr.CameraStopped();
      frameQueue := null;
    }

    /** `frame_add`: one packet's effect on the frame being assembled. The
      * bytes go into the current slot, and a LAST packet hands the slot to
      * the queue. */
    method FrameAdd(packetType: PacketType, data: seq<bv8>)
      requires Valid() && frameQueue != null
      modifies this, frameQueue, frameQueue.frameBuffer
      ensures Valid() && frameQueue == old(frameQueue) && frameSize == old(frameSize)
      ensures numActiveTransfers == old(numActiveTransfers)
      ensures State() == AddPacket(old(State()), packetType, |data|, frameSize)
      ensures frameQueue.frameBuffer[..]
              == if Appends(old(State()), packetType, |data|, frameSize)
                 then Overwrite(old(frameQueue.frameBuffer[..]), old(curFrameStart) + Base(old(State()), packetType), data)
                 else old(frameQueue.frameBuffer[..])
      ensures !Completes(old(State()), packetType, |data|, frameSize) ==> curFrameStart == old(curFrameStart)
    {
      if packetType != First {
        match lastPacketType
        case Discard =>
          if packetType == Last {
            lastPacketType := packetType;
            curFrameDataLen := 0;
          }
          return;
        case Last =>
          return;
        case _ =>
      }
      Store(packetType, data);
    }

    /** The rest of `frame_add`, for a packet it does not ignore: a FIRST
      * packet empties the frame, then the bytes are copied. */
    method Store(packetType: PacketType, data: seq<bv8>)
      requires Valid() && frameQueue != null && Accepts(lastPacketType, packetType)
      modifies this, frameQueue, frameQueue.frameBuffer
      ensures Valid() && frameQueue == old(frameQueue) && frameSize == old(frameSize)
      ensures numActiveTransfers == old(numActiveTransfers)
      ensures State() == StorePacket(old(State()).(curLen := Base(old(State()), packetType)), packetType, |data|, frameSize)
      ensures frameQueue.frameBuffer[..]
              == if |data| > 0 && Base(old(State()), packetType) + |data| <= frameSize
                 then Overwrite(old(frameQueue.frameBuffer[..]), old(curFrameStart) + Base(old(State()), packetType), data)
                 else old(frameQueue.frameBuffer[..])
      ensures !Completes(old(State()), packetType, |data|, frameSize) ==> curFrameStart == old(curFrameStart)
    {
      var len := if packetType == First then 0 else curFrameDataLen;
      if |data| > 0 && len + |data| > frameSize {
        lastPacketType := Discard;
        curFrameDataLen := 0;
        return;
      }
      Append(packetType, len, data);
    }

    /** The part of `frame_add` for bytes that fit: they are copied `len` bytes
      * into the frame, and a LAST packet hands the frame to the queue. */
    method Append(packetType: PacketType, len: nat, data: seq<bv8>)
      requires Valid() && frameQueue != null && len + |data| <= frameSize
      modifies this, frameQueue, frameQueue.frameBuffer
      ensures Valid() && frameQueue == old(frameQueue) && frameSize == old(frameSize)
      ensures numActiveTransfers == old(numActiveTransfers)
      ensures lastPts == old(lastPts) && lastFid == old(lastFid)
      ensures packetType == Last ==> lastPacketType == Last && curFrameDataLen == 0
                                     && frameQueue.RingState() == EnqueueRing(old(frameQueue.RingState()))
      ensures packetType != Last ==> lastPacketType == packetType && curFrameDataLen == len + |data|
                                     && curFrameStart == old(curFrameStart)
                                     && frameQueue.RingState() == old(frameQueue.RingState())
      ensures frameQueue.frameBuffer[..]
              == if |data| > 0 then Overwrite(old(frameQueue.frameBuffer[..]), old(curFrameStart) + len, data)
                 else old(frameQueue.frameBuffer[..])
    {
      if |data| > 0 {
        CopyIntoFrame(len, data);
      }
      if packetType == Last {
        FinishFrame();
      } else {
        lastPacketType := packetType;
        curFrameDataLen := len + |data|;
      }
    }

    /** The end of `frame_add` for a LAST packet that fits: the slot goes to
      * the queue and writing continues in the slot the queue returns. */
    method FinishFrame()
      requires Valid() && frameQueue != null
      modifies this, frameQueue
      ensures Valid() && frameQueue == old(frameQueue) && frameSize == old(frameSize)
      ensures numActiveTransfers == old(numActiveTransfers)
      ensures lastPts == old(lastPts) && lastFid == old(lastFid)
      ensures lastPacketType == Last && curFrameDataLen == 0
      ensures frameQueue.RingState() == EnqueueRing(old(frameQueue.RingState()))
    {
      lastPacketType := Last;
      curFrameDataLen := 0;
      curFrameStart := frameQueue.Enqueue();
    }

    /** The `memcpy` of `frame_add`: the bytes go `offset` bytes into the
      * current slot. */
    method CopyIntoFrame(offset: nat, data: seq<bv8>)
      requires Valid() && frameQueue != null && offset + |data| <= frameSize
      modifies frameQueue.frameBuffer
      ensures frameQueue.frameBuffer[..]
              == Overwrite(old(frameQueue.frameBuffer[..]), curFrameStart + offset, data)
    {
      var buffer := frameQueue.frameBuffer;
      var start := curFrameStart + offset;
      forall i | 0 <= i < |data| {
        buffer[start + i] := data[i];
      }
      assert buffer[..] == Overwrite(old(buffer[..]), start, data);
    }

    /** One payload of `pkt_scan`. The header checks run in the source's
      * order, except that the length test comes first, so that the first
      * byte is read only when it exists. */
    method HandlePayload(payload: seq<bv8>)
      requires Valid() && frameQueue != null
      modifies this, frameQueue, frameQueue.frameBuffer
      ensures Valid() && frameQueue == old(frameQueue) && frameSize == old(frameSize)
      ensures numActiveTransfers == old(numActiveTransfers)
      ensures State() == ScanPayload(old(State()), payload, frameSize)
    {
      var len := |payload|;
      if len < HEADER_LENGTH || payload[0] != 12
         || payload[1] & UVC_STREAM_ERR != 0 || payload[1] & UVC_STREAM_PTS == 0 {
        FrameAdd(Discard, []);
        return;
      }
      assert HeaderOk(payload);
      var thisPts := Pts(payload);
      var thisFid := if payload[1] & UVC_STREAM_FID != 0 then 1 else 0;
      assert thisFid == Fid(payload);
      if thisPts != lastPts || thisFid != lastFid {
        StartNewFrame(thisPts, thisFid, payload[HEADER_LENGTH..]);
      } else if payload[1] & UVC_STREAM_EOF != 0 {
        EndFrame(payload[HEADER_LENGTH..]);
      } else {
        FrameAdd(Inter, payload[HEADER_LENGTH..]);
      }
    }

    /** The branch of `pkt_scan` for a new time stamp or frame id. */
    method StartNewFrame(thisPts: nat, thisFid: nat, data: seq<bv8>)
      requires Valid() && frameQueue != null
      modifies this, frameQueue, frameQueue.frameBuffer
      ensures Valid() && frameQueue == old(frameQueue) && frameSize == old(frameSize)
      ensures numActiveTransfers == old(numActiveTransfers)
      ensures State() == NewId(old(State()), thisPts, thisFid, |data|, frameSize)
    {
      if lastPacketType == Inter {
        FrameAdd(Discard, []);
      }
      lastPts := thisPts;
      lastFid := thisFid;
      FrameAdd(First, data);
    }

    /** The branch of `pkt_scan` for an end-of-frame payload. */
    method EndFrame(data: seq<bv8>)
      requires Valid() && frameQueue != null
      modifies this, frameQueue, frameQueue.frameBuffer
      ensures Valid() && frameQueue == old(frameQueue) && frameSize == old(frameSize)
      ensures numActiveTransfers == old(numActiveTransfers)
      ensures State() == EndOfFrame(old(State()), |data|, frameSize)
    {
      lastPts := 0;
      if curFrameDataLen + |data| != frameSize {
        FrameAdd(Discard, []);
        return;
      }
      FrameAdd(Last, data);
    }

    /** `pkt_scan`: the transfer's payloads in order. */
    method PktScan(data: seq<bv8>)
      requires Valid() && frameQueue != null
      modifies this, frameQueue, frameQueue.frameBuffer
      ensures Valid() && frameQueue == old(frameQueue) && frameSize == old(frameSize)
      ensures numActiveTransfers == old(numActiveTransfers)
      ensures State() == Scan(old(State()), data, frameSize)
    {
      var rest := data;
      while true
        invariant Valid() && frameQueue == old(frameQueue) && frameSize == old(frameSize)
        invariant numActiveTransfers == old(numActiveTransfers)
        invariant Scan(old(State()), data, frameSize) == Scan(State(), rest, frameSize)
        decreases |rest|
      {
        var len := if |rest| < PAYLOAD_LENGTH then |rest| else PAYLOAD_LENGTH;
        HandlePayload(rest[..len]);
        if |rest| - len <= 0 {
          return;
        }
        rest := rest[len..];
      }
    }
  }
}
