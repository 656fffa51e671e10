/** The capture frame buffer (src/capture/frame-buffer.ts): PCM bytes in chunks of any
    size in, timestamped frames out to a single consumer. The log of the current stream
    epoch says what the frames must be. */
module FrameModel {

  import opened Common

  newtype byte = b: int | 0 <= b < 256

  datatype CaptureFrame = CaptureFrame(
    pcm: seq<byte>, monotonicMs: int, wallMs: int, durationMs: int, streamEpoch: nat,
    discontinuityBeforeMs: Option<int>)

  /** One stream epoch: the bytes written since it began, the frames cut from them,
      which of those were lost to a full queue, which reached the consumer, and the gap
      the epoch began with. */
  datatype Log = Log(
    epoch: nat, written: seq<byte>, framed: seq<CaptureFrame>, lost: set<nat>, handed: seq<CaptureFrame>,
    mark: Option<int>)

  function Pcm(frames: seq<CaptureFrame>): seq<byte> {
    if frames == [] then [] else Pcm(frames[..|frames| - 1]) + frames[|frames| - 1].pcm
  }

  function Without(frames: seq<CaptureFrame>, lost: set<nat>): seq<CaptureFrame> {
    if frames == [] then []
    else
      Without(frames[..|frames| - 1], lost) +
      if |frames| - 1 in lost then [] else [frames[|frames| - 1]]
  }

  function Last(frames: seq<CaptureFrame>): CaptureFrame
    requires frames != []
  {
    frames[|frames| - 1]
  }

  /** Whole frames of the epoch, one frame duration apart, only the first carrying the gap. */
  ghost predicate Stamped(log: Log, size: nat, duration: int) {
    && (forall k :: 0 <= k < |log.framed| ==>
          && |log.framed[k].pcm| == size && log.framed[k].durationMs == duration
          && log.framed[k].streamEpoch == log.epoch
          && log.framed[k].discontinuityBeforeMs == if k == 0 then log.mark else None)
    && (forall k :: 0 < k < |log.framed| ==> Follows(log.framed, k, duration))
  }

  ghost predicate Follows(framed: seq<CaptureFrame>, k: nat, duration: int)
    requires 0 < k < |framed|
  {
    && framed[k].monotonicMs == framed[k - 1].monotonicMs + duration
    && framed[k].wallMs == framed[k - 1].wallMs + duration
  }

  /** Nothing written is missing or reordered, and the queue is what the consumer has not
      taken yet. */
  ghost predicate Accounted(log: Log, frames: seq<CaptureFrame>, carry: seq<byte>) {
    && Pcm(log.framed) + carry == log.written
    && log.handed + frames == Without(log.framed, log.lost)
    && (forall k :: k in log.lost ==> k < |log.framed|)
  }

  /** Framing is determined by the bytes: how they were chunked cannot matter. */
  lemma {:induction false} FramingUnique(
    f: seq<CaptureFrame>, c: seq<byte>, g: seq<CaptureFrame>, d: seq<byte>, size: nat)
    requires size > 0 && |c| < size && |d| < size && Pcm(f) + c == Pcm(g) + d
    requires forall k :: 0 <= k < |f| ==> |f[k].pcm| == size
    requires forall k :: 0 <= k < |g| ==> |g[k].pcm| == size
    ensures |f| == |g| && c == d && forall k :: 0 <= k < |f| ==> f[k].pcm == g[k].pcm
  {
    PcmLength(f, size);
    PcmLength(g, size);
    SameCount(|f|, |c|, |g|, |d|, size);
    assert |Pcm(f)| == |Pcm(g)|;
    assert (Pcm(f) + c)[..|Pcm(f)|] == Pcm(f) && (Pcm(g) + d)[..|Pcm(g)|] == Pcm(g);
    assert (Pcm(f) + c)[|Pcm(f)|..] == c && (Pcm(g) + d)[|Pcm(g)|..] == d;
    PcmInjective(f, g, size);
  }

  lemma {:induction false} PcmLength(f: seq<CaptureFrame>, size: nat)
    requires forall k :: 0 <= k < |f| ==> |f[k].pcm| == size
    ensures |Pcm(f)| == |f| * size
  {
    if f != [] {
      PcmLength(f[..|f| - 1], size);
      Distribute(|f| - 1, 1, size);
    }
  }

  lemma SameCount(a: nat, c: nat, b: nat, d: nat, size: nat)
    requires c < size && d < size && a * size + c == b * size + d
    ensures a == b && c == d
  {
    Apart(a, b, size);
    Apart(b, a, size);
  }

  lemma Distribute(a: nat, b: nat, c: nat)
    ensures (a + b) * c == a * c + b * c && a * c >= 0
  {
  }

  lemma Apart(a: nat, b: nat, size: nat)
    ensures a < b ==> a * size + size <= b * size
  {
    if a < b {
      var d: nat := b - a - 1;
      Distribute(a, d + 1, size);
      Distribute(d, 1, size);
    }
  }

  lemma {:induction false} PcmInjective(f: seq<CaptureFrame>, g: seq<CaptureFrame>, size: nat)
    requires |f| == |g| && Pcm(f) == Pcm(g)
    requires forall k :: 0 <= k < |f| ==> |f[k].pcm| == size && |g[k].pcm| == size
    ensures forall k :: 0 <= k < |f| ==> f[k].pcm == g[k].pcm
  {
    if f != [] {
      var n := |f| - 1;
      PcmLength(f[..n], size);
      PcmLength(g[..n], size);
      assert Pcm(f) == Pcm(f[..n]) + f[n].pcm && Pcm(g) == Pcm(g[..n]) + g[n].pcm;
      assert Pcm(f)[..n * size] == Pcm(f[..n]) && Pcm(g)[..n * size] == Pcm(g[..n]);
      assert Pcm(f)[n * size..] == f[n].pcm && Pcm(g)[n * size..] == g[n].pcm;
      PcmInjective(f[..n], g[..n], size);
    }
  }

  /** A cut frame: taken off the front of the carry, then handed over, queued or lost. */
  datatype Fate = Handed | Queued | Lost

  function Cut(log: Log, frame: CaptureFrame, fate: Fate): Log {
    log.(
      framed := log.framed + [frame],
      lost := if fate.Lost? then log.lost + {|log.framed|} else log.lost,
      handed := if fate.Handed? then log.handed + [frame] else log.handed)
  }

  lemma CutStamped(log: Log, frame: CaptureFrame, fate: Fate, size: nat, duration: int)
    requires Stamped(log, size, duration)
    requires |frame.pcm| == size && frame.durationMs == duration && frame.streamEpoch == log.epoch
    requires frame.discontinuityBeforeMs == if log.framed == [] then log.mark else None
    requires log.framed != [] ==>
      frame.monotonicMs == Last(log.framed).monotonicMs + duration && frame.wallMs == Last(log.framed).wallMs + duration
    ensures Stamped(Cut(log, frame, fate), size, duration)
  {
    var after := Cut(log, frame, fate);
    forall k | 0 < k < |after.framed|
      ensures Follows(after.framed, k, duration)
    {
      if k < |log.framed| { assert Follows(log.framed, k, duration); }
    }
  }

  lemma CutBytes(framed: seq<CaptureFrame>, carry: seq<byte>, frame: CaptureFrame, size: nat)
    requires size <= |carry| && frame.pcm == carry[..size]
    ensures Pcm(framed + [frame]) + carry[size..] == Pcm(framed) + carry
  {
    assert (framed + [frame])[..|framed|] == framed;
    assert carry == carry[..size] + carry[size..];
  }

  lemma CutAccounted(log: Log, frames: seq<CaptureFrame>, carry: seq<byte>, frame: CaptureFrame, fate: Fate, size: nat)
    requires Accounted(log, frames, carry) && size <= |carry| && frame.pcm == carry[..size]
    requires fate.Handed? ==> frames == []
    ensures Accounted(Cut(log, frame, fate), if fate.Queued? then frames + [frame] else frames, carry[size..])
  {
    CutBytes(log.framed, carry, frame, size);
    WithoutFrame(log.framed, frame, log.lost, fate);
    if fate.Queued? { assert log.handed + (frames + [frame]) == (log.handed + frames) + [frame]; }
  }

  lemma WithoutFrame(framed: seq<CaptureFrame>, frame: CaptureFrame, lost: set<nat>, fate: Fate)
    requires forall k :: k in lost ==> k < |framed|
    ensures Without(framed + [frame], if fate.Lost? then lost + {|framed|} else lost) ==
      Without(framed, lost) + if fate.Lost? then [] else [frame]
  {
    assert (framed + [frame])[..|framed|] == framed;
    if fate.Lost? { LaterLoss(framed, lost, |framed|); }
  }

  lemma {:induction false} LaterLoss(framed: seq<CaptureFrame>, lost: set<nat>, k: nat)
    requires k >= |framed|
    ensures Without(framed, lost + {k}) == Without(framed, lost)
  {
    if framed != [] { LaterLoss(framed[..|framed| - 1], lost, k); }
  }

  /** What the buffer answers a call of `next`. */
  datatype Reply = Frame(frame: CaptureFrame) | Done | Failed(error: string) | Waiting | SecondConsumer

  datatype WriteResult = Accepted | Closed | Overflow

  datatype Buffer = Buffer(
    size: nat, duration: nat, limit: nat,
    frames: seq<CaptureFrame>, carry: seq<byte>, waiter: bool, closed: bool, terminalError: Option<string>,
    nextMonotonicMs: Option<int>, nextWallMs: Option<int>, epoch: nat,
    pendingDiscontinuityMs: Option<int>, latestFrameMonotonicMs: Option<int>, log: Log)

  function Threshold(b: Buffer): int { Max(250, b.duration * 4) }

  // --------------------------------------------------------------------- operations

  function NewFrame(b: Buffer): CaptureFrame
    requires b.size <= |b.carry| && b.nextMonotonicMs.Some? && b.nextWallMs.Some?
  {
    CaptureFrame(
      b.carry[..b.size], b.nextMonotonicMs.value, b.nextWallMs.value, b.duration, b.epoch, b.pendingDiscontinuityMs)
  }

  /** The waiting consumer takes the frame, else the queue, else it is lost. */
  function FateOf(b: Buffer): Fate {
    if b.waiter then Handed else if |b.frames| < b.limit then Queued else Lost
  }

  function CutFrame(b: Buffer): Buffer
    requires b.size <= |b.carry| && b.nextMonotonicMs.Some? && b.nextWallMs.Some?
  {
    var frame := NewFrame(b);
    b.(
      carry := b.carry[b.size..],
      pendingDiscontinuityMs := None,
      nextMonotonicMs := Some(frame.monotonicMs + b.duration),
      nextWallMs := Some(frame.wallMs + b.duration),
      latestFrameMonotonicMs := Some(frame.monotonicMs),
      waiter := false,
      frames := if FateOf(b).Queued? then b.frames + [frame] else b.frames,
      log := Cut(b.log, frame, FateOf(b)))
  }

  /** Cuts while a whole frame is carried, up to an overflow. */
  function CutAll(b: Buffer): (Buffer, WriteResult)
    requires b.size > 0 && (b.size <= |b.carry| ==> b.nextMonotonicMs.Some? && b.nextWallMs.Some?)
    decreases |b.carry|
  {
    if |b.carry| < b.size then (b, Accepted)
    else if FateOf(b).Lost? then (CutFrame(b), Overflow)
    else CutAll(CutFrame(b))
  }

  function Append(b: Buffer, chunk: seq<byte>): Buffer {
    b.(carry := b.carry + chunk, log := b.log.(written := b.log.written + chunk))
  }

  function Drift(b: Buffer, observed: int): int
    requires b.size > 0 && b.nextMonotonicMs.Some?
  {
    observed - (b.nextMonotonicMs.value + (|b.carry| / b.size - 1) * b.duration)
  }

  /** The bytes just appended complete a frame long after it was due. */
  predicate IsGap(b: Buffer, observed: int)
    requires b.size > 0
  {
    |b.carry| >= b.size && b.nextMonotonicMs.Some? && b.nextWallMs.Some? && Drift(b, observed) > Threshold(b)
  }

  /** A source gap: everything before it goes, and a new epoch starts with the chunk. */
  function OpenEpoch(b: Buffer, chunk: seq<byte>, drift: int): Buffer {
    b.(
      frames := [], carry := chunk, epoch := b.epoch + 1, pendingDiscontinuityMs := Some(drift),
      nextMonotonicMs := None, nextWallMs := None, log := Log(b.epoch + 1, chunk, [], {}, [], Some(drift)))
  }

  /** The first frames of an epoch are dated back from the observation of the last. */
  function SetClock(b: Buffer, monotonicMs: int, wallMs: int): Buffer
    requires b.size > 0
  {
    if b.nextMonotonicMs.None? && b.nextWallMs.None? && |b.carry| >= b.size then
      var buffered := (|b.carry| / b.size - 1) * b.duration;
      b.(nextMonotonicMs := Some(monotonicMs - buffered), nextWallMs := Some(wallMs - buffered))
    else b
  }

  /** The buffer with the chunk taken in, across a gap or not. */
  function Taken(b: Buffer, chunk: seq<byte>, monotonicMs: int): Buffer
    requires b.size > 0
  {
    var carried := Append(b, chunk);
    if IsGap(carried, monotonicMs) then OpenEpoch(carried, chunk, Drift(carried, monotonicMs)) else carried
  }

  /** The same with the clock set, before any frame is cut. */
  function Ready(b: Buffer, chunk: seq<byte>, monotonicMs: int, wallMs: int): Buffer
    requires b.size > 0
  {
    SetClock(Taken(b, chunk, monotonicMs), monotonicMs, wallMs)
  }

  ghost predicate Clocked(b: Buffer) {
    b.size > 0 && b.nextMonotonicMs.Some? == b.nextWallMs.Some?
  }

  function Write(b: Buffer, chunk: seq<byte>, monotonicMs: int, wallMs: int): (Buffer, WriteResult)
    requires Clocked(b)
  {
    if b.closed then (b, Closed) else CutAll(Ready(b, chunk, monotonicMs, wallMs))
  }

  function Discard(b: Buffer): (Buffer, nat) {
    if b.closed then (b, 0) else
      (b.(frames := [], carry := [], nextMonotonicMs := None, nextWallMs := None, pendingDiscontinuityMs := None,
          latestFrameMonotonicMs := None, epoch := b.epoch + 1, log := Log(b.epoch + 1, [], [], {}, [], None)),
       |b.frames|)
  }

  function Abort(b: Buffer, error: string): Buffer {
    if b.closed then b
    else b.(frames := [], carry := [], closed := true, terminalError := Some(error), waiter := false,
            log := Log(b.epoch, [], [], {}, [], None))
  }

  function Stop(b: Buffer): (Buffer, nat) {
    if b.closed then (b, 0) else
      (b.(frames := [], carry := [], epoch := b.epoch + 1, closed := true, waiter := false,
          log := Log(b.epoch + 1, [], [], {}, [], None)),
       |b.frames|)
  }

  function Close(b: Buffer, error: Option<string>): Buffer {
    if b.closed then b else b.(closed := true, terminalError := error, waiter := false)
  }

  function Ending(error: Option<string>): Reply { if error.Some? then Failed(error.value) else Done }

  /** What a waiting consumer is woken with when the buffer shuts down. */
  function Wake(b: Buffer, reply: Reply): Option<Reply> {
    if !b.closed && b.waiter then Some(reply) else None
  }

  function Next(b: Buffer): (Buffer, Reply) {
    if b.frames != [] then
      (b.(frames := b.frames[1..], log := b.log.(handed := b.log.handed + [b.frames[0]])), Frame(b.frames[0]))
    else if b.closed then (b, Ending(b.terminalError))
    else if b.waiter then (b, SecondConsumer)
    else (b.(waiter := true), Waiting)
  }

  // ---------------------------------------------------------------------- invariant

  /** While open: the queue and the carry are what the epoch's log leaves, the next
      timestamps follow the last frame, and a pending gap waits for the first frame. */
  ghost predicate Consistent(b: Buffer) {
    && Stamped(b.log, b.size, b.duration) && Accounted(b.log, b.frames, b.carry)
    && b.pendingDiscontinuityMs == (if b.log.framed == [] then b.log.mark else None)
    && (b.log.framed != [] ==>
          && b.nextMonotonicMs == Some(Last(b.log.framed).monotonicMs + b.duration)
          && b.nextWallMs == Some(Last(b.log.framed).wallMs + b.duration)
          && b.latestFrameMonotonicMs == Some(Last(b.log.framed).monotonicMs))
  }

  ghost predicate Valid(b: Buffer) {
    && Clocked(b) && b.duration > 0 && b.limit > 0
    && |b.frames| <= b.limit && (b.waiter ==> b.frames == [] && !b.closed) && b.log.epoch == b.epoch
    && b.log.handed + b.frames == Without(b.log.framed, b.log.lost)
    && (!b.closed ==>
          && Consistent(b) && (b.log.lost == {} ==> |b.carry| < b.size)
          && (b.log.framed == [] ==> b.nextMonotonicMs.None? && b.nextWallMs.None?))
  }

  lemma CutKeeps(b: Buffer)
    requires Consistent(b) && b.size <= |b.carry| && b.nextMonotonicMs.Some? && b.nextWallMs.Some?
    requires b.log.epoch == b.epoch && (b.waiter ==> b.frames == [])
    ensures Consistent(CutFrame(b))
  {
    CutStamped(b.log, NewFrame(b), FateOf(b), b.size, b.duration);
    CutAccounted(b.log, b.frames, b.carry, NewFrame(b), FateOf(b), b.size);
  }

  /** When the next frame after all carried whole frames is due. */
  function Due(b: Buffer): int
    requires b.size > 0 && b.nextMonotonicMs.Some?
  {
    b.nextMonotonicMs.value + |b.carry| / b.size * b.duration
  }

  lemma CutKeepsDue(b: Buffer)
    requires b.size > 0 && b.size <= |b.carry| && b.nextMonotonicMs.Some? && b.nextWallMs.Some?
    ensures |b.carry| / b.size == |CutFrame(b).carry| / b.size + 1
    ensures Due(CutFrame(b)) == Due(b)
  {
    OneFrameLess(|b.carry|, b.size);
    Distribute(|CutFrame(b).carry| / b.size, 1, b.duration);
  }

  lemma OneFrameLess(n: nat, size: nat)
    requires 0 < size <= n
    ensures n / size == (n - size) / size + 1
  {
    var q, r := (n - size) / size, (n - size) % size;
    assert n == size * (q + 1) + r;
    SameCount(n / size, n % size, q + 1, r, size);
  }

  lemma WholeFrames(n: nat, size: nat)
    requires size > 0
    ensures n / size == 0 <==> n < size
  {
    if n >= size { OneFrameLess(n, size); }
  }

  /** Frames of room the queue and a waiting consumer offer. */
  function Room(b: Buffer): int { b.limit - |b.frames| + if b.waiter then 1 else 0 }

  /** What the cutting loop keeps and where it stops. */
  lemma {:induction false} CutAllKeeps(b: Buffer)
    requires b.size > 0 && Consistent(b) && b.log.epoch == b.epoch && |b.frames| <= b.limit
    requires b.nextMonotonicMs.Some? && b.nextWallMs.Some? && (b.waiter ==> b.frames == [])
    ensures var (after, r) := CutAll(b);
      && Consistent(after) && Shell(b, after) && b.log.framed <= after.log.framed
      && (r == Overflow <==> |b.carry| / b.size > Room(b)) && r != Closed
      && (r == Overflow ==> |after.frames| == after.limit && after.log.lost != {})
      && (|b.carry| >= b.size ==> after.log.framed != [])
      && after.nextMonotonicMs.Some? && after.nextWallMs.Some?
      && after.nextWallMs.value - after.nextMonotonicMs.value == b.nextWallMs.value - b.nextMonotonicMs.value
      && (r == Accepted ==>
            && |after.carry| < b.size && after.log.lost == b.log.lost
            && |after.log.framed| == |b.log.framed| + |b.carry| / b.size
            && after.nextMonotonicMs == Some(Due(b)))
    decreases |b.carry|
  {
    if b.size <= |b.carry| {
      CutKeeps(b);
      CutKeepsDue(b);
      var c := CutFrame(b);
      if !FateOf(b).Lost? { CutAllKeeps(c); }
    } else {
      assert |b.carry| / b.size == 0;
    }
  }

  /** What cutting never touches, and what it leaves well-formed. */
  ghost predicate Shell(b: Buffer, after: Buffer) {
    && after.size == b.size && after.duration == b.duration && after.limit == b.limit
    && after.closed == b.closed && after.epoch == b.epoch && after.terminalError == b.terminalError
    && after.log.epoch == b.log.epoch && after.log.mark == b.log.mark && after.log.written == b.log.written
    && |after.frames| <= after.limit && (after.waiter ==> after.frames == [])
  }

  /** Ready for the cutting loop. */
  ghost predicate Primed(b: Buffer) {
    && b.size > 0 && Consistent(b) && b.log.epoch == b.epoch && |b.frames| <= b.limit && (b.waiter ==> b.frames == [])
    && (if b.size <= |b.carry| then b.nextMonotonicMs.Some? && b.nextWallMs.Some?
        else b.log.framed == [] ==> b.nextMonotonicMs.None? && b.nextWallMs.None?)
  }

  lemma AppendKeeps(b: Buffer, chunk: seq<byte>)
    requires Consistent(b)
    ensures Consistent(Append(b, chunk))
  {
    assert Pcm(b.log.framed) + (b.carry + chunk) == (Pcm(b.log.framed) + b.carry) + chunk;
  }

  lemma OpenEpochKeeps(b: Buffer, chunk: seq<byte>, drift: int)
    ensures Consistent(OpenEpoch(b, chunk, drift))
  {
    assert Pcm([]) + chunk == chunk;
  }

  lemma SetClockKeeps(b: Buffer, monotonicMs: int, wallMs: int)
    requires b.size > 0 && Consistent(b) && b.log.epoch == b.epoch && |b.frames| <= b.limit
      && (b.waiter ==> b.frames == [])
    requires b.log.framed == [] ==> b.nextMonotonicMs.None? && b.nextWallMs.None?
    ensures Primed(SetClock(b, monotonicMs, wallMs))
  {
  }

  lemma ReadyKeeps(b: Buffer, chunk: seq<byte>, monotonicMs: int, wallMs: int)
    requires Valid(b) && !b.closed
    ensures Primed(Ready(b, chunk, monotonicMs, wallMs))
  {
    var carried := Append(b, chunk);
    AppendKeeps(b, chunk);
    if IsGap(carried, monotonicMs) { OpenEpochKeeps(carried, chunk, Drift(carried, monotonicMs)); }
    SetClockKeeps(Taken(b, chunk, monotonicMs), monotonicMs, wallMs);
  }

  /** Whether a write finds a gap. */
  predicate Gap(b: Buffer, chunk: seq<byte>, monotonicMs: int)
    requires b.size > 0
  {
    IsGap(Append(b, chunk), monotonicMs)
  }

  /** Cutting from a primed buffer leaves a valid one. */
  lemma CutAllSettles(b: Buffer)
    requires Primed(b) && !b.closed && b.duration > 0 && b.limit > 0
    ensures var (after, r) := CutAll(b);
      && Valid(after) && Shell(b, after) && b.log.framed <= after.log.framed && r != Closed
      && (r == Accepted ==> |after.carry| < after.size)
      && (r == Overflow <==> |b.carry| / b.size > Room(b))
  {
    if b.size <= |b.carry| {
      CutAllKeeps(b);
    } else {
      assert |b.carry| / b.size == 0;
    }
  }

  /** A write keeps every byte of its epoch; a gap starts the epoch afresh with the chunk.
      Only a full queue stops it, exactly when the frames outnumber the room. */
  lemma WriteSound(b: Buffer, chunk: seq<byte>, monotonicMs: int, wallMs: int)
    requires Valid(b) && !b.closed
    ensures var (after, r) := Write(b, chunk, monotonicMs, wallMs);
      && Valid(after) && !after.closed && r != Closed && SameOptions(b, after)
      && (r == Accepted ==> |after.carry| < after.size)
      && Continues(b, after, chunk, monotonicMs)
      && (r == Overflow <==>
            if Gap(b, chunk, monotonicMs) then |chunk| / b.size > b.limit + (if b.waiter then 1 else 0)
            else |b.carry + chunk| / b.size > Room(b))
  {
    ReadyKeeps(b, chunk, monotonicMs, wallMs);
    CutAllSettles(Ready(b, chunk, monotonicMs, wallMs));
  }

  /** The parts of a write, as its caller needs them. */
  lemma WritePlan(b: Buffer, chunk: seq<byte>, monotonicMs: int, wallMs: int)
    requires Valid(b) && !b.closed
    ensures var ready := Ready(b, chunk, monotonicMs, wallMs);
      && Clocked(ready) && (ready.size <= |ready.carry| ==> ready.nextMonotonicMs.Some? && ready.nextWallMs.Some?)
      && Write(b, chunk, monotonicMs, wallMs) == CutAll(ready) && CutAll(ready).1 != Closed
      && Valid(CutAll(ready).0)
  {
    ReadyKeeps(b, chunk, monotonicMs, wallMs);
    CutAllSettles(Ready(b, chunk, monotonicMs, wallMs));
  }

  ghost predicate SameOptions(b: Buffer, after: Buffer) {
    after.size == b.size && after.duration == b.duration && after.limit == b.limit
  }

  /** The epoch goes on with the chunk, or a new one starts with it, marked with the gap. */
  ghost predicate Continues(b: Buffer, after: Buffer, chunk: seq<byte>, monotonicMs: int)
    requires b.size > 0
  {
    if Gap(b, chunk, monotonicMs)
    then
      && after.epoch == b.epoch + 1 && after.log.written == chunk
      && after.log.mark == Some(Drift(Append(b, chunk), monotonicMs))
    else
      && after.epoch == b.epoch && after.log.written == b.log.written + chunk
      && after.log.mark == b.log.mark && b.log.framed <= after.log.framed
  }

  /** Cut from a clocked buffer, the last frame is the one due just before `Due`. */
  lemma CutAllTiming(b: Buffer)
    requires Primed(b) && b.size <= |b.carry| && CutAll(b).1 == Accepted
    ensures var after := CutAll(b).0;
      && after.log.framed != []
      && Last(after.log.framed).monotonicMs == Due(b) - b.duration
      && Last(after.log.framed).wallMs == Due(b) - b.duration + b.nextWallMs.value - b.nextMonotonicMs.value
  {
    CutAllKeeps(b);
  }

  /** The newest frame never trails its observation by more than the gap threshold, and
      the first batch of an epoch ends exactly at its observation. */
  lemma WriteTiming(b: Buffer, chunk: seq<byte>, monotonicMs: int, wallMs: int)
    requires Valid(b) && !b.closed
    requires Write(b, chunk, monotonicMs, wallMs).1 == Accepted
    requires Taken(b, chunk, monotonicMs).size <= |Taken(b, chunk, monotonicMs).carry|
    ensures var after := Write(b, chunk, monotonicMs, wallMs).0;
      && after.log.framed != []
      && Last(after.log.framed).monotonicMs >= monotonicMs - Threshold(b)
      && (Gap(b, chunk, monotonicMs) || b.log.framed == [] ==>
            Last(after.log.framed).monotonicMs == monotonicMs && Last(after.log.framed).wallMs == wallMs)
  {
    ReadyKeeps(b, chunk, monotonicMs, wallMs);
    CutAllTiming(Ready(b, chunk, monotonicMs, wallMs));
    ReadyDue(b, chunk, monotonicMs, wallMs);
  }

  /** When the frame after the chunk is due, in terms of the observation. */
  lemma ReadyDue(b: Buffer, chunk: seq<byte>, monotonicMs: int, wallMs: int)
    requires Valid(b) && !b.closed
    requires Taken(b, chunk, monotonicMs).size <= |Taken(b, chunk, monotonicMs).carry|
    ensures var ready := Ready(b, chunk, monotonicMs, wallMs);
      && ready.nextMonotonicMs.Some? && ready.nextWallMs.Some?
      && Due(ready) - ready.duration >= monotonicMs - Threshold(b)
      && (Gap(b, chunk, monotonicMs) || b.log.framed == [] ==>
            && Due(ready) - ready.duration == monotonicMs
            && ready.nextWallMs.value - ready.nextMonotonicMs.value == wallMs - monotonicMs)
  {
    var taken := Taken(b, chunk, monotonicMs);
    OneFrameLess(|taken.carry|, taken.size);
    Distribute(|taken.carry| / taken.size - 1, 1, taken.duration);
  }

  lemma {:induction false} KeptAreFramed(framed: seq<CaptureFrame>, lost: set<nat>, f: CaptureFrame)
    requires f in Without(framed, lost)
    ensures f in framed
  {
    if framed != [] && f in Without(framed[..|framed| - 1], lost) {
      KeptAreFramed(framed[..|framed| - 1], lost, f);
    }
  }

  /** No frame from before a gap, a discard or a stop is ever handed out after it. */
  lemma QueueIsCurrent(b: Buffer)
    requires Valid(b) && !b.closed
    ensures forall f :: f in b.frames ==> f.streamEpoch == b.epoch
  {
    forall f | f in b.frames
      ensures f.streamEpoch == b.epoch
    {
      assert f in b.log.handed + b.frames;
      KeptAreFramed(b.log.framed, b.log.lost, f);
    }
  }

  // ------------------------------------------------------------------------ all runs

  datatype Event =
    | Written(chunk: seq<byte>, monotonicMs: int, wallMs: int)
    | Asked
    | Discarded
    | Aborted(error: string)
    | Stopped
    | Ended(failure: Option<string>)

  function Step(b: Buffer, e: Event): Buffer
    requires Clocked(b)
  {
    match e
    case Written(chunk, monotonicMs, wallMs) => Write(b, chunk, monotonicMs, wallMs).0
    case Asked => Next(b).0
    case Discarded => Discard(b).0
    case Aborted(error) => Abort(b, error)
    case Stopped => Stop(b).0
    case Ended(error) => Close(b, error)
  }

  lemma StepKeepsValid(b: Buffer, e: Event)
    requires Valid(b)
    ensures Valid(Step(b, e)) && SameOptions(b, Step(b, e))
  {
    match e {
      case Written(chunk, monotonicMs, wallMs) =>
        if !b.closed { WriteSound(b, chunk, monotonicMs, wallMs); }
      case Asked =>
        if b.frames != [] {
          assert b.log.handed + b.frames == (b.log.handed + [b.frames[0]]) + b.frames[1..];
        }
      case _ =>
    }
  }

  function Start(size: nat, duration: nat, limit: nat): Buffer {
    Buffer(size, duration, limit, [], [], false, false, None, None, None, 0, None, None, Log(0, [], [], {}, [], None))
  }

  function Run(b: Buffer, events: seq<Event>): (r: Buffer)
    requires Valid(b)
    ensures Valid(r) && SameOptions(b, r)
  {
    if events == [] then b
    else
      var before := Run(b, events[..|events| - 1]);
      StepKeepsValid(before, events[|events| - 1]);
      Step(before, events[|events| - 1])
  }

  /** Two runs whose current epochs were written the same bytes cut the same frames,
      however the bytes were chunked, unless a frame was lost to a full queue. */
  lemma ChunkingDoesNotMatter(size: nat, duration: nat, limit: nat, one: seq<Event>, other: seq<Event>)
    requires size > 0 && duration > 0 && limit > 0
    ensures
      var start := Start(size, duration, limit);
      Valid(start)
      && var a, b := Run(start, one), Run(start, other);
         (!a.closed && !b.closed && a.log.lost == {} && b.log.lost == {} && a.log.written == b.log.written ==>
            && a.carry == b.carry && |a.log.framed| == |b.log.framed|
            && forall k :: 0 <= k < |a.log.framed| ==> a.log.framed[k].pcm == b.log.framed[k].pcm)
  {
    var start := Start(size, duration, limit);
    var a, b := Run(start, one), Run(start, other);
    if !a.closed && !b.closed && a.log.lost == {} && b.log.lost == {} && a.log.written == b.log.written {
      FramingUnique(a.log.framed, a.carry, b.log.framed, b.carry, size);
    }
  }
}
