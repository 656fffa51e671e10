/** The capture frame buffer as it is written (src/capture/frame-buffer.ts): one mutable
    object, each method proved against `FrameModel`. */
module FrameBufferClass {

  import opened Common
  import opened FrameModel

  class CaptureFrameBuffer {
    const bytesPerFrame: nat
    const frameDurationMs: nat
    const maxBufferedFrames: nat

    var frames: seq<CaptureFrame>
    var carry: seq<byte>
    var waiter: bool
    var closed: bool
    var terminalError: Option<string>
    var nextMonotonicMs: Option<int>
    var nextWallMs: Option<int>
    var epoch: nat
    var pendingDiscontinuityMs: Option<int>
    var latestFrameMonotonicMs: Option<int>
    ghost var log: Log

    ghost function Value(): Buffer reads this {
      Buffer(
        bytesPerFrame, frameDurationMs, maxBufferedFrames, frames, carry, waiter, closed, terminalError,
        nextMonotonicMs, nextWallMs, epoch, pendingDiscontinuityMs, latestFrameMonotonicMs, log)
    }

    constructor (bytesPerFrame: nat, frameDurationMs: nat, maxBufferedFrames: nat)
      requires bytesPerFrame > 0 && frameDurationMs > 0 && maxBufferedFrames > 0
      ensures Value() == Start(bytesPerFrame, frameDurationMs, maxBufferedFrames) && Valid(Value())
    {
      this.bytesPerFrame, this.frameDurationMs := bytesPerFrame, frameDurationMs;
      this.maxBufferedFrames := maxBufferedFrames;
      frames, carry, waiter, closed, terminalError := [], [], false, false, None;
      nextMonotonicMs, nextWallMs, epoch, pendingDiscontinuityMs, latestFrameMonotonicMs := None, None, 0, None, None;
      log := Log(0, [], [], {}, [], None);
    }

    method Push(frame: CaptureFrame) returns (ok: bool, resolved: Option<CaptureFrame>)
      modifies `waiter, `frames
      ensures !waiter && resolved == (if old(waiter) then Some(frame) else None)
      ensures ok <==> old(waiter) || |old(frames)| < maxBufferedFrames
      ensures frames == if ok && !old(waiter) then old(frames) + [frame] else old(frames)
    {
      ok, resolved := true, None;
      if waiter {
        waiter := false;
        resolved := Some(frame);
        return;
      }
      if |frames| >= maxBufferedFrames {
        return false, None;
      }
      frames := frames + [frame];
    }

    /** A frame off the front of the carry, not yet given to anyone. */
    method TakeFrame() returns (frame: CaptureFrame)
      requires |carry| >= bytesPerFrame && nextMonotonicMs.Some? && nextWallMs.Some?
      modifies `carry, `pendingDiscontinuityMs, `nextMonotonicMs, `nextWallMs, `latestFrameMonotonicMs, `log
      ensures frame == NewFrame(old(Value()))
      ensures Value() == CutFrame(old(Value())).(frames := old(frames), waiter := old(waiter))
    {
      var pcm := carry[..bytesPerFrame];
      carry := carry[bytesPerFrame..];
      var monotonicMs, wallMs := nextMonotonicMs.value, nextWallMs.value;
      frame := CaptureFrame(pcm, monotonicMs, wallMs, frameDurationMs, epoch, pendingDiscontinuityMs);
      pendingDiscontinuityMs := None;
      nextMonotonicMs := Some(monotonicMs + frameDurationMs);
      nextWallMs := Some(wallMs + frameDurationMs);
      latestFrameMonotonicMs := Some(monotonicMs);
      log := Cut(log, frame, FateOf(Value()));
    }

    method CutOne() returns (ok: bool, resolved: Option<CaptureFrame>)
      requires |carry| >= bytesPerFrame && nextMonotonicMs.Some? && nextWallMs.Some?
      modifies this
      ensures Value() == CutFrame(old(Value())) && (ok <==> !FateOf(old(Value())).Lost?)
      ensures resolved == if old(waiter) then Some(NewFrame(old(Value()))) else None
    {
      var frame := TakeFrame();
      ok, resolved := Push(frame);
    }

    method DropForGap(chunk: seq<byte>, driftMs: int)
      modifies this
      ensures Value() == OpenEpoch(old(Value()), chunk, driftMs)
    {
      frames := [];
      carry := chunk;
      epoch := epoch + 1;
      pendingDiscontinuityMs := Some(driftMs);
      nextMonotonicMs, nextWallMs := None, None;
      log := Log(epoch, chunk, [], {}, [], Some(driftMs));
    }

    method StartClock(completeFrames: int, observedMonotonicMs: int, observedWallMs: int)
      requires bytesPerFrame > 0 && completeFrames == |carry| / bytesPerFrame
      modifies this
      ensures Value() == SetClock(old(Value()), observedMonotonicMs, observedWallMs)
    {
      if nextMonotonicMs.None? && nextWallMs.None? && |carry| >= bytesPerFrame {
        var bufferedDurationMs := (completeFrames - 1) * frameDurationMs;
        nextMonotonicMs := Some(observedMonotonicMs - bufferedDurationMs);
        nextWallMs := Some(observedWallMs - bufferedDurationMs);
      }
    }

    /** Takes the chunk in: the gap test, the reset it causes and the clock. */
    method Take(chunk: seq<byte>, observedMonotonicMs: int, observedWallMs: int)
      requires bytesPerFrame > 0
      modifies this
      ensures Value() == Ready(old(Value()), chunk, observedMonotonicMs, observedWallMs)
    {
      carry := if |carry| == 0 then chunk else carry + chunk;
      log := log.(written := log.written + chunk);
      ghost var carried := Append(old(Value()), chunk);
      assert Value() == carried by { assert [] + chunk == chunk; }
      var completeFrames := |carry| / bytesPerFrame;
      WholeFrames(|carry|, bytesPerFrame);
      if completeFrames == 0 {
        return;
      }
      if nextMonotonicMs.Some? && nextWallMs.Some? {
        var expectedLastMonotonicMs := nextMonotonicMs.value + (completeFrames - 1) * frameDurationMs;
        var driftMs := observedMonotonicMs - expectedLastMonotonicMs;
        assert driftMs == Drift(carried, observedMonotonicMs);
        if driftMs > Max(250, frameDurationMs * 4) {
          DropForGap(chunk, driftMs);
          completeFrames := |carry| / bytesPerFrame;
        }
      }
      StartClock(completeFrames, observedMonotonicMs, observedWallMs);
    }

    /** The cutting loop. */
    method CutFrames() returns (r: WriteResult, resolved: Option<CaptureFrame>)
      requires bytesPerFrame > 0 && (|carry| >= bytesPerFrame ==> nextMonotonicMs.Some? && nextWallMs.Some?)
      modifies this
      ensures (Value(), r) == CutAll(old(Value()))
      ensures resolved ==
        if old(waiter && |carry| >= bytesPerFrame) then Some(NewFrame(old(Value()))) else None
    {
      ghost var ready := Value();
      resolved := None;
      while |carry| >= bytesPerFrame
        invariant |carry| >= bytesPerFrame ==> nextMonotonicMs.Some? && nextWallMs.Some?
        invariant CutAll(Value()) == CutAll(ready)
        invariant Value() == ready || !waiter
        invariant resolved ==
          if Value() != ready && ready.waiter && |ready.carry| >= ready.size then Some(NewFrame(ready)) else None
        decreases |carry|
      {
        var ok, given := CutOne();
        if given.Some? { resolved := given; }
        if !ok {
          return Overflow, resolved;
        }
      }
      r := Accepted;
    }

    method WriteChunk(chunk: seq<byte>, observedMonotonicMs: int, observedWallMs: int)
      returns (r: WriteResult, resolved: Option<CaptureFrame>)
      requires Valid(Value())
      modifies this
      ensures (Value(), r) == Write(old(Value()), chunk, observedMonotonicMs, observedWallMs) && Valid(Value())
      ensures
        var ready := Ready(old(Value()), chunk, observedMonotonicMs, observedWallMs);
        resolved ==
          if r != Closed && ready.waiter && |ready.carry| >= ready.size && Clocked(ready) && ready.nextWallMs.Some?
          then Some(NewFrame(ready)) else None
    {
      if closed {
        return Closed, None;
      }
      WritePlan(Value(), chunk, observedMonotonicMs, observedWallMs);
      Take(chunk, observedMonotonicMs, observedWallMs);
      r, resolved := CutFrames();
    }

    method DiscardBufferedFrames() returns (discarded: nat)
      requires Valid(Value())
      modifies this
      ensures (Value(), discarded) == Discard(old(Value())) && Valid(Value())
    {
      if closed {
        return 0;
      }
      discarded := |frames|;
      frames, carry, nextMonotonicMs, nextWallMs := [], [], None, None;
      pendingDiscontinuityMs, latestFrameMonotonicMs, epoch := None, None, epoch + 1;
      log := Log(epoch, [], [], {}, [], None);
    }

    method AbortWith(error: string) returns (woken: Option<Reply>)
      requires Valid(Value())
      modifies this
      ensures Value() == Abort(old(Value()), error) && Valid(Value()) && woken == Wake(old(Value()), Failed(error))
    {
      woken := None;
      if closed {
        return;
      }
      frames, carry, closed, terminalError := [], [], true, Some(error);
      log := Log(epoch, [], [], {}, [], None);
      if waiter {
        waiter := false;
        woken := Some(Failed(error));
      }
    }

    method StopCapture() returns (discarded: nat, woken: Option<Reply>)
      requires Valid(Value())
      modifies this
      ensures (Value(), discarded) == Stop(old(Value())) && Valid(Value()) && woken == Wake(old(Value()), Done)
    {
      woken := None;
      if closed {
        return 0, None;
      }
      discarded := |frames|;
      frames, carry, epoch, closed := [], [], epoch + 1, true;
      log := Log(epoch, [], [], {}, [], None);
      if waiter {
        waiter := false;
        woken := Some(Done);
      }
    }

    method CloseStream(error: Option<string>) returns (woken: Option<Reply>)
      requires Valid(Value())
      modifies this
      ensures Value() == Close(old(Value()), error) && Valid(Value()) && woken == Wake(old(Value()), Ending(error))
    {
      woken := None;
      if closed {
        return;
      }
      closed, terminalError := true, error;
      if waiter {
        waiter := false;
        woken := Some(if error.None? then Done else Failed(error.value));
      }
    }

    method NextFrame() returns (reply: Reply)
      requires Valid(Value())
      modifies this
      ensures (Value(), reply) == Next(old(Value())) && Valid(Value())
    {
      StepKeepsValid(Value(), Asked);
      if frames != [] {
        reply := Frame(frames[0]);
        log := log.(handed := log.handed + [frames[0]]);
        frames := frames[1..];
        return;
      }
      if closed {
        return if terminalError.Some? then Failed(terminalError.value) else Done;
      }
      if waiter {
        return SecondConsumer;
      }
      waiter := true;
      reply := Waiting;
    }
  }
}
