/** The frame-buffer side of lib/gfx.js: the in-place BGRA to RGBA byte swap,
    byte-wise buffer comparison, the cache that skips an LCD write when the
    frame did not change, and the animation flags.

    The canvas pixels (`canvas.toBuffer('raw')`) are passed in as an array;
    each `fillLcdRegion` write is recorded in `lcdWrites`. */
module Gfx {
  import opened Common

  // ---------------------------------------------------------------------
  // Byte swap
  // ---------------------------------------------------------------------

  /** The buffer after the swap loop: for the pixel starting at p, byte p
      takes byte p + 2 and byte p + 2 takes byte p. In a last, incomplete
      pixel byte p + 2 does not exist: reading it gives `undefined`, which a
      Node.js Buffer stores as 0, and the write to it is dropped. */
  function SwapRedBlue(s: seq<Byte>): (r: seq<Byte>)
    ensures |r| == |s|
  {
    seq(|s|, i requires 0 <= i < |s| =>
      if i % 4 == 0 then (if i + 2 < |s| then s[i + 2] else 0)
      else if i % 4 == 2 then s[i - 2]
      else s[i])
  }

  /** On whole pixels the swap exchanges bytes 4k and 4k + 2 and leaves bytes 4k + 1 and 4k + 3. */
  lemma SwapExchangesRedAndBlue(s: seq<Byte>, k: nat)
    requires 4 * k + 3 < |s|
    ensures SwapRedBlue(s)[4 * k] == s[4 * k + 2] && SwapRedBlue(s)[4 * k + 2] == s[4 * k]
    ensures SwapRedBlue(s)[4 * k + 1] == s[4 * k + 1] && SwapRedBlue(s)[4 * k + 3] == s[4 * k + 3]
  {
  }

  /** Swapping twice restores the buffer unless the last pixel stops before its byte 2. */
  lemma SwapIsInvolution(s: seq<Byte>)
    requires |s| % 4 == 0 || |s| % 4 == 3
    ensures SwapRedBlue(SwapRedBlue(s)) == s
  {
    var u := SwapRedBlue(SwapRedBlue(s));
    forall i | 0 <= i < |s|
      ensures u[i] == s[i]
    {
      SwapTwiceAt(s, i);
    }
  }

  /** One byte of the double swap, for a buffer whose last pixel has its byte 2. */
  lemma SwapTwiceAt(s: seq<Byte>, i: nat)
    requires |s| % 4 == 0 || |s| % 4 == 3
    requires i < |s|
    ensures SwapRedBlue(SwapRedBlue(s))[i] == s[i]
  {
    var t := SwapRedBlue(s);
    var q, m := i / 4, i % 4;
    assert i == 4 * q + m;
    SwapAt(s, q, m);
    SwapAt(t, q, m);
    if m == 0 {
      assert 4 * q + 2 < |s|;
      SwapAt(s, q, 2);
    } else if m == 2 {
      SwapAt(s, q, 0);
    }
  }

  /** Byte m of pixel q after one swap. */
  lemma SwapAt(s: seq<Byte>, q: nat, m: nat)
    requires m < 4 && 4 * q + m < |s|
    ensures SwapRedBlue(s)[4 * q + m] ==
              if m == 0 then (if 4 * q + 2 < |s| then s[4 * q + 2] else 0)
              else if m == 2 then s[4 * q]
              else s[4 * q + m]
  {
    assert (4 * q + m) % 4 == m;
  }

  /** A buffer ending in an incomplete pixel of one or two bytes has that
      pixel's first byte zeroed, so the swap cannot be undone. */
  lemma SwapZeroesIncompleteTail(s: seq<Byte>)
    requires |s| % 4 == 1 || |s| % 4 == 2
    ensures var p := |s| - |s| % 4;
            SwapRedBlue(s)[p] == 0 && SwapRedBlue(SwapRedBlue(s))[p] == 0
  {
  }

  /** `#convertBGRAtoRGBA(buffer)`: swaps in place and returns the same buffer. */
  method ConvertBGRAtoRGBA(buffer: array<Byte>) returns (r: array<Byte>)
    modifies buffer
    ensures r == buffer
    ensures buffer[..] == SwapRedBlue(old(buffer[..]))
  {
    ghost var original := buffer[..];
    var i := 0;
    while i < buffer.Length
      invariant 0 <= i && i % 4 == 0 && (i < buffer.Length + 4)
      invariant forall k :: 0 <= k < buffer.Length && k < i ==> buffer[k] == SwapRedBlue(original)[k]
      invariant forall k :: i <= k < buffer.Length ==> buffer[k] == original[k]
    {
      var red := buffer[i];
      buffer[i] := if i + 2 < buffer.Length then buffer[i + 2] else 0;
      if i + 2 < buffer.Length {
        buffer[i + 2] := red;
      }
      i := i + 4;
    }
    assert buffer[..] == SwapRedBlue(original);
    r := buffer;
  }

  /** `#areBuffersEqual(buf1, buf2)`: false on different lengths, otherwise a byte-by-byte comparison. */
  method AreBuffersEqual(buf1: seq<Byte>, buf2: seq<Byte>) returns (equal: bool)
    ensures equal <==> buf1 == buf2
  {
    if |buf1| != |buf2| {
      return false;
    }
    var i := 0;
    while i < |buf1|
      invariant 0 <= i <= |buf1|
      invariant buf1[..i] == buf2[..i]
    {
      if buf1[i] != buf2[i] {
        return false;
      }
      assert buf1[..i + 1] == buf1[..i] + [buf1[i]];
      assert buf2[..i + 1] == buf2[..i] + [buf2[i]];
      i := i + 1;
    }
    assert buf1 == buf1[..i] && buf2 == buf2[..i];
    return true;
  }

  // ---------------------------------------------------------------------
  // CanvasManager
  // ---------------------------------------------------------------------

  /** No two consecutive LCD writes carry the same frame, and the first is not empty. */
  predicate WritesDeduplicated(writes: seq<seq<Byte>>)
  {
    && (|writes| > 0 ==> writes[0] != [])
    && forall k :: 0 < k < |writes| ==> writes[k] != writes[k - 1]
  }

  /** The last frame written to the LCD, or the initial empty buffer. */
  function LastWritten(writes: seq<seq<Byte>>): seq<Byte>
  {
    if writes == [] then [] else writes[|writes| - 1]
  }

  /** Writing a frame that differs from the last one keeps the writes free of
      consecutive repeats and makes it the last frame written. */
  lemma ChangedFrameKeepsWritesDeduplicated(writes: seq<seq<Byte>>, frame: seq<Byte>)
    requires WritesDeduplicated(writes) && frame != LastWritten(writes)
    ensures WritesDeduplicated(writes + [frame])
    ensures LastWritten(writes + [frame]) == frame
  {
  }

  class CanvasManager {
    /** `lastBuffer`: the frame of the last LCD write. */
    var lastBuffer: seq<Byte>
    /** Every `fillLcdRegion` write, in order. */
    var lcdWrites: seq<seq<Byte>>
    var animationFrameRequested: bool
    var isAnimating: bool
    /** The callback of the last `requestAnimationFrame`, identified by a number. */
    var drawCallback: Option<nat>
    /** How many animation loops were started. */
    var loopsStarted: nat

    ghost predicate Valid()
      reads this
    {
      lastBuffer == LastWritten(lcdWrites) && WritesDeduplicated(lcdWrites)
    }

    constructor()
      ensures Valid()
      ensures lastBuffer == [] && lcdWrites == []
      ensures !animationFrameRequested && !isAnimating && drawCallback.None? && loopsStarted == 0
    {
      lastBuffer := [];
      lcdWrites := [];
      animationFrameRequested := false;
      isAnimating := false;
      drawCallback := None;
      loopsStarted := 0;
    }

    /** `updateStreamDeck()` on the canvas pixels `raw`: convert them in place
        and write them to the LCD unless they equal the last frame written. */
    method UpdateStreamDeck(raw: array<Byte>)
      requires Valid()
      modifies this, raw
      ensures Valid()
      ensures raw[..] == SwapRedBlue(old(raw[..]))
      ensures old(lastBuffer) == raw[..] ==> lastBuffer == old(lastBuffer) && lcdWrites == old(lcdWrites)
      ensures old(lastBuffer) != raw[..] ==> lastBuffer == raw[..] && lcdWrites == old(lcdWrites) + [raw[..]]
      ensures animationFrameRequested == old(animationFrameRequested) && isAnimating == old(isAnimating)
      ensures drawCallback == old(drawCallback) && loopsStarted == old(loopsStarted)
    {
      var bufferRGBA := ConvertBGRAtoRGBA(raw);
      var same := AreBuffersEqual(bufferRGBA[..], lastBuffer);
      if same {
        return;
      }
      ChangedFrameKeepsWritesDeduplicated(lcdWrites, bufferRGBA[..]);
      lastBuffer := bufferRGBA[..];
      lcdWrites := lcdWrites + [bufferRGBA[..]];
    }

    /** `requestAnimationFrame(callback)`: mark animating, store the callback,
        and start a loop only when no frame was already requested. */
    method RequestAnimationFrame(callback: nat)
      modifies this
      ensures isAnimating && drawCallback == Some(callback) && animationFrameRequested
      ensures loopsStarted == old(loopsStarted) + (if old(animationFrameRequested) then 0 else 1)
      ensures lastBuffer == old(lastBuffer) && lcdWrites == old(lcdWrites)
    {
      isAnimating := true;
      drawCallback := Some(callback);
      if !animationFrameRequested {
        animationFrameRequested := true;
        loopsStarted := loopsStarted + 1;
      }
    }

    /** `stopAnimation()`. */
    method StopAnimation()
      modifies this
      ensures !isAnimating
      ensures animationFrameRequested == old(animationFrameRequested) && drawCallback == old(drawCallback)
      ensures loopsStarted == old(loopsStarted) && lastBuffer == old(lastBuffer) && lcdWrites == old(lcdWrites)
    {
      isAnimating := false;
    }
  }

  /** Two updates of an unchanged canvas write the LCD once. */
  method UnchangedCanvasWrittenOnce(pixels: seq<Byte>) returns (manager: CanvasManager)
    requires pixels != [] && |pixels| % 4 == 0
    ensures fresh(manager) && manager.Valid()
    ensures manager.lcdWrites == [SwapRedBlue(pixels)]
  {
    manager := new CanvasManager();
    var first := new Byte[|pixels|](i requires 0 <= i < |pixels| => pixels[i]);
    assert first[..] == pixels;
    manager.UpdateStreamDeck(first);
    var second := new Byte[|pixels|](i requires 0 <= i < |pixels| => pixels[i]);
    assert second[..] == pixels;
    manager.UpdateStreamDeck(second);
  }
}
