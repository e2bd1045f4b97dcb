/**
 * The clipper's controls (frontend/src/components/clipper/ClipperControls.tsx):
 * the mapping from a time to a horizontal position on the timeline and the
 * drag state of the two thumbs. The window state is `ViewBounds.ViewWindow`
 * and the ruler is `ClipperRuler.MarkerTimes`; the pointer geometry that turns
 * a pointer position into a time is left to the browser.
 */
module ClipperControls {
  import opened Wrappers
  import opened Clipper

  /**
   * `timeToPositionPercent(time, startTime, endTime)`: 0 before the window,
   * 100 after it, linear inside. `None` stands for the `NaN` of `0 / 0` when
   * the window is a single instant and the time is that instant.
   */
  function TimeToPositionPercent(time: real, startTime: real, endTime: real): (p: Option<real>)
    ensures p.None? <==> time == startTime == endTime
    ensures time < startTime ==> p == Some(0.0)
    ensures startTime <= time && time > endTime ==> p == Some(100.0)
    ensures startTime < endTime ==> p.Some? && 0.0 <= p.value <= 100.0
    ensures startTime < endTime && startTime <= time <= endTime ==>
      p.Some? && p.value * (endTime - startTime) == (time - startTime) * 100.0
  {
    if time < startTime then Some(0.0)
    else if time > endTime then Some(100.0)
    else if startTime == endTime then None
    else
      PercentOfWindow(time - startTime, endTime - startTime);
      Some((time - startTime) / (endTime - startTime) * 100.0)
  }

  /** The share of a window that an offset inside it covers, in percent. */
  lemma PercentOfWindow(x: real, w: real)
    requires 0.0 <= x <= w && w > 0.0
    ensures 0.0 <= x / w * 100.0 <= 100.0
    ensures x / w * 100.0 * w == x * 100.0
  {
    var q := x / w;
    assert q * w == x;
    assert 0.0 <= q;
    assert q <= 1.0;
  }

  /** A later time is never drawn to the left of an earlier one. */
  lemma TimeToPositionPercentMonotone(t1: real, t2: real, startTime: real, endTime: real)
    requires startTime < endTime && t1 <= t2
    ensures TimeToPositionPercent(t1, startTime, endTime).value <= TimeToPositionPercent(t2, startTime, endTime).value
  {
    var w := endTime - startTime;
    if startTime <= t1 && t2 <= endTime {
      DivideMonotone(t1 - startTime, t2 - startTime, w);
    }
  }

  lemma DivideMonotone(x: real, y: real, w: real)
    requires x <= y && w > 0.0
    ensures x / w * 100.0 <= y / w * 100.0
  {
    assert x / w <= y / w;
  }

  /** The clip bar's width (`endPercent - startPercent`) is never negative for an ordered clip. */
  lemma BarWidthNonNegative(clipStart: int, clipEnd: int, windowStart: int, windowEnd: int)
    requires windowStart < windowEnd && clipStart <= clipEnd
    ensures TimeToPositionPercent(clipEnd as real, windowStart as real, windowEnd as real).value
         - TimeToPositionPercent(clipStart as real, windowStart as real, windowEnd as real).value >= 0.0
  {
    TimeToPositionPercentMonotone(clipStart as real, clipEnd as real, windowStart as real, windowEnd as real);
  }

  datatype Thumb = StartThumb | EndThumb

  /** What a pointer-up asks the clipper for: `setStart(v)` or `setEnd(v)`. */
  datatype Commit = SetStart(start: int) | SetEnd(end: int)

  /**
   * The drag state of `ClipperControls` and `ClipperBounds`: which thumb is
   * held, and the targets the thumbs have been dragged to. `clipStart` and
   * `clipEnd` are the committed bounds, passed in as the props are.
   */
  class ThumbDrag {
    var dragging: Option<Thumb>
    var startTarget: int
    var endTarget: int

    constructor (clipStart: int, clipEnd: int)
      ensures dragging == None && startTarget == clipStart && endTarget == clipEnd
    {
      dragging := None;
      startTarget := clipStart;
      endTarget := clipEnd;
    }

    /** `startDisplay`: the drag target only while the start thumb is held. */
    function StartDisplay(clipStart: int): (shown: int)
      reads this
      ensures shown != clipStart ==> dragging == Some(StartThumb)
    {
      if dragging == Some(StartThumb) then startTarget else clipStart
    }

    /** `endDisplay`: the drag target only while the end thumb is held. */
    function EndDisplay(clipEnd: int): (shown: int)
      reads this
      ensures shown != clipEnd ==> dragging == Some(EndThumb)
    {
      if dragging == Some(EndThumb) then endTarget else clipEnd
    }

    /** `onPointerDown(e, thumb)` */
    method PointerDown(thumb: Thumb)
      modifies this`dragging
      ensures dragging == Some(thumb)
    {
      dragging := Some(thumb);
    }

    /**
     * `onPointerMove` once the pointer has been turned into `time`: nothing
     * happens unless a thumb is held; the held thumb's target becomes the
     * time clamped against the other thumb as displayed.
     */
    method PointerMove(time: int, clipStart: int, clipEnd: int, duration: int)
      modifies this
      ensures dragging == old(dragging)
      ensures old(dragging) == None ==> startTarget == old(startTarget) && endTarget == old(endTarget)
      ensures old(dragging) == Some(StartThumb) ==>
        startTarget == ClampStart(time, old(EndDisplay(clipEnd))) && endTarget == old(endTarget)
      ensures old(dragging) == Some(EndThumb) ==>
        endTarget == ClampEnd(time, old(StartDisplay(clipStart)), duration) && startTarget == old(startTarget)
    {
      if dragging == Some(StartThumb) {
        startTarget := ClampStart(time, EndDisplay(clipEnd));
      } else if dragging == Some(EndThumb) {
        endTarget := ClampEnd(time, StartDisplay(clipStart), duration);
      }
    }

    /**
     * `onPointerUp`: commits the held thumb's target, clamped, only when it
     * differs from the committed bound, and always lets go of the thumb.
     */
    method PointerUp(clipStart: int, clipEnd: int, duration: int) returns (commit: Option<Commit>)
      modifies this`dragging
      ensures dragging == None
      ensures old(dragging) == Some(StartThumb) && startTarget != clipStart ==>
        commit == Some(SetStart(ClampStart(startTarget, clipEnd)))
      ensures old(dragging) == Some(EndThumb) && endTarget != clipEnd ==>
        commit == Some(SetEnd(ClampEnd(endTarget, clipStart, duration)))
      ensures commit.None? <==>
        !(old(dragging) == Some(StartThumb) && startTarget != clipStart)
        && !(old(dragging) == Some(EndThumb) && endTarget != clipEnd)
    {
      commit := None;
      if dragging == Some(StartThumb) && startTarget != clipStart {
        commit := Some(SetStart(ClampStart(startTarget, EndDisplay(clipEnd))));
      } else if dragging == Some(EndThumb) && endTarget != clipEnd {
        commit := Some(SetEnd(ClampEnd(endTarget, StartDisplay(clipStart), duration)));
      }
      dragging := None;
    }
  }

  /** Whatever the drag did, a committed bound keeps a valid clip valid. */
  lemma CommitKeepsBounds(commit: Commit, clipStart: int, clipEnd: int, duration: int, target: int)
    requires ValidBounds(clipStart, clipEnd, duration)
    requires commit == SetStart(ClampStart(target, clipEnd)) || commit == SetEnd(ClampEnd(target, clipStart, duration))
    ensures commit.SetStart? ==> ValidBounds(commit.start, clipEnd, duration)
    ensures commit.SetEnd? ==> ValidBounds(clipStart, commit.end, duration)
  {
    if commit.SetStart? {
      ClampStartKeepsBounds(target, clipStart, clipEnd, duration);
    } else {
      ClampEndKeepsBounds(target, clipStart, clipEnd, duration);
    }
  }
}
