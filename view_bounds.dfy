/**
 * The visible window of the clipper timeline
 * (frontend/src/hooks/useClipperViewBounds.tsx, and the identical
 * `getWindowBounds` of frontend/src/components/clipper/ClipperControls.tsx):
 * the maximum clip length plus 30 s of padding on each side, starting 30 s
 * before the playback position and cut off at the end of the track.
 */
module ViewBounds {
  import opened Clipper

  const VIEW_PADDING := 30 * 1000

  /** The window is as wide as the longest clip plus both paddings. */
  const WINDOW_DURATION := MAX_CLIP_DURATION + 2 * VIEW_PADDING

  /** `getViewBounds()` with `getPosition()` = `position`. */
  function GetViewBounds(position: int, duration: int): (b: Bounds)
    ensures b.start >= 0 && b.start >= position - VIEW_PADDING
    ensures b.start == 0 || b.start == position - VIEW_PADDING
    ensures b.end <= duration && b.end <= b.start + WINDOW_DURATION
    ensures b.end == duration || b.end == b.start + WINDOW_DURATION
  {
    var start := Max(0, position - VIEW_PADDING);
    Bounds(start, Min(duration, start + WINDOW_DURATION))
  }

  /** A position inside the track lies inside the window computed from it, with the padding before it when there is room. */
  lemma PositionInView(position: int, duration: int)
    requires 0 <= position <= duration
    ensures GetViewBounds(position, duration).start <= position <= GetViewBounds(position, duration).end
    ensures position >= VIEW_PADDING ==> position - GetViewBounds(position, duration).start == VIEW_PADDING
  {
  }

  /** What a playback subscriber receives. */
  datatype PlaybackEvent = Seek(target: int) | Progress(position: int)

  predicate Outside(target: int, b: Bounds) {
    target < b.start || target > b.end
  }

  /** The `viewBounds` state and its seek subscription. */
  class ViewWindow {
    var bounds: Bounds

    /** `useState(getViewBounds)` */
    constructor (position: int, duration: int)
      ensures bounds == GetViewBounds(position, duration)
    {
      bounds := GetViewBounds(position, duration);
    }

    /**
     * The subscriber: only a seek whose target falls outside the window
     * recomputes it, from the position at that moment; every other event
     * leaves it as it is.
     */
    method OnEvent(event: PlaybackEvent, position: int, duration: int)
      modifies this
      ensures event.Seek? && Outside(event.target, old(bounds)) ==> bounds == GetViewBounds(position, duration)
      ensures !(event.Seek? && Outside(event.target, old(bounds))) ==> bounds == old(bounds)
    {
      match event
      case Progress(_) =>
      case Seek(target) =>
        if target < bounds.start || target > bounds.end {
          bounds := GetViewBounds(position, duration);
        }
    }
  }

  /**
   * After a seek to a point inside the track (the position having moved
   * there), the window holds the target, so seeking there again leaves it in
   * place.
   */
  lemma SeekSettles(target: int, duration: int)
    requires 0 <= target <= duration
    ensures !Outside(target, GetViewBounds(target, duration))
  {
    PositionInView(target, duration);
  }
}
