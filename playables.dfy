/**
 * Playable identity helpers (frontend/src/contexts/playback/utils.ts).
 * A playable is a track or a clip; `null` and `undefined` are both `None`,
 * since every helper treats them alike.
 */
module Playables {
  import opened Wrappers

  datatype Kind = TrackKind | ClipKind

  /** The fields of a track or clip that playback and clipping look at (durations in ms). */
  datatype Playable = Playable(kind: Kind, id: string, duration: int)

  /** `playable?.kind === "track"` */
  predicate IsTrack(p: Option<Playable>) {
    p.Some? && p.value.kind == TrackKind
  }

  /** `playable?.kind === "clip"` */
  predicate IsClip(p: Option<Playable>) {
    p.Some? && p.value.kind == ClipKind
  }

  /** A playable is never both a track and a clip. */
  lemma TrackClipExclusive(p: Option<Playable>)
    ensures !(IsTrack(p) && IsClip(p))
    ensures p.Some? ==> IsTrack(p) != IsClip(p)
  {
  }

  /** The playable itself when it is a track, otherwise null. */
  function AsTrack(p: Option<Playable>): (r: Option<Playable>)
    ensures r.Some? <==> IsTrack(p)
    ensures r.Some? ==> r == p
  {
    if IsTrack(p) then p else None
  }

  /** The playable itself when it is a clip, otherwise null. */
  function AsClip(p: Option<Playable>): (r: Option<Playable>)
    ensures r.Some? <==> IsClip(p)
    ensures r.Some? ==> r == p
  {
    if IsClip(p) then p else None
  }

  /** Shared null handling of the three identity checks: both missing is "same", one missing is "different". */
  function SameById(a: Option<Playable>, b: Option<Playable>): (same: bool)
    ensures a.None? && b.None? ==> same
    ensures a.None? != b.None? ==> !same
    ensures a.Some? && b.Some? ==> (same <==> a.value.id == b.value.id)
  {
    if a.None? && b.None? then true
    else if a.None? || b.None? then false
    else a.value.id == b.value.id
  }

  /** `isSameTrack`: null rules, then id equality only. */
  function IsSameTrack(a: Option<Playable>, b: Option<Playable>): (same: bool)
    ensures same <==> SameById(a, b)
  {
    SameById(a, b)
  }

  /** `isSameClip`: null rules, then id equality only. */
  function IsSameClip(a: Option<Playable>, b: Option<Playable>): (same: bool)
    ensures same <==> SameById(a, b)
  {
    SameById(a, b)
  }

  /** `isSamePlayable`: null rules, then kind and id equality. */
  function IsSamePlayable(a: Option<Playable>, b: Option<Playable>): (same: bool)
    ensures a.None? && b.None? ==> same
    ensures a.None? != b.None? ==> !same
    ensures a.Some? && b.Some? ==> (same <==> a.value.kind == b.value.kind && a.value.id == b.value.id)
  {
    if a.None? && b.None? then true
    else if a.None? || b.None? then false
    else a.value.kind == b.value.kind && a.value.id == b.value.id
  }

  /** `isSamePlayable` is an equivalence: reflexive, symmetric and transitive. */
  lemma SamePlayableEquivalence(a: Option<Playable>, b: Option<Playable>, c: Option<Playable>)
    ensures IsSamePlayable(a, a)
    ensures IsSamePlayable(a, b) == IsSamePlayable(b, a)
    ensures IsSamePlayable(a, b) && IsSamePlayable(b, c) ==> IsSamePlayable(a, c)
  {
  }

  /** Same playable implies same id; the converse needs the kinds to agree. */
  lemma SamePlayableVersusSameId(a: Option<Playable>, b: Option<Playable>)
    ensures IsSamePlayable(a, b) ==> IsSameTrack(a, b) && IsSameClip(a, b)
    ensures IsTrack(a) && IsTrack(b) ==> (IsSameTrack(AsTrack(a), AsTrack(b)) <==> IsSamePlayable(a, b))
    ensures IsClip(a) && IsClip(b) ==> (IsSameClip(AsClip(a), AsClip(b)) <==> IsSamePlayable(a, b))
  {
  }
}
