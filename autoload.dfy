/**
 * The autoload effect (frontend/src/hooks/useAutoloadPlayable.ts): the
 * playable named in the URL is fetched by kind and handed to the player once,
 * unless it is already playing or was the last one loaded. The fetch hooks
 * `useTrack` and `useClip` are outside the model; their results are inputs.
 */
module Autoload {
  import opened Wrappers
  import opened Playables

  /** What a fetch hook reports: the playable once loaded, and an error message if fetching failed. */
  datatype Fetched = Fetched(playable: Option<Playable>, errorMessage: Option<string>)

  /** `trackId` and `clipId`: the URL's id goes only to the fetcher of the requested kind. */
  function RequestedIds(kind: Kind, playableId: Option<string>): (ids: (Option<string>, Option<string>))
    ensures kind == TrackKind ==> ids == (playableId, None)
    ensures kind == ClipKind ==> ids == (None, playableId)
    ensures ids.0.None? || ids.1.None?
  {
    if kind == TrackKind then (playableId, None) else (None, playableId)
  }

  /** `playableToLoad` and `errorMessage`: both taken from the fetcher of the requested kind. */
  function Chosen(kind: Kind, track: Fetched, clip: Fetched): (f: Fetched)
    ensures f == track || f == clip
    ensures kind == TrackKind ==> f == track
    ensures kind == ClipKind ==> f == clip
  {
    if kind == TrackKind then track else clip
  }

  /** The three guards of the effect, in order: nothing to load, already playing, loaded last. */
  predicate ShouldLoad(current: Option<Playable>, toLoad: Option<Playable>, lastLoadedId: Option<string>) {
    toLoad.Some? && !IsSamePlayable(current, toLoad) && lastLoadedId != Some(toLoad.value.id)
  }

  /** A load only ever happens for a playable other than the current one and with an id other than the last loaded. */
  lemma ShouldLoadExcludes(current: Option<Playable>, toLoad: Option<Playable>, lastLoadedId: Option<string>)
    ensures toLoad.None? ==> !ShouldLoad(current, toLoad, lastLoadedId)
    ensures ShouldLoad(current, toLoad, lastLoadedId) ==> current != toLoad
    ensures ShouldLoad(current, toLoad, lastLoadedId) && current.Some? ==>
      current.value.kind != toLoad.value.kind || current.value.id != toLoad.value.id
    ensures ShouldLoad(current, toLoad, lastLoadedId) ==> lastLoadedId != Some(toLoad.value.id)
  {
    SamePlayableEquivalence(current, toLoad, toLoad);
  }

  /** No two consecutive loads are of the same id. */
  predicate NoRepeat(loads: seq<Playable>) {
    forall i | 0 < i < |loads| :: loads[i].id != loads[i - 1].id
  }

  /** `lastLoadedIdRef` together with the loads the effect has issued. */
  class AutoloadEffect {
    var lastLoadedId: Option<string>
    var loads: seq<Playable>

    /** The ref holds the id of the latest load, and is empty before the first. */
    predicate Valid()
      reads this
    {
      (loads == [] <==> lastLoadedId.None?)
      && (loads != [] ==> lastLoadedId == Some(loads[|loads| - 1].id))
      && NoRepeat(loads)
    }

    constructor ()
      ensures lastLoadedId == None && loads == [] && Valid()
    {
      lastLoadedId := None;
      loads := [];
    }

    /**
     * One run of the effect against the player's current playable: when the
     * guards pass, the playable is loaded and its id becomes the last loaded
     * one; otherwise nothing changes.
     */
    method Run(current: Option<Playable>, toLoad: Option<Playable>) returns (loaded: Option<Playable>)
      requires Valid()
      modifies this
      ensures Valid()
      ensures ShouldLoad(current, toLoad, old(lastLoadedId)) ==>
        loaded == toLoad && loads == old(loads) + [toLoad.value] && lastLoadedId == Some(toLoad.value.id)
      ensures !ShouldLoad(current, toLoad, old(lastLoadedId)) ==>
        loaded == None && loads == old(loads) && lastLoadedId == old(lastLoadedId)
    {
      loaded := None;
      if toLoad.None? {
        return;
      }
      if IsSamePlayable(current, toLoad) {
        return;
      }
      if lastLoadedId == Some(toLoad.value.id) {
        return;
      }
      loads := loads + [toLoad.value];
      lastLoadedId := Some(toLoad.value.id);
      loaded := toLoad;
    }
  }
}
