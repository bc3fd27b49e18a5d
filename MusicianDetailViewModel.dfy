/** The musician detail screen's state (`MusicianDetailViewModel`): loading one musician with
    the metadata of their YouTube videos, favourite toggling and play logging. */
module MusicianDetailViewModel {
  import opened Wrappers
  import opened Text
  import opened Lists
  import opened Musicians
  import opened YouTubeUtils
  import opened VideoModel
  import opened YouTubeRepository

  /** Eleven characters from `[A-Za-z0-9_-]`. */
  predicate IsVideoId(id: string) {
    |id| == ID_LENGTH && forall k | 0 <= k < |id| :: IsIdChar(id[k])
  }

  /** The URLs `extractYouTubeId` recognises. */
  function Recognised(): string -> bool {
    u => ExtractYouTubeId(u).Some?
  }

  /** `mapNotNull { extractYouTubeId(it) }`: the ids of the recognised URLs, in URL order. */
  function ExtractedIds(urls: seq<string>): (ids: seq<string>)
    ensures |ids| <= |urls|
    ensures forall id | id in ids :: exists u | u in urls :: ExtractYouTubeId(u) == Some(id)
    ensures forall u | u in urls && ExtractYouTubeId(u).Some? :: ExtractYouTubeId(u).value in ids
    ensures forall id | id in ids :: IsVideoId(id)
  {
    if urls == [] then [] else
      var rest := ExtractedIds(urls[1..]);
      var first := ExtractYouTubeId(urls[0]);
      assert first.Some? ==> IsVideoId(first.value);
      assert forall u | u in urls :: u == urls[0] || u in urls[1..];
      if first.Some? then [first.value] + rest else rest
  }

  /** The id of a recognised URL. */
  function IdOf(): string -> string {
    u => ExtractYouTubeId(u).GetOr("")
  }

  /** `ExtractedIds` is `mapNotNull` of the recognised URLs. */
  lemma {:induction false} ExtractedIdsMapsRecognised(urls: seq<string>)
    ensures MapsFiltered(ExtractedIds(urls), urls, Recognised(), IdOf())
  {
    if urls != [] {
      ExtractedIdsMapsRecognised(urls[1..]);
      MapsFilteredHead(urls, ExtractedIds(urls[1..]), Recognised(), IdOf());
      ExtractedIdsCons(urls);
    }
  }

  lemma ExtractedIdsCons(urls: seq<string>)
    requires urls != []
    ensures ExtractedIds(urls) ==
              (if Recognised()(urls[0]) then [IdOf()(urls[0])] else []) + ExtractedIds(urls[1..])
  {
    var first := ExtractYouTubeId(urls[0]);
    assert Recognised()(urls[0]) == first.Some? && IdOf()(urls[0]) == first.GetOr("");
  }

  /** The i-th extracted id is the id of the i-th recognised URL: `mapNotNull` keeps order. */
  lemma ExtractedIdsInUrlOrder(urls: seq<string>)
    ensures var kept := Filter(urls, Recognised());
            |ExtractedIds(urls)| == |kept| &&
            forall i | 0 <= i < |kept| :: ExtractYouTubeId(kept[i]) == Some(ExtractedIds(urls)[i])
  {
    ExtractedIdsMapsRecognised(urls);
    var ids, kept := ExtractedIds(urls), Filter(urls, Recognised());
    forall i | 0 <= i < |kept| ensures ExtractYouTubeId(kept[i]) == Some(ids[i]) {
      assert kept[i] in kept && Recognised()(kept[i]);
      assert ids[i] == IdOf()(kept[i]);
    }
  }

  /** The ids `loadMusician` asks metadata for: each recognised video once. */
  function VideoIds(urls: seq<string>): (ids: seq<string>)
    ensures NoDups(ids) && |ids| <= |urls|
    ensures forall id | id in ids :: exists u | u in urls :: ExtractYouTubeId(u) == Some(id)
    ensures forall u | u in urls && ExtractYouTubeId(u).Some? :: ExtractYouTubeId(u).value in ids
    ensures forall id | id in ids :: IsVideoId(id)
  {
    Distinct(ExtractedIds(urls))
  }

  /** The ids come in the order in which their first URL appears. */
  lemma VideoIdsInFirstOccurrenceOrder(urls: seq<string>, i: nat, j: nat)
    requires i < j < |VideoIds(urls)|
    ensures FirstIndex(ExtractedIds(urls), VideoIds(urls)[i]) < FirstIndex(ExtractedIds(urls), VideoIds(urls)[j])
  {
    DistinctKeepsFirstOccurrenceOrder(ExtractedIds(urls), i, j);
  }

  /** There is nothing to ask for exactly when no URL is recognised. */
  lemma NoVideoIds(urls: seq<string>)
    ensures VideoIds(urls) == [] <==> forall u | u in urls :: ExtractYouTubeId(u).None?
  {
    if VideoIds(urls) != [] {
      var id := VideoIds(urls)[0];
      assert id in VideoIds(urls);
    }
  }

  /** The metadata request of a load: none when there are no ids. */
  function MetadataRequest(urls: seq<string>): (r: Option<seq<string>>)
    ensures r.Some? <==> exists u | u in urls :: ExtractYouTubeId(u).Some?
    ensures r.Some? ==> r.value == VideoIds(urls)
  {
    NoVideoIds(urls);
    if VideoIds(urls) == [] then None else Some(VideoIds(urls))
  }

  /** The videos shown for a musician: each keyed by its own id, and none without a request. */
  function Videos(urls: seq<string>, callable: Callable): (r: map<string, YouTubeVideo>)
    ensures MetadataRequest(urls).None? ==> r == map[]
    ensures MetadataRequest(urls).Some? ==> r == GetVideosMetadata(VideoIds(urls), callable)
    ensures forall k | k in r :: r[k].videoId == k
  {
    if VideoIds(urls) == [] then map[] else GetVideosMetadata(VideoIds(urls), callable)
  }

  datatype DetailUiState =
    | Loading
    | Success(musician: Musician, videos: map<string, YouTubeVideo>, isFavorite: bool)
    | Error(message: string)

  const NOT_FOUND: string := "Musician not found"
  const LOAD_FAILED: string := "Failed to load musician"

  /** What the collaborators answer during one load: the musician looked up by id, the
      callable function, whether the musician is a favourite, and an exception escaping the
      `try` block with its (possibly null) message, if one does. */
  datatype LoadInputs = LoadInputs(found: Option<Musician>, callable: Callable, isFavorite: bool,
                                   escaped: Option<Option<string>>)

  /** The state a load ends in. */
  function LoadOutcome(inputs: LoadInputs): (s: DetailUiState)
    ensures s != Loading
    ensures inputs.escaped.Some? ==> s == Error(inputs.escaped.value.GetOr(LOAD_FAILED))
    ensures inputs.escaped.None? && inputs.found.None? ==> s == Error(NOT_FOUND)
    ensures s.Success? <==> inputs.escaped.None? && inputs.found.Some?
    ensures s.Success? ==>
      && s.musician == inputs.found.value
      && s.isFavorite == inputs.isFavorite
      && s.videos == Videos(inputs.found.value.youtubeUrls, inputs.callable)
  {
    if inputs.escaped.Some? then Error(inputs.escaped.value.GetOr(LOAD_FAILED))
    else if inputs.found.None? then Error(NOT_FOUND)
    else
      var m := inputs.found.value;
      DetailUiState.Success(m, Videos(m.youtubeUrls, inputs.callable), inputs.isFavorite)
  }

  /** A successful load shows only videos of the musician's own URLs, each under its id. */
  lemma LoadedVideosBelongToMusician(inputs: LoadInputs)
    requires LoadOutcome(inputs).Success?
    ensures forall k | k in LoadOutcome(inputs).videos :: LoadOutcome(inputs).videos[k].videoId == k
    ensures (forall u | u in inputs.found.value.youtubeUrls :: ExtractYouTubeId(u).None?) ==>
              LoadOutcome(inputs).videos == map[]
  {
    NoVideoIds(inputs.found.value.youtubeUrls);
  }

  /** The detail screen's view model. `history` lists every value written to the state flow,
      oldest first. Each launched coroutine runs to completion before the next call. */
  class MusicianDetailViewModel {
    var uiState: DetailUiState
    var currentMusicianId: Option<string>
    var history: seq<DetailUiState>

    predicate Valid()
      reads this
    {
      history != [] && uiState == history[|history| - 1]
    }

    constructor()
      ensures Valid()
      ensures uiState == Loading && currentMusicianId == None && history == [Loading]
    {
      uiState := Loading;
      currentMusicianId := None;
      history := [Loading];
    }

    /** `loadMusician`: remember the id, show Loading, then the musician with their videos or
        an error. Returns the ids sent to the callable function, if it is called. */
    method LoadMusician(musicianId: string, inputs: LoadInputs) returns (requested: Option<seq<string>>)
      modifies this
      ensures Valid()
      ensures currentMusicianId == Some(musicianId)
      ensures uiState == LoadOutcome(inputs)
      ensures history == old(history) + [Loading, uiState]
      ensures requested.Some? <==> uiState.Success? && MetadataRequest(uiState.musician.youtubeUrls).Some?
      ensures requested.Some? ==> requested.value == VideoIds(uiState.musician.youtubeUrls)
    {
      currentMusicianId := Some(musicianId);
      uiState := Loading;
      history := history + [uiState];
      requested := None;
      if inputs.escaped.Some? {
        uiState := Error(inputs.escaped.value.GetOr(LOAD_FAILED));
      } else if inputs.found.None? {
        uiState := Error(NOT_FOUND);
      } else {
        var musician := inputs.found.value;
        var videoIds := VideoIds(musician.youtubeUrls);
        var videos: map<string, YouTubeVideo>;
        if videoIds != [] {
          requested := Some(videoIds);
          videos := GetVideosMetadata(videoIds, inputs.callable);
        } else {
          videos := map[];
        }
        uiState := DetailUiState.Success(musician, videos, inputs.isFavorite);
      }
      history := history + [uiState];
    }

    /** `retry`: nothing before the first load, else load the same musician again. */
    method Retry(inputs: LoadInputs) returns (requested: Option<seq<string>>)
      modifies this
      requires Valid()
      ensures Valid()
      ensures old(currentMusicianId).None? ==>
        requested.None? && uiState == old(uiState) && history == old(history) && currentMusicianId.None?
      ensures old(currentMusicianId).Some? ==>
        && currentMusicianId == old(currentMusicianId)
        && uiState == LoadOutcome(inputs)
        && history == old(history) + [Loading, uiState]
    {
      requested := None;
      if currentMusicianId.Some? {
        requested := LoadMusician(currentMusicianId.value, inputs);
      }
    }

    /** `addFavorite`: only from Success; asks the repository to add the shown musician and,
        when it answers true, marks the state as a favourite. Returns the id asked for. */
    method AddFavorite(added: bool) returns (asked: Option<string>)
      modifies this
      requires Valid()
      ensures Valid()
      ensures asked.Some? <==> old(uiState).Success?
      ensures asked.Some? ==> asked.value == old(uiState).musician.id
      ensures !(old(uiState).Success? && added) ==> uiState == old(uiState) && history == old(history)
      ensures old(uiState).Success? && added ==>
        uiState == old(uiState).(isFavorite := true) && history == old(history) + [uiState]
      ensures currentMusicianId == old(currentMusicianId)
    {
      asked := None;
      if uiState.Success? {
        var current := uiState;
        asked := Some(current.musician.id);
        if added {
          uiState := current.(isFavorite := true);
          history := history + [uiState];
        }
      }
    }

    /** `removeFavorite`: as `addFavorite`, clearing the mark. */
    method RemoveFavorite(removed: bool) returns (asked: Option<string>)
      modifies this
      requires Valid()
      ensures Valid()
      ensures asked.Some? <==> old(uiState).Success?
      ensures asked.Some? ==> asked.value == old(uiState).musician.id
      ensures !(old(uiState).Success? && removed) ==> uiState == old(uiState) && history == old(history)
      ensures old(uiState).Success? && removed ==>
        uiState == old(uiState).(isFavorite := false) && history == old(history) + [uiState]
      ensures currentMusicianId == old(currentMusicianId)
    {
      asked := None;
      if uiState.Success? {
        var current := uiState;
        asked := Some(current.musician.id);
        if removed {
          uiState := current.(isFavorite := false);
          history := history + [uiState];
        }
      }
    }

    /** `logRecentlyPlayed`: only from Success, records (video id, musician id, URL). The
        state is left alone. */
    method LogRecentlyPlayed(videoId: string, youtubeUrl: string) returns (logged: Option<(string, string, string)>)
      ensures logged.Some? <==> uiState.Success?
      ensures logged.Some? ==> logged.value == (videoId, uiState.musician.id, youtubeUrl)
    {
      if uiState.Success? {
        logged := Some((videoId, uiState.musician.id, youtubeUrl));
      } else {
        logged := None;
      }
    }
  }
}
