/**
 The search pipeline (`search`): search the video API, resolve the first
 result, pick its best audio format, and turn the outcome into options for
 the response. The two network calls are inputs: the search call's outcome
 as a value, the resolver as a function from video id to its outcome.
 */
module Pipeline {
  import opened Js
  import opened Formats
  import opened SearchIds
  import opened AlexaResponse

  /** What the search request delivered: whether the transport failed, the
      coerced status code (`~~(response || {}).statusCode`, 0 without a
      response) and the body's `items`. */
  datatype SearchOutcome = SearchOutcome(
    transportError: bool,
    statusCode: Int32,
    items: Option<seq<Option<SearchItem>>>)

  /** What the resolver reports for a video: its title and its `formats`. */
  datatype VideoInfo = VideoInfo(title: string, formats: Option<seq<Option<Format>>>)

  /** The resolver's outcome. Its error object reaches the response as is,
      so it is represented by the options it reads as. */
  datatype ResolveOutcome = ResolveFailed(error: Options) | Resolved(info: VideoInfo)

  type Resolver = string -> ResolveOutcome

  /** The ways a run can stop early. */
  datatype Failure =
    | SearchFailed                    // transport error or status other than 200
    | NoResults                       // no usable video id in the response
    | ResolverError(error: Options)   // the resolver's own error, passed through
    | NoCompatibleAudio               // no selectable format

  /** The single outcome of one run. */
  datatype Fulfilment = Failed(failure: Failure) | Playing(title: string, audioUrl: Option<string>)

  const SearchFailedText := "Sorry, searching YouTube failed. Try again later."
  const NoResultsText := "Sorry, didn't find any results for that search. Try a different search."
  const NoCompatibleAudioText := "Sorry, this video didn't have a compatible audio file available."

  predicate SearchRejected(s: SearchOutcome) {
    s.transportError || s.statusCode != 200
  }

  /** First stage: the ordered video ids, or the failure that stops the run. */
  function SearchStage(s: SearchOutcome): (r: Result<seq<string>, Failure>)
    ensures r == Err(SearchFailed) <==> SearchRejected(s)
    ensures r == Err(NoResults) <==> !SearchRejected(s) && ExtractIds(s.items) == []
    ensures r.Ok? ==> r.value == ExtractIds(s.items) && |r.value| > 0
  {
    if SearchRejected(s) then Err(SearchFailed)
    else
      var ids := ExtractIds(s.items);
      if |ids| == 0 then Err(NoResults) else Ok(ids)
  }

  /** Second stage: resolve the first id only. */
  function ResolveStage(ids: seq<string>, resolve: Resolver): Result<VideoInfo, Failure>
    requires |ids| > 0
  {
    match resolve(ids[0])
    case ResolveFailed(e) => Err(ResolverError(e))
    case Resolved(info) => Ok(info)
  }

  /** Third stage: the chosen format's `url`. */
  function SelectStage(info: VideoInfo): Result<Option<string>, Failure> {
    match FindBestFormat(info.formats.GetOr([]))
    case None => Err(NoCompatibleAudio)
    case Some(best) => Ok(best.url)
  }

  /** The three stages chained, each run only if the one before succeeded. */
  function Fulfil(s: SearchOutcome, resolve: Resolver): (r: Fulfilment)
    ensures SearchRejected(s) ==> r == Failed(SearchFailed)
    ensures !SearchRejected(s) && ExtractIds(s.items) == [] ==> r == Failed(NoResults)
    ensures r.Failed? && r.failure.ResolverError? ==>
              resolve(ExtractIds(s.items)[0]) == ResolveFailed(r.failure.error)
    ensures r.Playing? ==>
              && !SearchRejected(s)
              && |ExtractIds(s.items)| > 0
              && var outcome := resolve(ExtractIds(s.items)[0]);
              && outcome.Resolved?
              && r.title == outcome.info.title
              && var best := FindBestFormat(outcome.info.formats.GetOr([]));
              && best.Some?
              && Selectable(best.value)
              && r.audioUrl == best.value.url
  {
    match SearchStage(s)
    case Err(f) => Failed(f)
    case Ok(ids) =>
      match ResolveStage(ids, resolve)
      case Err(f) => Failed(f)
      case Ok(info) =>
        match SelectStage(info)
        case Err(f) => Failed(f)
        case Ok(url) => Playing(info.title, url)
  }

  /** The final callback: a failure's payload is the reply itself; success
      speaks the title and plays the chosen stream. */
  function ToOptions(r: Fulfilment): (o: Options)
    ensures r.Failed? && !r.failure.ResolverError? ==> o.endSession && !o.pause && o.audioUrl.None?
    ensures r.Failed? && r.failure.ResolverError? ==> o == r.failure.error
    ensures r.Playing? ==> o.text == Some("Playing " + r.title) && o.audioUrl == r.audioUrl
    ensures r.Playing? ==> !o.endSession && !o.pause
  {
    match r
    case Failed(SearchFailed) => Options(Some(SearchFailedText), None, true, false)
    case Failed(NoResults) => Options(Some(NoResultsText), None, true, false)
    case Failed(ResolverError(e)) => e
    case Failed(NoCompatibleAudio) => Options(Some(NoCompatibleAudioText), None, true, false)
    case Playing(title, url) => Options(Some("Playing " + title), url, false, false)
  }

  /** The options `search` hands to its callback. */
  function Search(s: SearchOutcome, resolve: Resolver): (o: Options)
    ensures SearchRejected(s) ==> o == Options(Some(SearchFailedText), None, true, false)
    ensures !SearchRejected(s) && ExtractIds(s.items) == [] ==> o == Options(Some(NoResultsText), None, true, false)
    ensures o.pause || (o.audioUrl.Some? && o.endSession) ==>
              !SearchRejected(s) && |ExtractIds(s.items)| > 0 && resolve(ExtractIds(s.items)[0]).ResolveFailed?
  {
    ToOptions(Fulfil(s, resolve))
  }

  /** A failed search never consults the resolver: any two resolvers give the
      same, fixed reply. */
  lemma SearchFailureShortCircuits(s: SearchOutcome, resolve: Resolver, other: Resolver)
    requires SearchRejected(s)
    ensures Search(s, resolve) == Search(s, other)
    ensures Search(s, resolve) == Options(Some(SearchFailedText), None, true, false)
  {
  }

  /** A search without usable ids never consults the resolver either. */
  lemma NoResultsShortCircuits(s: SearchOutcome, resolve: Resolver, other: Resolver)
    requires !SearchRejected(s) && ExtractIds(s.items) == []
    ensures Search(s, resolve) == Search(s, other)
    ensures Search(s, resolve) == Options(Some(NoResultsText), None, true, false)
  {
  }

  /** Only the first id is resolved: resolvers that agree on it give the
      same reply, whatever they say about the other ids. */
  lemma OnlyFirstIdResolved(s: SearchOutcome, resolve: Resolver, other: Resolver)
    requires !SearchRejected(s) && |ExtractIds(s.items)| > 0
    requires resolve(ExtractIds(s.items)[0]) == other(ExtractIds(s.items)[0])
    ensures Search(s, resolve) == Search(s, other)
  {
  }

  /** A resolver error becomes the reply unchanged, and the formats are not
      looked at. */
  lemma ResolverErrorPassesThrough(s: SearchOutcome, resolve: Resolver, e: Options)
    requires !SearchRejected(s) && |ExtractIds(s.items)| > 0
    requires resolve(ExtractIds(s.items)[0]) == ResolveFailed(e)
    ensures Search(s, resolve) == e
  {
  }

  /** Once the first id resolves, the reply depends only on the chosen
      format: it plays that format's url, or reports that no compatible
      audio exists (ending the session) when nothing is selectable. */
  lemma ResolvedOutcome(s: SearchOutcome, resolve: Resolver, info: VideoInfo)
    requires !SearchRejected(s) && |ExtractIds(s.items)| > 0
    requires resolve(ExtractIds(s.items)[0]) == Resolved(info)
    ensures (forall i :: 0 <= i < |info.formats.GetOr([])| ==> !Selectable(Normalize(info.formats.GetOr([])[i])))
            <==> Search(s, resolve) == Options(Some(NoCompatibleAudioText), None, true, false)
    ensures forall i :: IsFirstBest(info.formats.GetOr([]), i) ==>
              Search(s, resolve) == Options(Some("Playing " + info.title), Normalize(info.formats.GetOr([])[i]).url, false, false)
  {
    FindBestFormatIsFirstBest(info.formats.GetOr([]));
  }
}
