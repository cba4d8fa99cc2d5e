/**
 Concrete scenarios of the search pipeline: a successful search, the
 three early failures, and a lone stream without a bitrate.
 */
module Scenarios {
  import opened Js
  import opened Formats
  import opened SearchIds
  import opened AlexaResponse
  import opened Pipeline

  function Item(id: string): Option<SearchItem> {
    Some(SearchItem(Some(ItemId(Some(id)))))
  }

  const ThreeHits := SearchOutcome(false, 200, Some([Item("abc123"), Item("def456"), Item("ghi789")]))

  /** A video-only stream and one M4A/AAC stream at 128 kbit/s. */
  const LofiFormats: seq<Option<Format>> := [
    Some(Format(true, Some("mp4"), None, 0, None)),
    Some(Format(false, Some("m4a"), Some("aac"), 128, Some("u1")))
  ]

  /** The search yields the three ids, first hit first. */
  lemma FirstIdOfHits()
    ensures ExtractIds(ThreeHits.items) == ["abc123", "def456", "ghi789"]
  {
  }

  /** Of the two streams, the AAC one is chosen. */
  lemma LofiChoosesAac()
    ensures FindBestFormat(LofiFormats) == Some(LofiFormats[1].value)
  {
  }

  /** Only a hint for the solver: the concatenation in the spoken reply,
      stated apart so that the scenario below need not unfold it. */
  lemma SpokenTitle()
    ensures "Playing " + "Lofi Mix" == "Playing Lofi Mix"
  {
  }

  /** A successful search plays the AAC stream of the first hit, whatever
      the resolver would say about the other hits. */
  lemma PlaysFirstHit(resolve: Resolver)
    requires resolve("abc123") == Resolved(VideoInfo("Lofi Mix", Some(LofiFormats)))
    ensures Search(ThreeHits, resolve) == Options(Some("Playing Lofi Mix"), Some("u1"), false, false)
  {
    SpokenTitle();
    FirstIdOfHits();
    LofiChoosesAac();
    assert SelectStage(VideoInfo("Lofi Mix", Some(LofiFormats))) == Ok(Some("u1"));
    assert Fulfil(ThreeHits, resolve) == Playing("Lofi Mix", Some("u1"));
  }

  /** An HTTP 500 from the search API. */
  lemma ServerErrorFails(resolve: Resolver)
    ensures Search(SearchOutcome(false, 500, Some([Item("abc123")])), resolve)
         == Options(Some(SearchFailedText), None, true, false)
  {
  }

  /** A search with zero items. */
  lemma EmptySearchFails(resolve: Resolver)
    ensures Search(SearchOutcome(false, 200, Some([])), resolve) == Options(Some(NoResultsText), None, true, false)
  {
  }

  /** An M4A/AAC stream that also carries video. */
  const VideoOnlyFormats: seq<Option<Format>> := [Some(Format(true, Some("m4a"), Some("aac"), 128, Some("v")))]

  /** Every format carries video. */
  lemma VideoOnlyFormatsFail(resolve: Resolver)
    requires resolve("abc123") == Resolved(VideoInfo("Clip", Some(VideoOnlyFormats)))
    ensures Search(ThreeHits, resolve) == Options(Some(NoCompatibleAudioText), None, true, false)
  {
    FirstIdOfHits();
    assert !Selectable(Normalize(VideoOnlyFormats[0]));
    ResolvedOutcome(ThreeHits, resolve, VideoInfo("Clip", Some(VideoOnlyFormats)));
  }

  /** A qualifying stream without a bitrate is not chosen even when it is the
      only one: its coerced bitrate, 0, does not beat that of the initial
      `null`, also 0, so the fold keeps `null`. */
  lemma MissingBitrateIsNeverChosen()
    ensures FindBestFormat([Some(Format(false, Some("m4a"), Some("aac"), 0, Some("u")))]) == None
  {
  }
}
