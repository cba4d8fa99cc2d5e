/**
 Extraction of video ids from a search response body:
 `(body.items || []).map(item => ((item || {}).id || {}).videoId).filter(x => x)`.
 */
module SearchIds {
  import opened Js

  /** The `id` object of one search item. */
  datatype ItemId = ItemId(videoId: Option<string>)

  /** One entry of the response's `items`; only its `id` is read. */
  datatype SearchItem = SearchItem(id: Option<ItemId>)

  /** `((item || {}).id || {}).videoId`: missing at every level that is missing. */
  function VideoIdOf(item: Option<SearchItem>): Option<string> {
    match item
    case None => None
    case Some(it) =>
      match it.id
      case None => None
      case Some(iid) => iid.videoId
  }

  /** The `.map(...)` step. */
  function VideoIds(items: seq<Option<SearchItem>>): (ids: seq<Option<string>>)
    ensures |ids| == |items|
    ensures forall i :: 0 <= i < |items| ==> ids[i] == VideoIdOf(items[i])
  {
    seq(|items|, i requires 0 <= i < |items| => VideoIdOf(items[i]))
  }

  /** The `.filter(x => x)` step: the truthy values, in order. */
  function KeepTruthy(values: seq<Option<string>>): (kept: seq<string>)
    ensures |kept| <= |values|
    ensures forall k :: 0 <= k < |kept| ==> kept[k] != ""
    ensures forall x :: x in kept <==> Some(x) in values && x != ""
  {
    if |values| == 0 then []
    else
      (if Truthy(values[0]) then [values[0].value] else []) + KeepTruthy(values[1..])
  }

  /** The ids of a search response's items, `items` missing meaning none. */
  function ExtractIds(items: Option<seq<Option<SearchItem>>>): (ids: seq<string>)
    ensures items.None? ==> ids == []
    ensures forall k :: 0 <= k < |ids| ==> ids[k] != ""
    ensures forall x ::
              x in ids <==> items.Some? && x != "" &&
                            exists i :: 0 <= i < |items.value| && VideoIdOf(items.value[i]) == Some(x)
  {
    var values := VideoIds(items.GetOr([]));
    assert forall x :: Some(x) in values <==>
             exists i :: 0 <= i < |values| && VideoIdOf(items.GetOr([])[i]) == Some(x);
    KeepTruthy(values)
  }

  /** Filtering distributes over concatenation: ids keep the relative order
      of the items they come from. */
  lemma {:induction false} KeepTruthyAppend(a: seq<Option<string>>, b: seq<Option<string>>)
    ensures KeepTruthy(a + b) == KeepTruthy(a) + KeepTruthy(b)
  {
    if |a| > 0 {
      assert (a + b)[1..] == a[1..] + b;
      KeepTruthyAppend(a[1..], b);
    } else {
      assert a + b == b;
    }
  }

  /** A single item yields its video id when that is truthy, and nothing
      otherwise: a `null` item, a missing `id` or a missing or empty `videoId`
      is dropped without failing. */
  lemma ExtractIdsSingle(item: Option<SearchItem>)
    ensures item.None? ==> ExtractIds(Some([item])) == []
    ensures item.Some? && item.value.id.None? ==> ExtractIds(Some([item])) == []
    ensures forall v: string :: item == Some(SearchItem(Some(ItemId(Some(v))))) ==>
              ExtractIds(Some([item])) == (if v == "" then [] else [v])
    ensures item == Some(SearchItem(Some(ItemId(None)))) ==> ExtractIds(Some([item])) == []
  {
  }

  /** Extraction of a concatenation of item lists is the concatenation of the
      extractions, so ids come out in the items' order. */
  lemma ExtractIdsAppend(a: seq<Option<SearchItem>>, b: seq<Option<SearchItem>>)
    ensures ExtractIds(Some(a + b)) == ExtractIds(Some(a)) + ExtractIds(Some(b))
  {
    assert VideoIds(a + b) == VideoIds(a) + VideoIds(b);
    KeepTruthyAppend(VideoIds(a), VideoIds(b));
  }
}
