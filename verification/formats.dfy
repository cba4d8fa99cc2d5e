/**
 Selection of the best audio-only MP4/AAC format from the list of formats a
 video resolves to (`find_best_format`).
 */
module Formats {
  import opened Js

  /** One entry of a video's format list, reduced to the fields selection reads. */
  datatype Format = Format(
    hasVideo: bool,               // the entry's `bitrate` (video bitrate) is truthy
    container: Option<string>,
    audioEncoding: Option<string>,
    audioBitrate: Int32,          // `~~audioBitrate`: 0 when missing or non-numeric
    url: Option<string>)

  /** What a `null` entry becomes under `format || {}`. */
  const EmptyFormat := Format(false, None, None, 0, None)

  function Normalize(entry: Option<Format>): Format {
    entry.GetOr(EmptyFormat)
  }

  /** Passes the first two filters: no video, M4A container, AAC audio. */
  predicate AudioOnlyAac(f: Format) {
    !f.hasVideo && f.container == Some("m4a") && f.audioEncoding == Some("aac")
  }

  /** Can ever win the fold: it passes the filters and beats the initial
      accumulator, whose coerced bitrate is `~~undefined`, that is 0. */
  predicate Selectable(f: Format) {
    AudioOnlyAac(f) && f.audioBitrate > 0
  }

  /** `~~((current_best || {}).audioBitrate)` */
  function IncumbentBitrate(best: Option<Format>): Int32 {
    if best.Some? then best.value.audioBitrate else 0
  }

  /** The reducer: one step of the fold over the format list. */
  function Consider(best: Option<Format>, entry: Option<Format>): Option<Format> {
    var f := Normalize(entry);
    if f.hasVideo then best
    else if !(f.container == Some("m4a") && f.audioEncoding == Some("aac")) then best
    else if f.audioBitrate <= IncumbentBitrate(best) then best
    else Some(f)
  }

  /** `formats.reduce(Consider, null)`, written as recursion on the prefix so
      that the last entry is the last one the reducer sees. */
  function FindBestFormat(formats: seq<Option<Format>>): (best: Option<Format>)
    ensures best.Some? ==> Selectable(best.value)
    ensures best.Some? ==> exists i :: 0 <= i < |formats| && best.value == Normalize(formats[i])
    ensures best.None? <==> forall i :: 0 <= i < |formats| ==> !Selectable(Normalize(formats[i]))
  {
    if |formats| == 0 then None
    else
      var prefix := formats[..|formats| - 1];
      assert forall i :: 0 <= i < |prefix| ==> prefix[i] == formats[i];
      Consider(FindBestFormat(prefix), formats[|formats| - 1])
  }

  /** Entry `i` is the one the selection policy promises: it is selectable,
      no selectable entry has a higher bitrate, and every selectable entry
      before it has a strictly lower one (ties go to the earliest). */
  ghost predicate IsFirstBest(formats: seq<Option<Format>>, i: int) {
    && 0 <= i < |formats|
    && Selectable(Normalize(formats[i]))
    && (forall j :: 0 <= j < |formats| && Selectable(Normalize(formats[j])) ==>
          Normalize(formats[j]).audioBitrate <= Normalize(formats[i]).audioBitrate)
    && (forall j :: 0 <= j < i && Selectable(Normalize(formats[j])) ==>
          Normalize(formats[j]).audioBitrate < Normalize(formats[i]).audioBitrate)
  }

  /** At most one index is the first best one. */
  lemma FirstBestUnique(formats: seq<Option<Format>>, i: int, j: int)
    requires IsFirstBest(formats, i) && IsFirstBest(formats, j)
    ensures i == j
  {
  }

  /** The fold returns exactly the entry the policy names: something is
      returned iff a first-best entry exists, and then it is that entry. */
  lemma {:induction false} FindBestFormatIsFirstBest(formats: seq<Option<Format>>)
    ensures FindBestFormat(formats).Some? <==> exists i :: IsFirstBest(formats, i)
    ensures forall i :: IsFirstBest(formats, i) ==> FindBestFormat(formats) == Some(Normalize(formats[i]))
  {
    if |formats| > 0 {
      var k := FirstBestIndex(formats);
      forall i | IsFirstBest(formats, i)
        ensures FindBestFormat(formats) == Some(Normalize(formats[i]))
      {
        FirstBestUnique(formats, i, k);
      }
    }
  }

  /** The index of the first best entry in a non-empty list, or -1 when there
      is none; the witness for FindBestFormatIsFirstBest. */
  lemma {:induction false} FirstBestIndex(formats: seq<Option<Format>>) returns (k: int)
    requires |formats| > 0
    ensures FindBestFormat(formats).None? ==> k == -1
    ensures FindBestFormat(formats).Some? ==>
              IsFirstBest(formats, k) && FindBestFormat(formats) == Some(Normalize(formats[k]))
  {
    var n := |formats| - 1;
    var prefix := formats[..n];
    assert forall i :: 0 <= i < n ==> prefix[i] == formats[i];
    var acc := FindBestFormat(prefix);
    var e := Normalize(formats[n]);
    if acc.None? {
      if Selectable(e) {
        k := n;
      } else {
        k := -1;
      }
    } else {
      var p := FirstBestIndex(prefix);
      if Selectable(e) && e.audioBitrate > acc.value.audioBitrate {
        k := n;
        assert IsFirstBest(formats, k);
      } else {
        k := p;
        assert IsFirstBest(formats, k);
      }
    }
  }
}
