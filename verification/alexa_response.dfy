/**
 The options record the skill's handlers produce and its translation into an
 Alexa response (`generate_alexa_response`).
 */
module AlexaResponse {
  import opened Js

  /** What a handler asks for: speech, a stream to play, whether to end the
      session, whether to stop playback. Absent booleans are `false`. */
  datatype Options = Options(
    text: Option<string>,
    audioUrl: Option<string>,
    endSession: bool,
    pause: bool)

  /** `outputSpeech`; its `type` is always "PlainText". */
  datatype Speech = Speech(kind: string, text: string)

  /** One entry of `response.directives`. */
  datatype Directive =
    | Play(playBehavior: string, token: string, url: string)   // "AudioPlayer.Play"
    | ClearQueue(clearBehavior: string)                       // "AudioPlayer.ClearQueue"

  /** The response object, with its `response` member flattened into it. */
  datatype Response = Response(
    version: string,
    outputSpeech: Option<Speech>,
    shouldEndSession: Option<bool>,
    directives: seq<Directive>)

  function Generate(o: Options): (resp: Response)
    ensures resp.version == "1.0"
    ensures resp.outputSpeech.Some? <==> Truthy(o.text)
    ensures resp.outputSpeech.Some? ==> resp.outputSpeech.value == Speech("PlainText", o.text.value)
    ensures resp.shouldEndSession.Some? <==> o.endSession
    ensures resp.shouldEndSession.Some? ==> resp.shouldEndSession.value
    ensures |resp.directives| == (if Truthy(o.audioUrl) then 1 else 0) + (if o.pause then 1 else 0)
    ensures Truthy(o.audioUrl) ==>
              resp.directives[0] == Play("REPLACE_ALL", o.audioUrl.value, o.audioUrl.value)
    ensures o.pause ==> resp.directives[|resp.directives| - 1] == ClearQueue("CLEAR_ALL")
  {
    var play := if Truthy(o.audioUrl) then [Play("REPLACE_ALL", o.audioUrl.value, o.audioUrl.value)] else [];
    var clear := if o.pause then [ClearQueue("CLEAR_ALL")] else [];
    Response(
      "1.0",
      if Truthy(o.text) then Some(Speech("PlainText", o.text.value)) else None,
      if o.endSession then Some(true) else None,
      play + clear)
  }

  /** The options with falsy strings dropped: all a response can depend on. */
  function DropFalsy(o: Options): Options {
    Options(
      if Truthy(o.text) then o.text else None,
      if Truthy(o.audioUrl) then o.audioUrl else None,
      o.endSession,
      o.pause)
  }

  /** Reads the options back out of a response. */
  function ReadBack(resp: Response): Options {
    Options(
      if resp.outputSpeech.Some? then Some(resp.outputSpeech.value.text) else None,
      if |resp.directives| > 0 && resp.directives[0].Play? then Some(resp.directives[0].url) else None,
      resp.shouldEndSession == Some(true),
      |resp.directives| > 0 && resp.directives[|resp.directives| - 1].ClearQueue?)
  }

  /** A response loses nothing but falsiness: reading it back gives the
      options with their falsy strings dropped, and two options records give
      the same response exactly when they agree once those are dropped. */
  lemma GenerateReadBack(o: Options, o': Options)
    ensures ReadBack(Generate(o)) == DropFalsy(o)
    ensures DropFalsy(o) == DropFalsy(o') <==> Generate(o) == Generate(o')
  {
  }
}
