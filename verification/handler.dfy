/**
 The request handler (`exports.handler`): decide from the request type and
 intent name what to reply, run the search pipeline for a search intent, and
 turn the options into an Alexa response.
 */
module Handler {
  import opened Js
  import opened AlexaResponse
  import Pipeline

  /** The parts of `event.request.intent` the handler reads: its `name` and
      `slots.SearchTerms.value` (missing wherever a level is missing). */
  datatype Intent = Intent(name: Option<string>, searchTerms: Option<string>)

  /** `event.request`: its `type` and its `intent`. */
  datatype Request = Request(requestType: Option<string>, intent: Option<Intent>)

  const UnimplementedIntents: seq<string> := [
    "AMAZON.LoopOffIntent",
    "AMAZON.LoopOnIntent",
    "AMAZON.NextIntent",
    "AMAZON.PreviousIntent",
    "AMAZON.RepeatIntent",
    "AMAZON.ShuffleOffIntent",
    "AMAZON.ShuffleOnIntent",
    "AMAZON.StartOverIntent"
  ]

  const LaunchText := "Tell me to play something or look for something"
  const NotUnderstoodText := "Sorry, I couldn't understand what you said. Please ask again."
  const PauseText := "Okay"
  const ResumeText := "Hold on, not implemented yet"
  const UnimplementedText := "Sorry, that functionality hasn't been implemented"

  /** What the handler does with a request: reply at once, or search. */
  datatype Decision = Reply(options: Options) | RunSearch

  /** `(event.request.intent || {}).name` */
  function IntentName(req: Request): Option<string> {
    if req.intent.Some? then req.intent.value.name else None
  }

  /** `(((event.request.intent || {}).slots || {})["SearchTerms"] || {}).value` */
  function SearchTerms(req: Request): Option<string> {
    if req.intent.Some? then req.intent.value.searchTerms else None
  }

  predicate IsPauseOrCancel(name: Option<string>) {
    name == Some("AMAZON.PauseIntent") || name == Some("AMAZON.CancelIntent")
  }

  /** `unimplemented_intents.includes(intent)`: a missing name is never listed. */
  predicate IsUnimplemented(name: Option<string>) {
    name.Some? && name.value in UnimplementedIntents
  }

  /** The if-chain of the handler, in its order. */
  function Decide(req: Request): (d: Decision)
    ensures d.RunSearch? <==>
              req.requestType != Some("LaunchRequest") && IntentName(req) == Some("SearchIntent")
              && Truthy(SearchTerms(req))
    ensures req.requestType == Some("LaunchRequest") ==> d == Reply(Options(Some(LaunchText), None, false, false))
    ensures (req.requestType != Some("LaunchRequest") && IntentName(req) == Some("SearchIntent")
             && !Truthy(SearchTerms(req))) ==>
              d == Reply(Options(Some(NotUnderstoodText), None, true, false))
    ensures (req.requestType != Some("LaunchRequest") && IntentName(req) == Some("AMAZON.ResumeIntent")) ==>
              d == Reply(Options(Some(ResumeText), None, true, false))
    ensures d.Reply? ==> d.options.audioUrl.None?
    ensures d.Reply? && d.options.pause ==> IsPauseOrCancel(IntentName(req)) && d.options.endSession
    ensures d.Reply? && !d.options.endSession ==>
              req.requestType == Some("LaunchRequest") || IsUnimplemented(IntentName(req))
  {
    var name := IntentName(req);
    if req.requestType == Some("LaunchRequest") then
      Reply(Options(Some(LaunchText), None, false, false))
    else if name == Some("SearchIntent") then
      if !Truthy(SearchTerms(req)) then Reply(Options(Some(NotUnderstoodText), None, true, false))
      else RunSearch
    else if IsPauseOrCancel(name) then
      Reply(Options(Some(PauseText), None, true, true))
    else if name == Some("AMAZON.ResumeIntent") then
      Reply(Options(Some(ResumeText), None, true, false))
    else if IsUnimplemented(name) then
      Reply(Options(Some(UnimplementedText), None, false, false))
    else
      Reply(Options(None, None, true, false))
  }

  /** The response the handler sends for a request, given the outcomes of
      the search call and of the resolver. */
  function Handle(req: Request, search: Pipeline.SearchOutcome, resolve: Pipeline.Resolver): (resp: Response)
    ensures resp.version == "1.0"
  {
    match Decide(req)
    case Reply(o) => Generate(o)
    case RunSearch => Generate(Pipeline.Search(search, resolve))
  }

  /** Only a non-launch search intent with truthy search terms reaches the
      search: every other request gets the same response whatever the
      network would have said. */
  lemma OnlySearchIntentSearches(req: Request, s: Pipeline.SearchOutcome, s': Pipeline.SearchOutcome,
                                 resolve: Pipeline.Resolver, resolve': Pipeline.Resolver)
    requires !(req.requestType != Some("LaunchRequest") && IntentName(req) == Some("SearchIntent")
               && Truthy(SearchTerms(req)))
    ensures Handle(req, s, resolve) == Handle(req, s', resolve')
  {
  }

  /** The launch request is answered before the intent is looked at. */
  lemma LaunchFirst(req: Request, s: Pipeline.SearchOutcome, resolve: Pipeline.Resolver)
    requires req.requestType == Some("LaunchRequest")
    ensures Handle(req, s, resolve) == Response("1.0", Some(Speech("PlainText", LaunchText)), None, [])
  {
  }

  /** Pause and cancel stop playback and end the session. */
  lemma PauseClearsQueue(req: Request, s: Pipeline.SearchOutcome, resolve: Pipeline.Resolver)
    requires req.requestType != Some("LaunchRequest") && IsPauseOrCancel(IntentName(req))
    ensures Handle(req, s, resolve) ==
              Response("1.0", Some(Speech("PlainText", PauseText)), Some(true), [ClearQueue("CLEAR_ALL")])
  {
  }

  /** A search intent without usable search terms asks the user to repeat
      and ends the session, without searching. */
  lemma MissingTermsNotUnderstood(req: Request, s: Pipeline.SearchOutcome, resolve: Pipeline.Resolver)
    requires req.requestType != Some("LaunchRequest") && IntentName(req) == Some("SearchIntent")
    requires !Truthy(SearchTerms(req))
    ensures Handle(req, s, resolve) == Response("1.0", Some(Speech("PlainText", NotUnderstoodText)), Some(true), [])
  {
  }

  /** Resume is answered as not implemented and ends the session. */
  lemma ResumeNotImplemented(req: Request, s: Pipeline.SearchOutcome, resolve: Pipeline.Resolver)
    requires req.requestType != Some("LaunchRequest") && IntentName(req) == Some("AMAZON.ResumeIntent")
    ensures Handle(req, s, resolve) == Response("1.0", Some(Speech("PlainText", ResumeText)), Some(true), [])
  {
  }

  /** The listed intents are answered but keep the session open; an intent
      that is neither handled nor listed just ends the session. */
  lemma UnknownIntents(req: Request, s: Pipeline.SearchOutcome, resolve: Pipeline.Resolver)
    requires req.requestType != Some("LaunchRequest")
    requires IntentName(req) != Some("SearchIntent") && !IsPauseOrCancel(IntentName(req))
    requires IntentName(req) != Some("AMAZON.ResumeIntent")
    ensures IsUnimplemented(IntentName(req)) ==>
              Handle(req, s, resolve) == Response("1.0", Some(Speech("PlainText", UnimplementedText)), None, [])
    ensures !IsUnimplemented(IntentName(req)) ==>
              Handle(req, s, resolve) == Response("1.0", None, Some(true), [])
  {
  }

  /** A search reply plays audio only when the pipeline chose a format with
      a truthy url, and then plays exactly that url. */
  lemma SearchPlaysChosenFormat(req: Request, s: Pipeline.SearchOutcome, resolve: Pipeline.Resolver)
    requires Decide(req).RunSearch?
    ensures var r := Pipeline.Fulfil(s, resolve);
            r.Playing? && Truthy(r.audioUrl) ==>
              Handle(req, s, resolve).directives == [Play("REPLACE_ALL", r.audioUrl.value, r.audioUrl.value)]
    ensures var r := Pipeline.Fulfil(s, resolve);
            r.Failed? && !r.failure.ResolverError? ==>
              Handle(req, s, resolve).directives == [] && Handle(req, s, resolve).shouldEndSession == Some(true)
  {
  }
}
