/** The client-side call to the analyze route (`services/geminiService.ts`).
    The fetch is foreign: its outcome is a parameter. */
module GeminiService {
  import opened Basics
  import opened Types
  import opened JsStrings
  import AnalyzeRoute

  /** What the fetch produced: it threw, or a response came back with its
      `ok` flag and the decoded JSON body (None when decoding failed). */
  datatype FetchOutcome = FetchThrew | Responded(ok: bool, body: Option<EventData>)

  /** The record returned when anything goes wrong: the same record the
      server sends with status 500 when the model fails. */
  function ClientFallback(rawText: string): (r: EventData)
    ensures r == AnalyzeRoute.ServerFallback(rawText)
  {
    EventData("New Event", "TBD", "TBD", "TBD", Substring(rawText, 0, 100), "casual", "Host")
  }

  /** `parseEventDetails`: an ok response with a decodable body is returned
      unchanged; anything else yields the fallback. It always yields a record. */
  function ParseEventDetails(rawText: string, outcome: FetchOutcome): (r: EventData)
    ensures outcome.Responded? && outcome.ok && outcome.body.Some? ==> r == outcome.body.value
    ensures outcome.FetchThrew? || !outcome.ok || outcome.body.None? ==> r == ClientFallback(rawText)
  {
    match outcome
    case Responded(true, Some(data)) => data
    case _ => ClientFallback(rawText)
  }
}
