/**
 * What a command handler does to the outside world, recorded as a trace:
 * the HTTP requests it issues and the chat messages it sends or edits, in
 * order, followed by how the handler ended (normally, or in a panic).
 * Network answers are inputs to the model, never computed by it.
 */
module Io {
  import Json
  import opened Wrappers
  import opened Embeds

  /** One visible effect of a handler. */
  datatype Event =
    | HttpGet(url: string)                    // reqwest::get
    | HttpPost(url: string, body: Json.Json)  // reqwest Client::post(..).json(..)
    | SendText(text: string)                  // a new plain-text message
    | EditText(text: string)                  // replacing the text of the message sent earlier
    | SendEmbed(embed: EmbedData)             // a new message holding one embed

  datatype Outcome = Completed | Panicked(message: string)

  /** The effects of one handler invocation, in the order they happen. */
  datatype Run = Run(events: seq<Event>, outcome: Outcome)

  /**
   * What one HTTP round trip produced: the request could not be sent, the
   * body could not be read, or a body was read, given here already parsed
   * (`None` when it is not valid JSON).
   */
  datatype Download = SendFailed | ReadFailed | Received(body: Option<Json.Json>)
  {
    predicate Parsed() { Received? && body.Some? }
  }

  /** The text of a panic raised by `Result::unwrap` (the error's own text is not modelled). */
  const UnwrapPanic: string := "called `Result::unwrap()` on an `Err` value"

  /** How many events of a trace are new plain-text messages. */
  function CountSends(events: seq<Event>): (n: nat)
    ensures n <= |events|
  {
    if events == [] then 0 else (if events[0].SendText? then 1 else 0) + CountSends(events[1..])
  }

  /** How many events of a trace edit an earlier message. */
  function CountEdits(events: seq<Event>): (n: nat)
    ensures n <= |events|
  {
    if events == [] then 0 else (if events[0].EditText? then 1 else 0) + CountEdits(events[1..])
  }
}
