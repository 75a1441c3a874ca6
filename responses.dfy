/**
 * The answer the assistant sends to the browser (`AIResponse`, declared alike in
 * server/localAI.ts and client/src/lib/intents.ts).
 */
module Responses {
  import opened Wrappers

  /** `"navigate" | "create" | "respond" | "open_modal"`; `Create` is the client's
      legacy action, which the server no longer produces. */
  datatype Action = Navigate | Create | Respond | OpenModal

  /** `module?`, `type?`, `data?.search` and `message?`. The only payload the server
      puts in `data` is the search term, so `data` is modelled by that term. */
  datatype AIResponse = AIResponse(
    action: Action,
    moduleName: Option<string>,
    kind: Option<string>,
    search: Option<string>,
    message: Option<string>)

  /** An answer carrying only a message. */
  function Say(text: string): AIResponse {
    AIResponse(Respond, None, None, None, Some(text))
  }

  /** An answer that switches the page to module `name`. */
  function NavigateTo(name: string, text: string): AIResponse {
    AIResponse(Navigate, Some(name), None, None, Some(text))
  }

  /** JavaScript truthiness of an optional string: present and not empty. */
  predicate Truthy(o: Option<string>) {
    o.Some? && o.value != ""
  }
}
