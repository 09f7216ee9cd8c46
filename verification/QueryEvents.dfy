/** The events a query loop emits, and the channel that carries them. */
module QueryEvents {
  import opened Messages

  datatype Result = Result(success: bool, text: string, stopReason: string, numTurns: int, error: string)

  datatype Event =
    | ErrorEvent(error: string)
    | ResultEvent(result: Result)
    | UsageEvent(message: Message)
    | UserMessageEvent(message: Message)
    | AssistantTextEvent(text: string)
    | AssistantToolUseEvent(id: string, name: string, input: ToolInput)
    | CompactionResultEvent(messages: seq<Message>)

  predicate IsTerminal(e: Event) {
    e.ErrorEvent? || e.ResultEvent?
  }

  /** What one event does to the transcript of a listener: append, replace, or nothing. */
  function ApplyEvent(ms: seq<Message>, e: Event): seq<Message> {
    match e
    case UsageEvent(m) => ms + [m]
    case UserMessageEvent(m) => ms + [m]
    case CompactionResultEvent(messages) => messages
    case _ => ms
  }

  function Replay(base: seq<Message>, es: seq<Event>): seq<Message> {
    if es == [] then base else ApplyEvent(Replay(base, Init(es)), Last(es))
  }

  lemma ReplayAppend(base: seq<Message>, es: seq<Event>, e: Event)
    ensures Replay(base, es + [e]) == ApplyEvent(Replay(base, es), e)
  {
    assert Init(es + [e]) == es;
  }

  /** The unbuffered output channel: `sent` is everything delivered so far, in order. */
  class EventChannel {
    var sent: seq<Event>

    constructor ()
      ensures sent == []
    {
      sent := [];
    }

    method Send(e: Event)
      modifies this
      ensures sent == old(sent) + [e]
    {
      sent := sent + [e];
    }
  }
}
