/** The coordinator: one event loop owning the registry of sub-agents. */
module Coordinator {
  import opened Messages
  import Text

  datatype Final = Completed | Killed | Failed

  datatype Status = Running | Ended(how: Final)

  datatype Record = Record(
    id: string,
    definition: string,
    prompt: string,
    status: Status,
    result: string,
    error: string,
    usage: Option<Usage>)

  /** A response channel; each request brings its own. */
  type Channel = nat

  /** What was sent on the channel of a Wait request. */
  datatype Answer = Answer(channel: Channel, record: Option<Record>)

  /** What was sent on the channel of a confirm request. */
  datatype Response = Response(channel: Channel, approved: bool)

  /** `listening` says whether a confirm channel is still open when the answer is sent on it. */
  datatype Event =
    | Spawn(definition: string, prompt: string)
    | Kill(id: string)
    | Confirm(id: string, approved: bool, listening: bool)
    | Get(id: string)
    | List
    | TotalUsage
    | HasPendingConfirm
    | Wait(id: string, channel: Channel)
    | Done(id: string, how: Final, result: string, error: string, usage: Option<Usage>)
    | AskConfirm(id: string, channel: Channel)

  /** The fields of the coordinator, and what it has sent to the outside so far. */
  datatype State = State(
    agents: map<string, Record>,
    completed: map<string, Record>,
    nextID: nat,
    pending: map<string, Channel>,
    order: seq<string>,
    total: Option<Usage>,
    waiters: map<string, seq<Channel>>,
    hasSink: bool,
    answers: seq<Answer>,
    responses: seq<Response>,
    sunk: seq<Usage>,
    cancelled: seq<string>)

  function Initial(hasSink: bool): State {
    State(map[], map[], 0, map[], [], None, map[], hasSink, [], [], [], [])
  }

  // ---- Agent names ----

  function AgentName(n: nat): string {
    "agent-" + Text.Decimal(n)
  }

  // ---- What each event does ----

  function HandleSpawn(s: State, definition: string, prompt: string): State {
    var id := AgentName(s.nextID);
    s.(agents := s.agents[id := Record(id, definition, prompt, Running, "", "", None)], nextID := s.nextID + 1)
  }

  function HandleKill(s: State, id: string): State {
    if id in s.agents && s.agents[id].status.Running? then s.(cancelled := s.cancelled + [id]) else s
  }

  function HandleConfirm(s: State, id: string, approved: bool, listening: bool): State {
    s.(pending := s.pending - {id}, order := RemoveFirst(s.order, id),
       responses := if id in s.pending && listening then s.responses + [Response(s.pending[id], approved)]
                    else s.responses)
  }

  function WaitersOf(s: State, id: string): seq<Channel> {
    if id in s.waiters then s.waiters[id] else []
  }

  function HandleWait(s: State, id: string, channel: Channel): State {
    if id in s.agents then s.(waiters := s.waiters[id := WaitersOf(s, id) + [channel]])
    else if id in s.completed then
      s.(answers := s.answers + [Answer(channel, Some(s.completed[id]))], completed := s.completed - {id})
    else s.(answers := s.answers + [Answer(channel, None)])
  }

  function FinalRecord(a: Record, how: Final, result: string, error: string, usage: Option<Usage>): Record {
    a.(status := Ended(how), result := result, error := error, usage := usage)
  }

  function Tell(channels: seq<Channel>, r: Record): seq<Answer> {
    if channels == [] then [] else Tell(Init(channels), r) + [Answer(Last(channels), Some(r))]
  }

  function HandleDone(s: State, id: string, how: Final, result: string, error: string, usage: Option<Usage>): State {
    if id !in s.agents then s
    else
      var r := FinalRecord(s.agents[id], how, result, error, usage);
      s.(agents := s.agents - {id}, completed := s.completed[id := r],
         total := Accumulate(s.total, usage),
         sunk := if s.hasSink && usage.Some? then s.sunk + [usage.value] else s.sunk,
         answers := s.answers + Tell(WaitersOf(s, id), r), waiters := s.waiters - {id},
         pending := s.pending - {id}, order := RemoveFirst(s.order, id))
  }

  function HandleAskConfirm(s: State, id: string, channel: Channel): State {
    s.(pending := s.pending[id := channel], order := s.order + [id])
  }

  function Oldest(s: State): string {
    if s.order != [] then s.order[0] else ""
  }

  function Step(s: State, e: Event): State {
    match e
    case Spawn(definition, prompt) => HandleSpawn(s, definition, prompt)
    case Kill(id) => HandleKill(s, id)
    case Confirm(id, approved, listening) => HandleConfirm(s, id, approved, listening)
    case Wait(id, channel) => HandleWait(s, id, channel)
    case Done(id, how, result, error, usage) => HandleDone(s, id, how, result, error, usage)
    case AskConfirm(id, channel) => HandleAskConfirm(s, id, channel)
    case Get(_) => s
    case List => s
    case TotalUsage => s
    case HasPendingConfirm => s
  }

  function Run(hasSink: bool, es: seq<Event>): State {
    if es == [] then Initial(hasSink) else Step(Run(hasSink, Init(es)), Last(es))
  }

  // ---- The event loop's object ----

  class Coordinator {
    var agents: map<string, Record>
    var completed: map<string, Record>
    var nextID: nat
    var pending: map<string, Channel>
    var order: seq<string>
    var total: Option<Usage>
    var waiters: map<string, seq<Channel>>
    const hasSink: bool
    var answers: seq<Answer>
    var responses: seq<Response>
    var sunk: seq<Usage>
    var cancelled: seq<string>

    ghost function View(): State
      reads this
    {
      State(agents, completed, nextID, pending, order, total, waiters, hasSink, answers, responses, sunk, cancelled)
    }

    constructor (hasSink: bool)
      ensures View() == Initial(hasSink)
    {
      this.hasSink := hasSink;
      agents, completed, nextID, pending, order, total, waiters := map[], map[], 0, map[], [], None, map[];
      answers, responses, sunk, cancelled := [], [], [], [];
    }

    method Spawned(definition: string, prompt: string) returns (id: string)
      modifies this
      ensures View() == Step(old(View()), Spawn(definition, prompt))
      ensures id == AgentName(old(nextID))
    {
      id := AgentName(nextID);
      nextID := nextID + 1;
      agents := agents[id := Record(id, definition, prompt, Running, "", "", None)];
    }

    method AgentDone(id: string, how: Final, result: string, error: string, usage: Option<Usage>)
      modifies this
      ensures View() == Step(old(View()), Done(id, how, result, error, usage))
    {
      hide Accumulate, Tell, RemoveFirst, FinalRecord;
      if id !in agents {
        return;
      }
      var a := FinalRecord(agents[id], how, result, error, usage);
      AccumulateUsage(usage);
      SinkUsage(usage);
      NotifyWaiters(id, a);
      Retire(id, a);
    }

    method SinkUsage(usage: Option<Usage>)
      modifies this`sunk
      ensures sunk == if hasSink && usage.Some? then old(sunk) + [usage.value] else old(sunk)
    {
      if hasSink && usage.Some? {
        sunk := sunk + [usage.value];
      }
    }

    method Retire(id: string, a: Record)
      modifies this`waiters, this`completed, this`agents, this`pending, this`order
      ensures waiters == old(waiters) - {id} && completed == old(completed)[id := a] && agents == old(agents) - {id}
      ensures pending == old(pending) - {id} && order == RemoveFirst(old(order), id)
    {
      waiters := waiters - {id};
      completed := completed[id := a];
      agents := agents - {id};
      pending := pending - {id};
      order := DeleteFirst(order, id);
    }

    method NotifyWaiters(id: string, a: Record)
      modifies this`answers
      ensures answers == old(answers) + Tell(WaitersOf(View(), id), a)
    {
      var channels := if id in waiters then waiters[id] else [];
      for i := 0 to |channels|
        invariant answers == old(answers) + Tell(channels[..i], a)
      {
        assert Init(channels[..i + 1]) == channels[..i];
        answers := answers + [Answer(channels[i], Some(a))];
      }
      assert channels[..|channels|] == channels;
    }

    method Killed(id: string) returns (ok: bool)
      modifies this`cancelled
      ensures View() == Step(old(View()), Kill(id))
      ensures ok <==> id in agents && agents[id].status.Running?
    {
      ok := id in agents && agents[id].status.Running?;
      if ok {
        cancelled := cancelled + [id];
      }
    }

    method Confirmed(id: string, approved: bool, listening: bool) returns (ok: bool)
      modifies this
      ensures View() == Step(old(View()), Confirm(id, approved, listening))
      ensures ok <==> id in old(pending) && listening
    {
      ok := id in pending && listening;
      if ok {
        responses := responses + [Response(pending[id], approved)];
      }
      pending := pending - {id};
      order := DeleteFirst(order, id);
    }

    method AgentAsks(id: string, channel: Channel)
      modifies this
      ensures View() == Step(old(View()), AskConfirm(id, channel))
    {
      pending := pending[id := channel];
      order := order + [id];
    }

    method Waited(id: string, channel: Channel)
      modifies this
      ensures View() == Step(old(View()), Wait(id, channel))
    {
      if id in agents {
        waiters := waiters[id := (if id in waiters then waiters[id] else []) + [channel]];
      } else if id in completed {
        answers := answers + [Answer(channel, Some(completed[id]))];
        completed := completed - {id};
      } else {
        answers := answers + [Answer(channel, None)];
      }
    }

    function Found(id: string): (r: Option<Record>)
      reads this
      ensures r.Some? <==> id in agents
      ensures r.Some? ==> r.value == agents[id]
    {
      if id in agents then Some(agents[id]) else None
    }

    /** Every running agent once, in the arbitrary order of a map's iteration. */
    method Listed() returns (out: seq<Record>)
      ensures |out| == |agents|
      ensures forall id :: id in agents ==> agents[id] in out
    {
      out := [];
      var left := agents.Keys;
      while left != {}
        invariant left <= agents.Keys && |out| + |left| == |agents.Keys|
        invariant forall id :: id in agents && id !in left ==> agents[id] in out
      {
        var id :| id in left;
        out := out + [agents[id]];
        left := left - {id};
      }
    }

    method FirstPending() returns (id: string)
      ensures id == Oldest(View())
    {
      if |order| > 0 {
        return order[0];
      }
      return "";
    }

    method AccumulateUsage(u: Option<Usage>)
      modifies this`total
      ensures total == Accumulate(old(total), u)
    {
      if u.None? {
        return;
      }
      if total.None? {
        total := Some(ZERO_USAGE);
      }
      total := Some(total.value.Plus(u.value));
    }
  }
}
