/** `MCPServerHooks` of end-to-end/hook.py: a counter raised once after
    each lifecycle hook whose server call (connect or cleanup) returned. The
    server calls are parameters: each either returns or raises. */
module McpHooks {
  import opened Wrappers

  datatype Hooks = Hooks(counter: nat)

  /** `MCPServerHooks(mcp_server)`: the counter starts at zero. */
  function NewHooks(): (h: Hooks)
    ensures h.counter == 0
  {
    Hooks(0)
  }

  /** A lifecycle event and how its server call ends. */
  datatype Event = OnStart(connect: Result<(), string>) | OnEnd(cleanup: Result<(), string>)
  {
    function Call(): Result<(), string>
    {
      match this
      case OnStart(c) => c
      case OnEnd(c) => c
    }
  }

  /** One hook: the server call first, then the increment; a raising call
      propagates and the counter is left as it was. */
  function Handle(h: Hooks, e: Event): (r: Result<Hooks, string>)
    ensures e.Call().Success? ==> r == Success(Hooks(h.counter + 1))
    ensures e.Call().Failure? ==> r == Failure(e.Call().error)
  {
    match e.Call()
    case Success(_) => Success(h.(counter := h.counter + 1))
    case Failure(err) => Failure(err)
  }

  /** The hooks after the events in turn, stopping at the first raising one
      (whose error is returned alongside). */
  function Run(h: Hooks, events: seq<Event>): (Hooks, Option<string>)
    decreases |events|
  {
    if |events| == 0 then (h, None)
    else
      match Handle(h, events[0])
      case Failure(err) => (h, Some(err))
      case Success(h1) => Run(h1, events[1..])
  }

  /** Number of events before the first whose server call raised. */
  function Completed(events: seq<Event>): (n: nat)
    ensures n <= |events|
    ensures forall i :: 0 <= i < n ==> events[i].Call().Success?
    ensures n < |events| ==> events[n].Call().Failure?
    decreases |events|
  {
    if |events| == 0 || events[0].Call().Failure? then 0 else 1 + Completed(events[1..])
  }

  /** The counter grows by exactly one per hook that completed, starts
      and ends alike, and the run stops at the first failed server call. */
  lemma {:induction false} CounterCountsCompletedHooks(h: Hooks, events: seq<Event>)
    ensures Run(h, events).0.counter == h.counter + Completed(events)
    ensures Run(h, events).1.None? <==> Completed(events) == |events|
    decreases |events|
  {
    if |events| > 0 && events[0].Call().Success? {
      CounterCountsCompletedHooks(Hooks(h.counter + 1), events[1..]);
    }
  }

  /** A session of `n` agent runs whose connects and cleanups all succeed
      ends with the counter at 2n. */
  lemma FullSessionsCountTwice(events: seq<Event>, n: nat)
    requires |events| == 2 * n
    requires forall i :: 0 <= i < |events| ==> events[i].Call().Success?
    ensures Run(NewHooks(), events).0.counter == 2 * n
  {
    CounterCountsCompletedHooks(NewHooks(), events);
  }
}
