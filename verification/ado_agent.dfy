/** `ADOAgent` of DAPEAgent/azure_devops/ado_agent.py: the
    initialise/cleanup life cycle of its three handles and the flag, and the
    model input `get_response` builds from the chat history. Entering and
    leaving the MCP server are parameters (each returns or raises); the
    handles are known by a serial number the caller supplies. */
module AdoAgent {
  import opened Wrappers

  datatype State = State(
    agent: Option<nat>,
    mcpServer: Option<nat>,
    model: Option<nat>,
    initialized: bool)

  /** `ADOAgent()`: all handles `None`, not initialised. */
  function NewAgent(): (s: State)
    ensures s.agent.None? && s.mcpServer.None? && s.model.None? && !s.initialized
  {
    State(None, None, None, false)
  }

  /** The flag is set only together with all three handles. */
  predicate Consistent(s: State)
  {
    s.initialized ==> s.agent.Some? && s.mcpServer.Some? && s.model.Some?
  }

  datatype Step = Step(state: State, error: Option<string>)

  /** `initialize()`: nothing when already initialised; otherwise the model
      and the server are stored, the server is entered (which may raise,
      leaving the agent unset and the flag clear), then the agent is stored
      and the flag set. */
  function Initialize(s: State, serial: nat, enter: Result<(), string>): (r: Step)
    ensures s.initialized ==> r == Step(s, None)
    ensures !s.initialized && enter.Success? ==>
      r.error.None? && r.state.initialized && r.state.agent == Some(serial)
    ensures !s.initialized && enter.Failure? ==>
      && r.error == Some(enter.error)
      && !r.state.initialized
      && r.state.model == Some(serial) && r.state.mcpServer == Some(serial)
      && r.state.agent == s.agent
    ensures Consistent(s) ==> Consistent(r.state)
  {
    if s.initialized then Step(s, None)
    else
      var s1 := s.(model := Some(serial), mcpServer := Some(serial));
      match enter
      case Failure(e) => Step(s1, Some(e))
      case Success(_) => Step(s1.(agent := Some(serial), initialized := true), None)
  }

  /** `cleanup()`: leave the server if there is one, swallowing any error,
      then clear everything. */
  function Cleanup(s: State, exit: Result<(), string>): (r: State)
    ensures r == NewAgent()
  {
    // `__aexit__` runs only when there is a server, and whatever it raises
    // is swallowed: its outcome cannot reach the result.
    State(None, None, None, false)
  }

  /** Initialising twice does nothing the second time. */
  lemma InitializeIdempotent(s: State, serial1: nat, serial2: nat, enter1: Result<(), string>, enter2: Result<(), string>)
    requires enter1.Success?
    ensures var once := Initialize(s, serial1, enter1).state;
            Initialize(once, serial2, enter2) == Step(once, None)
  {
  }

  /** One exchange of the chat history. */
  datatype Exchange = Exchange(user: string, assistant: string)

  const MaxExchanges := 10
  const HistoryHeader := "Previous conversation:\n"
  const QuestionPrefix := "Current question: "

  function ExchangeText(e: Exchange): string
  {
    "User: " + e.user + "\nAssistant: " + e.assistant + "\n\n"
  }

  /** The exchanges written out one after another. */
  function Transcript(es: seq<Exchange>): string
    decreases |es|
  {
    if |es| == 0 then "" else Transcript(es[..|es| - 1]) + ExchangeText(es[|es| - 1])
  }

  /** Python `history[-10:]`. */
  function Recent(h: seq<Exchange>): (r: seq<Exchange>)
    ensures |r| == if |h| <= MaxExchanges then |h| else MaxExchanges
    ensures r == h[|h| - |r|..]
  {
    if |h| <= MaxExchanges then h else h[|h| - MaxExchanges..]
  }

  /** The text `get_response` hands to the runner. */
  method ModelInput(userInput: string, history: Option<seq<Exchange>>) returns (s: string)
    ensures history.None? || history.value == [] ==> s == userInput
    ensures history.Some? && history.value != [] ==>
      s == HistoryHeader + Transcript(Recent(history.value)) + QuestionPrefix + userInput
  {
    if history.None? || history.value == [] {
      return userInput;
    }
    var recent := Recent(history.value);
    var context := HistoryHeader;
    var i := 0;
    while i < |recent|
      invariant 0 <= i <= |recent|
      invariant context == HistoryHeader + Transcript(recent[..i])
    {
      assert recent[..i + 1][..i] == recent[..i];
      context := context + ExchangeText(recent[i]);
      i := i + 1;
    }
    assert recent[..i] == recent;
    s := context + QuestionPrefix + userInput;
  }

  /** Writing out two runs of exchanges one after the other is writing out
      their concatenation. */
  lemma {:induction false} TranscriptConcat(xs: seq<Exchange>, ys: seq<Exchange>)
    ensures Transcript(xs + ys) == Transcript(xs) + Transcript(ys)
    decreases |ys|
  {
    if |ys| == 0 {
      assert xs + ys == xs;
    } else {
      var ys0, last := ys[..|ys| - 1], ys[|ys| - 1];
      assert (xs + ys)[..|xs + ys| - 1] == xs + ys0;
      assert (xs + ys)[|xs + ys| - 1] == last;
      assert Transcript(xs + ys) == Transcript(xs + ys0) + ExchangeText(last);
      assert Transcript(ys) == Transcript(ys0) + ExchangeText(last);
      TranscriptConcat(xs, ys0);
    }
  }

  /** Only the last ten exchanges reach the model: exchanges older than the
      last ten change nothing. */
  lemma OlderExchangesForgotten(older: seq<Exchange>, h: seq<Exchange>)
    requires |h| >= MaxExchanges
    ensures Recent(older + h) == Recent(h)
  {
    assert (older + h)[|older + h| - MaxExchanges..] == h[|h| - MaxExchanges..];
  }

  /** With at most ten exchanges the whole history is written out. */
  lemma ShortHistoryKept(h: seq<Exchange>, e: Exchange)
    requires |h| < MaxExchanges
    ensures Transcript(Recent(h + [e])) == Transcript(Recent(h)) + ExchangeText(e)
  {
    assert (h + [e])[..|h + [e]| - 1] == h;
  }

  datatype Response = Response(state: State, modelInput: Result<string, string>)

  /** `get_response(user_input, chat_history)`: initialise when needed
      (its error propagates), refuse when there is no agent, else the text
      for the runner. */
  method GetResponse(s: State, serial: nat, enter: Result<(), string>, userInput: string, history: Option<seq<Exchange>>)
    returns (r: Response)
    requires Consistent(s)
    ensures Consistent(r.state)
    ensures s.initialized ==> r.state == s && r.modelInput.Success?
    ensures !s.initialized && enter.Failure? ==> r.modelInput == Failure(enter.error)
    ensures !s.initialized && enter.Success? ==> r.state.initialized && r.modelInput.Success?
    ensures r.modelInput.Success? ==> r.state.agent.Some?
    ensures r.modelInput.Success? && (history.None? || history.value == []) ==> r.modelInput.value == userInput
    ensures r.modelInput.Success? && history.Some? && history.value != [] ==>
      r.modelInput.value == HistoryHeader + Transcript(Recent(history.value)) + QuestionPrefix + userInput
  {
    var st := s;
    if !st.initialized {
      var step := Initialize(st, serial, enter);
      if step.error.Some? {
        return Response(step.state, Failure(step.error.value));
      }
      st := step.state;
    }
    if st.agent.None? {
      return Response(st, Failure("Agent not initialized"));
    }
    var text := ModelInput(userInput, history);
    r := Response(st, Success(text));
  }
}
