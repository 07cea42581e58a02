/**
 * The socket handler of the chat server: one transcript shared by every
 * connection, one `isProcessing` flag per connection, and the events that
 * drive them.
 *
 * The `await` in the `ai-message` handler splits it into two events: the
 * message itself (drop, append, busy check, dispatch) and the upstream
 * result (append the model turn and emit, or emit the fixed error). The
 * `setTimeout` in `finally` is a third event, the cooldown, that clears the
 * flag. Any interleaving of these events across connections is a trace.
 *
 * `Step` is the specification of one event; the class `Server` performs
 * the events in place and is proved against `Step`.
 */
module ChatServer {
  import opened Wrappers
  import opened Conversation
  import AiService

  /** A socket, identified by its id. */
  type ConnId = nat

  /** Sent when a prompt arrives while the connection's flag is set. */
  const WaitNotice := "Please wait… processing previous request."

  /** Sent when `generateContent` throws; the error itself is only logged. */
  const BusyNotice := "System is busy. Please try again in a moment."

  /** An outbound socket event: `ai-response` or `ai-error` with its payload. */
  datatype Emission = AiResponse(conn: ConnId, text: string) | AiError(conn: ConnId, text: string)

  /** One call of `generateContent`, with the transcript it was given. */
  datatype Call = Call(conn: ConnId, contents: seq<Turn>)

  /**
   * The events of the server. `Message` carries `data?.prompt`: `None` when
   * the payload or its prompt is missing (or any other falsy value).
   */
  datatype Event =
    | Connect(conn: ConnId)
    | Message(conn: ConnId, prompt: Option<string>)
    | UpstreamResult(conn: ConnId, result: AiService.Completion)
    | Cooldown(conn: ConnId)
    | Disconnect(conn: ConnId)

  /**
   * The whole observable state. `processing` holds each connection's
   * `isProcessing`; `awaiting` are the connections whose `generateContent`
   * call is outstanding, `coolingDown` those whose cooldown timer is
   * pending; `emitted` and `calls` are the logs of socket emissions and
   * upstream calls.
   */
  datatype Relay = Relay(
    history: seq<Turn>,
    processing: map<ConnId, bool>,
    awaiting: set<ConnId>,
    coolingDown: set<ConnId>,
    connected: set<ConnId>,
    emitted: seq<Emission>,
    calls: seq<Call>)

  /** At start-up: `const chatHistory = []`, and nobody connected. */
  const Init := Relay([], map[], {}, {}, {}, [], [])

  /** `if (!data?.prompt) return;` — only a missing or empty prompt is dropped. */
  predicate Dropped(prompt: Option<string>) {
    prompt.None? || prompt.value == ""
  }

  /** The connection's `isProcessing`. */
  predicate Busy(s: Relay, c: ConnId) {
    c in s.processing && s.processing[c]
  }

  /** The events the runtime can deliver in state `s`. */
  predicate Enabled(s: Relay, e: Event) {
    match e
    case Connect(c) => c !in s.processing
    case Message(c, _) => c in s.connected
    case UpstreamResult(c, _) => c in s.awaiting
    case Cooldown(c) => c in s.coolingDown
    case Disconnect(c) => c in s.connected
  }

  /** The effect of one event. */
  function Step(s: Relay, e: Event): Relay {
    match e
    case Connect(c) =>
      s.(processing := s.processing[c := false], connected := s.connected + {c})
    case Message(c, p) =>
      if Dropped(p) then s
      else
        var h := s.history + [Turn(User, p.value)];
        if Busy(s, c) then
          s.(history := h, emitted := s.emitted + [AiError(c, WaitNotice)])
        else
          s.(history := h, processing := s.processing[c := true],
             awaiting := s.awaiting + {c}, calls := s.calls + [Call(c, h)])
    case UpstreamResult(c, r) =>
      var settled := s.(awaiting := s.awaiting - {c}, coolingDown := s.coolingDown + {c});
      (match r
       case Returned(t) =>
         settled.(history := s.history + [Turn(Model, t)], emitted := s.emitted + [AiResponse(c, t)])
       case Raised(_) =>
         settled.(emitted := s.emitted + [AiError(c, BusyNotice)]))
    case Cooldown(c) =>
      s.(processing := s.processing[c := false], coolingDown := s.coolingDown - {c})
    case Disconnect(c) =>
      s.(connected := s.connected - {c})
  }

  /** The state after a sequence of events. */
  function Run(s: Relay, evs: seq<Event>): Relay
    decreases |evs|
  {
    if evs == [] then s else Run(Step(s, evs[0]), evs[1..])
  }

  /** Every event of the sequence is enabled when it happens. */
  predicate Legal(s: Relay, evs: seq<Event>)
    decreases |evs|
  {
    evs == [] || (Enabled(s, evs[0]) && Legal(Step(s, evs[0]), evs[1..]))
  }

  /** Every upstream request is a prefix of the history ending with a user turn. */
  predicate RequestsArePrefixes(s: Relay) {
    forall k :: 0 <= k < |s.calls| ==>
      var h := s.calls[k].contents;
      h != [] && h <= s.history && h[|h| - 1].role == User
  }

  /**
   * The invariant: a connection's flag is set exactly while its upstream
   * call is outstanding or its cooldown is pending (never both), every
   * connection that has been opened has a flag, and every request sent
   * upstream is a prefix of the shared history.
   */
  predicate Inv(s: Relay) {
    && s.awaiting * s.coolingDown == {}
    && s.awaiting <= s.processing.Keys
    && s.coolingDown <= s.processing.Keys
    && s.connected <= s.processing.Keys
    && (forall c :: c in s.processing ==> (s.processing[c] <==> c in s.awaiting || c in s.coolingDown))
    && RequestsArePrefixes(s)
  }

  /** Every enabled event keeps the invariant. */
  lemma StepPreservesInv(s: Relay, e: Event)
    requires Inv(s) && Enabled(s, e)
    ensures Inv(Step(s, e))
  {
  }

  /** Every legal trace keeps the invariant. */
  lemma {:induction false} RunPreservesInv(s: Relay, evs: seq<Event>)
    requires Inv(s) && Legal(s, evs)
    ensures Inv(Run(s, evs))
    decreases |evs|
  {
    if evs != [] {
      StepPreservesInv(s, evs[0]);
      RunPreservesInv(Step(s, evs[0]), evs[1..]);
    }
  }

  // ---------------------------------------------------------------------
  // One `ai-message` event

  /** A missing or empty prompt changes nothing; a prompt of blanks is not dropped. */
  lemma DroppedPromptIsIgnored(s: Relay, c: ConnId, p: Option<string>)
    ensures Dropped(p) ==> Step(s, Message(c, p)) == s
    ensures !Dropped(Some(" ")) && Step(s, Message(c, Some(" "))).history == s.history + [Turn(User, " ")]
  {
  }

  /** A prompt is recorded as a user turn whether or not it is then rejected. */
  lemma PromptRecordedBeforeBusyCheck(s: Relay, c: ConnId, p: string)
    requires p != ""
    ensures Step(s, Message(c, Some(p))).history == s.history + [Turn(User, p)]
    ensures Step(s, Message(c, Some(p))).connected == s.connected
  {
  }

  /**
   * While the flag is set, a prompt gets exactly one `ai-error` with the
   * wait notice, no upstream call, and the flags stay as they were.
   */
  lemma BusyPromptRejected(s: Relay, c: ConnId, p: string)
    requires p != "" && Busy(s, c)
    ensures var s' := Step(s, Message(c, Some(p)));
      && s'.emitted == s.emitted + [AiError(c, WaitNotice)]
      && s'.calls == s.calls
      && s'.processing == s.processing
      && s'.awaiting == s.awaiting && s'.coolingDown == s.coolingDown
  {
  }

  /**
   * An admitted prompt sets the flag and calls upstream with the whole
   * shared history, which ends with the prompt just appended; nothing is
   * emitted yet.
   */
  lemma IdlePromptDispatched(s: Relay, c: ConnId, p: string)
    requires p != "" && !Busy(s, c)
    ensures var s' := Step(s, Message(c, Some(p)));
      && Busy(s', c)
      && s'.calls == s.calls + [Call(c, s'.history)]
      && s'.history[|s'.history| - 1] == Turn(User, p)
      && c in s'.awaiting
      && s'.emitted == s.emitted
  {
  }

  /** While a call is outstanding no second call starts for that connection. */
  lemma NoSecondCall(s: Relay, c: ConnId, p: Option<string>)
    requires Inv(s) && c in s.awaiting
    ensures Step(s, Message(c, p)).calls == s.calls
  {
  }

  // ---------------------------------------------------------------------
  // The upstream result

  /**
   * A returned text — including the service's fallback text — is appended
   * as one model turn and emitted unchanged as `ai-response`.
   */
  lemma SuccessRecordedAndRelayed(s: Relay, c: ConnId, t: string)
    ensures var s' := Step(s, UpstreamResult(c, AiService.Returned(t)));
      && s'.history == s.history + [Turn(Model, t)]
      && s'.emitted == s.emitted + [AiResponse(c, t)]
      && s'.calls == s.calls
  {
  }

  /**
   * A thrown error appends no turn and emits the fixed busy notice; the
   * error's content has no influence on the new state.
   */
  lemma FailureEmitsFixedNotice(s: Relay, c: ConnId, e1: AiService.UpstreamError, e2: AiService.UpstreamError)
    ensures var s' := Step(s, UpstreamResult(c, AiService.Raised(e1)));
      && s'.history == s.history
      && s'.emitted == s.emitted + [AiError(c, BusyNotice)]
      && s' == Step(s, UpstreamResult(c, AiService.Raised(e2)))
  {
  }

  /** Completion on either path leaves every flag set; only the cooldown clears it. */
  lemma CompletionKeepsFlag(s: Relay, c: ConnId, r: AiService.Completion)
    requires Inv(s) && c in s.awaiting
    ensures var s' := Step(s, UpstreamResult(c, r));
      s'.processing == s.processing && Busy(s', c) && c in s'.coolingDown
    ensures !Busy(Step(Step(s, UpstreamResult(c, r)), Cooldown(c)), c)
  {
  }

  /** Disconnecting clears neither the shared history nor the flag. */
  lemma DisconnectKeepsState(s: Relay, c: ConnId)
    ensures var s' := Step(s, Disconnect(c));
      s'.history == s.history && s'.processing == s.processing && c !in s'.connected
  {
  }

  // ---------------------------------------------------------------------
  // Traces

  /** The turns an event appends: one per kept prompt, one per returned text. */
  function TurnsAppended(e: Event): nat {
    match e
    case Message(_, p) => if Dropped(p) then 0 else 1
    case UpstreamResult(_, r) => if r.Returned? then 1 else 0
    case _ => 0
  }

  function TotalTurnsAppended(evs: seq<Event>): nat {
    if evs == [] then 0 else TurnsAppended(evs[0]) + TotalTurnsAppended(evs[1..])
  }

  /**
   * The shared history is never shortened or rewritten: after any events,
   * from any connections, the old history is a prefix of the new one, and
   * it has grown by one turn per kept prompt and one per returned text.
   */
  lemma {:induction false} HistoryOnlyGrows(s: Relay, evs: seq<Event>)
    ensures s.history <= Run(s, evs).history
    ensures |Run(s, evs).history| == |s.history| + TotalTurnsAppended(evs)
    decreases |evs|
  {
    if evs != [] {
      var s1 := Step(s, evs[0]);
      assert s.history <= s1.history && |s1.history| == |s.history| + TurnsAppended(evs[0]);
      HistoryOnlyGrows(s1, evs[1..]);
    }
  }

  /** The number of upstream calls made for connection `c`. */
  function CallsBy(calls: seq<Call>, c: ConnId): nat {
    if calls == [] then 0
    else CallsBy(calls[..|calls| - 1], c) + (if calls[|calls| - 1].conn == c then 1 else 0)
  }

  lemma CallsByAppend(calls: seq<Call>, x: Call, c: ConnId)
    ensures CallsBy(calls + [x], c) == CallsBy(calls, c) + (if x.conn == c then 1 else 0)
  {
  }

  /**
   * Once a connection's flag is set it stays set until that connection's
   * cooldown event: until then no further upstream call is made for it,
   * whatever events arrive from it or from other connections.
   */
  lemma {:induction false} FlagHeldUntilCooldown(s: Relay, evs: seq<Event>, c: ConnId)
    requires Legal(s, evs) && Busy(s, c)
    requires forall k :: 0 <= k < |evs| ==> evs[k] != Cooldown(c)
    ensures Busy(Run(s, evs), c)
    ensures CallsBy(Run(s, evs).calls, c) == CallsBy(s.calls, c)
    decreases |evs|
  {
    if evs != [] {
      var e := evs[0];
      var s1 := Step(s, e);
      assert e != Cooldown(c);
      if e.Message? && !Dropped(e.prompt) && !Busy(s, e.conn) {
        CallsByAppend(s.calls, Call(e.conn, s1.history), c);
      }
      assert Busy(s1, c) && CallsBy(s1.calls, c) == CallsBy(s.calls, c);
      FlagHeldUntilCooldown(s1, evs[1..], c);
    }
  }

  /**
   * One prompt on a fresh connection answered with "hi there": the history
   * holds both turns, `ai-response` carries the answer, and the flag is
   * still set until the cooldown.
   */
  lemma SingleExchange()
    ensures var s := Run(Init, [Connect(1), Message(1, Some("hello")), UpstreamResult(1, AiService.Returned("hi there"))]);
      && s.history == [Turn(User, "hello"), Turn(Model, "hi there")]
      && s.calls == [Call(1, [Turn(User, "hello")])]
      && s.emitted == [AiResponse(1, "hi there")]
      && Busy(s, 1)
  {
    var evs := [Connect(1), Message(1, Some("hello")), UpstreamResult(1, AiService.Returned("hi there"))];
    var s1 := Step(Init, evs[0]);
    var s2 := Step(s1, evs[1]);
    var s3 := Step(s2, evs[2]);
    assert !Busy(s1, 1) && !Dropped(Some("hello"));
    assert Init.history + [Turn(User, "hello")] == [Turn(User, "hello")];
    assert s2.history == [Turn(User, "hello")];
    assert s2.calls == [Call(1, [Turn(User, "hello")])];
    assert Run(s3, evs[3..]) == s3;
    assert Run(Init, evs) == s3 by {
      assert Run(s2, evs[2..]) == Run(s3, evs[3..]);
      assert Run(s1, evs[1..]) == Run(s2, evs[2..]);
    }
  }

  /**
   * The history is one for all connections: a second connection's request
   * carries the first connection's prompt.
   */
  lemma HistorySharedAcrossConnections()
    ensures var s := Run(Init, [Connect(1), Connect(2), Message(1, Some("a")), Message(2, Some("b"))]);
      s.calls == [Call(1, [Turn(User, "a")]), Call(2, [Turn(User, "a"), Turn(User, "b")])]
  {
    var evs := [Connect(1), Connect(2), Message(1, Some("a")), Message(2, Some("b"))];
    var s1 := Step(Init, evs[0]);
    var s2 := Step(s1, evs[1]);
    var s3 := Step(s2, evs[2]);
    var s4 := Step(s3, evs[3]);
    assert !Busy(s2, 1) && !Dropped(Some("a")) && !Dropped(Some("b"));
    assert Init.history + [Turn(User, "a")] == [Turn(User, "a")];
    assert s3.history == [Turn(User, "a")];
    assert s3.calls == [Call(1, [Turn(User, "a")])];
    assert !Busy(s3, 2);
    assert s4.history == [Turn(User, "a"), Turn(User, "b")];
    assert Run(Init, evs) == s4 by {
      assert Run(s4, evs[4..]) == s4;
      assert Run(s3, evs[3..]) == Run(s4, evs[4..]);
      assert Run(s2, evs[2..]) == Run(s3, evs[3..]);
      assert Run(s1, evs[1..]) == Run(s2, evs[2..]);
    }
  }

  // ---------------------------------------------------------------------
  // The server, state changed in place

  class Server {
    var history: seq<Turn>
    var processing: map<ConnId, bool>
    var awaiting: set<ConnId>
    var coolingDown: set<ConnId>
    var connected: set<ConnId>
    var emitted: seq<Emission>
    var calls: seq<Call>

    function State(): Relay
      reads this
    {
      Relay(history, processing, awaiting, coolingDown, connected, emitted, calls)
    }

    ghost predicate Valid()
      reads this
    {
      Inv(State())
    }

    constructor ()
      ensures Valid() && State() == Init
    {
      history, processing, awaiting, coolingDown := [], map[], {}, {};
      connected, emitted, calls := {}, [], [];
    }

    /** `io.on("connection")`: a fresh socket with `isProcessing = false`. */
    method OnConnect(c: ConnId)
      requires Valid() && c !in processing
      modifies this
      ensures Valid() && State() == Step(old(State()), Connect(c))
      ensures processing == old(processing)[c := false] && history == old(history)
    {
      StepPreservesInv(State(), Connect(c));
      processing := processing[c := false];
      connected := connected + {c};
    }

    /**
     * `socket.on("ai-message")` up to the `await`. Returns the transcript
     * handed to `generateContent`, or `None` when no call is made.
     */
    method OnMessage(c: ConnId, prompt: Option<string>) returns (dispatched: Option<seq<Turn>>)
      requires Valid() && c in connected
      modifies this
      ensures Valid() && State() == Step(old(State()), Message(c, prompt))
      ensures dispatched.Some? <==> !Dropped(prompt) && !old(processing[c])
      ensures dispatched.Some? ==>
        dispatched.value == history && history == old(history) + [Turn(User, prompt.value)]
    {
      StepPreservesInv(State(), Message(c, prompt));
      if prompt.None? || prompt.value == "" {
        return None;
      }
      history := history + [Turn(User, prompt.value)];
      if processing[c] {
        emitted := emitted + [AiError(c, WaitNotice)];
        return None;
      }
      processing := processing[c := true];
      awaiting := awaiting + {c};
      calls := calls + [Call(c, history)];
      dispatched := Some(history);
    }

    /** The handler after the `await`: the `try` body or the `catch`, then `finally`. */
    method OnUpstreamResult(c: ConnId, r: AiService.Completion)
      requires Valid() && c in awaiting
      modifies this
      ensures Valid() && State() == Step(old(State()), UpstreamResult(c, r))
      ensures processing == old(processing) && c in coolingDown
    {
      StepPreservesInv(State(), UpstreamResult(c, r));
      match r {
        case Returned(t) =>
          history := history + [Turn(Model, t)];
          emitted := emitted + [AiResponse(c, t)];
        case Raised(_) =>
          emitted := emitted + [AiError(c, BusyNotice)];
      }
      awaiting := awaiting - {c};
      coolingDown := coolingDown + {c};
    }

    /** The cooldown timer fires: `isProcessing = false`. */
    method OnCooldown(c: ConnId)
      requires Valid() && c in coolingDown
      modifies this
      ensures Valid() && State() == Step(old(State()), Cooldown(c))
      ensures processing == old(processing)[c := false]
    {
      StepPreservesInv(State(), Cooldown(c));
      processing := processing[c := false];
      coolingDown := coolingDown - {c};
    }

    /** `socket.on("disconnect")` only logs; the socket stops delivering events. */
    method OnDisconnect(c: ConnId)
      requires Valid() && c in connected
      modifies this
      ensures Valid() && State() == Step(old(State()), Disconnect(c))
      ensures history == old(history) && processing == old(processing)
    {
      StepPreservesInv(State(), Disconnect(c));
      connected := connected - {c};
    }

    /**
     * One `ai-message` handled with no other event in between: the message,
     * then, when it was admitted, `generateContent` against the upstream
     * oracle and its result.
     */
    method HandleAiMessage(c: ConnId, prompt: Option<string>, oracle: seq<AiService.Attempt>)
      requires Valid() && c in connected && AiService.MaxAttempts <= |oracle|
      modifies this
      ensures Valid()
      ensures var s := Step(old(State()), Message(c, prompt));
        State() == if Dropped(prompt) || old(processing[c]) then s
                   else Step(s, UpstreamResult(c, AiService.Retry(s.history, oracle, AiService.MaxAttempts).0))
    {
      var dispatched := OnMessage(c, prompt);
      if dispatched.Some? {
        var result, _ := AiService.GenerateContent(dispatched.value, oracle);
        OnUpstreamResult(c, result);
      }
    }
  }
}
