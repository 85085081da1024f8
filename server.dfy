/** The connection layer: each connection's initial data, the framing of its input
    into `\n`-terminated lines, the dispatch of each request, and how an outcome becomes
    a reply that keeps the connection open or one that closes it. */
module Server {
  import opened Wrappers
  import opened Protocol
  import S = Stratum
  import T = Templates

  /** What a connection sees, in order. */
  datatype Action =
    | Send(event: Event)               // a notification written to the connection
    | Reply(response: Response)        // a response written, connection kept open
    | Close(last: Option<Response>)    // `socket.end`, with a final response or none
    | Won(hash: T.Hash, winner: S.Contribution)  // the `block` event

  /** The parts of a run this model takes from outside. */
  datatype Host = Host(
    env: S.Env,
    parse: string -> Option<Json>,  // JSON.parse; None for a SyntaxError
    stack: Option<string>)           // the stack trace an error captures

  const Agent: string := "EthereumStratum/1.0.0"
  const MaxBuffer: nat := 512

  /** `string.length`: UTF-16 code units, two for a character outside the Basic
      Multilingual Plane. */
  function Utf16Length(s: string): (n: nat)
    ensures |s| <= n <= 2 * |s|
    decreases |s|
  {
    if s == [] then 0
    else Utf16Length(s[..|s| - 1]) + (if s[|s| - 1] as int > 0xFFFF then 2 else 1)
  }

  /** Text within the Basic Multilingual Plane has one code unit per character, and
      one character beyond it is enough to make the count exceed the length. */
  lemma {:induction false} Utf16LengthPlanes(s: string)
    ensures Utf16Length(s) == |s| <==> forall i | 0 <= i < |s| :: s[i] as int <= 0xFFFF
    decreases |s|
  {
    if s != [] {
      Utf16LengthPlanes(s[..|s| - 1]);
      assert forall i | 0 <= i < |s| - 1 :: s[..|s| - 1][i] == s[i];
    }
  }

  /** `s.split('\n')`: the pieces between line feeds, at least one. */
  function Split(s: string): (r: seq<string>)
    ensures |r| >= 1
    ensures forall i | 0 <= i < |r| :: '\n' !in r[i]
    decreases |s|
  {
    if s == [] then [[]]
    else
      var rest := Split(s[1..]);
      if s[0] == '\n' then [[]] + rest
      else [[s[0]] + rest[0]] + rest[1..]
  }

  /** Lines written out, each followed by a line feed. */
  function Terminated(lines: seq<string>): string
  {
    if lines == [] then [] else lines[0] + "\n" + Terminated(lines[1..])
  }

  lemma TerminatedCons(first: string, lines: seq<string>)
    ensures Terminated([first] + lines) == first + "\n" + Terminated(lines)
  {
    assert ([first] + lines)[1..] == lines;
  }

  /** Splitting loses nothing: the terminated lines and the last piece rebuild the text. */
  lemma {:induction false} SplitRoundTrip(s: string)
    ensures var r := Split(s); Terminated(r[..|r| - 1]) + r[|r| - 1] == s
    decreases |s|
  {
    if s != [] {
      SplitRoundTrip(s[1..]);
      var rest := Split(s[1..]);
      var init, last := rest[..|rest| - 1], rest[|rest| - 1];
      assert s == [s[0]] + s[1..];
      if s[0] == '\n' {
        SplitNewline(s, rest, init, last);
      } else {
        SplitJoined(s, rest, init, last);
      }
    }
  }

  lemma SplitNewline(s: string, rest: seq<string>, init: seq<string>, last: string)
    requires s != [] && s[0] == '\n' && rest == Split(s[1..]) && rest == init + [last]
    requires Terminated(init) + last == s[1..]
    ensures var r := Split(s); Terminated(r[..|r| - 1]) + r[|r| - 1] == s
  {
    var r := Split(s);
    assert r == [[]] + rest;
    assert r[..|r| - 1] == [[]] + init && r[|r| - 1] == last;
    calc {
      Terminated(r[..|r| - 1]) + r[|r| - 1];
      { TerminatedCons([], init); }
      ([] + "\n" + Terminated(init)) + last;
      "\n" + (Terminated(init) + last);
      [s[0]] + s[1..];
    }
  }

  lemma SplitJoined(s: string, rest: seq<string>, init: seq<string>, last: string)
    requires s != [] && s[0] != '\n' && rest == Split(s[1..]) && rest == init + [last]
    requires Terminated(init) + last == s[1..]
    ensures var r := Split(s); Terminated(r[..|r| - 1]) + r[|r| - 1] == s
  {
    var r := Split(s);
    var head := [s[0]];
    assert r == [head + rest[0]] + rest[1..];
    if init == [] {
      assert r == [head + last];
    } else {
      var tail := Terminated(init[1..]);
      assert r[..|r| - 1] == [head + init[0]] + init[1..];
      assert r[|r| - 1] == last;
      assert init == [init[0]] + init[1..];
      TerminatedCons(init[0], init[1..]);
      TerminatedCons(head + init[0], init[1..]);
      Regrouped(head, init[0], "\n", tail, last);
    }
  }

  lemma Regrouped<T>(a: seq<T>, b: seq<T>, c: seq<T>, d: seq<T>, e: seq<T>)
    ensures (((a + b) + c) + d) + e == a + (((b + c) + d) + e)
  {
  }

  /** Text without a line feed splits into itself alone. */
  lemma {:induction false} SplitUnterminated(s: string)
    requires '\n' !in s
    ensures Split(s) == [s]
    decreases |s|
  {
    if s != [] {
      assert '\n' !in s[1..] by {
        forall i | 0 <= i < |s[1..]| ensures s[1..][i] != '\n' {
          assert s[1..][i] == s[i + 1];
        }
      }
      SplitUnterminated(s[1..]);
      assert s == [s[0]] + s[1..];
    }
  }

  /** The final response of a thrown error. A `StratumError` is answered with its dump
      and the connection stays open; any other `Error` is answered with code 20 and its
      message, and the connection is closed. */
  function Rejected(id: real, e: Thrown, stack: Option<string>): (r: Action)
    ensures e.Raised? ==> r == Reply(Response(id, JBool(false), Some((Code(e.name), Text(e.name), stack))))
    ensures e.Failed? ==> r == Close(Some(Response(id, JBool(false), Some((Code(Unknown), e.message, stack)))))
  {
    match e
    case Raised(name) =>
      DumpOfNamedError(name, stack);
      Reply(Response(id, JBool(false), Some(ToDump(NewStratumError(name, stack)))))
    case Failed(message) =>
      var dump := ToDump(NewStratumError(Unknown, stack));
      Close(Some(Response(id, JBool(false), Some((dump.0, message, dump.2)))))
  }

  /** `request.params[i]`: a position past the end reads as `undefined`, here `JNull`. */
  function Param(request: Json, i: nat): Json
    requires IsRequest(request)
  {
    if i < |Params(request)| then Params(request)[i] else JNull
  }

  /** The response a request's last action carries, if any. */
  function Answer(actions: seq<Action>): Option<Response>
  {
    if actions == [] then None
    else match actions[|actions| - 1]
      case Reply(response) => Some(response)
      case Close(last) => last
      case _ => None
  }

  /** `onMessage` and the handlers around it, for one validated request. A string is
      required where the handler calls a string method on the parameter; anything else
      fails as a `TypeError`. */
  function Handled(st: S.StratumState, w: T.Window, socket: S.SocketId, request: Json, host: Host)
    : (r: (seq<Action>, S.StratumState, T.Window))
    requires IsRequest(request) && socket in st.sockets
    ensures r.1.sockets.Keys == st.sockets.Keys
    ensures S.Consistent(st) ==> S.Consistent(r.1)
    ensures T.Coherent(w) ==> T.Coherent(r.2)
  {
    var name := Method(request);
    if name == "mining.submit" then SubmitHandled(st, w, socket, request, host)
    else if name == "mining.authorize" then AuthorizeHandled(st, w, socket, request, host)
    else if name == "mining.subscribe" then SubscribeHandled(st, w, socket, request, host)
    else ([Reply(Response(RequestId(request), JBool(true), None))], st, w)
  }

  /** The actions of one request end with its single answer, which echoes the request's
      id: `success` when nothing was thrown, `false` with the error dump otherwise; the
      connection is closed exactly when the dump carries code 20, and nothing before the
      answer replies or closes. */
  ghost predicate AnsweredOnce(actions: seq<Action>, id: real, success: Json)
  {
    && |actions| >= 1 && Answer(actions).Some? && Answer(actions).value.id == id
    && (Answer(actions).value.error.None? ==> Answer(actions).value.result == success)
    && (Answer(actions).value.error.Some? ==> Answer(actions).value.result == JBool(false))
    && (actions[|actions| - 1].Close? <==>
          Answer(actions).value.error.Some? && Answer(actions).value.error.value.0 == Code(Unknown))
    && (forall i | 0 <= i < |actions| - 1 :: !actions[i].Reply? && !actions[i].Close?)
  }

  /** A thrown error other than a `StratumError` named `unknown` is answered by one
      action. */
  lemma RejectedAnswersOnce(id: real, e: Thrown, stack: Option<string>, success: Json)
    requires e != Raised(Unknown)
    ensures AnsweredOnce([Rejected(id, e, stack)], id, success)
  {
  }

  /** Actions that neither reply nor close, then `success`, answer once. */
  lemma RepliedAnswersOnce(before: seq<Action>, id: real, success: Json)
    requires forall i | 0 <= i < |before| :: !before[i].Reply? && !before[i].Close?
    ensures AnsweredOnce(before + [Reply(Response(id, success, None))], id, success)
  {
  }

  /** What `onData` writes for a submission's outcome: the answer, after the `block`
      event when a block was found. No handler throws a `StratumError` named `unknown`. */
  function SubmitActions(id: real, outcome: Result<S.Accepted, Thrown>, stack: Option<string>): (r: seq<Action>)
    requires outcome != Err(Raised(Unknown))
    ensures AnsweredOnce(r, id, JBool(true))
  {
    match outcome
    case Ok(ShareRecorded) =>
      RepliedAnswersOnce([], id, JBool(true));
      [Reply(Response(id, JBool(true), None))]
    case Ok(BlockFound(hash, winner)) =>
      RepliedAnswersOnce([Won(hash, winner)], id, JBool(true));
      [Won(hash, winner), Reply(Response(id, JBool(true), None))]
    case Err(e) =>
      RejectedAnswersOnce(id, e, stack, JBool(true));
      [Rejected(id, e, stack)]
  }

  /** What `onData` writes for an authorization's outcome: its notifications, then the
      answer. */
  function AuthorizeActions(id: real, outcome: Result<seq<Event>, Thrown>, stack: Option<string>): (r: seq<Action>)
    requires outcome != Err(Raised(Unknown))
    ensures AnsweredOnce(r, id, JBool(true))
  {
    match outcome
    case Ok(events) =>
      RepliedAnswersOnce(Sends(events), id, JBool(true));
      Sends(events) + [Reply(Response(id, JBool(true), None))]
    case Err(e) =>
      RejectedAnswersOnce(id, e, stack, JBool(true));
      [Rejected(id, e, stack)]
  }

  /** What `onData` writes for a subscription's outcome: the protocol pair, or the
      error. */
  function SubscribeActions(id: real, outcome: Result<(), Thrown>, stack: Option<string>): (r: seq<Action>)
    requires outcome != Err(Raised(Unknown))
    ensures AnsweredOnce(r, id, JArray([JBool(true), JString(Agent)]))
  {
    match outcome
    case Ok(_) =>
      RepliedAnswersOnce([], id, JArray([JBool(true), JString(Agent)]));
      [Reply(Response(id, JArray([JBool(true), JString(Agent)]), None))]
    case Err(e) =>
      RejectedAnswersOnce(id, e, stack, JArray([JBool(true), JString(Agent)]));
      [Rejected(id, e, stack)]
  }

  /** `mining.submit`: the share is checked and recorded; a parameter that is not a
      string fails as a `TypeError`. */
  function SubmitHandled(st: S.StratumState, w: T.Window, socket: S.SocketId, request: Json, host: Host)
    : (r: (seq<Action>, S.StratumState, T.Window))
    requires IsRequest(request) && socket in st.sockets
    ensures r.1.sockets.Keys == st.sockets.Keys
    ensures S.Consistent(st) ==> S.Consistent(r.1)
    ensures T.Coherent(w) ==> T.Coherent(r.2)
    ensures AnsweredOnce(r.0, RequestId(request), JBool(true))
  {
    var identity := Param(request, 0);
    if !identity.JString? then (SubmitActions(RequestId(request), Err(Failed("TypeError")), host.stack), st, w)
    else
      var (outcome, st', w') := S.ShareSubmitted(st, w, socket, identity.s, Param(request, 1), Param(request, 2), host.env);
      (SubmitActions(RequestId(request), outcome, host.stack), st', w')
  }

  /** `mining.authorize`: the worker is added; a parameter that is not a string fails as
      a `TypeError`. */
  function AuthorizeHandled(st: S.StratumState, w: T.Window, socket: S.SocketId, request: Json, host: Host)
    : (r: (seq<Action>, S.StratumState, T.Window))
    requires IsRequest(request) && socket in st.sockets
    ensures r.1.sockets.Keys == st.sockets.Keys && r.2 == w
    ensures S.Consistent(st) ==> S.Consistent(r.1)
    ensures AnsweredOnce(r.0, RequestId(request), JBool(true))
  {
    var identity := Param(request, 0);
    if !identity.JString? then (AuthorizeActions(RequestId(request), Err(Failed("TypeError")), host.stack), st, w)
    else
      var (outcome, st') := S.Authorized(st, socket, identity.s, host.env);
      (AuthorizeActions(RequestId(request), outcome, host.stack), st', w)
  }

  /** `mining.subscribe`: the connection joins the subscribers. */
  function SubscribeHandled(st: S.StratumState, w: T.Window, socket: S.SocketId, request: Json, host: Host)
    : (r: (seq<Action>, S.StratumState, T.Window))
    requires IsRequest(request) && socket in st.sockets
    ensures r.1.sockets.Keys == st.sockets.Keys && r.2 == w
    ensures S.Consistent(st) ==> S.Consistent(r.1)
    ensures AnsweredOnce(r.0, RequestId(request), JArray([JBool(true), JString(Agent)]))
  {
    var (outcome, st') := S.Subscribed(st, socket);
    (SubscribeActions(RequestId(request), outcome, host.stack), st', w)
  }

  /** Every request is answered once, by its last action. */
  lemma HandledAnsweredOnce(st: S.StratumState, w: T.Window, socket: S.SocketId, request: Json, host: Host)
    requires IsRequest(request) && socket in st.sockets
    ensures AnsweredOnce(Handled(st, w, socket, request, host).0, RequestId(request),
                         if Method(request) == "mining.subscribe" then JArray([JBool(true), JString(Agent)]) else JBool(true))
  {
    var r := Handled(st, w, socket, request, host);
    if Method(request) !in {"mining.submit", "mining.authorize", "mining.subscribe"} {
      assert r.0 == [Reply(Response(RequestId(request), JBool(true), None))];
    }
  }

  /** Every request is answered, echoing its id: `true` (or the protocol pair for a
      subscription) when nothing was thrown, `false` with the error dump otherwise. */
  lemma HandledAnswers(st: S.StratumState, w: T.Window, socket: S.SocketId, request: Json, host: Host)
    requires IsRequest(request) && socket in st.sockets
    ensures var r := Handled(st, w, socket, request, host);
      && |r.0| >= 1 && Answer(r.0).Some? && Answer(r.0).value.id == RequestId(request)
      && var answer := Answer(r.0).value;
      && (answer.error.None? ==>
            answer.result == (if Method(request) == "mining.subscribe" then JArray([JBool(true), JString(Agent)]) else JBool(true)))
      && (answer.error.Some? ==> answer.result == JBool(false))
  {
    HandledAnsweredOnce(st, w, socket, request, host);
  }

  /** A handled request closes the connection exactly when its answer carries code 20. */
  lemma HandledCloses(st: S.StratumState, w: T.Window, socket: S.SocketId, request: Json, host: Host)
    requires IsRequest(request) && socket in st.sockets
    ensures var r := Handled(st, w, socket, request, host);
      && |r.0| >= 1
      && (r.0[|r.0| - 1].Close? <==>
            Answer(r.0).Some? && Answer(r.0).value.error.Some? && Answer(r.0).value.error.value.0 == Code(Unknown))
  {
    HandledAnsweredOnce(st, w, socket, request, host);
  }

  /** Only the last action of a handled request answers it or closes the connection. */
  lemma HandledAnswersLast(st: S.StratumState, w: T.Window, socket: S.SocketId, request: Json, host: Host)
    requires IsRequest(request) && socket in st.sockets
    ensures var r := Handled(st, w, socket, request, host);
      forall i | 0 <= i < |r.0| - 1 :: !r.0[i].Reply? && !r.0[i].Close?
  {
    HandledAnsweredOnce(st, w, socket, request, host);
  }

  /** A method the server does not know is answered `true` and changes nothing. */
  lemma UnknownMethodIgnored(st: S.StratumState, w: T.Window, socket: S.SocketId, request: Json, host: Host)
    requires IsRequest(request) && socket in st.sockets
    requires Method(request) !in {"mining.submit", "mining.authorize", "mining.subscribe"}
    ensures Handled(st, w, socket, request, host) == ([Reply(Response(RequestId(request), JBool(true), None))], st, w)
  {
  }

  function Sends(events: seq<Event>): (r: seq<Action>)
    ensures |r| == |events| && forall i | 0 <= i < |r| :: r[i] == Send(events[i])
  {
    if events == [] then [] else [Send(events[0])] + Sends(events[1..])
  }

  /** The loop over complete lines, in arrival order: a line that is not a request ends
      the connection, and the loop goes on with the next line. */
  function Dispatched(st: S.StratumState, w: T.Window, socket: S.SocketId, lines: seq<string>, host: Host)
    : (r: (seq<Action>, S.StratumState, T.Window))
    requires socket in st.sockets
    ensures r.1.sockets.Keys == st.sockets.Keys
    ensures S.Consistent(st) ==> S.Consistent(r.1)
    ensures T.Coherent(w) ==> T.Coherent(r.2)
    decreases |lines|
  {
    if lines == [] then ([], st, w)
    else
      var step := Step(st, w, socket, lines[0], host);
      var rest := Dispatched(step.1, step.2, socket, lines[1..], host);
      (step.0 + rest.0, rest.1, rest.2)
  }

  /** One line: a request is handled, anything else ends the connection. */
  function Step(st: S.StratumState, w: T.Window, socket: S.SocketId, line: string, host: Host)
    : (r: (seq<Action>, S.StratumState, T.Window))
    requires socket in st.sockets
    ensures ParseMessage(line, host.parse).None? ==> r == ([Close(None)], st, w)
    ensures r.1.sockets.Keys == st.sockets.Keys
    ensures S.Consistent(st) ==> S.Consistent(r.1)
    ensures T.Coherent(w) ==> T.Coherent(r.2)
  {
    match ParseMessage(line, host.parse)
    case None => ([Close(None)], st, w)
    case Some(request) => Handled(st, w, socket, request, host)
  }

  /** The loop's step: the first pending line's actions join those already taken. */
  lemma DispatchStep(st: S.StratumState, w: T.Window, socket: S.SocketId, pending: seq<string>, host: Host,
                     actions: seq<Action>, goal: (seq<Action>, S.StratumState, T.Window))
    requires socket in st.sockets && pending != []
    requires var d := Dispatched(st, w, socket, pending, host); (actions + d.0, d.1, d.2) == goal
    ensures var step := Step(st, w, socket, pending[0], host);
      var d := Dispatched(step.1, step.2, socket, pending[1..], host);
      ((actions + step.0) + d.0, d.1, d.2) == goal
  {
    var step := Step(st, w, socket, pending[0], host);
    var d := Dispatched(step.1, step.2, socket, pending[1..], host);
    assert (actions + step.0) + d.0 == actions + (step.0 + d.0);
  }

  /** A line that is not a request closes the connection and the next lines are still
      handled. */
  lemma UnparseableContinues(st: S.StratumState, w: T.Window, socket: S.SocketId, line: string, rest: seq<string>, host: Host)
    requires socket in st.sockets && ParseMessage(line, host.parse).None?
    ensures var d := Dispatched(st, w, socket, rest, host);
      Dispatched(st, w, socket, [line] + rest, host) == ([Close(None)] + d.0, d.1, d.2)
  {
    assert ([line] + rest)[1..] == rest;
  }

  /** `onData`: the data is appended to the buffer, every complete line is dispatched,
      the unterminated rest becomes the buffer, and a buffer over 512 UTF-16 code
      units ends the connection. */
  function Received(st: S.StratumState, w: T.Window, socket: S.SocketId, data: string, host: Host)
    : (r: (seq<Action>, S.StratumState, T.Window))
    requires socket in st.sockets
    ensures r.1.sockets.Keys == st.sockets.Keys
    ensures S.Consistent(st) ==> S.Consistent(r.1)
    ensures T.Coherent(w) ==> T.Coherent(r.2)
  {
    var buffered := st.sockets[socket].cachedBytes + data;
    var lines := Split(buffered);
    var d := Dispatched(S.WithBuffer(st, socket, buffered), w, socket, lines[..|lines| - 1], host);
    var buffer := lines[|lines| - 1];
    (if Utf16Length(buffer) > MaxBuffer then d.0 + [Close(None)] else d.0, S.WithBuffer(d.1, socket, buffer), d.2)
  }

  /** `onData` in the order its statements run. */
  lemma ReceivedSteps(st: S.StratumState, w: T.Window, socket: S.SocketId, data: string, host: Host)
    requires socket in st.sockets
    ensures var buffered := st.sockets[socket].cachedBytes + data;
      var lines := Split(buffered);
      var buffer := lines[|lines| - 1];
      var d := Dispatched(S.WithBuffer(st, socket, buffered), w, socket, lines[..|lines| - 1], host);
      Received(st, w, socket, data, host)
        == (if Utf16Length(buffer) > MaxBuffer then d.0 + [Close(None)] else d.0, S.WithBuffer(d.1, socket, buffer), d.2)
  {
  }

  /** Framing: the old buffer and the new data are exactly the dispatched lines, each
      with its line feed, followed by the new buffer, which holds no line feed; the
      end of the connection is listed after the dispatched lines' actions (in arrival
      order) exactly when the new buffer is over 512 UTF-16 code units. */
  lemma ReceivedFrames(st: S.StratumState, w: T.Window, socket: S.SocketId, data: string, host: Host)
    requires socket in st.sockets
    ensures var buffered := st.sockets[socket].cachedBytes + data;
      var lines := Split(buffered);
      var buffer := lines[|lines| - 1];
      var r := Received(st, w, socket, data, host);
      var d := Dispatched(S.WithBuffer(st, socket, buffered), w, socket, lines[..|lines| - 1], host);
      && r.1.sockets[socket].cachedBytes == buffer
      && '\n' !in buffer
      && Terminated(lines[..|lines| - 1]) + buffer == buffered
      && r.0 == (if Utf16Length(buffer) > MaxBuffer then d.0 + [Close(None)] else d.0)
  {
    SplitRoundTrip(st.sockets[socket].cachedBytes + data);
  }

  /** Data without a line feed dispatches nothing and only grows the buffer. */
  lemma PartialLineBuffered(st: S.StratumState, w: T.Window, socket: S.SocketId, data: string, host: Host)
    requires socket in st.sockets
    requires '\n' !in st.sockets[socket].cachedBytes + data
    requires Utf16Length(st.sockets[socket].cachedBytes + data) <= MaxBuffer
    ensures var r := Received(st, w, socket, data, host);
      r.0 == [] && r.1.sockets[socket].cachedBytes == st.sockets[socket].cachedBytes + data && r.2 == w
  {
    SplitUnterminated(st.sockets[socket].cachedBytes + data);
  }

  /** The server: the share-accounting object it extends, and the difficulty every
      connection starts with. */
  class Server {
    const stratum: S.Stratum
    const difficulty: real

    ghost predicate Valid()
      reads this, stratum, stratum.templates
    {
      stratum.Valid()
    }

    constructor (stratum: S.Stratum, difficulty: real)
      ensures this.stratum == stratum && this.difficulty == difficulty
    {
      this.stratum := stratum;
      this.difficulty := difficulty;
    }

    /** `onConnect`: the new connection's data. */
    method OnConnect(socket: S.SocketId)
      requires Valid() && socket !in stratum.sockets
      modifies stratum
      ensures Valid()
      ensures stratum.sockets == old(stratum.sockets)[socket := S.Miner(difficulty, [], "")]
      ensures stratum.State() == old(stratum.State()).(sockets := stratum.sockets)
    {
      stratum.sockets := stratum.sockets[socket := S.Miner(difficulty, [], "")];
    }

    /** `onMessage` with the error handling `onData` attaches to it. */
    method OnMessage(socket: S.SocketId, request: Json, host: Host) returns (actions: seq<Action>)
      requires Valid() && IsRequest(request) && socket in stratum.sockets
      modifies stratum, stratum.templates
      ensures Valid()
      ensures (actions, stratum.State(), stratum.templates.State())
        == Handled(old(stratum.State()), old(stratum.templates.State()), socket, request, host)
    {
      var id := RequestId(request);
      var name := Method(request);
      if name == "mining.submit" {
        var identity := Param(request, 0);
        if !identity.JString? {
          return SubmitActions(id, Err(Failed("TypeError")), host.stack);
        }
        var outcome := stratum.Submit(socket, identity.s, Param(request, 1), Param(request, 2), host.env);
        actions := SubmitActions(id, outcome, host.stack);
      } else if name == "mining.authorize" {
        var identity := Param(request, 0);
        if !identity.JString? {
          return AuthorizeActions(id, Err(Failed("TypeError")), host.stack);
        }
        var outcome := stratum.Authorize(socket, identity.s, host.env);
        actions := AuthorizeActions(id, outcome, host.stack);
      } else if name == "mining.subscribe" {
        var outcome := stratum.Subscribe(socket);
        actions := SubscribeActions(id, outcome, host.stack);
      } else {
        actions := [Reply(Response(id, JBool(true), None))];
      }
    }

    /** `onData`. */
    method OnData(socket: S.SocketId, data: string, host: Host) returns (actions: seq<Action>)
      requires Valid() && socket in stratum.sockets
      modifies stratum, stratum.templates
      ensures Valid()
      ensures (actions, stratum.State(), stratum.templates.State())
        == Received(old(stratum.State()), old(stratum.templates.State()), socket, data, host)
    {
      ghost var st, w := stratum.State(), stratum.templates.State();
      var buffered := stratum.sockets[socket].cachedBytes + data;
      stratum.Buffer(socket, buffered);
      var messages := Split(buffered);
      var buffer := messages[|messages| - 1];
      ghost var d := Dispatched(S.WithBuffer(st, socket, buffered), w, socket, messages[..|messages| - 1], host);
      ReceivedSteps(st, w, socket, data, host);
      actions := Dispatch(socket, messages[..|messages| - 1], host);
      assert socket in stratum.sockets;
      stratum.Buffer(socket, buffer);
      if Utf16Length(buffer) > MaxBuffer {
        actions := actions + [Close(None)];
      }
    }

    /** The `while` loop of `onData` over the complete lines. */
    method Dispatch(socket: S.SocketId, lines: seq<string>, host: Host) returns (actions: seq<Action>)
      requires Valid() && socket in stratum.sockets
      modifies stratum, stratum.templates
      ensures Valid()
      ensures (actions, stratum.State(), stratum.templates.State())
        == Dispatched(old(stratum.State()), old(stratum.templates.State()), socket, lines, host)
    {
      ghost var goal := Dispatched(stratum.State(), stratum.templates.State(), socket, lines, host);
      var pending := lines;
      actions := [];
      assert [] + goal.0 == goal.0;
      while pending != []
        invariant Valid() && socket in stratum.sockets
        invariant var d := Dispatched(stratum.State(), stratum.templates.State(), socket, pending, host);
          (actions + d.0, d.1, d.2) == goal
      {
        var line := pending[0];
        ghost var step := Step(stratum.State(), stratum.templates.State(), socket, line, host);
        DispatchStep(stratum.State(), stratum.templates.State(), socket, pending, host, actions, goal);
        ghost var before := actions;
        pending := pending[1..];
        var message := ParseMessage(line, host.parse);
        if message.Some? {
          var replies := OnMessage(socket, message.value, host);
          actions := actions + replies;
        } else {
          actions := actions + [Close(None)];
        }
        assert actions == before + step.0 && stratum.State() == step.1 && stratum.templates.State() == step.2;
      }
      assert actions + [] == actions;
    }
  }
}
