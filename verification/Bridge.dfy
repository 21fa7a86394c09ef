/**
 * The bridge between one worker thread and PHP, as a state that calls step: a linear reply sender,
 * a linear done signal, and the body cursor, all belonging to the request in flight.
 *
 * `log` is what the thread has done to its channels, in order. A send is logged whether or not the
 * receiver still exists: `Delivered` cuts the log where the client went away.
 */
module Bridge {

  import opened Wrappers
  import opened Json
  import opened Chunks
  import opened Bodies

  /** A task: its id, how many chunks its receiver lives to take, and its streaming body if any. */
  datatype Request = Request(id: nat, patience: nat, body: Option<RequestBody>)

  datatype Sender = Sender(request: nat, patience: nat)

  datatype Event =
    | Received(request: nat)
    | Emitted(request: nat, chunk: Chunk)
    | Signalled(request: nat)

  datatype State = State(
    workerId: nat,
    tasks: seq<Request>,
    stream: Option<Sender>,
    done: Option<nat>,
    started: bool,
    request: Option<nat>,
    cursor: Cursor,
    log: seq<Event>)

  function Init(workerId: nat): State {
    State(workerId, [], None, None, false, None, Fresh(None), [])
  }

  datatype Fault = NoPendingRequest | NoPendingDone | HeadTwice | ClientGone | MalformedJson

  datatype Answer = Accepted | Refused(fault: Fault) | Gave(result: BodyResult)

  /** What a handler may call. Decoding JSON text is the caller's: `Send` gets the parsed value or the parser's complaint. */
  datatype Call =
    | WriteHead(status: Status, headers: map<string, string>)
    | Write(data: Bytes)
    | WriteEnd
    | Send(json: Result<Value, string>)
    | SendError(message: string)
    | Consume(call: BodyCall)

  // ---- The log ----

  function ChunksOf(log: seq<Event>, r: nat): seq<Chunk> {
    if log == [] then []
    else
      var e := log[|log| - 1];
      ChunksOf(log[..|log| - 1], r) + (if e.Emitted? && e.request == r then [e.chunk] else [])
  }

  function Delivered(log: seq<Event>, r: nat, patience: nat): seq<Chunk> {
    ChunksOf(log, r)[..Min(patience, |ChunksOf(log, r)|)]
  }

  predicate Listening(log: seq<Event>, tx: Sender) {
    |ChunksOf(log, tx.request)| < tx.patience
  }

  // ---- The calls ----

  /** Every way of finishing a request takes the senders and clears what belonged to it. */
  function Release(s: State): State {
    s.(stream := None, done := None, request := None, started := false, cursor := CLEARED)
  }

  /** The chunk a finished handler stands for. */
  function AnswerChunk(result: Result<Value, string>): Chunk {
    match result
    case Ok(v) => if Get(v, "__error").Some? then Error(WorkerErrorFromValue(v)) else Return(v)
    case Err(message) => Error(PlainError(message))
  }

  function SendChunk(json: Result<Value, string>): Chunk {
    match json
    case Ok(v) => AnswerChunk(Ok(v))
    case Err(detail) => Error(PlainError("PHP returned malformed JSON: " + detail))
  }

  /** The answer if there is one, then the end, then the done signal. */
  function Closing(log: seq<Event>, r: nat, answer: Option<Chunk>): seq<Event> {
    (if answer.Some? then log + [Emitted(r, answer.value)] else log) + [Emitted(r, End)]
  }

  function Finished(s: State, answer: Option<Chunk>): State
    requires s.stream.Some? && s.done.Some?
  {
    Release(s).(log := Closing(s.log, s.stream.value.request, answer) + [Signalled(s.done.value)])
  }

  function DoReceive(s: State): State
    requires s.tasks != []
  {
    var req := s.tasks[0];
    s.(tasks := s.tasks[1..], request := Some(req.id), stream := Some(Sender(req.id, req.patience)),
       done := Some(req.id), cursor := Fresh(req.body), started := false, log := s.log + [Received(req.id)])
  }

  function DoWriteHead(s: State, status: Status, headers: map<string, string>): (Answer, State) {
    if s.stream.None? then (Refused(NoPendingRequest), s)
    else if s.started then (Refused(HeadTwice), s)
    else
      var tx := s.stream.value;
      (if Listening(s.log, tx) then Accepted else Refused(ClientGone),
       s.(started := true, log := s.log + [Emitted(tx.request, Headers(status, headers))]))
  }

  function DoWrite(s: State, data: Bytes): (Answer, State) {
    if s.stream.None? then (Refused(NoPendingRequest), s)
    else if data == [] then (Accepted, s)
    else
      var tx := s.stream.value;
      (if Listening(s.log, tx) then Accepted else Refused(ClientGone),
       s.(log := s.log + [Emitted(tx.request, Body(data))]))
  }

  function DoWriteEnd(s: State): (Answer, State) {
    if s.stream.None? then (Refused(NoPendingRequest), s)
    else if s.done.None? then (Refused(NoPendingDone), s.(stream := None))
    else (Accepted, Finished(s, None))
  }

  function DoSend(s: State, json: Result<Value, string>): (Answer, State) {
    if s.stream.None? then (Refused(NoPendingRequest), s)
    else if s.done.None? then (Refused(NoPendingDone), s.(stream := None))
    else (if json.Ok? then Accepted else Refused(MalformedJson), Finished(s, Some(SendChunk(json))))
  }

  /** What `do_send_error` and the end of a dispatch do with whichever of the two senders is left. */
  function Wrap(s: State, answer: Option<Chunk>): State {
    if s.stream.Some? && s.done.Some? then Finished(s, answer)
    else if s.stream.Some? then Release(s).(log := Closing(s.log, s.stream.value.request, answer))
    else if s.done.Some? then Release(s).(log := s.log + [Signalled(s.done.value)])
    else Release(s)
  }

  function DoSendError(s: State, message: string): (Answer, State) {
    (Accepted, Wrap(s, Some(Error(PlainError(message)))))
  }

  function DoConsume(s: State, call: BodyCall): (Answer, State) {
    var (result, cursor) := Perform(s.cursor, call);
    (Gave(result), s.(cursor := cursor))
  }

  function DoCall(s: State, call: Call): (Answer, State) {
    match call
    case WriteHead(status, headers) => DoWriteHead(s, status, headers)
    case Write(data) => DoWrite(s, data)
    case WriteEnd => DoWriteEnd(s)
    case Send(json) => DoSend(s, json)
    case SendError(message) => DoSendError(s, message)
    case Consume(c) => DoConsume(s, c)
  }

  /** The end of a dispatch: only `End` once a head was sent, otherwise the handler's result first. */
  function Finalise(s: State, result: Result<Value, string>): State {
    Wrap(s, if s.started then None else Some(AnswerChunk(result)))
  }

  datatype Step = Receive | Called(call: Call) | Finalised(result: Result<Value, string>)

  predicate CanStep(s: State, e: Step) {
    e.Receive? ==> s.tasks != []
  }

  function Next(s: State, e: Step): State
    requires CanStep(s, e)
  {
    match e
    case Receive => DoReceive(s)
    case Called(call) => DoCall(s, call).1
    case Finalised(result) => Finalise(s, result)
  }

  // ---- What the log says about one request ----

  /**
   * `Open` while the thread holds the request's senders, `Cut` when they were replaced unused,
   * `Over` after its done signal; `Wrong` if anything else ever happened to its channels.
   */
  datatype Fate = Unseen | Open(mode: Mode) | Cut(mode: Mode) | Over | Wrong

  function Follow(f: Fate, e: Event, r: nat): Fate {
    match e
    case Received(q) =>
      if q == r then (if f == Unseen then Open(Plain) else Wrong)
      else if f.Open? then Cut(f.mode) else f
    case Emitted(q, c) =>
      if q != r then f
      else if f.Open? && Advance(f.mode, c) != Broken then Open(Advance(f.mode, c)) else Wrong
    case Signalled(q) =>
      if q != r then f else if f == Open(Closed) then Over else Wrong
  }

  function FateOf(log: seq<Event>, r: nat): Fate {
    if log == [] then Unseen else Follow(FateOf(log[..|log| - 1], r), log[|log| - 1], r)
  }

  lemma LogAppend(log: seq<Event>, e: Event, r: nat)
    ensures FateOf(log + [e], r) == Follow(FateOf(log, r), e, r)
    ensures ChunksOf(log + [e], r) == ChunksOf(log, r) + (if e.Emitted? && e.request == r then [e.chunk] else [])
  {
    assert (log + [e])[..|log|] == log;
  }

  /** The request whose senders the thread holds, read off the log alone. */
  function Window(log: seq<Event>): Option<nat> {
    if log == [] then None
    else match log[|log| - 1]
      case Received(q) => Some(q)
      case Emitted(_, _) => Window(log[..|log| - 1])
      case Signalled(_) => None
  }

  function Count(log: seq<Event>, e: Event): nat {
    if log == [] then 0 else Count(log[..|log| - 1], e) + if log[|log| - 1] == e then 1 else 0
  }

  ghost predicate Clean(log: seq<Event>) {
    forall r :: FateOf(log, r) != Wrong
  }

  /** What a fate means for the chunks a request was sent and the signals its supervisor got. */
  lemma {:induction false} FateMeaning(log: seq<Event>, r: nat)
    requires FateOf(log, r) != Wrong
    ensures match FateOf(log, r)
            case Unseen => ChunksOf(log, r) == [] && Count(log, Received(r)) == 0 && Count(log, Signalled(r)) == 0
            case Open(m) => ModeOf(ChunksOf(log, r)) == m && Count(log, Received(r)) == 1 && Count(log, Signalled(r)) == 0
            case Cut(m) => ModeOf(ChunksOf(log, r)) == m && Count(log, Received(r)) == 1 && Count(log, Signalled(r)) == 0
            case Over => IsReply(ChunksOf(log, r)) && Count(log, Received(r)) == 1 && Count(log, Signalled(r)) == 1
            case Wrong => false
    ensures ModeOf(ChunksOf(log, r)) != Broken
  {
    if log != [] {
      FateMeaning(log[..|log| - 1], r);
      var w, e := ChunksOf(log[..|log| - 1], r), log[|log| - 1];
      if e.Emitted? && e.request == r {
        ModeAppend(w, e.chunk);
      } else {
        assert w + [] == w;
      }
      ReplyIffClosed(w);
    }
  }

  lemma {:induction false} WindowIsOpen(log: seq<Event>, r: nat)
    requires FateOf(log, r) != Wrong && Clean(log)
    ensures Window(log) == Some(r) <==> FateOf(log, r).Open?
  {
    if log != [] {
      CleanPrefix(log, |log| - 1);
      var before, e := log[..|log| - 1], log[|log| - 1];
      assert FateOf(log, e.request) != Wrong && FateOf(before, r) != Wrong;
      WindowIsOpen(before, r);
      WindowIsOpen(before, e.request);
    }
  }

  lemma {:induction false} CleanPrefix(log: seq<Event>, k: nat)
    requires Clean(log) && k <= |log|
    ensures Clean(log[..k])
    decreases |log|
  {
    if k < |log| {
      var before := log[..|log| - 1];
      forall r ensures FateOf(before, r) != Wrong {
        assert FateOf(log, r) != Wrong;
      }
      CleanPrefix(before, k);
      assert before[..k] == log[..k];
    } else {
      assert log[..k] == log;
    }
  }

  /** Nothing is sent to a request, and its supervisor is not signalled, outside its own window. */
  lemma CleanIsIsolated(log: seq<Event>, k: nat)
    requires Clean(log) && k < |log| && !log[k].Received?
    ensures Window(log[..k]) == Some(log[k].request)
  {
    CleanPrefix(log, k + 1);
    CleanPrefix(log, k);
    var r := log[k].request;
    assert log[..k + 1][..k] == log[..k];
    assert FateOf(log[..k + 1], r) != Wrong && FateOf(log[..k], r) != Wrong;
    WindowIsOpen(log[..k], r);
  }

  // ---- The invariant ----

  ghost predicate Inv(s: State) {
    && (s.stream.Some? <==> s.done.Some?) && (s.stream.Some? <==> s.request.Some?)
    && (s.stream.Some? ==> s.done.value == s.stream.value.request == s.request.value)
    && (s.started ==> s.stream.Some?)
    && (s.cursor.body.Some? ==> s.stream.Some?)
    && Valid(s.cursor)
    && Clean(s.log)
    && (forall r :: FateOf(s.log, r).Open? <==> s.stream.Some? && r == s.stream.value.request)
    && (s.stream.Some? ==> FateOf(s.log, s.stream.value.request) == Open(if s.started then Streaming else Plain))
    && (forall i | 0 <= i < |s.tasks| :: FateOf(s.log, s.tasks[i].id) == Unseen)
    && (forall i, j | 0 <= i < j < |s.tasks| :: s.tasks[i].id != s.tasks[j].id)
  }

  /** A task may be queued on a worker that has not seen its id. */
  predicate Fits(s: State, req: Request) {
    FateOf(s.log, req.id) == Unseen && forall i | 0 <= i < |s.tasks| :: s.tasks[i].id != req.id
  }

  lemma EnqueueKeepsInv(s: State, req: Request)
    requires Inv(s) && Fits(s, req)
    ensures Inv(s.(tasks := s.tasks + [req]))
  {
  }

  lemma InitInv(workerId: nat)
    ensures Inv(Init(workerId))
  {
  }

  /** A stretch of log about the request in flight leaves every other request's fate alone. */
  ghost predicate OnlyMoves(log: seq<Event>, log': seq<Event>, r: nat, f: Fate) {
    && FateOf(log', r) == f
    && forall q | q != r :: FateOf(log', q) == FateOf(log, q) && ChunksOf(log', q) == ChunksOf(log, q)
  }

  lemma EmitMoves(log: seq<Event>, r: nat, c: Chunk, m: Mode)
    requires FateOf(log, r) == Open(m) && Advance(m, c) != Broken
    ensures OnlyMoves(log, log + [Emitted(r, c)], r, Open(Advance(m, c)))
  {
    forall q
      ensures FateOf(log + [Emitted(r, c)], q) == Follow(FateOf(log, q), Emitted(r, c), q)
      ensures q != r ==> ChunksOf(log + [Emitted(r, c)], q) == ChunksOf(log, q)
    {
      LogAppend(log, Emitted(r, c), q);
    }
  }

  lemma SignalMoves(log: seq<Event>, r: nat)
    requires FateOf(log, r) == Open(Closed)
    ensures OnlyMoves(log, log + [Signalled(r)], r, Over)
  {
    forall q
      ensures FateOf(log + [Signalled(r)], q) == Follow(FateOf(log, q), Signalled(r), q)
      ensures q != r ==> ChunksOf(log + [Signalled(r)], q) == ChunksOf(log, q)
    {
      LogAppend(log, Signalled(r), q);
    }
  }

  predicate IsAnswerChunk(answer: Option<Chunk>) {
    answer.Some? ==> answer.value.Return? || answer.value.Error?
  }

  lemma FinishMoves(s: State, answer: Option<Chunk>)
    requires Inv(s) && s.stream.Some? && IsAnswerChunk(answer)
    ensures OnlyMoves(s.log, Finished(s, answer).log, s.stream.value.request, Over)
  {
    var r := s.stream.value.request;
    var log, m := s.log, FateOf(s.log, r).mode;
    if answer.Some? {
      EmitMoves(log, r, answer.value, m);
      log, m := log + [Emitted(r, answer.value)], Answered;
    }
    EmitMoves(log, r, End, m);
    SignalMoves(log + [Emitted(r, End)], r);
  }

  lemma FinishKeepsInv(s: State, answer: Option<Chunk>)
    requires Inv(s) && s.stream.Some? && IsAnswerChunk(answer)
    ensures Inv(Finished(s, answer))
  {
    FinishMoves(s, answer);
    assert forall i | 0 <= i < |s.tasks| :: s.tasks[i].id != s.stream.value.request;
  }

  lemma ReceiveKeepsInv(s: State)
    requires Inv(s) && s.tasks != []
    ensures Inv(DoReceive(s))
  {
    var e := Received(s.tasks[0].id);
    forall r ensures FateOf(s.log + [e], r) == Follow(FateOf(s.log, r), e, r) {
      LogAppend(s.log, e, r);
    }
  }

  /** Every call, receive and end of dispatch, in any order at all, keeps the invariant. */
  lemma StepKeepsInv(s: State, e: Step)
    requires Inv(s) && CanStep(s, e)
    ensures Inv(Next(s, e))
  {
    match e
    case Receive => ReceiveKeepsInv(s);
    case Finalised(result) =>
      if s.stream.Some? {
        FinishKeepsInv(s, if s.started then None else Some(AnswerChunk(result)));
      }
    case Called(WriteEnd) =>
      if s.stream.Some? {
        FinishKeepsInv(s, None);
      }
    case Called(Send(json)) =>
      if s.stream.Some? {
        FinishKeepsInv(s, Some(SendChunk(json)));
      }
    case Called(SendError(message)) =>
      if s.stream.Some? {
        FinishKeepsInv(s, Some(Error(PlainError(message))));
      }
    case Called(WriteHead(status, headers)) =>
      if s.stream.Some? && !s.started {
        EmitMoves(s.log, s.stream.value.request, Headers(status, headers), Plain);
      }
    case Called(Write(data)) =>
      if s.stream.Some? && data != [] {
        EmitMoves(s.log, s.stream.value.request, Body(data), FateOf(s.log, s.stream.value.request).mode);
      }
    case Called(Consume(call)) =>
      if call == CallNextPart {
        NextPartAdvances(s.cursor);
      } else {
        ReadTakesFront(s.cursor, call);
      }
      ConsumeKeepsBody(s.cursor, call);
  }

  lemma ConsumeKeepsBody(c: Cursor, call: BodyCall)
    ensures Perform(c, call).1.body.Some? <==> c.body.Some?
  {
  }

  // ---- Whole runs ----

  function Run(s: State, steps: seq<Step>): Option<State>
    decreases |steps|
  {
    if steps == [] then Some(s)
    else if CanStep(s, steps[0]) then Run(Next(s, steps[0]), steps[1..])
    else None
  }

  lemma {:induction false} RunKeepsInv(s: State, steps: seq<Step>)
    requires Inv(s) && Run(s, steps).Some?
    ensures Inv(Run(s, steps).value)
    decreases |steps|
  {
    if steps != [] {
      StepKeepsInv(s, steps[0]);
      RunKeepsInv(Next(s, steps[0]), steps[1..]);
    }
  }

  /**
   * In every run, including ones that receive in the middle of a request: what any request was
   * sent is a reply or the beginning of one, it was received at most once and signalled at most
   * once, and only with its reply complete.
   */
  lemma EveryRunSpeaksReplies(s: State, steps: seq<Step>, r: nat)
    requires Inv(s) && Run(s, steps).Some?
    ensures var log := Run(s, steps).value.log;
            && (exists tail :: IsReply(ChunksOf(log, r) + tail))
            && Count(log, Received(r)) <= 1 && Count(log, Signalled(r)) <= 1
            && (Count(log, Signalled(r)) == 1 ==> IsReply(ChunksOf(log, r)))
  {
    RunKeepsInv(s, steps);
    var log := Run(s, steps).value.log;
    assert FateOf(log, r) != Wrong;
    FateMeaning(log, r);
    PrefixIffNotBroken(ChunksOf(log, r));
  }

  /** In every run, no chunk and no signal reaches a request outside its own window. */
  lemma EveryRunIsIsolated(s: State, steps: seq<Step>, k: nat)
    requires Inv(s) && Run(s, steps).Some?
    requires k < |Run(s, steps).value.log| && !Run(s, steps).value.log[k].Received?
    ensures var log := Run(s, steps).value.log; Window(log[..k]) == Some(log[k].request)
  {
    RunKeepsInv(s, steps);
    CleanIsIsolated(Run(s, steps).value.log, k);
  }

  // ---- One dispatch ----

  function AfterCalls(s: State, calls: seq<Call>): State {
    if calls == [] then s else DoCall(AfterCalls(s, calls[..|calls| - 1]), calls[|calls| - 1]).1
  }

  /** One turn of the dispatch loop: receive, let the handler make its calls, finalise. */
  function Dispatch(s: State, calls: seq<Call>, result: Result<Value, string>): State
    requires s.tasks != []
  {
    Finalise(AfterCalls(DoReceive(s), calls), result)
  }

  /** Handler calls touch no request but the one in flight, and take no task. */
  lemma {:induction false} CallsKeepInv(s: State, calls: seq<Call>, r: nat)
    requires Inv(s) && FateOf(s.log, r) != Unseen
    requires s.stream.Some? ==> s.stream.value.request == r
    requires s.stream.None? ==> FateOf(s.log, r) == Over
    ensures var s' := AfterCalls(s, calls);
            && Inv(s') && s'.tasks == s.tasks && s'.workerId == s.workerId
            && (s'.stream.Some? ==> s'.stream == s.stream)
            && (s'.stream.None? ==> FateOf(s'.log, r) == Over)
            && (forall q | q != r :: FateOf(s'.log, q) == FateOf(s.log, q) && ChunksOf(s'.log, q) == ChunksOf(s.log, q))
  {
    if calls != [] {
      CallsKeepInv(s, calls[..|calls| - 1], r);
      CallKeepsOthers(AfterCalls(s, calls[..|calls| - 1]), calls[|calls| - 1], r);
    }
  }

  lemma CallKeepsOthers(s: State, call: Call, r: nat)
    requires Inv(s)
    requires s.stream.Some? ==> s.stream.value.request == r
    requires s.stream.None? ==> FateOf(s.log, r) == Over
    ensures var s' := DoCall(s, call).1;
            && Inv(s') && s'.tasks == s.tasks && s'.workerId == s.workerId
            && (s'.stream.Some? ==> s'.stream == s.stream)
            && (s'.stream.None? ==> FateOf(s'.log, r) == Over)
            && (forall q | q != r :: FateOf(s'.log, q) == FateOf(s.log, q) && ChunksOf(s'.log, q) == ChunksOf(s.log, q))
  {
    StepKeepsInv(s, Called(call));
    if s.stream.Some? {
      match call
      case WriteEnd => FinishMoves(s, None);
      case Send(json) => FinishMoves(s, Some(SendChunk(json)));
      case SendError(message) => FinishMoves(s, Some(Error(PlainError(message))));
      case WriteHead(status, headers) =>
        if !s.started {
          EmitMoves(s.log, r, Headers(status, headers), Plain);
        }
      case Write(data) =>
        if data != [] {
          EmitMoves(s.log, r, Body(data), FateOf(s.log, r).mode);
        }
      case Consume(_) =>
    }
  }

  lemma ReceiveMoves(s: State)
    requires Inv(s) && s.tasks != []
    ensures var r, s1 := s.tasks[0].id, DoReceive(s);
            && Inv(s1) && FateOf(s1.log, r) == Open(Plain)
            && (forall q | q != r :: FateOf(s1.log, q) == Follow(FateOf(s.log, q), Received(r), q)
                                     && ChunksOf(s1.log, q) == ChunksOf(s.log, q))
  {
    var r, s1 := s.tasks[0].id, DoReceive(s);
    assert FateOf(s.log, r) == Unseen;
    ReceiveKeepsInv(s);
    hide Inv;
    forall q
      ensures FateOf(s1.log, q) == Follow(FateOf(s.log, q), Received(r), q)
      ensures ChunksOf(s1.log, q) == ChunksOf(s.log, q)
    {
      LogAppend(s.log, Received(r), q);
    }
  }

  lemma FinaliseMoves(s: State, result: Result<Value, string>, r: nat)
    requires Inv(s)
    requires if s.stream.Some? then s.stream.value.request == r else FateOf(s.log, r) == Over
    ensures var s' := Finalise(s, result);
            && Inv(s') && s'.tasks == s.tasks && s'.stream == None && s'.workerId == s.workerId
            && OnlyMoves(s.log, s'.log, r, Over)
  {
    StepKeepsInv(s, Finalised(result));
    if s.stream.Some? {
      FinishMoves(s, if s.started then None else Some(AnswerChunk(result)));
    }
  }

  /**
   * Whatever a handler calls and returns, its dispatch leaves the request over: a whole reply sent
   * and one signal given. The thread then holds nothing. Any other request is at most cut off by the
   * receive, if the thread still held it, and is sent nothing.
   */
  lemma DispatchCompletes(s: State, calls: seq<Call>, result: Result<Value, string>)
    requires Inv(s) && s.tasks != []
    ensures var r, s' := s.tasks[0].id, Dispatch(s, calls, result);
            && Inv(s') && s'.tasks == s.tasks[1..] && s'.stream == None && s'.workerId == s.workerId
            && FateOf(s'.log, r) == Over
            && IsReply(ChunksOf(s'.log, r)) && Count(s'.log, Signalled(r)) == 1
            && (forall q | q != r :: ChunksOf(s'.log, q) == ChunksOf(s.log, q)
                                     && FateOf(s'.log, q) == Follow(FateOf(s.log, q), Received(r), q))
  {
    var r, s1 := s.tasks[0].id, DoReceive(s);
    ReceiveMoves(s);
    hide Inv, AfterCalls, Finalise, FateOf, ChunksOf, Count;
    CallsKeepInv(s1, calls, r);
    var s2 := AfterCalls(s1, calls);
    FinaliseMoves(s2, result, r);
    FateMeaning(Finalise(s2, result).log, r);
  }

  /**
   * Finalising adds no return or error once a head was sent, and nothing at all after an end. An
   * error thrown is sent as its bare message, and a value without an `__error` field as it is.
   */
  lemma FinaliseAdds(s: State, result: Result<Value, string>) returns (answer: Chunk)
    requires Inv(s)
    ensures var tx := s.stream;
            Finalise(s, result).log == s.log + (
              if tx.None? then []
              else (if s.started then [] else [Emitted(tx.value.request, answer)])
                   + [Emitted(tx.value.request, End), Signalled(tx.value.request)])
    ensures match result
            case Err(message) => answer == Error(WorkerError(message, None, None))
            case Ok(v) => if Get(v, "__error").Some? then answer.Error? else answer == Return(v)
  {
    answer := AnswerChunk(result);
  }

  // ---- The order of tasks ----

  function ReceivedIds(log: seq<Event>): seq<nat> {
    if log == [] then []
    else
      var e := log[|log| - 1];
      ReceivedIds(log[..|log| - 1]) + if e.Received? then [e.request] else []
  }

  lemma ReceivedAppend(log: seq<Event>, e: Event)
    ensures ReceivedIds(log + [e]) == ReceivedIds(log) + if e.Received? then [e.request] else []
  {
    assert (log + [e])[..|log|] == log;
  }

  lemma CloseReceivesNothing(log: seq<Event>, r: nat, answer: Option<Chunk>, done: nat)
    ensures ReceivedIds(Closing(log, r, answer)) == ReceivedIds(log)
    ensures ReceivedIds(Closing(log, r, answer) + [Signalled(done)]) == ReceivedIds(log)
    ensures ReceivedIds(log + [Signalled(done)]) == ReceivedIds(log)
  {
    hide ReceivedIds;
    if answer.Some? {
      ReceivedAppend(log, Emitted(r, answer.value));
      ReceivedAppend(log + [Emitted(r, answer.value)], Emitted(r, End));
    } else {
      ReceivedAppend(log, Emitted(r, End));
    }
    ReceivedAppend(Closing(log, r, answer), Signalled(done));
    ReceivedAppend(log, Signalled(done));
  }

  lemma WrapReceivesNothing(s: State, answer: Option<Chunk>)
    ensures ReceivedIds(Wrap(s, answer).log) == ReceivedIds(s.log) && Wrap(s, answer).tasks == s.tasks
  {
    hide ReceivedIds, Closing;
    CloseReceivesNothing(s.log, if s.stream.Some? then s.stream.value.request else 0, answer,
                         if s.done.Some? then s.done.value else 0);
  }

  lemma CallReceivesNothing(s: State, call: Call)
    ensures var s' := DoCall(s, call).1; ReceivedIds(s'.log) == ReceivedIds(s.log) && s'.tasks == s.tasks
  {
    hide ReceivedIds, Closing, Wrap, Perform;
    var r, done := if s.stream.Some? then s.stream.value.request else 0, if s.done.Some? then s.done.value else 0;
    match call
    case WriteHead(status, headers) => ReceivedAppend(s.log, Emitted(r, Headers(status, headers)));
    case Write(data) => ReceivedAppend(s.log, Emitted(r, Body(data)));
    case WriteEnd => CloseReceivesNothing(s.log, r, None, done);
    case Send(json) => CloseReceivesNothing(s.log, r, Some(SendChunk(json)), done);
    case SendError(message) => WrapReceivesNothing(s, Some(Error(PlainError(message))));
    case Consume(_) =>
  }

  /** A thread receives the oldest task it has, and no other step receives or drops one. */
  lemma StepsTakeInOrder(s: State, e: Step)
    requires CanStep(s, e)
    ensures var s' := Next(s, e);
            if e.Receive? then ReceivedIds(s'.log) == ReceivedIds(s.log) + [s.tasks[0].id] && s'.tasks == s.tasks[1..]
            else ReceivedIds(s'.log) == ReceivedIds(s.log) && s'.tasks == s.tasks
  {
    hide ReceivedIds, Wrap, DoCall;
    match e
    case Receive => ReceivedAppend(s.log, Received(s.tasks[0].id));
    case Finalised(result) => WrapReceivesNothing(s, if s.started then None else Some(AnswerChunk(result)));
    case Called(call) => CallReceivesNothing(s, call);
  }

  function TaskIds(tasks: seq<Request>): seq<nat> {
    seq(|tasks|, i requires 0 <= i < |tasks| => tasks[i].id)
  }

  lemma {:induction false} CallsReceiveNothing(s: State, calls: seq<Call>)
    ensures var s' := AfterCalls(s, calls); ReceivedIds(s'.log) == ReceivedIds(s.log) && s'.tasks == s.tasks
  {
    hide ReceivedIds, DoCall;
    if calls != [] {
      CallsReceiveNothing(s, calls[..|calls| - 1]);
      CallReceivesNothing(AfterCalls(s, calls[..|calls| - 1]), calls[|calls| - 1]);
    }
  }

  lemma DispatchReceivesOne(s: State, calls: seq<Call>, result: Result<Value, string>)
    requires s.tasks != []
    ensures var s' := Dispatch(s, calls, result);
            ReceivedIds(s'.log) == ReceivedIds(s.log) + [s.tasks[0].id] && s'.tasks == s.tasks[1..]
  {
    hide ReceivedIds, AfterCalls, Wrap;
    ReceivedAppend(s.log, Received(s.tasks[0].id));
    CallsReceiveNothing(DoReceive(s), calls);
    var s2 := AfterCalls(DoReceive(s), calls);
    WrapReceivesNothing(s2, if s2.started then None else Some(AnswerChunk(result)));
  }

}
