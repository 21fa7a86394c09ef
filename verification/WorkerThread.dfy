/**
 * The thread-local worker state, with its fields taken, replaced and cleared in place. Every method
 * computes the step of module `Bridge` that bears its name, and changes nothing else.
 */
module WorkerThread {

  import opened Wrappers
  import opened Json
  import opened Chunks
  import opened Bodies
  import opened Bridge
  import opened EndToEnd

  /** What the PHP handler does with one request. */
  datatype Turn = Turn(calls: seq<Call>, result: Result<Value, string>)

  /** The dispatch loop over every task that arrives before the channel closes. */
  function Loop(s: State, handler: Request -> Turn): State
    decreases |s.tasks|
  {
    if s.tasks == [] then s
    else
      var turn := handler(s.tasks[0]);
      DispatchTakesOne(s, turn);
      Loop(Dispatch(s, turn.calls, turn.result), handler)
  }

  lemma {:induction false} CallsKeepTasks(s: State, calls: seq<Call>)
    ensures AfterCalls(s, calls).tasks == s.tasks
  {
    if calls != [] {
      CallsKeepTasks(s, calls[..|calls| - 1]);
    }
  }

  lemma DispatchTakesOne(s: State, turn: Turn)
    requires s.tasks != []
    ensures Dispatch(s, turn.calls, turn.result).tasks == s.tasks[1..]
  {
    CallsKeepTasks(DoReceive(s), turn.calls);
  }

  ghost predicate SomeTask(tasks: seq<Request>, q: nat) {
    exists i | 0 <= i < |tasks| :: tasks[i].id == q
  }

  lemma HeadOrTail(tasks: seq<Request>, q: nat)
    requires tasks != []
    ensures SomeTask(tasks, q) <==> q == tasks[0].id || SomeTask(tasks[1..], q)
  {
    var rest := tasks[1..];
    if i :| 0 <= i < |rest| && rest[i].id == q {
      assert tasks[i + 1].id == q;
    }
    if i :| 1 <= i < |tasks| && tasks[i].id == q {
      assert rest[i - 1].id == q;
    }
  }

  /** After the loop from `s`, every task was served, and requests that are none of them sent nothing. */
  ghost predicate LoopServes(s: State, log: seq<Event>, handler: Request -> Turn) {
    && (forall i | 0 <= i < |s.tasks| :: Served(log, s.tasks[i], handler(s.tasks[i])))
    && (forall q | !SomeTask(s.tasks, q) :: ChunksOf(log, q) == ChunksOf(s.log, q))
    && (forall q | FateOf(s.log, q) == Over :: FateOf(log, q) == Over)
  }

  lemma ServeOneMore(s: State, s1: State, log: seq<Event>, handler: Request -> Turn)
    requires s.tasks != [] && s1.tasks == s.tasks[1..] && LoopServes(s1, log, handler)
    requires Served(s1.log, s.tasks[0], handler(s.tasks[0])) && !SomeTask(s1.tasks, s.tasks[0].id)
    requires forall q | q != s.tasks[0].id :: ChunksOf(s1.log, q) == ChunksOf(s.log, q)
    requires forall q | FateOf(s.log, q) == Over :: FateOf(s1.log, q) == Over
    ensures LoopServes(s, log, handler)
  {
    hide FateOf, ChunksOf, Reads, Meaning, IsReply, SomeTask;
    forall i | 0 <= i < |s.tasks| ensures Served(log, s.tasks[i], handler(s.tasks[i])) {
      if i > 0 {
        assert s.tasks[i] == s1.tasks[i - 1];
      }
    }
    forall q | !SomeTask(s.tasks, q) ensures ChunksOf(log, q) == ChunksOf(s.log, q) {
      HeadOrTail(s.tasks, q);
    }
  }

  lemma HeadIsNew(s: State)
    requires Inv(s) && s.tasks != []
    ensures !SomeTask(s.tasks[1..], s.tasks[0].id) && FateOf(s.log, s.tasks[0].id) == Unseen
  {
    var rest := s.tasks[1..];
    assert forall k | 0 <= k < |rest| :: rest[k] == s.tasks[k + 1];
  }

  /** The loop gives every task one whole reply that means what its handler meant, and others nothing. */
  lemma {:induction false} LoopAnswersAll(s: State, handler: Request -> Turn)
    requires Inv(s)
    ensures Inv(Loop(s, handler)) && Loop(s, handler).tasks == []
    ensures LoopServes(s, Loop(s, handler).log, handler)
    decreases |s.tasks|
  {
    if s.tasks != [] {
      ServesOne(s, handler);
      HeadIsNew(s);
      var turn := handler(s.tasks[0]);
      var s1 := Dispatch(s, turn.calls, turn.result);
      LoopAnswersAll(s1, handler);
      ServeOneMore(s, s1, Loop(s, handler).log, handler);
    }
  }

  /** And it takes the tasks in the order they came. */
  lemma {:induction false} LoopTakesInOrder(s: State, handler: Request -> Turn)
    ensures ReceivedIds(Loop(s, handler).log) == ReceivedIds(s.log) + TaskIds(s.tasks)
    decreases |s.tasks|
  {
    hide ReceivedIds, Dispatch;
    if s.tasks != [] {
      var turn := handler(s.tasks[0]);
      DispatchReceivesOne(s, turn.calls, turn.result);
      LoopTakesInOrder(Dispatch(s, turn.calls, turn.result), handler);
      assert TaskIds(s.tasks) == [s.tasks[0].id] + TaskIds(s.tasks[1..]);
    } else {
      assert TaskIds(s.tasks) == [];
    }
  }

  lemma ServesOne(s: State, handler: Request -> Turn)
    requires Inv(s) && s.tasks != []
    ensures var turn := handler(s.tasks[0]);
            var s1 := Dispatch(s, turn.calls, turn.result);
            && Inv(s1) && s1.tasks == s.tasks[1..] && Served(s1.log, s.tasks[0], turn)
            && (forall q | q != s.tasks[0].id :: ChunksOf(s1.log, q) == ChunksOf(s.log, q))
            && (forall q | FateOf(s.log, q) == Over :: FateOf(s1.log, q) == Over)
  {
    HeadIsNew(s);
    hide Inv, Dispatch, FateOf, ChunksOf, Reads, Meaning, Count;
    var turn := handler(s.tasks[0]);
    DispatchCompletes(s, turn.calls, turn.result);
    CallerGetsMeaning(s, turn.calls, turn.result);
  }

  ghost predicate Served(log: seq<Event>, req: Request, turn: Turn) {
    && FateOf(log, req.id) == Over
    && IsReply(ChunksOf(log, req.id))
    && Reads(ChunksOf(log, req.id), Meaning(turn.calls, turn.result))
  }

  class WorkerState {
    const workerId: nat
    var taskRx: seq<Request>
    var currentStreamTx: Option<Sender>
    var currentDoneTx: Option<nat>
    var streamStarted: bool
    var currentRequestId: Option<nat>
    var currentBody: Option<RequestBody>
    var currentBodyLeftover: Bytes
    var currentPartState: PartState
    var log: seq<Event>

    function Abs(): State
      reads this
    {
      State(workerId, taskRx, currentStreamTx, currentDoneTx, streamStarted, currentRequestId,
            Cursor(currentBody, currentBodyLeftover, currentPartState), log)
    }

    constructor (workerId: nat)
      ensures Abs() == Init(workerId)
    {
      this.workerId := workerId;
      taskRx, log := [], [];
      currentStreamTx, currentDoneTx, currentRequestId := None, None, None;
      streamStarted := false;
      currentBody, currentBodyLeftover, currentPartState := None, [], BeforeFirst;
    }

    // ---- Channel ends ----

    method BlockingSend(tx: Sender, chunk: Chunk) returns (ok: bool)
      modifies `log
      ensures log == old(log) + [Emitted(tx.request, chunk)]
      ensures ok <==> Listening(old(log), tx)
    {
      ok := |ChunksOf(log, tx.request)| < tx.patience;
      log := log + [Emitted(tx.request, chunk)];
    }

    method Signal(done: nat)
      modifies `log
      ensures log == old(log) + [Signalled(done)]
    {
      log := log + [Signalled(done)];
    }

    method RecvRaw() returns (chunk: Option<Bytes>)
      requires currentBody.Some? && currentBody.value.Raw?
      modifies `currentBody
      ensures var chunks := old(currentBody.value.chunks);
              if chunks == [] then chunk == None && currentBody == old(currentBody)
              else chunk == Some(chunks[0]) && currentBody == Some(Raw(chunks[1..]))
    {
      var chunks := currentBody.value.chunks;
      if chunks == [] {
        return None;
      }
      currentBody := Some(Raw(chunks[1..]));
      return Some(chunks[0]);
    }

    method RecvPart() returns (message: Option<PartMessage>)
      requires currentBody.Some? && currentBody.value.Parts?
      modifies `currentBody
      ensures var messages := old(currentBody.value.messages);
              if messages == [] then message == None && currentBody == old(currentBody)
              else message == Some(messages[0]) && currentBody == Some(Parts(messages[1..]))
    {
      var messages := currentBody.value.messages;
      if messages == [] {
        return None;
      }
      currentBody := Some(Parts(messages[1..]));
      return Some(messages[0]);
    }

    // ---- Receiving and answering ----

    /** `None` once the channel is closed and empty. */
    method DoRecv() returns (request: Option<Request>)
      modifies this
      ensures old(taskRx) == [] ==> request == None && Abs() == old(Abs())
      ensures old(taskRx) != [] ==> request == Some(old(taskRx)[0]) && Abs() == DoReceive(old(Abs()))
    {
      if taskRx == [] {
        return None;
      }
      var req := taskRx[0];
      taskRx := taskRx[1..];
      currentRequestId := Some(req.id);
      currentStreamTx := Some(Sender(req.id, req.patience));
      currentDoneTx := Some(req.id);
      currentBody := req.body;
      currentBodyLeftover := [];
      currentPartState := BeforeFirst;
      streamStarted := false;
      log := log + [Received(req.id)];
      return Some(req);
    }

    method ClearRequest()
      modifies `currentRequestId, `streamStarted, `currentBody, `currentBodyLeftover, `currentPartState
      ensures currentRequestId == None && !streamStarted
      ensures Cursor(currentBody, currentBodyLeftover, currentPartState) == CLEARED
    {
      currentRequestId := None;
      streamStarted := false;
      currentBody := None;
      currentBodyLeftover := [];
      currentPartState := Done;
    }

    method Send(json: Result<Value, string>) returns (a: Answer)
      modifies this
      ensures (a, Abs()) == DoSend(old(Abs()), json)
    {
      if currentStreamTx.None? {
        return Refused(NoPendingRequest);
      }
      var streamTx := currentStreamTx.value;
      currentStreamTx := None;
      if currentDoneTx.None? {
        return Refused(NoPendingDone);
      }
      var doneTx := currentDoneTx.value;
      currentDoneTx := None;
      ClearRequest();
      if json.Err? {
        var _ := BlockingSend(streamTx, Error(PlainError("PHP returned malformed JSON: " + json.error)));
        var _ := BlockingSend(streamTx, End);
        Signal(doneTx);
        return Refused(MalformedJson);
      }
      if Get(json.value, "__error").Some? {
        var _ := BlockingSend(streamTx, Error(WorkerErrorFromValue(json.value)));
      } else {
        var _ := BlockingSend(streamTx, Return(json.value));
      }
      var _ := BlockingSend(streamTx, End);
      Signal(doneTx);
      return Accepted;
    }

    method SendError(message: string) returns (a: Answer)
      modifies this
      ensures (a, Abs()) == DoSendError(old(Abs()), message)
    {
      var streamTx, doneTx := currentStreamTx, currentDoneTx;
      currentStreamTx, currentDoneTx := None, None;
      ClearRequest();
      if streamTx.Some? {
        var _ := BlockingSend(streamTx.value, Error(PlainError(message)));
        var _ := BlockingSend(streamTx.value, End);
      }
      if doneTx.Some? {
        Signal(doneTx.value);
      }
      return Accepted;
    }

    method WriteHead(status: Status, headers: map<string, string>) returns (a: Answer)
      modifies this
      ensures (a, Abs()) == DoWriteHead(old(Abs()), status, headers)
    {
      if currentStreamTx.None? {
        return Refused(NoPendingRequest);
      }
      if streamStarted {
        return Refused(HeadTwice);
      }
      streamStarted := true;
      var ok := BlockingSend(currentStreamTx.value, Headers(status, headers));
      return if ok then Accepted else Refused(ClientGone);
    }

    method Write(data: Bytes) returns (a: Answer)
      modifies this
      ensures (a, Abs()) == DoWrite(old(Abs()), data)
    {
      if currentStreamTx.None? {
        return Refused(NoPendingRequest);
      }
      if data == [] {
        return Accepted;
      }
      var ok := BlockingSend(currentStreamTx.value, Body(data));
      return if ok then Accepted else Refused(ClientGone);
    }

    method WriteEnd() returns (a: Answer)
      modifies this
      ensures (a, Abs()) == DoWriteEnd(old(Abs()))
    {
      if currentStreamTx.None? {
        return Refused(NoPendingRequest);
      }
      var streamTx := currentStreamTx.value;
      currentStreamTx := None;
      if currentDoneTx.None? {
        return Refused(NoPendingDone);
      }
      var doneTx := currentDoneTx.value;
      currentDoneTx := None;
      ClearRequest();
      var _ := BlockingSend(streamTx, End);
      Signal(doneTx);
      return Accepted;
    }

    // ---- Reading the body ----

    method SplitLeftover(length: nat) returns (out: Bytes)
      modifies `currentBodyLeftover
      ensures var l := old(currentBodyLeftover);
              out == l[..Min(length, |l|)] && currentBodyLeftover == l[Min(length, |l|)..]
    {
      var take := Min(length, |currentBodyLeftover|);
      out := currentBodyLeftover[..take];
      currentBodyLeftover := currentBodyLeftover[take..];
    }

    method Read(length: nat) returns (out: Bytes)
      modifies this
      ensures (Gave(Got(out)), Abs()) == DoConsume(old(Abs()), CallRead(length))
    {
      if currentBodyLeftover == [] {
        if currentBody.None? || !currentBody.value.Raw? {
          return [];
        }
        var chunk := RecvRaw();
        if chunk.None? {
          return [];
        }
        currentBodyLeftover := chunk.value;
      }
      out := SplitLeftover(length);
    }

    method ReadAll() returns (out: Bytes)
      modifies this
      ensures (Gave(Got(out)), Abs()) == DoConsume(old(Abs()), CallReadAll)
    {
      out := currentBodyLeftover;
      currentBodyLeftover := [];
      if currentBody.Some? && currentBody.value.Raw? {
        ghost var all := out + Concat(currentBody.value.chunks);
        while true
          invariant currentBody.Some? && currentBody.value.Raw?
          invariant out + Concat(currentBody.value.chunks) == all
          invariant Abs() == old(Abs()).(cursor := Cursor(currentBody, [], currentPartState))
          invariant currentPartState == old(currentPartState)
          decreases |currentBody.value.chunks|
        {
          ghost var before := currentBody.value.chunks;
          var chunk := RecvRaw();
          if chunk.None? {
            break;
          }
          assert out + Concat(before) == (out + chunk.value) + Concat(before[1..]);
          out := out + chunk.value;
        }
        assert out + [] == out;
      }
    }

    method NextPart() returns (header: Option<PartHeader>)
      modifies this
      ensures (Gave(Header(header)), Abs()) == DoConsume(old(Abs()), CallNextPart)
    {
      if currentBody.None? || !currentBody.value.Parts? {
        return None;
      }
      if currentPartState == Done {
        return None;
      }
      if currentPartState == InPart {
        ghost var target := TakeData(currentBody.value.messages);
        var ended := false;
        while !ended
          invariant currentBody.Some? && currentBody.value.Parts? && currentPartState == InPart
          invariant var (_, rest, well) := target;
                    if ended then well && rest == currentBody.value.messages
                    else TakeData(currentBody.value.messages).1 == rest && (TakeData(currentBody.value.messages).2 <==> well)
          invariant Abs() == old(Abs()).(cursor := Cursor(currentBody, currentBodyLeftover, InPart))
          decreases !ended, |currentBody.value.messages|
        {
          var message := RecvPart();
          match message {
            case Some(Data(_)) =>
            case Some(Finish) => ended := true;
            case _ =>
              currentPartState := Done;
              currentBodyLeftover := [];
              return None;
          }
        }
      }
      currentBodyLeftover := [];
      var message := RecvPart();
      match message {
        case Some(Start(h)) =>
          currentPartState := InPart;
          return Some(h);
        case _ =>
          currentPartState := Done;
          return None;
      }
    }

    method PartRead(length: nat) returns (out: Bytes)
      modifies this
      ensures (Gave(Got(out)), Abs()) == DoConsume(old(Abs()), CallPartRead(length))
    {
      if currentPartState != InPart {
        return [];
      }
      if currentBodyLeftover == [] {
        if currentBody.None? || !currentBody.value.Parts? {
          return [];
        }
        var message := RecvPart();
        match message {
          case Some(Data(chunk)) => currentBodyLeftover := chunk;
          case Some(Finish) =>
            currentPartState := PartEnded;
            return [];
          case _ =>
            currentPartState := Done;
            return [];
        }
      }
      out := SplitLeftover(length);
    }

    method PartReadAll() returns (out: Bytes)
      modifies this
      ensures (Gave(Got(out)), Abs()) == DoConsume(old(Abs()), CallPartReadAll)
    {
      if currentPartState != InPart {
        return [];
      }
      out := currentBodyLeftover;
      currentBodyLeftover := [];
      if currentBody.Some? && currentBody.value.Parts? {
        ghost var target := TakeData(currentBody.value.messages);
        ghost var all := out + target.0;
        while true
          invariant currentBody.Some? && currentBody.value.Parts? && currentPartState == InPart
          invariant var (data, rest, well) := TakeData(currentBody.value.messages);
                    out + data == all && rest == target.1 && (well <==> target.2)
          invariant Abs() == old(Abs()).(cursor := Cursor(currentBody, [], InPart))
          decreases |currentBody.value.messages|
        {
          ghost var before := currentBody.value.messages;
          var message := RecvPart();
          match message {
            case Some(Data(chunk)) =>
              assert out + TakeData(before).0 == (out + chunk) + TakeData(before[1..]).0;
              out := out + chunk;
            case Some(Finish) =>
              currentPartState := PartEnded;
              break;
            case _ =>
              currentPartState := Done;
              break;
          }
        }
        assert out + [] == out;
      }
    }

    // ---- The dispatch loop ----

    method Invoke(call: Call) returns (a: Answer)
      modifies this
      ensures (a, Abs()) == DoCall(old(Abs()), call)
    {
      match call {
        case WriteHead(status, headers) => a := WriteHead(status, headers);
        case Write(data) => a := Write(data);
        case WriteEnd => a := WriteEnd();
        case Send(json) => a := Send(json);
        case SendError(message) => a := SendError(message);
        case Consume(CallRead(n)) => var out := Read(n); a := Gave(Got(out));
        case Consume(CallReadAll) => var out := ReadAll(); a := Gave(Got(out));
        case Consume(CallNextPart) => var h := NextPart(); a := Gave(Header(h));
        case Consume(CallPartRead(n)) => var out := PartRead(n); a := Gave(Got(out));
        case Consume(CallPartReadAll) => var out := PartReadAll(); a := Gave(Got(out));
      }
    }

    method CallHandler(turn: Turn)
      modifies this
      ensures Abs() == AfterCalls(old(Abs()), turn.calls)
    {
      for i := 0 to |turn.calls|
        invariant Abs() == AfterCalls(old(Abs()), turn.calls[..i])
      {
        assert turn.calls[..i + 1][..i] == turn.calls[..i];
        var _ := Invoke(turn.calls[i]);
      }
      assert turn.calls[..|turn.calls|] == turn.calls;
    }

    method FinaliseStream(result: Result<Value, string>)
      modifies this
      ensures Abs() == Finalise(old(Abs()), result)
    {
      var started := streamStarted;
      var streamTx, doneTx := currentStreamTx, currentDoneTx;
      currentStreamTx, currentDoneTx := None, None;
      ClearRequest();
      if streamTx.Some? {
        if started {
          var _ := BlockingSend(streamTx.value, End);
        } else {
          match result {
            case Ok(value) =>
              if Get(value, "__error").Some? {
                var _ := BlockingSend(streamTx.value, Error(WorkerErrorFromValue(value)));
              } else {
                var _ := BlockingSend(streamTx.value, Return(value));
              }
            case Err(message) =>
              var _ := BlockingSend(streamTx.value, Error(PlainError(message)));
          }
          var _ := BlockingSend(streamTx.value, End);
        }
      }
      if doneTx.Some? {
        Signal(doneTx.value);
      }
    }

    /** Runs until the task channel is closed; only worker 1 goes on to join the other threads. */
    method RunDispatchLoop(handler: Request -> Turn) returns (joinsWorkers: bool)
      requires Inv(Abs())
      modifies this
      ensures Abs() == Loop(old(Abs()), handler)
      ensures Inv(Abs()) && taskRx == []
      ensures LoopServes(old(Abs()), log, handler)
      ensures joinsWorkers <==> workerId == 1
    {
      hide DoCall, Finalise, Inv, AfterCalls;
      while true
        invariant Loop(Abs(), handler) == Loop(old(Abs()), handler)
        decreases |taskRx|
      {
        ghost var before := Abs();
        var request := DoRecv();
        if request.None? {
          LoopAnswersAll(old(Abs()), handler);
          return workerId == 1;
        }
        var turn := handler(request.value);
        DispatchTakesOne(before, turn);
        CallHandler(turn);
        FinaliseStream(turn.result);
      }
    }
  }

}
