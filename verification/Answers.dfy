/**
 * What the two ends of a request see, in the source's own constants: what a caller reads for each
 * way a handler can finish, and what each streaming call tells the handler.
 */
module Answers {

  import opened Wrappers
  import opened Json
  import opened Chunks
  import opened Collectors
  import opened Bodies
  import opened Bridge
  import opened EndToEnd

  // ---- A value, as an answer ----

  ghost predicate HasErrorField(v: Value) {
    v.Object? && exists f | f in v.fields :: f.key == "__error"
  }

  /** `text` is the string under `key`, and `None` when there is none. */
  ghost predicate TextUnder(fields: seq<Field>, key: string, text: Option<string>) {
    forall s :: Field(key, Str(s)) in fields <==> text == Some(s)
  }

  ghost predicate TellsError(fields: seq<Field>, e: WorkerError) {
    && (forall s | Field("__error", Str(s)) in fields :: e.message == s)
    && ((forall s :: Field("__error", Str(s)) !in fields) ==> e.message == "worker error")
    && TextUnder(fields, "__error_class", e.exceptionClass)
    && TextUnder(fields, "__error_trace", e.stacktrace)
  }

  /** A value with an `__error` field is that error, and any other is the answer itself. */
  ghost predicate Answers(v: Value, o: Outcome) {
    if HasErrorField(v) then o.Err? && TellsError(v.fields, o.error) else o == Ok(Verbatim(v))
  }

  predicate SortedAtTop(v: Value) {
    v.Object? ==> Sorted(v.fields)
  }

  lemma GetFinds(v: Value, key: string)
    requires v.Object? && Sorted(v.fields)
    ensures Get(v, key).Some? <==> exists f | f in v.fields :: f.key == key
    ensures TextUnder(v.fields, key, GetStr(v, key))
  {
    hide Lookup, Sorted;
    LookupFinds(v.fields, key);
    if f :| f in v.fields && f.key == key {
      assert Field(key, f.value) in v.fields;
    }
  }

  lemma ErrorTells(v: Value)
    requires v.Object? && Sorted(v.fields)
    ensures TellsError(v.fields, WorkerErrorFromValue(v))
  {
    hide Lookup, Sorted, Get, GetStr;
    GetFinds(v, "__error");
    GetFinds(v, "__error_class");
    GetFinds(v, "__error_trace");
  }

  lemma ValueAnswers(v: Value)
    requires SortedAtTop(v)
    ensures Answers(v, Said(AnswerChunk(Ok(v)))) && Answers(v, Said(SendChunk(Ok(v))))
  {
    hide Lookup, Sorted, GetStr, TellsError, WorkerErrorFromValue;
    if v.Object? {
      GetFinds(v, "__error");
      ErrorTells(v);
    }
  }

  // ---- What the caller reads ----

  predicate Finishes(call: Call) {
    call.WriteEnd? || call.Send? || call.SendError?
  }

  predicate NoneFinishes(calls: seq<Call>) {
    forall i | 0 <= i < |calls| :: !Finishes(calls[i])
  }

  predicate NoHead(calls: seq<Call>) {
    forall i | 0 <= i < |calls| :: !calls[i].WriteHead?
  }

  /** The head is that of the first call that gives one. */
  ghost predicate FirstHead(calls: seq<Call>, head: Option<Head>) {
    match head
    case None => NoHead(calls)
    case Some((status, headers)) =>
      exists k | 0 <= k < |calls| :: calls[k] == WriteHead(status, headers) && NoHead(calls[..k])
  }

  function Written(calls: seq<Call>): Bytes {
    if calls == [] then [] else (if calls[0].Write? then calls[0].data else []) + Written(calls[1..])
  }

  lemma {:induction false} WrittenAppend(calls: seq<Call>, call: Call)
    ensures Written(calls + [call]) == Written(calls) + if call.Write? then call.data else []
  {
    if calls == [] {
      assert [] + [call] == [call];
    } else {
      assert (calls + [call])[1..] == calls[1..] + [call];
      WrittenAppend(calls[1..], call);
      Associates(if calls[0].Write? then calls[0].data else [], Written(calls[1..]),
                 if call.Write? then call.data else []);
    }
  }

  lemma HeadAppend(calls: seq<Call>, call: Call, head: Option<Head>)
    requires FirstHead(calls, head)
    ensures FirstHead(calls + [call], if head.None? && call.WriteHead? then Some((call.status, call.headers)) else head)
  {
    var all := calls + [call];
    match head
    case None =>
      if call.WriteHead? {
        assert all[|calls|] == call && all[..|calls|] == calls;
      }
    case Some((status, headers)) =>
      var k :| 0 <= k < |calls| && calls[k] == WriteHead(status, headers) && NoHead(calls[..k]);
      assert all[k] == calls[k] && all[..k] == calls[..k];
  }

  /** Until a finishing call, what a handler has said is its first head and all it wrote. */
  lemma {:induction false} DraftSoFar(calls: seq<Call>)
    requires NoneFinishes(calls)
    ensures DraftOf(calls).Writing? && FirstHead(calls, DraftOf(calls).head) && DraftOf(calls).body == Written(calls)
  {
    if calls != [] {
      var init, last := calls[..|calls| - 1], calls[|calls| - 1];
      DraftSoFar(init);
      assert calls == init + [last];
      HeadAppend(init, last, DraftOf(init).head);
      WrittenAppend(init, last);
      assert !Finishes(last);
      assert Written(init) + [] == Written(init);
    }
  }

  lemma {:induction false} DecidedStays(calls: seq<Call>, more: seq<Call>)
    requires DraftOf(calls).Decided?
    ensures DraftOf(calls + more) == DraftOf(calls)
  {
    if more == [] {
      assert calls + more == calls;
    } else {
      assert (calls + more)[..|calls + more| - 1] == calls + more[..|more| - 1];
      DecidedStays(calls, more[..|more| - 1]);
    }
  }

  lemma FinishedDraft(calls: seq<Call>)
    ensures DraftOf(calls).Writing? <==> NoneFinishes(calls)
    decreases |calls|
  {
    if NoneFinishes(calls) {
      DraftSoFar(calls);
    } else {
      var init, last := calls[..|calls| - 1], calls[|calls| - 1];
      FinishedDraft(init);
      assert Finishes(last) || !NoneFinishes(init);
    }
  }

  /** The outcome of the finishing call a handler makes first. */
  ghost predicate FinishOutcome(before: seq<Call>, call: Call, o: Outcome)
    requires Finishes(call)
  {
    match call
    case Send(Ok(v)) => Answers(v, o)
    case Send(Err(detail)) => o == Err(WorkerError("PHP returned malformed JSON: " + detail, None, None))
    case SendError(message) => o == Err(WorkerError(message, None, None))
    case _ => PageOutcome(before, o)
  }

  /** A page has the first head, or status 200 and no headers, and all that was written. */
  ghost predicate PageOutcome(calls: seq<Call>, o: Outcome) {
    && o.Ok? && o.value.Legacy? && o.value.body == Written(calls)
    && (NoHead(calls) ==> o.value.status == 200 && o.value.headers == map[])
    && (!NoHead(calls) ==> FirstHead(calls, Some((o.value.status, o.value.headers))))
  }

  lemma FinishMeans(before: seq<Call>, call: Call)
    requires NoneFinishes(before) && Finishes(call) && (call.Send? && call.json.Ok? ==> SortedAtTop(call.json.value))
    ensures DraftOf(before + [call]).Decided? && FinishOutcome(before, call, DraftOf(before + [call]).outcome)
  {
    hide FirstHead, Written, Answers, TellsError, AnswerChunk, NoneFinishes, NoHead, DraftOf;
    DraftAppend(before, call);
    DraftSoFar(before);
    if call.Send? && call.json.Ok? {
      ValueAnswers(call.json.value);
    } else if call.WriteEnd? {
      HeadOrNot(before, DraftOf(before).head);
    }
  }

  lemma DraftAppend(calls: seq<Call>, call: Call)
    ensures DraftOf(calls + [call]) == Draw(DraftOf(calls), call)
  {
    assert (calls + [call])[..|calls|] == calls;
  }

  lemma HeadOrNot(calls: seq<Call>, head: Option<Head>)
    requires FirstHead(calls, head)
    ensures head.None? <==> NoHead(calls)
  {
  }

  /**
   * Whatever comes after it, the first finishing call decides what the caller reads, with either
   * collector: the value or error sent, or the page written so far.
   */
  lemma FirstFinishDecides(s: State, before: seq<Call>, call: Call, after: seq<Call>, result: Result<Value, string>)
    requires Inv(s) && s.tasks != [] && NoneFinishes(before) && Finishes(call)
    requires call.Send? && call.json.Ok? ==> SortedAtTop(call.json.value)
    ensures var w := ChunksOf(Dispatch(s, before + [call] + after, result).log, s.tasks[0].id);
            PoolReading(w) == HandleReading(w) && FinishOutcome(before, call, PoolReading(w))
  {
    hide Inv, Dispatch, ChunksOf, PoolReading, HandleReading, FinishOutcome, DraftOf;
    FinishMeans(before, call);
    DecidedStays(before + [call], after);
    CallerGetsMeaning(s, before + [call] + after, result);
  }

  /** What the caller reads when the handler itself finished nothing. */
  ghost predicate ResultOutcome(calls: seq<Call>, result: Result<Value, string>, o: Outcome) {
    if !NoHead(calls) then PageOutcome(calls, o)
    else match result
      case Ok(v) => Answers(v, o)
      case Err(message) => o == Err(WorkerError(message, None, None))
  }

  /**
   * A handler that finishes nothing is the page it wrote, if it gave a head, and otherwise the value
   * it returned or the error it threw; what it wrote without a head is not read.
   */
  lemma ResultDecides(s: State, calls: seq<Call>, result: Result<Value, string>)
    requires Inv(s) && s.tasks != [] && NoneFinishes(calls) && (result.Ok? ==> SortedAtTop(result.value))
    ensures var w := ChunksOf(Dispatch(s, calls, result).log, s.tasks[0].id);
            PoolReading(w) == HandleReading(w) && ResultOutcome(calls, result, PoolReading(w))
  {
    hide Inv, Dispatch, ChunksOf, PoolReading, HandleReading, Answers, TellsError, FirstHead, Written, DraftOf;
    DraftSoFar(calls);
    HeadOrNot(calls, DraftOf(calls).head);
    if result.Ok? {
      ValueAnswers(result.value);
    }
    CallerGetsMeaning(s, calls, result);
  }

  // ---- What the handler is told ----

  /** The handler is told whether the chunk reached the client. */
  ghost predicate TellsDelivery(log: seq<Event>, log': seq<Event>, req: Request, chunk: Chunk, a: Answer) {
    var before, after := Delivered(log, req.id, req.patience), Delivered(log', req.id, req.patience);
    && (a == Accepted <==> after == before + [chunk])
    && (a != Accepted ==> a == Refused(ClientGone) && after == before)
  }

  lemma HoldsItsRequest(s: State, calls: seq<Call>)
    requires Inv(s) && s.tasks != []
    ensures var req, s1 := s.tasks[0], AfterCalls(DoReceive(s), calls);
            && Inv(s1) && (s1.stream.Some? <==> NoneFinishes(calls))
            && (s1.stream.Some? ==> s1.stream == Some(Sender(req.id, req.patience)) && (s1.started <==> !NoHead(calls)))
  {
    var r, s1 := s.tasks[0].id, DoReceive(s);
    ReceiveMoves(s);
    FateMeaning(s.log, r);
    LogAppend(s.log, Received(r), r);
    hide DoCall, FateOf, ChunksOf, DraftOf, Written;
    CallsMatch(s1, r, calls);
    CallsKeepInv(s1, calls, r);
    FinishedDraft(calls);
    if NoneFinishes(calls) {
      DraftSoFar(calls);
      HeadOrNot(calls, DraftOf(calls).head);
    }
  }

  lemma SendIsTold(s: State, req: Request, chunk: Chunk)
    requires s.stream == Some(Sender(req.id, req.patience))
    ensures TellsDelivery(s.log, s.log + [Emitted(req.id, chunk)], req, chunk,
                          if Listening(s.log, s.stream.value) then Accepted else Refused(ClientGone))
  {
    LogAppend(s.log, Emitted(req.id, chunk), req.id);
    var w := ChunksOf(s.log, req.id);
    if |w| < req.patience {
      assert w[..|w|] == w && (w + [chunk])[..|w| + 1] == w + [chunk];
    } else {
      assert (w + [chunk])[..req.patience] == w[..req.patience];
    }
  }

  /**
   * After any calls: once one of them finished the request every further one is refused, except an
   * error report, which is always accepted and then does nothing; a second head is refused; an empty
   * write is accepted; and any other head or write is accepted exactly when its chunk is delivered.
   */
  lemma AnswersFit(s: State, calls: seq<Call>, call: Call)
    requires Inv(s) && s.tasks != [] && !call.Consume?
    ensures var req, s1 := s.tasks[0], AfterCalls(DoReceive(s), calls);
            var (a, s2) := DoCall(s1, call);
            if call.SendError? then a == Accepted && (!NoneFinishes(calls) ==> s2.log == s1.log)
            else if !NoneFinishes(calls) then a == Refused(NoPendingRequest) && s2 == s1
            else match call
              case WriteHead(status, headers) =>
                if !NoHead(calls) then a == Refused(HeadTwice) && s2 == s1
                else TellsDelivery(s1.log, s2.log, req, Headers(status, headers), a)
              case Write(data) =>
                if data == [] then a == Accepted && s2 == s1
                else TellsDelivery(s1.log, s2.log, req, Body(data), a)
              case Send(Err(_)) => a == Refused(MalformedJson)
              case _ => a == Accepted
  {
    hide Inv, NoneFinishes, NoHead, Delivered, AfterCalls, DoReceive;
    var req, s1 := s.tasks[0], AfterCalls(DoReceive(s), calls);
    HoldsItsRequest(s, calls);
    StreamIsDone(s1);
    if s1.stream.Some? && call.WriteHead? {
      SendIsTold(s1, req, Headers(call.status, call.headers));
    } else if s1.stream.Some? && call.Write? {
      SendIsTold(s1, req, Body(call.data));
    }
  }

  lemma StreamIsDone(s: State)
    requires Inv(s)
    ensures s.stream.Some? <==> s.done.Some?
  {
  }

}
