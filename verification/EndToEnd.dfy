/**
 * From a handler's calls to its caller's result: the bridge turns calls into chunks, a collector
 * turns chunks into an outcome, and together they compute what the handler meant.
 */
module EndToEnd {

  import opened Wrappers
  import opened Json
  import opened Chunks
  import opened Collectors
  import opened Bodies
  import opened Bridge

  type Head = (Status, map<string, string>)

  /** What a handler has said so far: still writing, or finished with an outcome nothing can change. */
  datatype Draft = Writing(head: Option<Head>, body: Bytes) | Decided(outcome: Outcome)

  function Said(c: Chunk): Outcome
    requires c.Return? || c.Error?
  {
    if c.Return? then Ok(Verbatim(c.value)) else Err(c.error)
  }

  function Page(head: Option<Head>, body: Bytes): Outcome {
    match head
    case Some((status, headers)) => Ok(Legacy(status, headers, body))
    case None => Ok(Legacy(200, map[], body))
  }

  /** The first head counts, writes add up, and the first finishing call decides. */
  function Draw(d: Draft, call: Call): Draft {
    match d
    case Decided(_) => d
    case Writing(head, body) =>
      match call
      case WriteHead(status, headers) => Writing(if head.None? then Some((status, headers)) else head, body)
      case Write(data) => Writing(head, body + data)
      case WriteEnd => Decided(Page(head, body))
      case Send(json) => Decided(Said(SendChunk(json)))
      case SendError(message) => Decided(Err(PlainError(message)))
      case Consume(_) => d
  }

  function DraftOf(calls: seq<Call>): Draft {
    if calls == [] then Writing(None, []) else Draw(DraftOf(calls[..|calls| - 1]), calls[|calls| - 1])
  }

  /** A handler that decided nothing is a page if it sent a head, and its return value otherwise. */
  function Meaning(calls: seq<Call>, result: Result<Value, string>): Outcome {
    match DraftOf(calls)
    case Decided(o) => o
    case Writing(None, _) => Said(AnswerChunk(result))
    case Writing(head, body) => Page(head, body)
  }

  ghost predicate Reads(w: seq<Chunk>, o: Outcome) {
    PoolReading(w) == o == HandleReading(w)
  }

  ghost predicate Matches(s: State, r: nat, d: Draft) {
    var w := ChunksOf(s.log, r);
    match d
    case Decided(o) => s.stream == None && Reads(w, o)
    case Writing(head, body) =>
      && s.stream.Some? && s.stream.value.request == r && (s.started <==> head.Some?)
      && AllStream(w) && Page(head, body) == Ok(AsLegacy(w))
  }

  /** Finishing a stream makes it read as the answer given, or as the page written. */
  lemma FinishReads(s: State, answer: Option<Chunk>)
    requires Inv(s) && s.stream.Some? && AllStream(ChunksOf(s.log, s.stream.value.request))
    requires IsAnswerChunk(answer)
    ensures var w := ChunksOf(s.log, s.stream.value.request);
            Reads(ChunksOf(Finished(s, answer).log, s.stream.value.request),
                  if answer.None? then Ok(AsLegacy(w)) else Said(answer.value))
  {
    var r, log := s.stream.value.request, s.log;
    var w := ChunksOf(log, r);
    if answer.Some? {
      LogAppend(log, Emitted(r, answer.value), r);
      log := log + [Emitted(r, answer.value)];
      assert w + [answer.value] + [End] == w + [answer.value, End];
    }
    LogAppend(log, Emitted(r, End), r);
    LogAppend(log + [Emitted(r, End)], Signalled(r), r);
    assert ChunksOf(log + [Emitted(r, End)], r) + [] == ChunksOf(log + [Emitted(r, End)], r);
    match answer
    case None => PageMeaning(w, w + [End]);
    case Some(Return(v)) => ReturnMeaning(w, v);
    case Some(Error(e)) => ErrorMeaning(w, e);
  }

  lemma StreamedOneMore(s: State, r: nat, c: Chunk)
    requires c.Headers? || c.Body?
    requires AllStream(ChunksOf(s.log, r))
    ensures var w := ChunksOf(s.log + [Emitted(r, c)], r);
            && AllStream(w)
            && LastHead(w) == (if c.Headers? then (c.status, c.headers) else LastHead(ChunksOf(s.log, r)))
            && BodyBytes(w) == BodyBytes(ChunksOf(s.log, r)) + (if c.Body? then c.data else [])
  {
    LogAppend(s.log, Emitted(r, c), r);
    var w := ChunksOf(s.log, r);
    assert (w + [c])[..|w|] == w;
  }

  lemma StreamCallMatches(s: State, r: nat, d: Draft, call: Call)
    requires Inv(s) && d.Writing? && Matches(s, r, d)
    requires call.WriteHead? || call.Write? || call.Consume?
    ensures Matches(DoCall(s, call).1, r, Draw(d, call))
  {
    assert d.body + [] == d.body && BodyBytes(ChunksOf(s.log, r)) + [] == BodyBytes(ChunksOf(s.log, r));
    match call
    case WriteHead(status, headers) => StreamedOneMore(s, r, Headers(status, headers));
    case Write(data) => StreamedOneMore(s, r, Body(data));
    case Consume(_) =>
  }

  lemma CallMatches(s: State, r: nat, d: Draft, call: Call)
    requires Inv(s) && Matches(s, r, d)
    ensures Matches(DoCall(s, call).1, r, Draw(d, call))
  {
    if d.Writing? {
      match call
      case WriteEnd => FinishReads(s, None);
      case Send(json) => FinishReads(s, Some(SendChunk(json)));
      case SendError(message) => FinishReads(s, Some(Error(PlainError(message))));
      case _ => StreamCallMatches(s, r, d, call);
    }
  }

  lemma {:induction false} CallsMatch(s: State, r: nat, calls: seq<Call>)
    requires Inv(s) && FateOf(s.log, r) != Unseen && Matches(s, r, Writing(None, []))
    ensures Matches(AfterCalls(s, calls), r, DraftOf(calls))
  {
    if calls != [] {
      CallsMatch(s, r, calls[..|calls| - 1]);
      CallsKeepInv(s, calls[..|calls| - 1], r);
      CallMatches(AfterCalls(s, calls[..|calls| - 1]), r, DraftOf(calls[..|calls| - 1]), calls[|calls| - 1]);
    }
  }

  /** With its client still there, a dispatched handler's caller gets what the handler meant. */
  lemma CallerGetsMeaning(s: State, calls: seq<Call>, result: Result<Value, string>)
    requires Inv(s) && s.tasks != []
    ensures Reads(ChunksOf(Dispatch(s, calls, result).log, s.tasks[0].id), Meaning(calls, result))
  {
    var r, s1 := s.tasks[0].id, DoReceive(s);
    ReceiveKeepsInv(s);
    FateMeaning(s.log, r);
    LogAppend(s.log, Received(r), r);
    CallsMatch(s1, r, calls);
    CallsKeepInv(s1, calls, r);
    var s2 := AfterCalls(s1, calls);
    if s2.stream.Some? {
      FinishReads(s2, if s2.started then None else Some(AnswerChunk(result)));
    }
  }

  // ---- The request body, through a dispatch ----

  /** What a handler's calls let it read. */
  function Reading(s: State, calls: seq<Call>): (t: Transcript)
    ensures |t.read| > 0
  {
    if calls == [] then Transcript([], [[]])
    else
      var init := calls[..|calls| - 1];
      match DoCall(AfterCalls(s, init), calls[|calls| - 1]).0
      case Gave(r) => Note(Reading(s, init), r)
      case _ => Reading(s, init)
  }

  lemma OtherCallsKeepCursor(b: State, call: Call)
    requires Inv(b) && !call.Consume?
    ensures var (answer, b') := DoCall(b, call);
            && !answer.Gave?
            && (b'.stream.Some? ==> b.stream.Some? && b'.cursor == b.cursor)
            && (b'.stream.None? && (b.stream.Some? || b.cursor == CLEARED) ==> b'.cursor == CLEARED)
  {
    hide Clean, FateOf, ChunksOf, Valid;
  }

  /** Before a handler has finished its request, its cursor is where its reads left it; afterwards it is cleared. */
  ghost predicate ReadSoFar(b: State, t: Transcript, body: Option<RequestBody>, taken: seq<BodyCall>) {
    t == Replay(Fresh(body), taken).0 && b.cursor == (if b.stream.Some? then Replay(Fresh(body), taken).1 else CLEARED)
  }

  lemma ReadOneMore(b: State, t: Transcript, body: Option<RequestBody>, taken: seq<BodyCall>, call: BodyCall)
    returns (more: seq<BodyCall>)
    requires ReadSoFar(b, t, body, taken)
    ensures var (result, cursor) := Perform(b.cursor, call);
            |t.read| > 0 && ReadSoFar(b.(cursor := cursor), Note(t, result), body, more)
  {
    if b.stream.Some? {
      more := taken + [call];
      assert more[..|more| - 1] == taken;
    } else {
      more := taken;
      DoneAbsorbs(b.cursor, call);
      EmptyNote(t);
    }
  }

  /** A handler reads nothing but the body of its own request, and nothing once it has finished it. */
  lemma {:induction false} HandlerReadsItsBody(s: State, calls: seq<Call>) returns (taken: seq<BodyCall>)
    requires Inv(s) && s.tasks != []
    ensures Inv(AfterCalls(DoReceive(s), calls))
    ensures ReadSoFar(AfterCalls(DoReceive(s), calls), Reading(DoReceive(s), calls), s.tasks[0].body, taken)
  {
    hide Inv, Perform;
    var s1 := DoReceive(s);
    if calls == [] {
      ReceiveKeepsInv(s);
      taken := [];
    } else {
      var init, call := calls[..|calls| - 1], calls[|calls| - 1];
      taken := HandlerReadsItsBody(s, init);
      var before := AfterCalls(s1, init);
      StepKeepsInv(before, Called(call));
      if call.Consume? {
        taken := ReadOneMore(before, Reading(s1, init), s.tasks[0].body, taken, call.call);
      } else {
        OtherCallsKeepCursor(before, call);
      }
    }
  }

  lemma EmptyNote(t: Transcript)
    requires |t.read| > 0
    ensures Note(t, Got([])) == t && Note(t, Header(None)) == t
  {
    var k := |t.read| - 1;
    assert t.read[k] + [] == t.read[k];
    assert t.read[k := t.read[k]] == t.read;
  }

  /** So it gets the headers of its parts in order, and under each a beginning of that part's bytes. */
  lemma HandlerWalksItsParts(s: State, calls: seq<Call>)
    requires Inv(s) && s.tasks != [] && s.tasks[0].body.Some?
    ensures var body, t := s.tasks[0].body.value, Reading(DoReceive(s), calls);
            && |t.headers| <= |PartsOf(body)| && |t.read| == |t.headers| + 1
            && (forall j | 0 <= j < |t.headers| :: t.headers[j] == PartsOf(body)[j].header)
            && (forall j | 0 <= j < |t.read| :: t.read[j] <= Stretches(body)[j])
  {
    hide DoCall, Perform, Parse, Unread, Ahead, Valid, TakeData, Inv;
    var body := s.tasks[0].body.value;
    var taken := HandlerReadsItsBody(s, calls);
    RunTracksParts(body, taken);
    var (t, c) := Replay(Fresh(Some(body)), taken);
    hide Replay, Reading;
    assert t.read[|t.headers|] <= t.read[|t.headers|] + Unread(c);
  }

  /** However early its client leaves, both collectors make the same of what was delivered. */
  lemma CollectorsAgreeOnDeliveries(s: State, steps: seq<Step>, r: nat, patience: nat)
    requires Inv(s) && Run(s, steps).Some?
    ensures var w := Delivered(Run(s, steps).value.log, r, patience);
            PoolReading(w) == HandleReading(w)
  {
    EveryRunSpeaksReplies(s, steps, r);
    var all := ChunksOf(Run(s, steps).value.log, r);
    PrefixIffNotBroken(all);
    PrefixNotBroken(all, Min(patience, |all|));
    PrefixIffNotBroken(all[..Min(patience, |all|)]);
    CollectorsAgreeOnReplies(all[..Min(patience, |all|)]);
  }

}
