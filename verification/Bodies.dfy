/**
 * The request body a handler reads: one byte cursor over raw chunks, and one cursor over the
 * messages of a multipart stream. The messages in a body are all those its sender will put in
 * before closing, so a blocking receive returns the next one, or nothing once they are used up.
 */
module Bodies {

  import opened Wrappers
  import opened Chunks

  datatype PartHeader = PartHeader(name: string, filename: Option<string>, contentType: Option<string>)

  datatype PartMessage =
    | Start(header: PartHeader)
    | Data(chunk: Bytes)
    | Finish

  datatype RequestBody =
    | Raw(chunks: seq<Bytes>)
    | Parts(messages: seq<PartMessage>)

  datatype PartState = BeforeFirst | InPart | PartEnded | Done

  /** `current_body`, `current_body_leftover` and `current_part_state`. */
  datatype Cursor = Cursor(body: Option<RequestBody>, leftover: Bytes, part: PartState)

  function Fresh(body: Option<RequestBody>): Cursor {
    Cursor(body, [], BeforeFirst)
  }

  const CLEARED := Cursor(None, [], Done)

  function Min(a: nat, b: nat): nat {
    if a < b then a else b
  }

  /** The bytes up to the next `Finish`, what follows, and whether a `Finish` was there. */
  function TakeData(messages: seq<PartMessage>): (r: (Bytes, seq<PartMessage>, bool))
    ensures |r.1| <= |messages|
  {
    if messages == [] then ([], [], false)
    else match messages[0]
      case Data(chunk) =>
        var (data, rest, ended) := TakeData(messages[1..]);
        (chunk + data, rest, ended)
      case Finish => ([], messages[1..], true)
      case Start(_) => ([], messages[1..], false)
  }

  // ---- The five calls, as functions of the cursor ----

  function SplitOff(c: Cursor, length: nat): (Bytes, Cursor) {
    var take := Min(length, |c.leftover|);
    (c.leftover[..take], c.(leftover := c.leftover[take..]))
  }

  function Read(c: Cursor, length: nat): (Bytes, Cursor) {
    if c.leftover != [] then SplitOff(c, length)
    else match c.body
      case Some(Raw(chunks)) =>
        if chunks == [] then ([], c)
        else SplitOff(c.(body := Some(Raw(chunks[1..])), leftover := chunks[0]), length)
      case _ => ([], c)
  }

  function ReadAll(c: Cursor): (Bytes, Cursor) {
    match c.body
    case Some(Raw(chunks)) => (c.leftover + Concat(chunks), c.(body := Some(Raw([])), leftover := []))
    case _ => (c.leftover, c.(leftover := []))
  }

  function NextPart(c: Cursor): (Option<PartHeader>, Cursor) {
    match c.body
    case Some(Parts(messages)) =>
      if c.part == Done then (None, c)
      else
        var (_, rest, ended) := if c.part == InPart then TakeData(messages) else ([], messages, true);
        if !ended then (None, Cursor(Some(Parts(rest)), [], Done))
        else if rest == [] then (None, Cursor(Some(Parts([])), [], Done))
        else if rest[0].Start? then (Some(rest[0].header), Cursor(Some(Parts(rest[1..])), [], InPart))
        else (None, Cursor(Some(Parts(rest[1..])), [], Done))
    case _ => (None, c)
  }

  function PartRead(c: Cursor, length: nat): (Bytes, Cursor) {
    if c.part != InPart then ([], c)
    else if c.leftover != [] then SplitOff(c, length)
    else match c.body
      case Some(Parts(messages)) =>
        if messages == [] then ([], c.(part := Done))
        else (
          var next := c.(body := Some(Parts(messages[1..])));
          match messages[0]
          case Data(chunk) => SplitOff(next.(leftover := chunk), length)
          case Finish => ([], next.(part := PartEnded))
          case Start(_) => ([], next.(part := Done)))
      case _ => ([], c)
  }

  function PartReadAll(c: Cursor): (Bytes, Cursor) {
    if c.part != InPart then ([], c)
    else match c.body
      case Some(Parts(messages)) =>
        var (data, rest, ended) := TakeData(messages);
        (c.leftover + data, Cursor(Some(Parts(rest)), [], if ended then PartEnded else Done))
      case _ => (c.leftover, c.(leftover := []))
  }

  // ---- The view: bytes still to read, and parts still to come ----

  datatype Part = Part(header: PartHeader, data: Bytes)

  /** The parts of a message stream; it stops where the stream stops being well formed. */
  function Parse(messages: seq<PartMessage>): seq<Part>
    decreases |messages|
  {
    if messages == [] || !messages[0].Start? then []
    else
      var (data, rest, ended) := TakeData(messages[1..]);
      [Part(messages[0].header, data)] + if ended then Parse(rest) else []
  }

  function Unread(c: Cursor): Bytes {
    match c.body
    case Some(Raw(chunks)) => c.leftover + Concat(chunks)
    case Some(Parts(messages)) => if c.part == InPart then c.leftover + TakeData(messages).0 else []
    case None => []
  }

  function Ahead(c: Cursor): seq<Part> {
    match c.body
    case Some(Parts(messages)) =>
      if c.part == Done then []
      else if c.part == InPart then
        var (_, rest, ended) := TakeData(messages);
        if ended then Parse(rest) else []
      else Parse(messages)
    case _ => []
  }

  predicate Valid(c: Cursor) {
    match c.body
    case Some(Raw(_)) => c.part == BeforeFirst
    case Some(Parts(_)) => c.part != InPart ==> c.leftover == []
    case None => c.leftover == [] && c.part != InPart
  }

  datatype BodyCall =
    | CallRead(length: nat)
    | CallReadAll
    | CallNextPart
    | CallPartRead(length: nat)
    | CallPartReadAll

  datatype BodyResult = Got(data: Bytes) | Header(header: Option<PartHeader>)

  function Perform(c: Cursor, call: BodyCall): (BodyResult, Cursor) {
    match call
    case CallRead(n) => var (out, c') := Read(c, n); (Got(out), c')
    case CallReadAll => var (out, c') := ReadAll(c); (Got(out), c')
    case CallNextPart => var (h, c') := NextPart(c); (Header(h), c')
    case CallPartRead(n) => var (out, c') := PartRead(c, n); (Got(out), c')
    case CallPartReadAll => var (out, c') := PartReadAll(c); (Got(out), c')
  }

  lemma SplitOffKeepsBytes(c: Cursor, length: nat, tail: Bytes)
    ensures var (out, c') := SplitOff(c, length);
            c.leftover + tail == out + (c'.leftover + tail) && |out| == Min(length, |c.leftover|)
  {
  }

  /** What a reading call returned is the front of the unread bytes, and nothing else changed. */
  ghost predicate TookFront(c: Cursor, out: Bytes, c': Cursor) {
    && Valid(c') && Unread(c) == out + Unread(c') && Ahead(c') == Ahead(c)
    && (c.part == Done ==> c'.part == Done)
  }

  lemma RawRead(c: Cursor, n: nat)
    requires Valid(c)
    ensures var (out, c') := Read(c, n); TookFront(c, out, c') && |out| <= n
  {
    match c.body
    case Some(Raw(chunks)) =>
      if c.leftover == [] && chunks != [] {
        SplitOffKeepsBytes(c.(body := Some(Raw(chunks[1..])), leftover := chunks[0]), n, Concat(chunks[1..]));
      } else {
        SplitOffKeepsBytes(c, n, Concat(chunks));
      }
    case Some(Parts(messages)) => SplitOffKeepsBytes(c, n, TakeData(messages).0);
    case None =>
  }

  lemma OnePartRead(c: Cursor, n: nat)
    requires Valid(c)
    ensures var (out, c') := PartRead(c, n); TookFront(c, out, c') && |out| <= n
  {
    if c.part == InPart {
      var messages := c.body.value.messages;
      if c.leftover != [] {
        SplitOffKeepsBytes(c, n, TakeData(messages).0);
      } else if messages != [] && messages[0].Data? {
        SplitOffKeepsBytes(c.(body := Some(Parts(messages[1..])), leftover := messages[0].chunk), n,
                           TakeData(messages[1..]).0);
      }
    }
  }

  lemma WholeReads(c: Cursor)
    requires Valid(c)
    ensures TookFront(c, ReadAll(c).0, ReadAll(c).1) && TookFront(c, PartReadAll(c).0, PartReadAll(c).1)
  {
  }

  /**
   * No byte is lost, repeated or taken from another part: what any reading call returns is the
   * front of the unread bytes, and the parts still to come are untouched. This holds for raw calls
   * on a multipart body and multipart calls on a raw one as well.
   */
  lemma ReadTakesFront(c: Cursor, call: BodyCall)
    requires Valid(c) && call != CallNextPart
    ensures var (r, c') := Perform(c, call);
            && r.Got? && TookFront(c, r.data, c')
            && (call.CallRead? || call.CallPartRead? ==> |r.data| <= call.length)
  {
    hide TookFront, Valid, Read, PartRead, ReadAll, PartReadAll;
    match call
    case CallRead(n) => RawRead(c, n);
    case CallPartRead(n) => OnePartRead(c, n);
    case _ => WholeReads(c);
  }

  /** `next_part` returns the header of the next part still to come, whose bytes become the unread ones. */
  lemma NextPartAdvances(c: Cursor)
    requires Valid(c)
    ensures var (h, c') := NextPart(c);
            && Valid(c')
            && (Ahead(c) == [] ==> h == None && Ahead(c') == [])
            && (Ahead(c) != [] ==> h == Some(Ahead(c)[0].header) && Ahead(c') == Ahead(c)[1..]
                                   && Unread(c') == Ahead(c)[0].data && c'.part == InPart)
            && (h == None ==> if c.body.Some? && c.body.value.Parts? then c'.part == Done && Unread(c') == [] else c' == c)
            && (c.part == Done ==> c' == c)
  {
  }

  // ---- Whole runs: any mix of calls on any body ----

  /** The headers returned so far, and the bytes read before the first and under each of them. */
  datatype Transcript = Transcript(headers: seq<PartHeader>, read: seq<Bytes>)

  function Note(t: Transcript, r: BodyResult): Transcript
    requires |t.read| > 0
  {
    match r
    case Got(data) => var k := |t.read| - 1; t.(read := t.read[k := t.read[k] + data])
    case Header(None) => t
    case Header(Some(h)) => Transcript(t.headers + [h], t.read + [[]])
  }

  function Replay(c: Cursor, calls: seq<BodyCall>): (r: (Transcript, Cursor))
    ensures |r.0.read| > 0
  {
    if calls == [] then (Transcript([], [[]]), c)
    else
      var (t, c1) := Replay(c, calls[..|calls| - 1]);
      var (out, c2) := Perform(c1, calls[|calls| - 1]);
      (Note(t, out), c2)
  }

  /** The part list a body stands for: a raw body is one nameless stretch of bytes. */
  function Stretches(body: RequestBody): seq<Bytes> {
    match body
    case Raw(chunks) => [Concat(chunks)]
    case Parts(messages) => [[]] + Datas(Parse(messages))
  }

  function Datas(parts: seq<Part>): seq<Bytes> {
    seq(|parts|, i requires 0 <= i < |parts| => parts[i].data)
  }

  function PartsOf(body: RequestBody): seq<Part> {
    match body
    case Raw(_) => []
    case Parts(messages) => Parse(messages)
  }

  /** The transcript is the walk so far through `parts`, with `unread` left where it stands. */
  ghost predicate Walks(parts: seq<Part>, all: seq<Bytes>, t: Transcript, unread: Bytes, done: bool) {
    var k := |t.headers|;
    && k <= |parts| && |t.read| == k + 1 && |all| == |parts| + 1
    && (forall j | 0 <= j < k :: t.headers[j] == parts[j].header)
    && (forall j | 0 <= j < k :: t.read[j] <= all[j])
    && t.read[k] + unread <= all[k]
    && (!done ==> t.read[k] + unread == all[k])
  }

  ghost predicate Tracks(body: RequestBody, t: Transcript, c: Cursor) {
    && Valid(c) && c.body.Some? && (c.body.value.Raw? <==> body.Raw?)
    && Walks(PartsOf(body), Stretches(body), t, Unread(c), c.part == Done)
    && Ahead(c) == PartsOf(body)[|t.headers|..]
  }

  /** Any finite mix of the five calls walks the part list of the body it started on. */
  lemma {:induction false} RunTracksParts(body: RequestBody, calls: seq<BodyCall>)
    ensures var (t, c) := Replay(Fresh(Some(body)), calls);
            Tracks(body, t, c)
  {
    if calls == [] {
      assert [] + Unread(Fresh(Some(body))) == Unread(Fresh(Some(body)));
    } else {
      var (t, c1) := Replay(Fresh(Some(body)), calls[..|calls| - 1]);
      RunTracksParts(body, calls[..|calls| - 1]);
      TrackStep(body, t, c1, calls[|calls| - 1]);
    }
  }

  lemma WalkRead(parts: seq<Part>, all: seq<Bytes>, t: Transcript, data: Bytes, unread: Bytes, done: bool)
    requires Walks(parts, all, t, data + unread, done)
    ensures Walks(parts, all, Note(t, Got(data)), unread, done)
  {
    var k := |t.headers|;
    assert t.read[k] + (data + unread) == (t.read[k] + data) + unread;
  }

  lemma WalkHeader(parts: seq<Part>, all: seq<Bytes>, t: Transcript, unread: Bytes, done: bool)
    requires Walks(parts, all, t, unread, done) && |t.headers| < |parts|
    ensures var k := |t.headers|;
            Walks(parts, all, Note(t, Header(Some(parts[k].header))), all[k + 1], false)
  {
    var k := |t.headers|;
    assert t.read[k] <= t.read[k] + unread <= all[k];
    assert [] + all[k + 1] == all[k + 1];
  }

  lemma WalkStop(parts: seq<Part>, all: seq<Bytes>, t: Transcript, unread: Bytes, done: bool)
    requires Walks(parts, all, t, unread, done)
    ensures Walks(parts, all, t, [], true)
  {
    var k := |t.headers|;
    assert t.read[k] + [] == t.read[k] <= t.read[k] + unread <= all[k];
  }

  lemma TrackRead(body: RequestBody, t: Transcript, c: Cursor, call: BodyCall)
    requires Tracks(body, t, c) && call != CallNextPart
    ensures Tracks(body, Note(t, Perform(c, call).0), Perform(c, call).1)
  {
    assert |t.read| > 0;
    hide Perform, PartsOf, Stretches, Walks, Valid, Unread, Ahead;
    var (out, c') := Perform(c, call);
    BodyKindKept(c, call);
    ReadTakesFront(c, call);
    WalkRead(PartsOf(body), Stretches(body), t, out.data, Unread(c'), c.part == Done);
    assert c.part != Done && c'.part == Done ==>
        Walks(PartsOf(body), Stretches(body), Note(t, out), Unread(c'), true) by {
      WalkDone(PartsOf(body), Stretches(body), Note(t, out), Unread(c'), c.part == Done);
    }
  }

  lemma NoteCounts(t: Transcript, header: Option<PartHeader>)
    requires |t.read| > 0
    ensures |Note(t, Header(header)).headers| == |t.headers| + if header.Some? then 1 else 0
  {
  }

  lemma TrackNext(body: RequestBody, t: Transcript, c: Cursor)
    requires Tracks(body, t, c)
    ensures Tracks(body, Note(t, Header(NextPart(c).0)), NextPart(c).1)
  {
    assert |t.read| > 0 && |t.headers| <= |PartsOf(body)|;
    NoteCounts(t, NextPart(c).0);
    assert NextPart(c).0 == None ==> Note(t, Header(NextPart(c).0)) == t;
    hide PartsOf, Stretches, Walks, Valid, Unread, Ahead, NextPart, Note;
    var (header, c') := NextPart(c);
    var parts, all := PartsOf(body), Stretches(body);
    NextKindKept(c);
    NextPartAdvances(c);
    if header.Some? {
      var k := |t.headers|;
      TailOfTail(parts, k);
      WalkHeader(parts, all, t, Unread(c), c.part == Done);
      AheadData(body, k);
    } else if c' != c {
      WalkStop(parts, all, t, Unread(c), c.part == Done);
    }
  }

  lemma NextKindKept(c: Cursor)
    requires c.body.Some?
    ensures var c' := NextPart(c).1; c'.body.Some? && (c'.body.value.Raw? <==> c.body.value.Raw?)
  {
  }

  lemma TailOfTail<T>(s: seq<T>, k: nat)
    requires k <= |s| && s[k..] != []
    ensures k < |s| && s[k..][0] == s[k] && s[k..][1..] == s[k + 1..]
  {
  }

  lemma AheadData(body: RequestBody, k: nat)
    requires k < |PartsOf(body)|
    ensures |Stretches(body)| > k + 1 && Stretches(body)[k + 1] == PartsOf(body)[k].data
  {
  }

  lemma WalkDone(parts: seq<Part>, all: seq<Bytes>, t: Transcript, unread: Bytes, done: bool)
    requires Walks(parts, all, t, unread, done)
    ensures Walks(parts, all, t, unread, true)
  {
  }

  lemma TrackStep(body: RequestBody, t: Transcript, c: Cursor, call: BodyCall)
    requires Tracks(body, t, c)
    ensures Tracks(body, Note(t, Perform(c, call).0), Perform(c, call).1)
  {
    hide Tracks, Note;
    if call == CallNextPart {
      TrackNext(body, t, c);
    } else {
      TrackRead(body, t, c, call);
    }
  }

  lemma BodyKindKept(c: Cursor, call: BodyCall)
    requires c.body.Some?
    ensures var c' := Perform(c, call).1;
            c'.body.Some? && (c'.body.value.Raw? <==> c.body.value.Raw?)
  {
  }

  /** A raw body is conserved: what was read, then what is unread, is the whole body. */
  lemma RawBodyConserved(chunks: seq<Bytes>, calls: seq<BodyCall>)
    ensures var (t, c) := Replay(Fresh(Some(Raw(chunks))), calls);
            t.headers == [] && |t.read| == 1 && t.read[0] + Unread(c) == Concat(chunks)
  {
    hide Replay, Perform, Unread, Ahead, Concat, Parse;
    RunTracksParts(Raw(chunks), calls);
  }

  // ---- How much a call returns ----

  /** The bytes at hand: what a read left over, or the next piece on the channel. */
  function AtHand(c: Cursor): Bytes {
    if c.leftover != [] then c.leftover
    else match c.body
      case Some(Raw(chunks)) => if chunks == [] then [] else chunks[0]
      case Some(Parts(messages)) => if messages != [] && messages[0].Data? then messages[0].chunk else []
      case None => []
  }

  /** A read never waits for a second piece, and returns all of the first that was asked for. */
  lemma ReadsOnePiece(c: Cursor, n: nat)
    requires Valid(c)
    ensures c.body.Some? && c.body.value.Raw? ==>
              Read(c, n).0 <= AtHand(c) && |Read(c, n).0| == Min(n, |AtHand(c)|)
    ensures c.part == InPart ==>
              PartRead(c, n).0 <= AtHand(c) && |PartRead(c, n).0| == Min(n, |AtHand(c)|)
    ensures c.part == InPart ==>
              (PartRead(c, n).1.part == InPart <==> AtHand(c) != [] || EmptyPieceNext(c))
    ensures c.part != InPart ==> PartRead(c, n) == ([], c)
  {
  }

  /** `read_all` returns everything still to come of a raw body, and leaves nothing; likewise within a part. */
  lemma WholeReadsTakeAll(c: Cursor)
    requires Valid(c)
    ensures c.body.Some? && c.body.value.Raw? ==>
              ReadAll(c).0 == Unread(c) && Unread(ReadAll(c).1) == []
    ensures c.part == InPart ==>
              PartReadAll(c).0 == Unread(c) && Unread(PartReadAll(c).1) == [] && PartReadAll(c).1.part != InPart
    ensures c.part != InPart ==> PartReadAll(c) == ([], c)
    ensures !(c.body.Some? && c.body.value.Raw?) ==> ReadAll(c).0 == c.leftover
  {
  }

  /** So after any calls on a raw body, one `read_all` completes it. */
  lemma ReadAllCompletes(chunks: seq<Bytes>, calls: seq<BodyCall>)
    ensures Replay(Fresh(Some(Raw(chunks))), calls + [CallReadAll]).0.read == [Concat(chunks)]
  {
    hide Read, PartRead, NextPart, PartReadAll, Concat, Unread;
    var start, all := Fresh(Some(Raw(chunks))), calls + [CallReadAll];
    var (t, c) := Replay(start, calls);
    assert all[..|all| - 1] == calls;
    RawBodyConserved(chunks, calls);
    RunTracksParts(Raw(chunks), calls);
    WholeReadsTakeAll(c);
  }

  /** Once a multipart cursor is done it stays done, whatever is called. */
  lemma DoneAbsorbs(c: Cursor, call: BodyCall)
    requires Valid(c) && c.part == Done
    ensures var (out, c') := Perform(c, call);
            c' == c && (out == Got([]) || out == Header(None))
  {
    assert c.leftover == [];
  }

  // ---- Encoding parts, and reading all of them back ----

  datatype ChunkedPart = ChunkedPart(header: PartHeader, pieces: seq<Bytes>)

  function EncodePieces(pieces: seq<Bytes>): seq<PartMessage> {
    if pieces == [] then [Finish] else [Data(pieces[0])] + EncodePieces(pieces[1..])
  }

  function Encode(parts: seq<ChunkedPart>): seq<PartMessage> {
    if parts == [] then []
    else [Start(parts[0].header)] + EncodePieces(parts[0].pieces) + Encode(parts[1..])
  }

  function Glue(parts: seq<ChunkedPart>): seq<Part> {
    if parts == [] then []
    else [Part(parts[0].header, Concat(parts[0].pieces))] + Glue(parts[1..])
  }

  lemma {:induction false} TakePieces(pieces: seq<Bytes>, tail: seq<PartMessage>)
    ensures TakeData(EncodePieces(pieces) + tail) == (Concat(pieces), tail, true)
  {
    var messages := EncodePieces(pieces) + tail;
    if pieces == [] {
      assert messages[1..] == tail;
    } else {
      assert messages[1..] == EncodePieces(pieces[1..]) + tail;
      TakePieces(pieces[1..], tail);
    }
  }

  lemma ParseOne(h: PartHeader, pieces: seq<Bytes>, rest: seq<PartMessage>)
    ensures Parse([Start(h)] + EncodePieces(pieces) + rest) == [Part(h, Concat(pieces))] + Parse(rest)
  {
    var messages := [Start(h)] + EncodePieces(pieces) + rest;
    assert messages[1..] == EncodePieces(pieces) + rest;
    hide EncodePieces, Concat;
    TakePieces(pieces, rest);
  }

  /**
   * Parsing undoes encoding, whatever the chunking, and goes on with whatever follows: so a stream
   * that is malformed or closed after some whole parts yields at least those.
   */
  lemma {:induction false} ParseEncode(parts: seq<ChunkedPart>, tail: seq<PartMessage>)
    ensures Parse(Encode(parts) + tail) == Glue(parts) + Parse(tail)
  {
    if parts == [] {
      assert Encode(parts) + tail == tail;
    } else {
      var first, others := parts[0], parts[1..];
      var message, head := [Start(first.header)] + EncodePieces(first.pieces), [Part(first.header, Concat(first.pieces))];
      assert Encode(parts) == message + Encode(others);
      assert Glue(parts) == head + Glue(others);
      ParseEncode(others, tail);
      hide *;
      ParseOne(first.header, first.pieces, Encode(others) + tail);
      Associates(message, Encode(others), tail);
      Associates(head, Glue(others), Parse(tail));
    }
  }

  // ---- Streams that are malformed or closed early ----

  ghost predicate StartsWithWholePart(messages: seq<PartMessage>) {
    exists p: ChunkedPart, rest: seq<PartMessage> :: messages == Encode([p]) + rest
  }

  /** The part a stream was in when it stopped, with the data that came. */
  function CutOff(messages: seq<PartMessage>): seq<Part> {
    if messages == [] || !messages[0].Start? then []
    else [Part(messages[0].header, TakeData(messages[1..]).0)]
  }

  lemma EncodeFirst(parts: seq<ChunkedPart>, tail: seq<PartMessage>)
    requires parts != []
    ensures var messages := Encode(parts) + tail;
            && messages[0] == Start(parts[0].header)
            && messages[1..] == EncodePieces(parts[0].pieces) + (Encode(parts[1..]) + tail)
            && TakeData(messages[1..]) == (Concat(parts[0].pieces), Encode(parts[1..]) + tail, true)
  {
    var first, others := EncodePieces(parts[0].pieces), Encode(parts[1..]);
    assert Encode(parts) == [Start(parts[0].header)] + (first + others);
    TakePieces(parts[0].pieces, others + tail);
    hide *;
    Associates(first, others, tail);
    Associates([Start(parts[0].header)], first + others, tail);
  }

  lemma WholePartEnds(messages: seq<PartMessage>)
    requires StartsWithWholePart(messages)
    ensures messages != [] && messages[0].Start? && TakeData(messages[1..]).2
  {
    var p: ChunkedPart, rest: seq<PartMessage> :| messages == Encode([p]) + rest;
    EncodeFirst([p], rest);
  }

  lemma {:induction false} DataInPieces(messages: seq<PartMessage>) returns (pieces: seq<Bytes>)
    requires TakeData(messages).2
    ensures messages == EncodePieces(pieces) + TakeData(messages).1
  {
    if messages[0].Finish? {
      pieces := [];
    } else {
      var others := DataInPieces(messages[1..]);
      pieces := [messages[0].chunk] + others;
      assert pieces[1..] == others;
    }
  }

  lemma OnePartMore(h: PartHeader, pieces: seq<Bytes>, others: seq<ChunkedPart>, tail: seq<PartMessage>)
    ensures var parts := [ChunkedPart(h, pieces)] + others;
            && Encode(parts) + tail == [Start(h)] + EncodePieces(pieces) + (Encode(others) + tail)
            && Glue(parts) == [Part(h, Concat(pieces))] + Glue(others)
  {
    var parts := [ChunkedPart(h, pieces)] + others;
    assert parts[1..] == others;
    hide EncodePieces, Concat;
    Associates([Start(h)] + EncodePieces(pieces), Encode(others), tail);
  }

  /**
   * Every stream is whole parts followed by something that does not start with one, and the parts
   * read from it are those, and the one that was cut off if there is one.
   */
  lemma {:induction false} SplitsIntoParts(messages: seq<PartMessage>)
    returns (parts: seq<ChunkedPart>, tail: seq<PartMessage>)
    ensures messages == Encode(parts) + tail && !StartsWithWholePart(tail)
    ensures Parse(messages) == Glue(parts) + CutOff(tail)
    decreases |messages|
  {
    hide Encode, EncodePieces, Glue, TakeData, Concat, StartsWithWholePart;
    if messages == [] || !messages[0].Start? || !TakeData(messages[1..]).2 {
      parts, tail := [], messages;
      NoParts(tail);
      if StartsWithWholePart(tail) {
        WholePartEnds(tail);
      }
    } else {
      var h := messages[0].header;
      var pieces := DataInPieces(messages[1..]);
      var others: seq<ChunkedPart>;
      others, tail := SplitsIntoParts(TakeData(messages[1..]).1);
      parts := [ChunkedPart(h, pieces)] + others;
      OnePartMore(h, pieces, others, tail);
      ParseOne(h, pieces, Encode(others) + tail);
      Associates([Start(h)], EncodePieces(pieces), Encode(others) + tail);
      assert messages == [Start(h)] + messages[1..];
      Associates([Part(h, Concat(pieces))], Glue(others), CutOff(tail));
    }
  }

  lemma NoParts(tail: seq<PartMessage>)
    ensures Encode([]) + tail == tail && Glue([]) + CutOff(tail) == CutOff(tail)
  {
  }

  lemma EncodedStartsWhole(parts: seq<ChunkedPart>, tail: seq<PartMessage>)
    requires parts != []
    ensures StartsWithWholePart(Encode(parts) + tail)
  {
    var p, others := parts[0], parts[1..];
    var rest := Encode(others) + tail;
    assert parts == [p] + others;
    hide EncodePieces, Concat;
    OnePartMore(p.header, p.pieces, others, tail);
    OnePartMore(p.header, p.pieces, [], rest);
    assert [p] + [] == [p] && Encode([]) + rest == rest;
    assert Encode(parts) + tail == Encode([p]) + rest;
  }

  /** No other way to read whole parts off the front of a stream finds more of them. */
  lemma {:induction false} SplitIsLongest(parts: seq<ChunkedPart>, tail: seq<PartMessage>,
                                          parts': seq<ChunkedPart>, tail': seq<PartMessage>)
    requires Encode(parts) + tail == Encode(parts') + tail' && !StartsWithWholePart(tail)
    ensures |parts'| <= |parts|
  {
    hide Encode, EncodePieces, TakeData, Concat, StartsWithWholePart;
    if parts == [] {
      NoParts(tail);
      if parts' != [] {
        EncodedStartsWhole(parts', tail');
      }
    } else if parts' != [] {
      EncodeFirst(parts, tail);
      EncodeFirst(parts', tail');
      SplitIsLongest(parts[1..], tail, parts'[1..], tail');
    }
  }

  /** The client that asks for a part, reads all of it, and goes on until there is none. */
  function ReadEveryPart(c: Cursor): seq<Part>
    decreases if c.body.Some? && c.body.value.Parts? then |c.body.value.messages| else 0
  {
    var (h, c1) := NextPart(c);
    if h == None then []
    else
      var (data, c2) := PartReadAll(c1);
      [Part(h.value, data)] + ReadEveryPart(c2)
  }

  lemma {:induction false} ReadEveryPartIsAhead(c: Cursor)
    requires Valid(c)
    ensures ReadEveryPart(c) == Ahead(c)
    decreases if c.body.Some? && c.body.value.Parts? then |c.body.value.messages| else 0
  {
    NextPartAdvances(c);
    var (h, c1) := NextPart(c);
    if h != None {
      ReadTakesFront(c1, CallPartReadAll);
      var (data, c2) := PartReadAll(c1);
      assert Unread(c2) == [];
      ReadEveryPartIsAhead(c2);
    }
  }

  /** Parts sent in any chunking are read back whole and in order. */
  lemma PartsRoundTrip(parts: seq<ChunkedPart>)
    ensures ReadEveryPart(Fresh(Some(Parts(Encode(parts))))) == Glue(parts)
  {
    ReadEveryPartIsAhead(Fresh(Some(Parts(Encode(parts)))));
    ParseEncode(parts, []);
    assert Encode(parts) + [] == Encode(parts);
    assert Glue(parts) + [] == Glue(parts);
  }

  // ---- What an empty read means ----

  /** The next thing on the channel is an empty piece of data, and nothing is left over. */
  predicate EmptyPieceNext(c: Cursor) {
    && c.leftover == [] && c.body.Some?
    && match c.body.value
       case Raw(chunks) => chunks != [] && chunks[0] == []
       case Parts(messages) => messages != [] && messages[0] == Data([])
  }

  /** `folk_read` returns nothing at the end of the body, and also when it meets an empty chunk. */
  lemma EmptyReadIff(c: Cursor, length: nat)
    requires Valid(c) && c.body.Some? && c.body.value.Raw?
    ensures Read(c, length).0 == [] <==> length == 0 || Unread(c) == [] || EmptyPieceNext(c)
  {
    var chunks := c.body.value.chunks;
    if c.leftover == [] && chunks != [] && length > 0 {
      assert Read(c, length).0 == chunks[0][..Min(length, |chunks[0]|)];
    }
  }

  lemma EmptyPartReadIff(c: Cursor, length: nat)
    requires Valid(c) && c.body.Some? && c.body.value.Parts?
    ensures PartRead(c, length).0 == [] <==>
            length == 0 || Unread(c) == [] || (c.part == InPart && EmptyPieceNext(c))
  {
    var messages := c.body.value.messages;
    if c.part == InPart && c.leftover == [] && messages != [] && messages[0].Data? && length > 0 {
      assert PartRead(c, length).0 == messages[0].chunk[..Min(length, |messages[0].chunk|)];
    }
  }

  lemma EmptyReadBeforeTheEnd(b: Byte)
    ensures var c := Fresh(Some(Raw([[], [b]])));
            Read(c, 1).0 == [] && Read(Read(c, 1).1, 1).0 == [b]
  {
    assert Read(Fresh(Some(Raw([[], [b]]))), 1).1 == Cursor(Some(Raw([[b]])), [], BeforeFirst);
  }

  function ReadLoop(c: Cursor, lengths: seq<nat>): (Bytes, Cursor)
    decreases |lengths|
  {
    if lengths == [] then ([], c)
    else
      var (out, c1) := Read(c, lengths[0]);
      var (more, c2) := ReadLoop(c1, lengths[1..]);
      (out + more, c2)
  }

  predicate NonEmptyPieces(c: Cursor) {
    c.body.Some? && c.body.value.Raw? && forall i | 0 <= i < |c.body.value.chunks| :: c.body.value.chunks[i] != []
  }

  /**
   * Without empty chunks, as many reads of at least one byte as there are bytes return the whole
   * body, in order, and leave nothing.
   */
  lemma {:induction false} ReadLoopReturnsBody(c: Cursor, lengths: seq<nat>)
    requires Valid(c) && NonEmptyPieces(c)
    requires (forall i | 0 <= i < |lengths| :: lengths[i] >= 1) && |Unread(c)| <= |lengths|
    ensures ReadLoop(c, lengths).0 == Unread(c) && Unread(ReadLoop(c, lengths).1) == []
    decreases |lengths|
  {
    hide Read, Unread, Ahead;
    if lengths != [] {
      var (out, c1) := Read(c, lengths[0]);
      ReadTakesFront(c, CallRead(lengths[0]));
      EmptyReadIff(c, lengths[0]);
      ReadKeepsPieces(c, lengths[0]);
      assert forall i | 0 <= i < |lengths[1..]| :: lengths[1..][i] >= 1;
      ReadLoopReturnsBody(c1, lengths[1..]);
    }
  }

  lemma ReadKeepsPieces(c: Cursor, length: nat)
    requires NonEmptyPieces(c)
    ensures NonEmptyPieces(Read(c, length).1) && !EmptyPieceNext(c)
  {
  }

}
