/**
 * The two collectors that fold a reply stream into one result: `collect_stream` in the pool and
 * `collect_stream_to_value` behind the worker handle.
 */
module Collectors {

  import opened Wrappers
  import opened Json
  import opened Chunks

  /** What a collector has gathered: a returned value, or the makings of the legacy response. */
  datatype Collected =
    | Verbatim(value: Value)
    | Legacy(status: Status, headers: map<string, string>, body: Bytes)

  type Outcome = Result<Collected, WorkerError>

  /** The receiving half of a reply stream: what it will still deliver before it is closed. */
  class Receiver {
    var pending: seq<Chunk>

    constructor (pending: seq<Chunk>)
      ensures this.pending == pending
    {
      this.pending := pending;
    }

    method Recv() returns (c: Option<Chunk>)
      modifies this
      ensures old(pending) == [] ==> c == None && pending == []
      ensures old(pending) != [] ==> c == Some(old(pending)[0]) && pending == old(pending)[1..]
    {
      if pending == [] {
        c := None;
      } else {
        c := Some(pending[0]);
        pending := pending[1..];
      }
    }
  }

  // ---- What a stretch of chunks says ----

  function LastReturn(w: seq<Chunk>): Option<Value> {
    if w == [] then None
    else if w[|w| - 1].Return? then Some(w[|w| - 1].value)
    else LastReturn(w[..|w| - 1])
  }

  /** Status and headers of the last head, `200` and none when there was no head. */
  function LastHead(w: seq<Chunk>): (Status, map<string, string>) {
    if w == [] then (200, map[])
    else if w[|w| - 1].Headers? then (w[|w| - 1].status, w[|w| - 1].headers)
    else LastHead(w[..|w| - 1])
  }

  function BodyBytes(w: seq<Chunk>): Bytes {
    if w == [] then []
    else BodyBytes(w[..|w| - 1]) + (if w[|w| - 1].Body? then w[|w| - 1].data else [])
  }

  function AsLegacy(w: seq<Chunk>): Collected {
    Legacy(LastHead(w).0, LastHead(w).1, BodyBytes(w))
  }

  predicate StopsPool(c: Chunk) {
    c.Error? || c.End?
  }

  predicate StopsHandle(c: Chunk) {
    c.Return? || c.Error? || c.End?
  }

  /** Index of the first chunk that ends the pool's reading, or the length. */
  function PoolStop(w: seq<Chunk>): (k: nat)
    ensures k <= |w| && (k < |w| ==> StopsPool(w[k]))
    ensures forall i | 0 <= i < k :: !StopsPool(w[i])
  {
    if w == [] || StopsPool(w[0]) then 0 else 1 + PoolStop(w[1..])
  }

  function HandleStop(w: seq<Chunk>): (k: nat)
    ensures k <= |w| && (k < |w| ==> StopsHandle(w[k]))
    ensures forall i | 0 <= i < k :: !StopsHandle(w[i])
  {
    if w == [] || StopsHandle(w[0]) then 0 else 1 + HandleStop(w[1..])
  }

  /** An error wins, then the last return value, then the legacy response. */
  function PoolReading(w: seq<Chunk>): Outcome {
    var k := PoolStop(w);
    if k < |w| && w[k].Error? then Err(w[k].error)
    else match LastReturn(w[..k])
      case Some(v) => Ok(Verbatim(v))
      case None => Ok(AsLegacy(w[..k]))
  }

  /** The first return value or error wins, then the legacy response. */
  function HandleReading(w: seq<Chunk>): Outcome {
    var k := HandleStop(w);
    if k < |w| && w[k].Error? then Err(w[k].error)
    else if k < |w| && w[k].Return? then Ok(Verbatim(w[k].value))
    else Ok(AsLegacy(w[..k]))
  }

  // ---- The legacy response as a JSON value ----

  /** The fields of an object with exactly these headers, as strings. */
  ghost predicate Shows(fields: seq<Field>, headers: map<string, string>) {
    && Sorted(fields)
    && (forall f :: f in fields <==> f.key in headers && f.value == Str(headers[f.key]))
  }

  /** `lossy` decodes bytes as text, replacing what is not UTF-8. */
  ghost predicate IsLegacyObject(v: Value, lossy: Bytes -> string, l: Collected)
    requires l.Legacy?
  {
    && v.Object? && |v.fields| == 3 && Sorted(v.fields)
    && v.fields[0] == Field("body", Str(lossy(l.body)))
    && v.fields[1].key == "headers" && v.fields[1].value.Object? && Shows(v.fields[1].value.fields, l.headers)
    && v.fields[2] == Field("status", Num(Int(l.status)))
  }

  /** The value or error a caller gets for an outcome. */
  ghost predicate Renders(lossy: Bytes -> string, o: Outcome, r: Result<Value, WorkerError>) {
    match o
    case Err(e) => r == Err(e)
    case Ok(Verbatim(v)) => r == Ok(v)
    case Ok(Legacy(_, _, _)) => r.Ok? && IsLegacyObject(r.value, lossy, o.value)
  }

  lemma OneRendering(lossy: Bytes -> string, o: Outcome, r: Result<Value, WorkerError>, r': Result<Value, WorkerError>)
    requires Renders(lossy, o, r) && Renders(lossy, o, r')
    ensures r == r'
  {
    if o.Ok? && o.value.Legacy? {
      var a, b := r.value.fields, r'.value.fields;
      SortedOneWay(a[1].value.fields, b[1].value.fields);
      assert a[1] == b[1];
      assert a == [a[0], a[1], a[2]] && b == [b[0], b[1], b[2]];
    }
  }

  /** The headers may come out of their hash map in any order. */
  method LegacyObject(lossy: Bytes -> string, status: Status, headers: map<string, string>, body: Bytes)
    returns (v: Value)
    ensures IsLegacyObject(v, lossy, Legacy(status, headers, body))
  {
    var fields: seq<Field> := [];
    var left := headers.Keys;
    while left != {}
      invariant left <= headers.Keys && Sorted(fields)
      invariant forall f :: f in fields <==> f.key in headers && f.key !in left && f.value == Str(headers[f.key])
      decreases |left|
    {
      var k :| k in left;
      InsertKeeps(fields, k, Str(headers[k]));
      fields := InsertField(fields, k, Str(headers[k]));
      left := left - {k};
    }
    v := Object([Field("body", Str(lossy(body))), Field("headers", Object(fields)), Field("status", Num(Int(status)))]);
  }

  // ---- The two loops ----

  method CollectStream(rx: Receiver, lossy: Bytes -> string) returns (r: Result<Value, WorkerError>)
    modifies rx
    ensures Renders(lossy, PoolReading(old(rx.pending)), r)
    ensures rx.pending == old(rx.pending)[if PoolStop(old(rx.pending)) < |old(rx.pending)|
                                          then PoolStop(old(rx.pending)) + 1
                                          else |old(rx.pending)|..]
  {
    ghost var w := rx.pending;
    ghost var i := 0;
    var status: Status, headers: map<string, string> := 200, map[];
    var bodyBytes: Bytes := [];
    var returnValue: Option<Value> := None;
    while true
      invariant i <= PoolStop(w) && rx.pending == w[i..]
      invariant (status, headers) == LastHead(w[..i])
      invariant bodyBytes == BodyBytes(w[..i])
      invariant returnValue == LastReturn(w[..i])
      decreases |w| - i
    {
      var next := rx.Recv();
      if next.None? {
        break;
      }
      assert i < |w| && next.value == w[i];
      assert w[..i + 1][..i] == w[..i];
      match next.value {
        case Headers(s, h) => status, headers := s, h;
        case Body(b) => bodyBytes := bodyBytes + b;
        case Return(v) => returnValue := Some(v);
        case Error(e) => return Err(e);
        case End => break;
      }
      i := i + 1;
    }
    if returnValue.Some? {
      return Ok(returnValue.value);
    }
    var legacy := LegacyObject(lossy, status, headers, bodyBytes);
    return Ok(legacy);
  }

  method CollectStreamToValue(rx: Receiver, lossy: Bytes -> string) returns (r: Result<Value, WorkerError>)
    modifies rx
    ensures Renders(lossy, HandleReading(old(rx.pending)), r)
    ensures rx.pending == old(rx.pending)[if HandleStop(old(rx.pending)) < |old(rx.pending)|
                                          then HandleStop(old(rx.pending)) + 1
                                          else |old(rx.pending)|..]
  {
    ghost var w := rx.pending;
    ghost var i := 0;
    var status: Status, headers: map<string, string> := 200, map[];
    var bodyBytes: Bytes := [];
    while true
      invariant i <= HandleStop(w) && rx.pending == w[i..]
      invariant (status, headers) == LastHead(w[..i])
      invariant bodyBytes == BodyBytes(w[..i])
      decreases |w| - i
    {
      var next := rx.Recv();
      if next.None? {
        break;
      }
      assert i < |w| && next.value == w[i];
      assert w[..i + 1][..i] == w[..i];
      match next.value {
        case Headers(s, h) => status, headers := s, h;
        case Body(b) => bodyBytes := bodyBytes + b;
        case Return(v) => return Ok(v);
        case Error(e) => return Err(e);
        case End => break;
      }
      i := i + 1;
    }
    var legacy := LegacyObject(lossy, status, headers, bodyBytes);
    return Ok(legacy);
  }

  // ---- What a stretch says, chunk by chunk ----

  /** The pool keeps the last return value before it stops, whatever was returned or streamed earlier. */
  lemma LastReturnWins(w: seq<Chunk>, i: nat)
    requires i < PoolStop(w) && w[i].Return? && (PoolStop(w) < |w| ==> !w[PoolStop(w)].Error?)
    requires forall j | i < j < PoolStop(w) :: !w[j].Return?
    ensures PoolReading(w) == Ok(Verbatim(w[i].value))
  {
    LastReturnAt(w, i, PoolStop(w));
  }

  lemma {:induction false} LastReturnAt(w: seq<Chunk>, i: nat, k: nat)
    requires i < k <= |w| && w[i].Return? && forall j | i < j < k :: !w[j].Return?
    ensures LastReturn(w[..k]) == Some(w[i].value)
    decreases k
  {
    if i + 1 < k {
      assert w[..k][..k - 1] == w[..k - 1];
      LastReturnAt(w, i, k - 1);
    }
  }

  /** The worker handle takes the first answer there is, and reads no further. */
  lemma FirstAnswerWins(w: seq<Chunk>, i: nat)
    requires i < |w| && (w[i].Return? || w[i].Error?)
    requires forall j | 0 <= j < i :: w[j].Headers? || w[j].Body?
    ensures HandleReading(w) == if w[i].Return? then Ok(Verbatim(w[i].value)) else Err(w[i].error)
  {
    assert HandleStop(w) == i;
  }

  /** The body chunks of a stretch, in order. */
  function Pieces(w: seq<Chunk>): seq<Bytes> {
    if w == [] then [] else (if w[0].Body? then [w[0].data] else []) + Pieces(w[1..])
  }

  lemma {:induction false} PiecesAppend(init: seq<Chunk>, last: Chunk)
    ensures Concat(Pieces(init + [last])) == Concat(Pieces(init)) + if last.Body? then last.data else []
  {
    if init == [] {
      assert [] + [last] == [last];
    } else {
      var first, rest := if init[0].Body? then [init[0].data] else [], Pieces(init[1..]);
      assert (init + [last])[1..] == init[1..] + [last];
      PiecesAppend(init[1..], last);
      FirstPiece(first, rest);
      FirstPiece(first, Pieces(init[1..] + [last]));
      Associates(Concat(first), Concat(rest), if last.Body? then last.data else []);
    }
  }

  lemma FirstPiece(first: seq<Bytes>, rest: seq<Bytes>)
    requires |first| <= 1
    ensures Concat(first + rest) == Concat(first) + Concat(rest)
  {
    if first == [] {
      assert first + rest == rest;
    } else {
      assert (first + rest)[1..] == rest;
      assert Concat(first) == first[0] + [];
    }
  }

  lemma {:induction false} BodyIsPieces(w: seq<Chunk>)
    ensures BodyBytes(w) == Concat(Pieces(w))
  {
    if w != [] {
      var init, last := w[..|w| - 1], w[|w| - 1];
      BodyIsPieces(init);
      PiecesAppend(init, last);
      assert w == init + [last];
    }
  }

  lemma {:induction false} HeadIsLast(w: seq<Chunk>, i: nat)
    requires i < |w| ==> w[i].Headers?
    requires forall j | 0 <= j < |w| && w[j].Headers? :: j <= i < |w|
    ensures LastHead(w) == if i < |w| then (w[i].status, w[i].headers) else LastHead([])
  {
    if w != [] && i + 1 != |w| {
      HeadIsLast(w[..|w| - 1], i);
    }
  }

  /** The legacy response has the last head, or status 200 and no headers, and all the body bytes in order. */
  lemma LegacyFromChunks(w: seq<Chunk>, i: nat)
    requires i < |w| ==> w[i].Headers?
    requires forall j | 0 <= j < |w| && w[j].Headers? :: j <= i < |w|
    ensures AsLegacy(w) == (if i < |w| then Legacy(w[i].status, w[i].headers, Concat(Pieces(w)))
                            else Legacy(200, map[], Concat(Pieces(w))))
  {
    BodyIsPieces(w);
    HeadIsLast(w, i);
  }

  // ---- When the collectors agree ----

  lemma {:induction false} NoReturnBefore(w: seq<Chunk>)
    requires forall i | 0 <= i < |w| :: !w[i].Return?
    ensures LastReturn(w) == None
  {
    if w != [] {
      NoReturnBefore(w[..|w| - 1]);
    }
  }

  /**
   * After its first return value, a stream says nothing that would change the pool's mind: no
   * error before the end, and no later return with another value.
   */
  predicate SettledByFirstReturn(w: seq<Chunk>) {
    var first, stop := HandleStop(w), PoolStop(w);
    first < |w| && w[first].Return? ==>
      && !(stop < |w| && w[stop].Error?)
      && LastReturn(w[..stop]) == Some(w[first].value)
  }

  /** On every stream whatever, the collectors agree exactly when the first return settles it. */
  lemma CollectorsAgreeIff(w: seq<Chunk>)
    ensures PoolReading(w) == HandleReading(w) <==> SettledByFirstReturn(w)
  {
    var first, stop := HandleStop(w), PoolStop(w);
    if first < |w| && w[first].Return? {
      LastReturnIsSome(w, first, stop);
    } else {
      assert first == stop;
      NoReturnBefore(w[..stop]);
    }
  }

  /** And then, and only then, do their callers get the same value or error. */
  lemma ValuesAgreeIff(w: seq<Chunk>, lossy: Bytes -> string, p: Result<Value, WorkerError>, h: Result<Value, WorkerError>)
    requires Renders(lossy, PoolReading(w), p) && Renders(lossy, HandleReading(w), h)
    ensures p == h <==> SettledByFirstReturn(w)
  {
    hide Shows;
    CollectorsAgreeIff(w);
    if PoolReading(w) == HandleReading(w) {
      OneRendering(lossy, PoolReading(w), p, h);
    } else {
      var first, stop := HandleStop(w), PoolStop(w);
      LastReturnIsSome(w, first, stop);
    }
  }

  lemma LastReturnIsSome(w: seq<Chunk>, i: nat, k: nat)
    requires i < k <= |w| && w[i].Return?
    ensures LastReturn(w[..k]).Some?
    decreases k
  {
    if !w[k - 1].Return? {
      assert w[..k][..k - 1] == w[..k - 1];
      LastReturnIsSome(w, i, k - 1);
    }
  }

  lemma CollectorsDisagree(v: Value, e: WorkerError)
    ensures var w := [Return(v), Error(e), End];
            PoolReading(w) == Err(e) && HandleReading(w) == Ok(Verbatim(v))
  {
    var w := [Return(v), Error(e), End];
    assert StopsHandle(w[0]) && !StopsPool(w[0]);
    assert w[1] == Error(e) && StopsPool(w[1]);
    assert PoolStop(w) == 1 && HandleStop(w) == 0;
  }

  /** An answer inside a reply is followed by nothing but the end. */
  lemma {:induction false} AnswerIsNextToLast(w: seq<Chunk>, i: nat)
    requires ModeOf(w) != Broken && i < |w| && (w[i].Return? || w[i].Error?)
    ensures ModeOf(w) == if i + 1 == |w| then Answered else Closed
    ensures i + 1 == |w| || (i + 2 == |w| && w[i + 1] == End)
  {
    if i + 1 < |w| {
      AnswerIsNextToLast(w[..|w| - 1], i);
    }
  }

  lemma {:induction false} EndIsLast(w: seq<Chunk>, i: nat)
    requires ModeOf(w) != Broken && i < |w| && w[i].End?
    ensures i + 1 == |w| && ModeOf(w) == Closed
  {
    if i + 1 < |w| {
      EndIsLast(w[..|w| - 1], i);
    }
  }

  /** On a whole reply or any prefix of one, both collectors read the same outcome. */
  lemma CollectorsAgreeOnReplies(w: seq<Chunk>)
    requires exists s :: IsReply(w + s)
    ensures PoolReading(w) == HandleReading(w)
  {
    PrefixIffNotBroken(w);
    var first, stop := HandleStop(w), PoolStop(w);
    if first < |w| && w[first].Return? {
      AnswerIsNextToLast(w, first);
      assert stop == first + 1;
      assert w[..stop][|w[..stop]| - 1] == w[first];
    }
    CollectorsAgreeIff(w);
  }

  /** What a page means, whole or cut before its end, whichever collector reads it. */
  lemma PageMeaning(s: seq<Chunk>, w: seq<Chunk>)
    requires AllStream(s) && (w == s || w == s + [End])
    ensures PoolReading(w) == Ok(AsLegacy(s)) == HandleReading(w)
  {
    NoReturnBefore(s);
    var p, h := PoolStop(w), HandleStop(w);
    assert forall i | 0 <= i < |s| :: w[i] == s[i];
    assert |w| > |s| ==> w[|s|] == End;
    assert p == |s| && h == |s|;
    assert w[..|s|] == s;
  }

  lemma ReturnMeaning(s: seq<Chunk>, v: Value)
    requires AllStream(s)
    ensures var w := s + [Return(v), End]; PoolReading(w) == Ok(Verbatim(v)) == HandleReading(w)
  {
    var w := s + [Return(v), End];
    var p, h := PoolStop(w), HandleStop(w);
    assert forall i | 0 <= i < |s| :: w[i] == s[i];
    assert w[|s|] == Return(v) && w[|s| + 1] == End;
    assert h == |s| && p == |s| + 1;
    assert w[..|s| + 1][|s|] == Return(v);
  }

  lemma ErrorMeaning(s: seq<Chunk>, e: WorkerError)
    requires AllStream(s)
    ensures var w := s + [Error(e), End]; PoolReading(w) == Err(e) == HandleReading(w)
  {
    var w := s + [Error(e), End];
    var p, h := PoolStop(w), HandleStop(w);
    assert forall i | 0 <= i < |s| :: w[i] == s[i];
    assert w[|s|] == Error(e);
    assert p == |s| && h == |s|;
  }

  predicate AllStream(s: seq<Chunk>) {
    forall i | 0 <= i < |s| :: s[i].Headers? || s[i].Body?
  }

}
