/** Response chunks and the language of replies a worker may put on one request's stream. */
module Chunks {

  import opened Json

  newtype Byte = b: int | 0 <= b < 256

  type Bytes = seq<Byte>

  type Status = s: nat | s < 65536

  datatype Chunk =
    | Headers(status: Status, headers: map<string, string>)
    | Body(data: Bytes)
    | Return(value: Value)
    | Error(error: WorkerError)
    | End

  function Concat(pieces: seq<Bytes>): Bytes {
    if pieces == [] then [] else pieces[0] + Concat(pieces[1..])
  }

  lemma Associates<T>(a: seq<T>, b: seq<T>, c: seq<T>)
    ensures (a + b) + c == a + (b + c)
  {
  }

  /** How far a reply has got; `Broken` once the chunks cannot be the start of a reply. */
  datatype Mode = Plain | Streaming | Answered | Closed | Broken

  function Advance(m: Mode, c: Chunk): Mode {
    match c
    case Headers(_, _) => if m == Plain then Streaming else Broken
    case Body(_) => if m == Plain || m == Streaming then m else Broken
    case Return(_) => if m == Plain || m == Streaming then Answered else Broken
    case Error(_) => if m == Plain || m == Streaming then Answered else Broken
    case End => if m == Closed || m == Broken then Broken else Closed
  }

  function ModeOf(w: seq<Chunk>): Mode {
    if w == [] then Plain else Advance(ModeOf(w[..|w| - 1]), w[|w| - 1])
  }

  lemma ModeAppend(w: seq<Chunk>, c: Chunk)
    ensures ModeOf(w + [c]) == Advance(ModeOf(w), c)
  {
    assert (w + [c])[..|w|] == w;
  }

  lemma {:induction false} BrokenStaysBroken(p: seq<Chunk>, s: seq<Chunk>)
    requires ModeOf(p) == Broken
    ensures ModeOf(p + s) == Broken
  {
    if s == [] {
      assert p + s == p;
    } else {
      BrokenStaysBroken(p, s[..|s| - 1]);
      assert p + s == (p + s[..|s| - 1]) + [s[|s| - 1]];
      ModeAppend(p + s[..|s| - 1], s[|s| - 1]);
    }
  }

  // ---- The same language, written as  Body* (Headers Body*)? (Return | Error)? End ----

  predicate AllBodies(w: seq<Chunk>) {
    forall i | 0 <= i < |w| :: w[i].Body?
  }

  predicate IsHead(w: seq<Chunk>) {
    |w| == 1 && w[0].Headers?
  }

  predicate IsAnswer(w: seq<Chunk>) {
    w == [] || (|w| == 1 && (w[0].Return? || w[0].Error?))
  }

  predicate IsStream(a: seq<Chunk>, h: seq<Chunk>, b: seq<Chunk>) {
    AllBodies(a) && AllBodies(b) && (IsHead(h) || (h == [] && b == []))
  }

  predicate SplitsAs(w: seq<Chunk>, a: seq<Chunk>, h: seq<Chunk>, b: seq<Chunk>, r: seq<Chunk>) {
    w == a + h + b + r + [End] && IsStream(a, h, b) && IsAnswer(r)
  }

  ghost predicate IsReply(w: seq<Chunk>) {
    exists a, h, b, r :: SplitsAs(w, a, h, b, r)
  }

  lemma {:induction false} BodiesKeepMode(w: seq<Chunk>, b: seq<Chunk>)
    requires AllBodies(b) && (ModeOf(w) == Plain || ModeOf(w) == Streaming)
    ensures ModeOf(w + b) == ModeOf(w)
  {
    if b == [] {
      assert w + b == w;
    } else {
      BodiesKeepMode(w, b[..|b| - 1]);
      assert w + b == (w + b[..|b| - 1]) + [b[|b| - 1]];
      ModeAppend(w + b[..|b| - 1], b[|b| - 1]);
    }
  }

  lemma {:induction false} BodiesArePlain(b: seq<Chunk>)
    requires AllBodies(b)
    ensures ModeOf(b) == Plain
  {
    if b != [] {
      BodiesArePlain(b[..|b| - 1]);
    }
  }

  lemma StreamMode(a: seq<Chunk>, h: seq<Chunk>, b: seq<Chunk>)
    requires IsStream(a, h, b)
    ensures ModeOf(a + h + b) == if h == [] then Plain else Streaming
  {
    hide ModeOf;
    BodiesArePlain(a);
    if h == [] {
      assert a + h + b == a;
    } else {
      assert h == [h[0]];
      ModeAppend(a, h[0]);
      BodiesKeepMode(a + h, b);
    }
  }

  /** Every unfinished stream is bodies, then possibly a head and more bodies. */
  lemma {:induction false} SplitStream(w: seq<Chunk>)
    returns (a: seq<Chunk>, h: seq<Chunk>, b: seq<Chunk>)
    requires ModeOf(w) == Plain || ModeOf(w) == Streaming
    ensures w == a + h + b && IsStream(a, h, b)
    ensures h == [] <==> ModeOf(w) == Plain
  {
    if w == [] {
      a, h, b := [], [], [];
    } else {
      var last := w[|w| - 1];
      a, h, b := SplitStream(w[..|w| - 1]);
      if last.Headers? {
        h := [last];
      } else if h == [] {
        a := a + [last];
      } else {
        b := b + [last];
      }
      assert w == w[..|w| - 1] + [last];
    }
  }

  lemma SplitIsClosed(w: seq<Chunk>, a: seq<Chunk>, h: seq<Chunk>, b: seq<Chunk>, r: seq<Chunk>)
    requires SplitsAs(w, a, h, b, r)
    ensures ModeOf(w) == Closed
  {
    hide ModeOf;
    StreamMode(a, h, b);
    var s := a + h + b;
    ModeAppend(s + r, End);
    if r == [] {
      assert s + r == s;
    } else {
      assert s + r == s + [r[0]];
      ModeAppend(s, r[0]);
    }
  }

  lemma ClosedSplits(w: seq<Chunk>)
    returns (a: seq<Chunk>, h: seq<Chunk>, b: seq<Chunk>, r: seq<Chunk>)
    requires ModeOf(w) == Closed
    ensures SplitsAs(w, a, h, b, r)
  {
    var v := w[..|w| - 1];
    assert w == v + [End];
    if ModeOf(v) == Answered {
      r := [v[|v| - 1]];
      a, h, b := SplitStream(v[..|v| - 1]);
      assert v == v[..|v| - 1] + r;
    } else {
      r := [];
      a, h, b := SplitStream(v);
      assert v + r == v;
    }
  }

  /** The automaton accepts exactly the words of the reply language. */
  lemma ReplyIffClosed(w: seq<Chunk>)
    ensures IsReply(w) <==> ModeOf(w) == Closed
  {
    if IsReply(w) {
      var a, h, b, r :| SplitsAs(w, a, h, b, r);
      SplitIsClosed(w, a, h, b, r);
    }
    if ModeOf(w) == Closed {
      var a, h, b, r := ClosedSplits(w);
    }
  }

  /** Chunks that are not broken are exactly the prefixes of replies. */
  lemma PrefixIffNotBroken(p: seq<Chunk>)
    ensures ModeOf(p) != Broken <==> exists s :: IsReply(p + s)
  {
    if ModeOf(p) == Closed {
      assert p + [] == p;
      ReplyIffClosed(p + []);
    } else if ModeOf(p) != Broken {
      ModeAppend(p, End);
      ReplyIffClosed(p + [End]);
    } else {
      forall s ensures !IsReply(p + s) {
        BrokenStaysBroken(p, s);
        ReplyIffClosed(p + s);
      }
    }
  }

  lemma {:induction false} PrefixNotBroken(w: seq<Chunk>, k: nat)
    requires k <= |w| && ModeOf(w) != Broken
    ensures ModeOf(w[..k]) != Broken
  {
    assert w[..k] + w[k..] == w;
    if ModeOf(w[..k]) == Broken {
      BrokenStaysBroken(w[..k], w[k..]);
    }
  }

}
