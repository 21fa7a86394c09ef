/** Round-robin routing over slot inboxes, skipping the ones known to be dead. */
module Router {

  import opened Wrappers

  /** Where the next request starts looking, and which inboxes have refused one. */
  datatype Ring = Ring(next: nat, dead: seq<bool>)

  predicate Sound(r: Ring) {
    r.next <= |r.dead|
  }

  function Chosen(r: Ring, attempt: nat): nat
    requires |r.dead| > 0
  {
    (r.next + attempt) % |r.dead|
  }

  /** One attempt: skip a dead slot, mark one whose inbox turns out closed, deliver otherwise. */
  function Attempt(r: Ring, attempt: nat, closed: bool): (Ring, bool)
    requires |r.dead| > 0
  {
    var c := Chosen(r, attempt);
    if r.dead[c] then (r, false)
    else if closed then (r.(dead := r.dead[c := true]), false)
    else (r.(next := c + 1), true)
  }

  /** The attempts of one request, when `closed` says which inboxes refuse it. */
  function Pass(r: Ring, attempt: nat, closed: seq<bool>): (Ring, Option<nat>)
    requires |closed| == |r.dead|
    decreases |r.dead| - attempt
  {
    if attempt >= |r.dead| then (r, None)
    else
      var c := Chosen(r, attempt);
      var (r', delivered) := Attempt(r, attempt, closed[c]);
      if delivered then (r', Some(c)) else Pass(r', attempt + 1, closed)
  }

  function At(next: nat, attempt: nat, n: nat): int {
    if next + attempt < n then next + attempt else next + attempt - n
  }

  lemma WrapsOnce(x: nat, n: nat)
    requires x < 2 * n
    ensures x % n == if x < n then x else x - n
  {
    if x >= n {
      assert x / n == 1;
    }
  }

  lemma ChosenIsAt(r: Ring, attempt: nat)
    requires Sound(r) && attempt < |r.dead|
    ensures Chosen(r, attempt) == At(r.next, attempt, |r.dead|)
  {
    WrapsOnce(r.next + attempt, |r.dead|);
  }

  /** The attempts of one pass visit every slot exactly once. */
  lemma VisitsEachSlotOnce(r: Ring)
    requires Sound(r) && |r.dead| > 0
    ensures forall a, b | 0 <= a < b < |r.dead| :: Chosen(r, a) != Chosen(r, b)
    ensures forall i | 0 <= i < |r.dead| :: Chosen(r, AttemptFor(r, i)) == i
  {
    var n := |r.dead|;
    forall a, b | 0 <= a < b < n ensures Chosen(r, a) != Chosen(r, b) {
      ChosenIsAt(r, a);
      ChosenIsAt(r, b);
    }
    forall i | 0 <= i < n ensures Chosen(r, AttemptFor(r, i)) == i {
      ChosenIsAt(r, AttemptFor(r, i));
    }
  }

  function AttemptFor(r: Ring, i: nat): (a: nat)
    requires Sound(r) && i < |r.dead|
    ensures a < |r.dead| && At(r.next, a, |r.dead|) == i
  {
    if i >= r.next then i - r.next else i + |r.dead| - r.next
  }

  predicate Usable(r: Ring, closed: seq<bool>, i: nat)
    requires |closed| == |r.dead| && i < |r.dead|
  {
    !r.dead[i] && !closed[i]
  }

  /** Between `from` and slot `c` in routing order, no slot was usable. */
  predicate FirstFrom(r: Ring, closed: seq<bool>, attempt: nat, c: nat)
    requires |closed| == |r.dead|
  {
    && c < |r.dead| && Sound(r)
    && attempt <= AttemptFor(r, c)
    && forall i | 0 <= i < |r.dead| && attempt <= AttemptFor(r, i) < AttemptFor(r, c) :: !Usable(r, closed, i)
  }

  /**
   * A request goes to the first usable slot in routing order. It is refused only if no slot at all
   * is usable, and then every slot is marked dead. A slot is marked only if its inbox is closed.
   */
  lemma {:induction false} PassFindsFirst(r: Ring, attempt: nat, closed: seq<bool>)
    requires |closed| == |r.dead| && Sound(r) && attempt <= |r.dead|
    ensures var (r', to) := Pass(r, attempt, closed);
            && |r'.dead| == |r.dead| && Sound(r')
            && (forall i | 0 <= i < |r.dead| :: (r.dead[i] ==> r'.dead[i]) && (r'.dead[i] ==> r.dead[i] || closed[i]))
            && (to.Some? ==> FirstFrom(r, closed, attempt, to.value) && Usable(r, closed, to.value) && r'.next == to.value + 1)
            && (to.None? ==> r'.next == r.next)
            && (to.None? ==> forall i | 0 <= i < |r.dead| && attempt <= AttemptFor(r, i) :: !Usable(r, closed, i) && r'.dead[i])
    decreases |r.dead| - attempt
  {
    hide Chosen;
    if attempt < |r.dead| {
      var c := Chosen(r, attempt);
      ChosenIsAt(r, attempt);
      assert AttemptFor(r, c) == attempt;
      var (r1, delivered) := Attempt(r, attempt, closed[c]);
      if !delivered {
        PassFindsFirst(r1, attempt + 1, closed);
        assert forall i | 0 <= i < |r.dead| :: AttemptFor(r1, i) == AttemptFor(r, i);
        assert forall i | 0 <= i < |r.dead| && i != c :: AttemptFor(r, i) != attempt;
      }
    }
  }

  // ---- Fairness ----

  /** How many usable slots there are below index `k`. */
  function Rank(r: Ring, closed: seq<bool>, k: nat): nat
    requires |closed| == |r.dead| && k <= |r.dead|
  {
    if k == 0 then 0 else Rank(r, closed, k - 1) + if Usable(r, closed, k - 1) then 1 else 0
  }

  function UsableBelow(r: Ring, closed: seq<bool>, k: nat): set<nat>
    requires |closed| == |r.dead| && k <= |r.dead|
  {
    set i | 0 <= i < k && Usable(r, closed, i)
  }

  lemma {:induction false} RankCounts(r: Ring, closed: seq<bool>, k: nat)
    requires |closed| == |r.dead| && k <= |r.dead|
    ensures Rank(r, closed, k) == |UsableBelow(r, closed, k)|
  {
    hide Usable;
    if k > 0 {
      RankCounts(r, closed, k - 1);
      assert UsableBelow(r, closed, k) == UsableBelow(r, closed, k - 1) + if Usable(r, closed, k - 1) then {k - 1} else {};
    }
  }

  lemma {:induction false} RankMonotone(r: Ring, closed: seq<bool>, j: nat, k: nat)
    requires |closed| == |r.dead| && j <= k <= |r.dead|
    ensures Rank(r, closed, j) <= Rank(r, closed, k)
    ensures (forall i | j <= i < k :: !Usable(r, closed, i)) ==> Rank(r, closed, j) == Rank(r, closed, k)
    ensures (exists i | j <= i < k :: Usable(r, closed, i)) ==> Rank(r, closed, j) < Rank(r, closed, k)
    decreases k
  {
    if j < k {
      RankMonotone(r, closed, j, k - 1);
    }
  }

  lemma {:induction false} SameUsableSameRank(r: Ring, r': Ring, closed: seq<bool>, k: nat)
    requires |closed| == |r.dead| == |r'.dead| && k <= |r.dead|
    requires forall i | 0 <= i < |r.dead| :: Usable(r, closed, i) <==> Usable(r', closed, i)
    ensures Rank(r, closed, k) == Rank(r', closed, k)
    decreases k
  {
    if k > 0 {
      SameUsableSameRank(r, r', closed, k - 1);
    }
  }

  /** Routing advances to the next rank, and from the last one round to the first. */
  lemma PassRank(r: Ring, closed: seq<bool>)
    requires |closed| == |r.dead| && Sound(r) && Pass(r, 0, closed).1.Some?
    ensures var (r', to) := Pass(r, 0, closed);
            var n, live := |r.dead|, Rank(r, closed, |r.dead|);
            && to.value < n && r'.next == to.value + 1
            && Rank(r, closed, to.value + 1) == Rank(r, closed, to.value) + 1 <= live
            && Rank(r, closed, to.value) == if Rank(r, closed, r.next) == live then 0 else Rank(r, closed, r.next)
  {
    hide Pass;
    PassFindsFirst(r, 0, closed);
    var c, n := Pass(r, 0, closed).1.value, |r.dead|;
    RankMonotone(r, closed, c + 1, n);
    if c >= r.next {
      RankMonotone(r, closed, r.next, c);
      RankMonotone(r, closed, r.next, n);
    } else {
      RankMonotone(r, closed, r.next, n);
      RankMonotone(r, closed, 0, c);
    }
  }

  function After(r: Ring, closed: seq<bool>, k: nat): (r': Ring)
    requires |closed| == |r.dead| && Sound(r)
    ensures |r'.dead| == |r.dead| && Sound(r')
  {
    if k == 0 then r
    else
      var before := After(r, closed, k - 1);
      PassFindsFirst(before, 0, closed);
      Pass(before, 0, closed).0
  }

  /** Where the `k`-th of a stretch of requests goes, while the same inboxes stay closed. */
  function Pick(r: Ring, closed: seq<bool>, k: nat): Option<nat>
    requires |closed| == |r.dead| && Sound(r)
  {
    Pass(After(r, closed, k), 0, closed).1
  }

  function Live(r: Ring, closed: seq<bool>): nat
    requires |closed| == |r.dead|
  {
    Rank(r, closed, |r.dead|)
  }

  lemma {:induction false} UsableStays(r: Ring, closed: seq<bool>, k: nat)
    requires |closed| == |r.dead| && Sound(r)
    ensures forall i | 0 <= i < |r.dead| :: Usable(After(r, closed, k), closed, i) <==> Usable(r, closed, i)
  {
    if k > 0 {
      UsableStays(r, closed, k - 1);
      PassFindsFirst(After(r, closed, k - 1), 0, closed);
    }
  }

  /** With a live slot, no request of the stretch is lost. */
  lemma PickIsLive(r: Ring, closed: seq<bool>, k: nat)
    requires |closed| == |r.dead| && Sound(r) && Live(r, closed) > 0
    ensures Pick(r, closed, k).Some? && Pick(r, closed, k).value < |r.dead|
    ensures Usable(r, closed, Pick(r, closed, k).value)
  {
    UsableStays(r, closed, k);
    PassFindsFirst(After(r, closed, k), 0, closed);
    RankMonotone(r, closed, 0, |r.dead|);
  }

  function PickRank(r: Ring, closed: seq<bool>, k: nat): nat
    requires |closed| == |r.dead| && Sound(r) && Live(r, closed) > 0
  {
    PickIsLive(r, closed, k);
    Rank(r, closed, Pick(r, closed, k).value)
  }

  lemma NextRank(r: Ring, closed: seq<bool>, k: nat)
    requires |closed| == |r.dead| && Sound(r) && Live(r, closed) > 0
    ensures PickRank(r, closed, k) < Live(r, closed)
    ensures PickRank(r, closed, k + 1) == if PickRank(r, closed, k) + 1 == Live(r, closed) then 0
                                          else PickRank(r, closed, k) + 1
  {
    PickIsLive(r, closed, k);
    PickIsLive(r, closed, k + 1);
    var r1, r2 := After(r, closed, k), After(r, closed, k + 1);
    UsableStays(r, closed, k);
    UsableStays(r, closed, k + 1);
    PassRank(r1, closed);
    PassRank(r2, closed);
    forall i | 0 <= i <= |r.dead| ensures Rank(r, closed, i) == Rank(r1, closed, i) == Rank(r2, closed, i) {
      SameUsableSameRank(r, r1, closed, i);
      SameUsableSameRank(r, r2, closed, i);
    }
  }

  lemma {:induction false} RanksCycle(r: Ring, closed: seq<bool>, i: nat, d: nat)
    requires |closed| == |r.dead| && Sound(r) && Live(r, closed) > 0 && d <= Live(r, closed)
    ensures var sum := PickRank(r, closed, i) + d;
            PickRank(r, closed, i + d) == if sum < Live(r, closed) then sum else sum - Live(r, closed)
    decreases d
  {
    NextRank(r, closed, i);
    if d > 0 {
      RanksCycle(r, closed, i, d - 1);
      NextRank(r, closed, i + d - 1);
    }
  }

  lemma RankIsInjective(r: Ring, closed: seq<bool>, c: nat, e: nat)
    requires |closed| == |r.dead| && c < |r.dead| && e < |r.dead|
    requires Usable(r, closed, c) && Usable(r, closed, e) && Rank(r, closed, c) == Rank(r, closed, e)
    ensures c == e
  {
    if c < e {
      RankMonotone(r, closed, c, e);
    } else if e < c {
      RankMonotone(r, closed, e, c);
    }
  }

  /**
   * While the same inboxes are closed and `L` slots are live, a slot that gets a request gets its
   * next one exactly `L` requests later: any `L` consecutive requests go to `L` different slots.
   */
  lemma SameSlotAfterLive(r: Ring, closed: seq<bool>, i: nat, j: nat)
    requires |closed| == |r.dead| && Sound(r) && Live(r, closed) > 0
    requires i < j <= i + Live(r, closed)
    ensures Pick(r, closed, i) == Pick(r, closed, j) <==> j == i + Live(r, closed)
  {
    RanksCycle(r, closed, i, j - i);
    NextRank(r, closed, i);
    PickIsLive(r, closed, i);
    PickIsLive(r, closed, j);
    if j == i + Live(r, closed) {
      RankIsInjective(r, closed, Pick(r, closed, i).value, Pick(r, closed, j).value);
    }
  }

  /** And every live slot gets one of them. */
  lemma EveryLiveSlotServed(r: Ring, closed: seq<bool>, i: nat, slot: nat) returns (j: nat)
    requires |closed| == |r.dead| && Sound(r) && slot < |r.dead| && Usable(r, closed, slot)
    ensures i <= j < i + Live(r, closed) && Pick(r, closed, j) == Some(slot)
  {
    RankMonotone(r, closed, slot, slot + 1);
    RankMonotone(r, closed, slot + 1, |r.dead|);
    NextRank(r, closed, i);
    var from, want := PickRank(r, closed, i), Rank(r, closed, slot);
    var d := if want >= from then want - from else want + Live(r, closed) - from;
    RanksCycle(r, closed, i, d);
    j := i + d;
    PickIsLive(r, closed, j);
    RankIsInjective(r, closed, Pick(r, closed, j).value, slot);
  }

  /** The routing loop of the pool task, with its cursor and dead marks updated in place. */
  class Dispatcher {
    var next: nat
    const dead: array<bool>

    function Abs(): Ring
      reads this, dead
    {
      Ring(next, dead[..])
    }

    constructor (n: nat)
      ensures Abs() == Ring(0, seq(n, _ => false)) && fresh(dead)
    {
      next := 0;
      dead := new bool[n](_ => false);
    }

    /** `closed` says of each inbox whether it refuses the request when its turn comes. */
    method Route(request: nat, closed: seq<bool>) returns (sentTo: Option<nat>)
      requires |closed| == dead.Length && Sound(Abs())
      modifies this, dead
      ensures (Abs(), sentTo) == Pass(old(Abs()), 0, closed)
      ensures Sound(Abs())
      ensures sentTo.Some? ==> sentTo.value < dead.Length && !old(dead[..])[sentTo.value] && !closed[sentTo.value]
      ensures sentTo.None? ==> forall i | 0 <= i < dead.Length :: dead[i]
    {
      ghost var target := Pass(Abs(), 0, closed);
      PassFindsFirst(Abs(), 0, closed);
      var n := dead.Length;
      var req := Some(request);
      var attempt := 0;
      while attempt < n
        invariant attempt <= n && req == Some(request) && Sound(Abs())
        invariant Pass(Abs(), attempt, closed) == target
      {
        var chosen := (next + attempt) % n;
        if !dead[chosen] {
          assert req.Some?;
          req := None;
          if closed[chosen] {
            dead[chosen] := true;
            req := Some(request);
          } else {
            next := chosen + 1;
            return Some(chosen);
          }
        }
        attempt := attempt + 1;
      }
      return None;
    }
  }

}
