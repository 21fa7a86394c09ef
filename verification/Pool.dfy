/**
 * The whole pool as a transition system: callers with permits, the bounded queue, the router task,
 * and every slot with its supervisor, worker thread and bridge.
 */
module Pool {

  import opened Wrappers
  import opened Bridge
  import opened Slots
  import opened Router

  const QUEUE_CAPACITY := 1024
  const INBOX_CAPACITY := 8

  /** `Draining` has left the routing loop and awaits the supervisors; it still owns every inbox sender. */
  datatype RouterState = Waiting | Routing(req: Request, attempt: nat) | Draining | Returned

  datatype Pool = Pool(
    count: nat,
    maxJobs: nat,
    permits: nat,
    enqueuing: seq<Request>,
    queue: seq<Request>,
    router: RouterState,
    ring: Ring,
    slots: seq<Slot>,
    generation: nat,
    closing: bool,
    issued: set<nat>,
    begun: set<nat>,
    finished: multiset<nat>,
    crashed: multiset<nat>,
    discarded: multiset<nat>)

  function Start(count: nat, maxJobs: nat): Pool {
    Pool(count, maxJobs, count, [], [], Waiting, Ring(0, seq(count, _ => false)), seq(count, _ => NEW_SLOT),
         0, false, {}, {}, multiset{}, multiset{}, multiset{})
  }

  function Around(p: Pool): Ambient {
    Ambient(p.generation, p.closing, p.router == Returned, p.maxJobs)
  }

  datatype PoolEvent =
    | Acquire(req: Request)
    | Cancel(k: nat)
    | Enqueue(k: nat)
    | RouterTakes
    | RouterTries
    | RouterDrains
    | RouterReturns
    | Reload
    | DropPool
    | SlotMoves(i: nat, m: Move)

  predicate AllClosed(slots: seq<Slot>) {
    forall i | 0 <= i < |slots| :: !IsOpen(slots[i])
  }

  predicate Shape(p: Pool) {
    |p.slots| == p.count && |p.ring.dead| == p.count && Sound(p.ring)
  }

  /** The inbox the router is about to try. */
  function Target(p: Pool): nat
    requires Shape(p) && p.router.Routing? && p.router.attempt < p.count
  {
    Chosen(p.ring, p.router.attempt)
  }

  predicate Enabled(p: Pool, e: PoolEvent)
    requires Shape(p)
  {
    match e
    case Acquire(req) => p.permits > 0 && !p.closing && req.id !in p.issued
    case Cancel(k) => k < |p.enqueuing|
    case Enqueue(k) => k < |p.enqueuing| && |p.queue| < QUEUE_CAPACITY
    case RouterTakes => p.router == Waiting && p.queue != []
    case RouterTries =>
      && p.router.Routing?
      && (p.router.attempt < p.count ==>
            p.ring.dead[Target(p)] || !IsOpen(p.slots[Target(p)]) || |p.slots[Target(p)].inbox| < INBOX_CAPACITY)
    case RouterDrains => p.router == Waiting && p.queue == [] && p.enqueuing == [] && p.closing
    case RouterReturns => p.router == Draining && AllClosed(p.slots)
    case Reload => !p.closing
    case DropPool => !p.closing && p.enqueuing == []
    case SlotMoves(i, m) => i < p.count && Can(p.slots[i], m, Around(p))
  }

  function Without(rs: seq<Request>, k: nat): seq<Request>
    requires k < |rs|
  {
    rs[..k] + rs[k + 1..]
  }

  /** The requests a slot lets go of in a move: answered, lost with a panic, or never started. */
  datatype Freed = Freed(finished: multiset<nat>, crashed: multiset<nat>, discarded: multiset<nat>)

  const NOTHING := Freed(multiset{}, multiset{}, multiset{})

  function Frees(s: Slot, m: Move): Freed {
    match m
    case Finishes(_, _) => NOTHING.(finished := Executing(s))
    case Panics => NOTHING.(crashed := Executing(s), discarded := Ids(s.inbox))
    case Joins => if s.phase.Terminating? && s.phase.exit then NOTHING.(discarded := Ids(s.inbox)) else NOTHING
    case _ => NOTHING
  }

  function Total(f: Freed): multiset<nat> {
    f.finished + f.crashed + f.discarded
  }

  /** The pool with slot `i` replaced, what the slot freed accounted for, and `began` marked as begun. */
  function WithSlot(p: Pool, i: nat, s: Slot, f: Freed, began: set<nat>): Pool
    requires i < |p.slots|
  {
    p.(slots := p.slots[i := s], begun := p.begun + began, permits := p.permits + |Total(f)|,
       finished := p.finished + f.finished, crashed := p.crashed + f.crashed, discarded := p.discarded + f.discarded)
  }

  function Try(p: Pool): Pool
    requires Shape(p) && p.router.Routing?
  {
    var Routing(req, attempt) := p.router;
    if attempt >= p.count then
      p.(router := Waiting, discarded := p.discarded + multiset{req.id}, permits := p.permits + 1)
    else
      var c := Target(p);
      var (ring, delivered) := Attempt(p.ring, attempt, !IsOpen(p.slots[c]));
      if delivered then p.(ring := ring, router := Waiting, slots := p.slots[c := Pushed(p.slots[c], req)])
      else p.(ring := ring, router := Routing(req, attempt + 1))
  }

  function SlotNext(p: Pool, i: nat, m: Move): (p': Pool)
    requires Shape(p) && Enabled(p, SlotMoves(i, m))
    ensures |p'.slots| == p.count
  {
    var s := p.slots[i];
    WithSlot(p, i, Apply(s, m, Around(p)), Frees(s, m), if m == Takes then {s.inbox[0].id} else {})
  }

  function PoolNext(p: Pool, e: PoolEvent): Pool
    requires Shape(p) && Enabled(p, e)
  {
    match e
    case Acquire(req) =>
      p.(permits := p.permits - 1, enqueuing := p.enqueuing + [req], issued := p.issued + {req.id})
    case Cancel(k) =>
      p.(enqueuing := Without(p.enqueuing, k), permits := p.permits + 1,
         discarded := p.discarded + multiset{p.enqueuing[k].id})
    case Enqueue(k) => p.(enqueuing := Without(p.enqueuing, k), queue := p.queue + [p.enqueuing[k]])
    case RouterTakes => p.(queue := p.queue[1..], router := Routing(p.queue[0], 0))
    case RouterTries => Try(p)
    case RouterDrains => p.(router := Draining)
    case RouterReturns => p.(router := Returned)
    case Reload => p.(generation := p.generation + 1)
    case DropPool => p.(closing := true)
    case SlotMoves(i, m) => SlotNext(p, i, m)
  }

  // ---- Where requests are ----

  function Sum(parts: seq<multiset<nat>>): multiset<nat> {
    if parts == [] then multiset{} else parts[0] + Sum(parts[1..])
  }

  function InboxIds(slots: seq<Slot>): seq<multiset<nat>> {
    seq(|slots|, i requires 0 <= i < |slots| => Ids(slots[i].inbox))
  }

  function ExecutingIds(slots: seq<Slot>): seq<multiset<nat>> {
    seq(|slots|, i requires 0 <= i < |slots| => Executing(slots[i]))
  }

  function Routed(r: RouterState): multiset<nat> {
    if r.Routing? then multiset{r.req.id} else multiset{}
  }

  /** Every request by where it is: pending ones hold a permit and have not been given to a worker. */
  datatype Ledger = Ledger(
    pending: multiset<nat>,
    executing: multiset<nat>,
    begun: set<nat>,
    issued: set<nat>,
    finished: multiset<nat>,
    crashed: multiset<nat>,
    discarded: multiset<nat>)

  function LedgerOf(p: Pool): Ledger {
    Ledger(Ids(p.enqueuing) + Ids(p.queue) + Routed(p.router) + Sum(InboxIds(p.slots)), Sum(ExecutingIds(p.slots)),
           p.begun, p.issued, p.finished, p.crashed, p.discarded)
  }

  /** The places partition the issued requests, and the begun ones are executing, finished or crashed. */
  ghost predicate Balanced(l: Ledger) {
    && l.pending + multiset(l.begun) + l.discarded == multiset(l.issued)
    && l.executing + l.finished + l.crashed == multiset(l.begun)
  }

  ghost predicate Conserved(p: Pool) {
    var l := LedgerOf(p);
    Balanced(l) && p.permits + |l.pending| + |l.executing| == p.count
  }

  ghost predicate SlotsKept(p: Pool) {
    && (forall i | 0 <= i < |p.slots| :: SlotInv(p.slots[i], Around(p)) && p.slots[i].taken <= p.begun)
    && (forall i, j | 0 <= i < j < |p.slots| :: p.slots[i].taken !! p.slots[j].taken)
  }

  predicate RoutesKept(p: Pool)
    requires Shape(p)
  {
    && (forall i | 0 <= i < p.count :: p.ring.dead[i] ==> !IsOpen(p.slots[i]))
    && (p.router.Routing? ==> p.router.attempt <= p.count)
    && (p.router.Routing? ==> forall i | 0 <= i < p.count && AttemptFor(p.ring, i) < p.router.attempt :: p.ring.dead[i])
    && (p.router.Draining? || p.router.Returned? ==> p.closing && p.queue == [] && p.enqueuing == [])
    && (p.router.Returned? ==> AllClosed(p.slots))
    && (p.closing ==> p.enqueuing == [])
  }

  ghost predicate PoolInv(p: Pool) {
    Shape(p) && Conserved(p) && SlotsKept(p) && RoutesKept(p)
  }

  // ---- The ledger ----

  type Bag = multiset<nat>

  lemma AddLeft(h: Bag, a: Bag, b: Bag, c: Bag, d: Bag)
    requires a + b == c + d
    ensures (h + a) + b == (h + c) + d
  {
    assert (h + a) + b == h + (a + b);
    assert (h + c) + d == h + (c + d);
  }

  /** Moving `x` from one of four places to the next leaves their sum alone. */
  lemma Shift(a: Bag, b: Bag, c: Bag, d: Bag, x: Bag)
    ensures (a + x) + b + c + d == a + (b + x) + c + d
    ensures a + (b + x) + c + d == a + b + (c + x) + d
    ensures a + b + (c + x) + d == a + b + c + (d + x) == (a + b + c + d) + x
  {
  }

  lemma {:induction false} SumUpdate(parts: seq<multiset<nat>>, i: nat, part: multiset<nat>)
    requires i < |parts|
    ensures Sum(parts[i := part]) + parts[i] == Sum(parts) + part
    ensures parts[i] <= Sum(parts)
  {
    if i == 0 {
      assert parts[0 := part][1..] == parts[1..];
    } else {
      var tail := parts[1..];
      assert parts[i := part][1..] == tail[i - 1 := part];
      SumUpdate(tail, i - 1, part);
      AddLeft(parts[0], Sum(tail[i - 1 := part]), parts[i], Sum(tail), part);
    }
  }

  lemma Cancels(a: Bag, b: Bag, x: Bag, y: Bag)
    requires a + (x + y) == b + x
    ensures b == a + y
  {
    assert a + (x + y) == (a + y) + x;
    assert b == (b + x) - x;
    assert a + y == ((a + y) + x) - x;
  }

  lemma SlotIdsUpdate(slots: seq<Slot>, i: nat, s: Slot)
    requires i < |slots|
    ensures Sum(InboxIds(slots[i := s])) + Ids(slots[i].inbox) == Sum(InboxIds(slots)) + Ids(s.inbox)
    ensures Sum(ExecutingIds(slots[i := s])) + Executing(slots[i]) == Sum(ExecutingIds(slots)) + Executing(s)
    ensures Ids(slots[i].inbox) <= Sum(InboxIds(slots))
    ensures Executing(s) == Executing(slots[i]) ==> ExecutingIds(slots[i := s]) == ExecutingIds(slots)
  {
    hide Sum, Ids;
    SumUpdate(InboxIds(slots), i, Ids(s.inbox));
    SumUpdate(ExecutingIds(slots), i, Executing(s));
    assert InboxIds(slots[i := s]) == InboxIds(slots)[i := Ids(s.inbox)];
    assert ExecutingIds(slots[i := s]) == ExecutingIds(slots)[i := Executing(s)];
  }

  lemma {:induction false} SumEmpty(parts: seq<multiset<nat>>)
    requires forall i | 0 <= i < |parts| :: parts[i] == multiset{}
    ensures Sum(parts) == multiset{}
  {
    if parts != [] {
      SumEmpty(parts[1..]);
    }
  }

  lemma {:induction false} IdsWithout(rs: seq<Request>, k: nat)
    requires k < |rs|
    ensures Ids(rs) == Ids(Without(rs, k)) + multiset{rs[k].id}
  {
    if k == 0 {
      assert Without(rs, 0) == rs[1..];
    } else {
      assert Without(rs, k)[1..] == Without(rs[1..], k - 1);
      IdsWithout(rs[1..], k - 1);
    }
  }

  /** Nothing pending was ever begun, and it is pending in one place only. */
  lemma PendingNotBegun(l: Ledger, r: nat)
    requires Balanced(l) && r in l.pending
    ensures r !in l.begun && l.pending[r] == 1
  {
    assert (l.pending + multiset(l.begun) + l.discarded)[r] == multiset(l.issued)[r] <= 1;
  }

  lemma IssueBalances(l: Ledger, r: nat)
    requires Balanced(l) && r !in l.issued
    ensures Balanced(l.(pending := l.pending + multiset{r}, issued := l.issued + {r}))
  {
    assert multiset(l.issued + {r}) == multiset(l.issued) + multiset{r};
  }

  lemma BeginBalances(l: Ledger, r: nat, pending: multiset<nat>)
    requires Balanced(l) && l.pending == pending + multiset{r}
    ensures r !in l.begun
    ensures Balanced(l.(pending := pending, executing := l.executing + multiset{r}, begun := l.begun + {r}))
  {
    PendingNotBegun(l, r);
    assert multiset(l.begun + {r}) == multiset(l.begun) + multiset{r};
  }

  lemma FreeBalances(l: Ledger, l': Ledger, f: Freed)
    requires Balanced(l) && l'.begun == l.begun && l'.issued == l.issued
    requires l.pending == l'.pending + f.discarded && l'.discarded == l.discarded + f.discarded
    requires l.executing == l'.executing + (f.finished + f.crashed)
    requires l'.finished == l.finished + f.finished && l'.crashed == l.crashed + f.crashed
    ensures Balanced(l')
    ensures |l'.pending| + |l'.executing| + |Total(f)| == |l.pending| + |l.executing|
  {
  }

  // ---- Every step keeps the invariant ----

  lemma StartConserves(count: nat, maxJobs: nat)
    ensures Conserved(Start(count, maxJobs))
  {
    var p := Start(count, maxJobs);
    SumEmpty(InboxIds(p.slots));
    SumEmpty(ExecutingIds(p.slots));
    assert Ids([]) == multiset{};
    assert Sum(InboxIds(p.slots)) == Sum(ExecutingIds(p.slots)) == multiset{};
    assert LedgerOf(p).pending == multiset{};
  }

  lemma StartInv(count: nat, maxJobs: nat)
    ensures PoolInv(Start(count, maxJobs))
  {
    hide SlotInv, Conserved;
    StartConserves(count, maxJobs);
    var p := Start(count, maxJobs);
    forall i | 0 <= i < |p.slots| ensures SlotInv(p.slots[i], Around(p)) {
      NewSlotInv(Around(p));
    }
  }

  lemma AcquireConserves(p: Pool, req: Request)
    requires PoolInv(p) && Enabled(p, Acquire(req))
    ensures Conserved(PoolNext(p, Acquire(req)))
  {
    hide SlotInv, SlotsKept, RoutesKept, Sum, Balanced;
    var l, l' := LedgerOf(p), LedgerOf(PoolNext(p, Acquire(req)));
    IdsAppend(p.enqueuing, req);
    IssueBalances(l, req.id);
    assert l'.pending == l.pending + multiset{req.id};
  }

  lemma CancelConserves(p: Pool, k: nat)
    requires PoolInv(p) && Enabled(p, Cancel(k))
    ensures Conserved(PoolNext(p, Cancel(k)))
  {
    hide SlotInv, SlotsKept, RoutesKept, Sum, Balanced, Ids;
    var l, l' := LedgerOf(p), LedgerOf(PoolNext(p, Cancel(k)));
    IdsWithout(p.enqueuing, k);
    assert l.pending == l'.pending + multiset{p.enqueuing[k].id};
    FreeBalances(l, l', NOTHING.(discarded := multiset{p.enqueuing[k].id}));
  }

  lemma EnqueueConserves(p: Pool, k: nat)
    requires PoolInv(p) && Enabled(p, Enqueue(k))
    ensures Conserved(PoolNext(p, Enqueue(k)))
  {
    hide SlotInv, SlotsKept, RoutesKept, Sum, Balanced, Ids;
    IdsWithout(p.enqueuing, k);
    IdsAppend(p.queue, p.enqueuing[k]);
    Shift(Ids(Without(p.enqueuing, k)), Ids(p.queue), Routed(p.router), Sum(InboxIds(p.slots)),
          multiset{p.enqueuing[k].id});
    assert LedgerOf(PoolNext(p, Enqueue(k))).pending == LedgerOf(p).pending;
  }

  lemma IdsHead(rs: seq<Request>)
    requires rs != []
    ensures Ids(rs) == Ids(rs[1..]) + multiset{rs[0].id}
  {
  }

  lemma RouterTakesConserves(p: Pool)
    requires PoolInv(p) && Enabled(p, RouterTakes)
    ensures Conserved(PoolNext(p, RouterTakes))
  {
    hide SlotInv, SlotsKept, RoutesKept, Sum, Balanced, Ids;
    var x := multiset{p.queue[0].id};
    IdsHead(p.queue);
    assert Routed(PoolNext(p, RouterTakes).router) == multiset{} + x;
    Shift(Ids(p.enqueuing), Ids(p.queue[1..]), multiset{}, Sum(InboxIds(p.slots)), x);
    assert LedgerOf(PoolNext(p, RouterTakes)).pending == LedgerOf(p).pending;
  }

  /** Steps that leave the slots and what surrounds them alone. */
  lemma SameSlotsKept(p: Pool, p': Pool)
    requires SlotsKept(p) && p'.slots == p.slots && p'.begun == p.begun
    requires p'.maxJobs == p.maxJobs && p'.generation >= p.generation
    ensures SlotsKept(p')
  {
    hide SlotInv;
    forall i | 0 <= i < |p.slots| ensures SlotInv(p.slots[i], Around(p')) {
      AmbientMoves(p.slots[i], Around(p), Around(p'));
    }
  }

  lemma CallerKeeps(p: Pool, e: PoolEvent)
    requires PoolInv(p) && Enabled(p, e) && (e.Acquire? || e.Cancel? || e.Enqueue? || e.RouterTakes?)
    ensures PoolInv(PoolNext(p, e))
  {
    hide SlotInv, Conserved, SlotsKept, Apply, Can, Frees;
    SameSlotsKept(p, PoolNext(p, e));
    match e {
      case Acquire(req) => AcquireConserves(p, req);
      case Cancel(k) => CancelConserves(p, k);
      case Enqueue(k) => EnqueueConserves(p, k);
      case RouterTakes => RouterTakesConserves(p);
    }
  }

  lemma SignalKeeps(p: Pool, e: PoolEvent)
    requires PoolInv(p) && Enabled(p, e) && (e.RouterDrains? || e.RouterReturns? || e.Reload? || e.DropPool?)
    ensures PoolInv(PoolNext(p, e))
  {
    hide Conserved, SlotsKept, Apply, Can, Frees;
    SameSlotsKept(p, PoolNext(p, e));
    SignalConserves(p, e);
  }

  lemma SameRequestsConserved(p: Pool, p': Pool)
    requires Conserved(p)
    requires p' == p.(router := p'.router, generation := p'.generation, closing := p'.closing)
    requires Routed(p'.router) == Routed(p.router)
    ensures Conserved(p')
  {
    hide Balanced, Sum, Ids, InboxIds, ExecutingIds, Routed;
    assert LedgerOf(p') == LedgerOf(p);
  }

  lemma SignalConserves(p: Pool, e: PoolEvent)
    requires Shape(p) && Conserved(p) && Enabled(p, e)
    requires e.RouterDrains? || e.RouterReturns? || e.Reload? || e.DropPool?
    ensures Conserved(PoolNext(p, e))
  {
    hide Conserved, Apply, Can, Frees, IsOpen;
    SameRequestsConserved(p, PoolNext(p, e));
  }

  /** All the slots tried so far come before the next one in routing order. */
  lemma TriedBefore(p: Pool)
    requires Shape(p) && p.router.Routing? && p.router.attempt < p.count
    ensures AttemptFor(p.ring, Target(p)) == p.router.attempt
    ensures forall i | 0 <= i < p.count && i != Target(p) :: AttemptFor(p.ring, i) != p.router.attempt
  {
    ChosenIsAt(p.ring, p.router.attempt);
  }

  lemma GiveUpKeeps(p: Pool)
    requires PoolInv(p) && p.router.Routing? && p.router.attempt >= p.count
    ensures PoolInv(Try(p))
  {
    hide SlotInv, SlotsKept, Balanced, Sum;
    var l, l' := LedgerOf(p), LedgerOf(Try(p));
    SameSlotsKept(p, Try(p));
    assert l.pending == l'.pending + multiset{p.router.req.id};
    FreeBalances(l, l', NOTHING.(discarded := multiset{p.router.req.id}));
  }

  function WithMark(r: Ring, c: nat): Ring
    requires c < |r.dead|
  {
    if r.dead[c] then r else r.(dead := r.dead[c := true])
  }

  lemma SkipKeepsRoutes(p: Pool, p': Pool)
    requires Shape(p) && RoutesKept(p) && p.router.Routing? && p.router.attempt < p.count
    requires p.ring.dead[Target(p)] || !IsOpen(p.slots[Target(p)])
    requires p' == p.(ring := WithMark(p.ring, Target(p)), router := Routing(p.router.req, p.router.attempt + 1))
    ensures Shape(p') && RoutesKept(p')
  {
    TriedBefore(p);
    assert forall i | 0 <= i < p.count :: AttemptFor(p'.ring, i) == AttemptFor(p.ring, i);
  }

  lemma SkipKeeps(p: Pool)
    requires PoolInv(p) && p.router.Routing? && p.router.attempt < p.count
    requires p.ring.dead[Target(p)] || !IsOpen(p.slots[Target(p)])
    ensures PoolInv(Try(p))
  {
    hide SlotInv, SlotsKept, RoutesKept, Balanced, Sum, Ids;
    var p' := p.(ring := WithMark(p.ring, Target(p)), router := Routing(p.router.req, p.router.attempt + 1));
    assert Try(p) == p';
    SkipKeepsRoutes(p, p');
    SameSlotsKept(p, p');
    assert LedgerOf(p') == LedgerOf(p);
  }

  function HandedOver(p: Pool, c: nat, req: Request): Pool
    requires c < |p.slots|
  {
    p.(ring := p.ring.(next := c + 1), router := Waiting, slots := p.slots[c := Pushed(p.slots[c], req)])
  }

  lemma DeliverConserves(p: Pool, c: nat, req: Request)
    requires Conserved(p) && c < |p.slots| && p.router.Routing? && p.router.req == req
    ensures req.id !in p.begun && req.id !in Ids(p.slots[c].inbox) && Conserved(HandedOver(p, c, req))
  {
    hide SlotInv, Sum, Ids;
    var s, s' := p.slots[c], Pushed(p.slots[c], req);
    var x, sum, sum' := multiset{req.id}, Sum(InboxIds(p.slots)), Sum(InboxIds(p.slots[c := s']));
    SlotIdsUpdate(p.slots, c, s');
    IdsAppend(s.inbox, req);
    Cancels(sum, sum', Ids(s.inbox), x);
    PendingNotBegun(LedgerOf(p), req.id);
    Shift(Ids(p.enqueuing), Ids(p.queue), multiset{}, sum, x);
    assert LedgerOf(HandedOver(p, c, req)).pending == LedgerOf(p).pending;
    assert LedgerOf(HandedOver(p, c, req)).executing == LedgerOf(p).executing;
  }

  lemma DeliverKeeps(p: Pool)
    requires PoolInv(p) && p.router.Routing? && p.router.attempt < p.count
    requires !p.ring.dead[Target(p)] && IsOpen(p.slots[Target(p)])
    ensures PoolInv(Try(p))
  {
    hide SlotInv, LedgerOf, Balanced;
    var c, req := Target(p), p.router.req;
    var p' := HandedOver(p, c, req);
    assert Try(p) == p';
    DeliverConserves(p, c, req);
    PushKeepsInv(p.slots[c], req, Around(p));
    ReplacedSlotKept(p, p', c, Pushed(p.slots[c], req));
  }

  /** Replacing one slot by one that took nothing new, or only requests never begun. */
  lemma ReplacedSlotKept(p: Pool, p': Pool, c: nat, s: Slot)
    requires SlotsKept(p) && c < |p.slots| && p'.slots == p.slots[c := s]
    requires p.begun <= p'.begun && p'.maxJobs == p.maxJobs && p'.generation == p.generation
    requires SlotInv(s, Around(p)) && p.slots[c].taken <= s.taken <= p'.begun
    requires s.taken - p.slots[c].taken !! p.begun
    ensures SlotsKept(p')
  {
    hide SlotInv;
    forall i | 0 <= i < |p'.slots| ensures SlotInv(p'.slots[i], Around(p')) && p'.slots[i].taken <= p'.begun {
      AmbientMoves(p'.slots[i], Around(p), Around(p'));
    }
    forall i, j | 0 <= i < j < |p'.slots| ensures p'.slots[i].taken !! p'.slots[j].taken {
      assert p.slots[i].taken !! p.slots[j].taken;
    }
  }

  lemma TryKeeps(p: Pool)
    requires PoolInv(p) && p.router.Routing?
    ensures PoolInv(Try(p))
  {
    hide Conserved, SlotsKept, RoutesKept, Try;
    if p.router.attempt >= p.count {
      GiveUpKeeps(p);
    } else if p.ring.dead[Target(p)] || !IsOpen(p.slots[Target(p)]) {
      SkipKeeps(p);
    } else {
      DeliverKeeps(p);
    }
  }

  /** What a slot holds before a move, it holds after it or has freed. */
  lemma CarriedInbox(s: Slot, m: Move, s': Slot)
    requires Carries(s, m, s')
    ensures m != Takes ==> Ids(s.inbox) == Ids(s'.inbox) + Frees(s, m).discarded
    ensures m == Takes ==> Ids(s.inbox) == multiset{s.inbox[0].id} + Ids(s'.inbox)
  {
    hide Ids, Executing, Holder;
    assert Ids([]) == multiset{} by {
      NoIds();
    }
    if m == Takes {
      IdsHead(s.inbox);
    }
  }

  lemma NoIds()
    ensures Ids([]) == multiset{}
  {
  }

  lemma CarriedRequest(s: Slot, m: Move, s': Slot)
    requires Carries(s, m, s')
    ensures m != Takes ==> Executing(s) == Executing(s') + (Frees(s, m).finished + Frees(s, m).crashed)
    ensures m == Takes ==> Executing(s) == multiset{} && Executing(s') == multiset{s.inbox[0].id}
  {
    hide Ids;
  }

  lemma SlotLedger(p: Pool, i: nat, s: Slot, f: Freed, began: set<nat>)
    requires i < |p.slots|
    ensures var l, l' := LedgerOf(p), LedgerOf(WithSlot(p, i, s, f, began));
            && l'.pending + Ids(p.slots[i].inbox) == l.pending + Ids(s.inbox)
            && l'.executing + Executing(p.slots[i]) == l.executing + Executing(s)
  {
    hide Sum, Ids, SlotInv, Executing;
    SlotIdsUpdate(p.slots, i, s);
    AddLeft(Ids(p.enqueuing) + Ids(p.queue) + Routed(p.router), Sum(InboxIds(p.slots[i := s])), Ids(p.slots[i].inbox),
            Sum(InboxIds(p.slots)), Ids(s.inbox));
  }

  lemma ReplaceConserves(p: Pool, i: nat, s: Slot, f: Freed)
    requires Conserved(p) && i < |p.slots|
    requires Ids(p.slots[i].inbox) == Ids(s.inbox) + f.discarded
    requires Executing(p.slots[i]) == Executing(s) + (f.finished + f.crashed)
    ensures Conserved(WithSlot(p, i, s, f, {}))
  {
    hide Sum, Ids, SlotInv;
    var l, l' := LedgerOf(p), LedgerOf(WithSlot(p, i, s, f, {}));
    SlotLedger(p, i, s, f, {});
    Cancels(l'.pending, l.pending, Ids(s.inbox), f.discarded);
    Cancels(l'.executing, l.executing, Executing(s), f.finished + f.crashed);
    FreeBalances(l, l', f);
  }

  lemma BeginConserves(p: Pool, i: nat, s: Slot, r: nat)
    requires Conserved(p) && i < |p.slots|
    requires Ids(p.slots[i].inbox) == multiset{r} + Ids(s.inbox)
    requires Executing(p.slots[i]) == multiset{} && Executing(s) == multiset{r}
    ensures r !in p.begun && Conserved(WithSlot(p, i, s, NOTHING, {r}))
  {
    hide Sum, Ids, SlotInv;
    var l, l' := LedgerOf(p), LedgerOf(WithSlot(p, i, s, NOTHING, {r}));
    SlotLedger(p, i, s, NOTHING, {r});
    assert Ids(p.slots[i].inbox) == Ids(s.inbox) + multiset{r};
    Cancels(l'.pending, l.pending, Ids(s.inbox), multiset{r});
    assert l'.executing == l.executing + multiset{r};
    BeginBalances(l, r, l'.pending);
  }

  lemma SlotMoveConserves(p: Pool, i: nat, m: Move, s': Slot)
    requires PoolInv(p) && i < p.count && Carries(p.slots[i], m, s')
    ensures var s := p.slots[i];
            var began := if m == Takes then {s.inbox[0].id} else {};
            Conserved(WithSlot(p, i, s', Frees(s, m), began)) && began !! p.begun
  {
    hide SlotsKept, RoutesKept, Conserved, Carries, WithSlot, SlotInv;
    var s := p.slots[i];
    CarriedInbox(s, m, s');
    CarriedRequest(s, m, s');
    if m == Takes {
      BeginConserves(p, i, s', s.inbox[0].id);
    } else {
      ReplaceConserves(p, i, s', Frees(s, m));
    }
  }

  lemma MoveKeepsRoutes(p: Pool, i: nat, s: Slot, f: Freed, began: set<nat>)
    requires Shape(p) && RoutesKept(p) && i < p.count && IsOpen(p.slots[i])
    ensures RoutesKept(WithSlot(p, i, s, f, began))
  {
  }

  lemma SlotMoveKeeps(p: Pool, i: nat, m: Move)
    requires PoolInv(p) && Enabled(p, SlotMoves(i, m))
    ensures PoolInv(SlotNext(p, i, m))
  {
    hide Apply, Can, Carries, SlotInv;
    var s := p.slots[i];
    var s' := Apply(s, m, Around(p));
    MoveCarries(s, m, Around(p));
    MoveKeepsInv(s, m, Around(p));
    MovedSlotKept(p, i, m, s');
  }

  lemma MovedSlotKept(p: Pool, i: nat, m: Move, s': Slot)
    requires PoolInv(p) && i < p.count && Carries(p.slots[i], m, s') && SlotInv(s', Around(p))
    ensures var s := p.slots[i];
            PoolInv(WithSlot(p, i, s', Frees(s, m), if m == Takes then {s.inbox[0].id} else {}))
  {
    hide Conserved, SlotInv, Frees, RoutesKept;
    var s := p.slots[i];
    var began := if m == Takes then {s.inbox[0].id} else {};
    SlotMoveConserves(p, i, m, s');
    MoveKeepsRoutes(p, i, s', Frees(s, m), began);
    ReplacedSlotKept(p, WithSlot(p, i, s', Frees(s, m), began), i, s');
  }

  lemma PoolStepKeepsInv(p: Pool, e: PoolEvent)
    requires PoolInv(p) && Enabled(p, e)
    ensures PoolInv(PoolNext(p, e))
  {
    hide PoolInv, Apply, Can, Frees;
    match e
    case RouterTries => TryKeeps(p);
    case SlotMoves(i, m) => SlotMoveKeeps(p, i, m);
    case Acquire(_) => CallerKeeps(p, e);
    case Cancel(_) => CallerKeeps(p, e);
    case Enqueue(_) => CallerKeeps(p, e);
    case RouterTakes => CallerKeeps(p, e);
    case _ => SignalKeeps(p, e);
  }

  // ---- Runs ----

  /** The pool after a sequence of events, if each could happen in turn. */
  function PoolRun(count: nat, maxJobs: nat, events: seq<PoolEvent>): (r: Option<Pool>)
    ensures r.Some? ==> Shape(r.value)
  {
    if events == [] then Some(Start(count, maxJobs))
    else match PoolRun(count, maxJobs, events[..|events| - 1])
      case None => None
      case Some(p) =>
        if Enabled(p, events[|events| - 1]) then
          StepKeepsShape(p, events[|events| - 1]);
          Some(PoolNext(p, events[|events| - 1]))
        else None
  }

  lemma StepKeepsShape(p: Pool, e: PoolEvent)
    requires Shape(p) && Enabled(p, e)
    ensures Shape(PoolNext(p, e)) && PoolNext(p, e).count == p.count && PoolNext(p, e).maxJobs == p.maxJobs
  {
    hide Apply, Can, Frees, SlotInv;
  }

  lemma {:induction false} RunKeepsPoolInv(count: nat, maxJobs: nat, events: seq<PoolEvent>)
    requires PoolRun(count, maxJobs, events).Some?
    ensures PoolInv(PoolRun(count, maxJobs, events).value)
  {
    if events == [] {
      StartInv(count, maxJobs);
    } else {
      RunKeepsPoolInv(count, maxJobs, events[..|events| - 1]);
      PoolStepKeepsInv(PoolRun(count, maxJobs, events[..|events| - 1]).value, events[|events| - 1]);
    }
  }

}
