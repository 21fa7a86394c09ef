/**
 * Spawning workers from many supervisors at once: the shared id counter, the one pre-connected
 * channel of the main PHP thread, and the gap between looking for the channel and taking it.
 */
module Spawning {

  import opened Wrappers

  /** The counter is an unsigned 32-bit number that wraps. */
  const ID_SPACE := 0x1_0000_0000

  /** The id the `ticket`-th increment of the counter hands out; the counter starts at one. */
  function IdOf(ticket: nat): nat {
    (1 + ticket) % ID_SPACE
  }

  /** The bridge state of the main thread is set up as worker 1, whatever id its handle gets. */
  const MAIN_BRIDGE_ID := 1

  /** How far one supervisor's `spawn` has got. */
  datatype Progress = Outside | Checked(sawChannel: bool) | Ticketed(ticket: nat, viaChannel: bool)

  datatype Handle = Handle(ticket: nat, preconnected: bool)

  function BridgeId(h: Handle): nat {
    if h.preconnected then MAIN_BRIDGE_ID else IdOf(h.ticket)
  }

  datatype World = World(count: nat, channels: nat, fetched: nat, spawns: seq<Progress>, handles: seq<Handle>)

  function Begin(count: nat): World {
    World(count, 1, 0, seq(count, _ => Outside), [])
  }

  datatype SpawnStep = Look(i: nat) | Advance(i: nat) | Conclude(i: nat) | Fail(i: nat)

  predicate May(w: World, e: SpawnStep) {
    match e
    case Look(i) => i < |w.spawns| && w.spawns[i].Outside?
    case Advance(i) => i < |w.spawns| && w.spawns[i].Checked?
    case Conclude(i) => i < |w.spawns| && w.spawns[i].Ticketed?
    case Fail(i) => i < |w.spawns| && w.spawns[i].Ticketed? && !w.spawns[i].viaChannel
  }

  /**
   * Each step is one atomic access to what the supervisors share: looking at the channel list,
   * incrementing the counter, popping the list. A pop that finds the list empty fails the spawn.
   */
  function Proceed(w: World, e: SpawnStep): World
    requires May(w, e)
  {
    match e
    case Look(i) => w.(spawns := w.spawns[i := Checked(w.channels > 0)])
    case Advance(i) =>
      if w.spawns[i].sawChannel || w.count > 1 then
        w.(fetched := w.fetched + 1, spawns := w.spawns[i := Ticketed(w.fetched, w.spawns[i].sawChannel)])
      else w.(spawns := w.spawns[i := Outside])
    case Conclude(i) =>
      var Ticketed(ticket, viaChannel) := w.spawns[i];
      var out := w.(spawns := w.spawns[i := Outside]);
      if !viaChannel then out.(handles := w.handles + [Handle(ticket, false)])
      else if w.channels > 0 then out.(channels := w.channels - 1, handles := w.handles + [Handle(ticket, true)])
      else out
    case Fail(i) => w.(spawns := w.spawns[i := Outside])
  }

  function Mains(handles: seq<Handle>): nat {
    if handles == [] then 0
    else Mains(handles[..|handles| - 1]) + if handles[|handles| - 1].preconnected then 1 else 0
  }

  predicate TicketsDiffer(w: World) {
    && (forall i | 0 <= i < |w.handles| :: w.handles[i].ticket < w.fetched)
    && (forall i | 0 <= i < |w.spawns| :: w.spawns[i].Ticketed? ==> w.spawns[i].ticket < w.fetched)
    && (forall i, j | 0 <= i < j < |w.handles| :: w.handles[i].ticket != w.handles[j].ticket)
    && (forall i, j | 0 <= i < j < |w.spawns| && w.spawns[i].Ticketed? && w.spawns[j].Ticketed? ::
          w.spawns[i].ticket != w.spawns[j].ticket)
    && (forall i, j | 0 <= i < |w.handles| && 0 <= j < |w.spawns| && w.spawns[j].Ticketed? ::
          w.handles[i].ticket != w.spawns[j].ticket)
  }

  /** Nobody goes past an empty list before the ticket of whoever emptied it. */
  predicate ChannelKept(w: World) {
    && Mains(w.handles) + w.channels == 1
    && (w.channels == 0 ==> w.fetched >= 1)
    && (forall i | 0 <= i < |w.spawns| :: w.spawns[i] == Checked(false) ==> w.channels == 0)
    && (forall i | 0 <= i < |w.spawns| :: w.spawns[i].Ticketed? && !w.spawns[i].viaChannel ==> w.spawns[i].ticket >= 1)
    && (forall i | 0 <= i < |w.handles| :: !w.handles[i].preconnected ==> w.handles[i].ticket >= 1)
  }

  predicate SpawnInv(w: World) {
    TicketsDiffer(w) && ChannelKept(w)
  }

  lemma MainsAppend(handles: seq<Handle>, h: Handle)
    ensures Mains(handles + [h]) == Mains(handles) + if h.preconnected then 1 else 0
  {
    assert (handles + [h])[..|handles|] == handles;
  }

  lemma NoTicketKeeps(w: World, i: nat, s: Progress)
    requires TicketsDiffer(w) && i < |w.spawns| && !s.Ticketed?
    ensures TicketsDiffer(w.(spawns := w.spawns[i := s]))
  {
  }

  lemma NewTicketKeeps(w: World, i: nat, viaChannel: bool)
    requires TicketsDiffer(w) && i < |w.spawns|
    ensures TicketsDiffer(w.(fetched := w.fetched + 1, spawns := w.spawns[i := Ticketed(w.fetched, viaChannel)]))
  {
  }

  lemma NewHandleKeeps(w: World, i: nat, h: Handle)
    requires TicketsDiffer(w) && i < |w.spawns| && w.spawns[i].Ticketed? && h.ticket == w.spawns[i].ticket
    ensures TicketsDiffer(w.(spawns := w.spawns[i := Outside], handles := w.handles + [h]))
  {
  }

  lemma TicketsOnly(w: World, w': World)
    requires TicketsDiffer(w) && w'.handles == w.handles && w'.spawns == w.spawns && w'.fetched == w.fetched
    ensures TicketsDiffer(w')
  {
  }

  lemma StepKeepsTickets(w: World, e: SpawnStep)
    requires TicketsDiffer(w) && May(w, e)
    ensures TicketsDiffer(Proceed(w, e))
  {
    hide TicketsDiffer;
    match e
    case Look(i) => NoTicketKeeps(w, i, Checked(w.channels > 0));
    case Fail(i) => NoTicketKeeps(w, i, Outside);
    case Advance(i) =>
      NoTicketKeeps(w, i, Outside);
      NewTicketKeeps(w, i, w.spawns[i].sawChannel);
    case Conclude(i) =>
      var h := Handle(w.spawns[i].ticket, w.spawns[i].viaChannel);
      NoTicketKeeps(w, i, Outside);
      NewHandleKeeps(w, i, h);
      if Proceed(w, e).handles == w.handles + [h] {
        TicketsOnly(w.(spawns := w.spawns[i := Outside], handles := w.handles + [h]), Proceed(w, e));
      }
  }

  lemma ConcludeKeepsChannel(w: World, i: nat)
    requires ChannelKept(w) && May(w, Conclude(i)) && w.fetched >= 1
    ensures ChannelKept(Proceed(w, Conclude(i)))
  {
    hide Mains;
    MainsAppend(w.handles, Handle(w.spawns[i].ticket, w.spawns[i].viaChannel));
  }

  lemma StepKeepsChannel(w: World, e: SpawnStep)
    requires SpawnInv(w) && May(w, e)
    ensures ChannelKept(Proceed(w, e))
  {
    hide Mains;
    if e.Conclude? {
      ConcludeKeepsChannel(w, e.i);
    }
  }

  function Spawns(count: nat, steps: seq<SpawnStep>): Option<World> {
    if steps == [] then Some(Begin(count))
    else match Spawns(count, steps[..|steps| - 1])
      case Some(w) => if May(w, steps[|steps| - 1]) then Some(Proceed(w, steps[|steps| - 1])) else None
      case None => None
  }

  lemma {:induction false} SpawnsKeepInv(count: nat, steps: seq<SpawnStep>)
    requires Spawns(count, steps).Some?
    ensures SpawnInv(Spawns(count, steps).value)
  {
    if steps != [] {
      SpawnsKeepInv(count, steps[..|steps| - 1]);
      StepKeepsTickets(Spawns(count, steps[..|steps| - 1]).value, steps[|steps| - 1]);
      StepKeepsChannel(Spawns(count, steps[..|steps| - 1]).value, steps[|steps| - 1]);
    }
  }

  lemma {:induction false} TwoMains(handles: seq<Handle>, i: nat, j: nat)
    requires i < j < |handles| && handles[i].preconnected && handles[j].preconnected
    ensures Mains(handles) >= 2
  {
    var init := handles[..|handles| - 1];
    if j < |init| {
      TwoMains(init, i, j);
    } else {
      OneMain(init, i);
    }
  }

  lemma {:induction false} OneMain(handles: seq<Handle>, i: nat)
    requires i < |handles| && handles[i].preconnected
    ensures Mains(handles) >= 1
  {
    var init := handles[..|handles| - 1];
    if i < |init| {
      OneMain(init, i);
    }
  }

  lemma IdsApart(a: nat, b: nat)
    requires a < b < ID_SPACE
    ensures IdOf(a) != IdOf(b)
  {
    assert IdOf(a) == a + 1;
    assert b + 1 < ID_SPACE ==> IdOf(b) == b + 1;
  }

  /**
   * However the spawns interleave: the pre-connected channel is handed out at most once, and until
   * the counter has wrapped all handles have different ids.
   */
  lemma HandlesApart(count: nat, steps: seq<SpawnStep>, i: nat, j: nat)
    requires Spawns(count, steps).Some?
    requires i < j < |Spawns(count, steps).value.handles|
    ensures var w := Spawns(count, steps).value;
            && !(w.handles[i].preconnected && w.handles[j].preconnected)
            && (w.fetched <= 0x1_0000_0000 ==> IdOf(w.handles[i].ticket) != IdOf(w.handles[j].ticket))
  {
    SpawnsKeepInv(count, steps);
    var w := Spawns(count, steps).value;
    if w.handles[i].preconnected && w.handles[j].preconnected {
      TwoMains(w.handles, i, j);
    }
    if w.fetched <= 0x1_0000_0000 {
      var a, b := w.handles[i].ticket, w.handles[j].ticket;
      IdsApart(if a < b then a else b, if a < b then b else a);
    }
  }

  /**
   * The join at the end of a dispatch loop is reached by the main thread, and by a spawned thread
   * exactly when its ticket is a multiple of the whole id space: so by none before the counter wraps.
   */
  lemma JoinsOnlyOnMain(count: nat, steps: seq<SpawnStep>, i: nat)
    requires Spawns(count, steps).Some?
    requires i < |Spawns(count, steps).value.handles|
    ensures var w := Spawns(count, steps).value;
            var h := w.handles[i];
            && (BridgeId(h) == MAIN_BRIDGE_ID <==> h.preconnected || (h.ticket > 0xffff_ffff && h.ticket % 0x1_0000_0000 == 0))
            && (w.fetched <= 0x1_0000_0000 ==> (BridgeId(h) == MAIN_BRIDGE_ID <==> h.preconnected))
  {
    SpawnsKeepInv(count, steps);
    WrapsToOne(Spawns(count, steps).value.handles[i].ticket);
  }

  lemma WrapsToOne(t: nat)
    ensures IdOf(t) == 1 <==> t % ID_SPACE == 0
    ensures t >= 1 && t % ID_SPACE == 0 ==> t >= ID_SPACE
  {
    assert t == ID_SPACE * (t / ID_SPACE) + t % ID_SPACE;
  }

  /**
   * A spawn nobody interferes with takes the main thread's channel if it is there; otherwise it starts
   * a thread of its own, if more than one worker is configured, and fails without a ticket if not.
   */
  lemma UndisturbedSpawn(w: World, i: nat)
    requires i < |w.spawns| && w.spawns[i].Outside?
    ensures May(w, Look(i)) && May(Proceed(w, Look(i)), Advance(i))
    ensures var ticketed := Proceed(Proceed(w, Look(i)), Advance(i));
            if w.channels == 0 && w.count <= 1 then ticketed == w
            else
              && May(ticketed, Conclude(i))
              && var w' := Proceed(ticketed, Conclude(i));
                 && w'.spawns == w.spawns && w'.fetched == w.fetched + 1
                 && w'.handles == w.handles + [Handle(w.fetched, w.channels > 0)]
                 && w'.channels == if w.channels > 0 then w.channels - 1 else 0
  {
  }

  // ---- The id of the main thread's handle ----

  /** The main thread's handle, if it was handed out, has the id its bridge was set up with. */
  predicate MainIsOne(w: World) {
    forall i | 0 <= i < |w.handles| && w.handles[i].preconnected :: IdOf(w.handles[i].ticket) == MAIN_BRIDGE_ID
  }

  /** A lone supervisor's first ticket always goes with the channel, so then the ids agree. */
  lemma {:induction false} LoneSpawnIsOne(steps: seq<SpawnStep>)
    requires Spawns(1, steps).Some?
    ensures var w := Spawns(1, steps).value;
            && |w.spawns| == 1 && w.count == 1
            && (forall i | 0 <= i < |w.handles| :: w.handles[i] == Handle(0, true))
            && (w.channels == 1 ==> w.handles == [] && (w.fetched == 0 || w.spawns[0] == Ticketed(0, true)))
            && (w.channels == 1 && w.spawns[0].Checked? ==> w.spawns[0].sawChannel)
            && (w.channels == 0 ==> w.spawns[0] == Outside || w.spawns[0] == Checked(false))
            && w.channels <= 1
  {
    if steps != [] {
      LoneSpawnIsOne(steps[..|steps| - 1]);
    }
  }

  lemma Leads(count: nat, steps: seq<SpawnStep>, e: SpawnStep)
    requires Spawns(count, steps).Some? && May(Spawns(count, steps).value, e)
    ensures Spawns(count, steps + [e]) == Some(Proceed(Spawns(count, steps).value, e))
  {
    assert (steps + [e])[..|steps|] == steps;
  }

  /** Two supervisors that both see the channel: the one with the second ticket may pop it. */
  lemma MainHandleCanBeTwo(count: nat) returns (steps: seq<SpawnStep>)
    requires count >= 2
    ensures Spawns(count, steps).Some? && Spawns(count, steps).value.handles == [Handle(1, true)] && IdOf(1) == 2
  {
    hide Spawns;
    steps := [];
    assert Spawns(count, steps) == Some(Begin(count)) by {
      NoSteps(count);
    }
    Leads(count, steps, Look(0));
    steps := steps + [Look(0)];
    Leads(count, steps, Look(1));
    steps := steps + [Look(1)];
    Leads(count, steps, Advance(0));
    steps := steps + [Advance(0)];
    Leads(count, steps, Advance(1));
    steps := steps + [Advance(1)];
    Leads(count, steps, Conclude(1));
    steps := steps + [Conclude(1)];
  }

  lemma NoSteps(count: nat)
    ensures Spawns(count, []) == Some(Begin(count))
  {
  }

  lemma {:induction false} NobodySpawns(steps: seq<SpawnStep>)
    requires Spawns(0, steps).Some?
    ensures Spawns(0, steps).value == Begin(0)
  {
    if steps != [] {
      NobodySpawns(steps[..|steps| - 1]);
    }
  }

  /** In every run the main thread's handle gets the id of its bridge, exactly when there is one supervisor at most. */
  lemma MainIsOneIff(count: nat)
    ensures (forall steps | Spawns(count, steps).Some? :: MainIsOne(Spawns(count, steps).value)) <==> count <= 1
  {
    if count >= 2 {
      var steps := MainHandleCanBeTwo(count);
      assert Spawns(count, steps).value.handles[0] == Handle(1, true);
    } else {
      forall steps | Spawns(count, steps).Some? ensures MainIsOne(Spawns(count, steps).value) {
        if count == 1 {
          LoneSpawnIsOne(steps);
        } else {
          NobodySpawns(steps);
        }
      }
    }
  }

  /** The shared state of the runtime, one method for each atomic access a spawn makes to it. */
  class ExtensionRuntime {
    var nextWorkerId: nat
    var channels: nat
    ghost var world: World

    ghost predicate Valid()
      reads this
    {
      nextWorkerId == IdOf(world.fetched) && channels == world.channels
    }

    constructor (ghost count: nat)
      ensures Valid() && world == Begin(count)
    {
      nextWorkerId, channels := 1, 1;
      world := Begin(count);
    }

    method HasPreconnected(ghost i: nat) returns (yes: bool)
      requires Valid() && May(world, Look(i))
      modifies `world
      ensures Valid() && world == Proceed(old(world), Look(i)) && world.spawns[i] == Checked(yes)
    {
      yes := channels != 0;
      world := Proceed(world, Look(i));
    }

    method FetchAddId(ghost i: nat) returns (id: nat)
      requires Valid() && May(world, Advance(i)) && (world.spawns[i].sawChannel || world.count > 1)
      modifies `nextWorkerId, `world
      ensures Valid() && world == Proceed(old(world), Advance(i))
      ensures world.spawns[i].Ticketed? && id == IdOf(world.spawns[i].ticket)
    {
      id := nextWorkerId;
      nextWorkerId := if nextWorkerId + 1 == ID_SPACE then 0 else nextWorkerId + 1;
      world := Proceed(world, Advance(i));
    }

    method PopChannel(ghost i: nat) returns (taken: bool)
      requires Valid() && May(world, Conclude(i)) && world.spawns[i].viaChannel
      modifies `channels, `world
      ensures Valid() && world == Proceed(old(world), Conclude(i))
      ensures taken <==> world.handles == old(world).handles + [Handle(old(world).spawns[i].ticket, true)]
    {
      taken := channels != 0;
      if taken {
        channels := channels - 1;
      }
      world := Proceed(world, Conclude(i));
    }
  }

}
