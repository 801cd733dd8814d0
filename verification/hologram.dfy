/**
 * A usage hologram shown to one player: one armor stand per line, a listener
 * that answers the owner's right-clicks on those stands with a clickable
 * command suggestion, and a cleanup task that removes the stands and the
 * listener after the hologram's lifetime.
 */
module Hologram {
  import opened Wrappers
  import opened UsageLines
  import opened Layout
  import opened Host

  /** Lifetime of a hologram, in seconds. */
  const DefaultLifetimeSeconds: nat := 10
  /** Server ticks per second; the scheduler counts in ticks. */
  const TicksPerSecond: nat := 20
  /** Delay after which the cleanup task runs. */
  const CleanupDelayTicks: nat := DefaultLifetimeSeconds * TicksPerSecond

  /** The stand that displays one line at one position. */
  function LineStand(text: string, loc: Vec3): ArmorStand
  {
    ArmorStand(text, loc, HologramStandAttributes)
  }

  /** The chat message a matching click produces: its click action suggests
      exactly the command prefix, and its text shows that prefix too. */
  function PrefillTip(owner: Uuid, prompt: Option<string>): (m: ChatMessage)
    ensures m.recipient == owner && m.suggestCommand == prompt
    ensures |m.text| >= |JavaText(prompt)| && m.text[|m.text| - |JavaText(prompt)|..] == JavaText(prompt)
    ensures prompt.Some? ==> m.text[|m.text| - |prompt.value|..] == prompt.value
  {
    ChatMessage(owner, Yellow + "Click to prefill: " + White + JavaText(prompt), prompt)
  }

  /** What Java's string concatenation appends for a possibly null string:
      the string itself, or the four letters "null". */
  function JavaText(s: Option<string>): string
  {
    if s.Some? then s.value else "null"
  }

  /** The listener's filter: the click comes from the owner and hits one of the stands. */
  predicate Targets(owner: Uuid, standIds: set<Uuid>, actor: Uuid, target: Uuid)
  {
    actor == owner && target in standIds
  }

  /** A click by anyone else than the owner never matches, whatever it hits. */
  lemma OthersIgnored(owner: Uuid, standIds: set<Uuid>, actor: Uuid, target: Uuid)
    requires actor != owner
    ensures !Targets(owner, standIds, actor, target)
  {
  }

  /** Two holograms with disjoint stands never both match the same click. */
  lemma NoCrossTrigger(ownerA: Uuid, idsA: set<Uuid>, ownerB: Uuid, idsB: set<Uuid>, actor: Uuid, target: Uuid)
    requires idsA !! idsB
    ensures !(Targets(ownerA, idsA, actor, target) && Targets(ownerB, idsB, actor, target))
  {
  }

  predicate Distinct(s: seq<Uuid>)
  {
    forall i, j :: 0 <= i < j < |s| ==> s[i] != s[j]
  }

  /** The ids occurring in a sequence. */
  function IdSet(s: seq<Uuid>): set<Uuid>
  {
    set id | id in s
  }

  /** A sequence of distinct ids has as many elements as its set of ids. */
  lemma {:induction false} DistinctCardinality(s: seq<Uuid>)
    requires Distinct(s)
    ensures |IdSet(s)| == |s|
  {
    if s != [] {
      var init := s[..|s| - 1];
      var last := s[|s| - 1];
      DistinctCardinality(init);
      assert s == init + [last];
      assert IdSet(s) == IdSet(init) + {last};
    }
  }

  /** What the cleanup loop leaves behind: the world after the pass and the
      stands it removed, in order. */
  datatype Teardown = Teardown(entities: map<Uuid, Entity>, removed: seq<Uuid>)

  /** The cleanup loop over the spawned stands, in order: a stand that is
      present and not dead is removed, any other is skipped. Afterwards every
      spawned stand is dead, nothing else changed, and only spawned stands
      were removed. */
  function CleanupPass(entities: map<Uuid, Entity>, spawned: seq<Uuid>): (t: Teardown)
    ensures t.entities.Keys == entities.Keys
    ensures forall id :: id in entities ==>
      t.entities[id] == entities[id].(dead := entities[id].dead || id in spawned)
    ensures forall id :: id in t.removed ==> id in spawned
  {
    if spawned == [] then Teardown(entities, [])
    else
      var t := CleanupPass(entities, spawned[..|spawned| - 1]);
      var id := spawned[|spawned| - 1];
      if id in t.entities && !t.entities[id].dead then
        Teardown(t.entities[id := t.entities[id].(dead := true)], t.removed + [id])
      else
        t
  }

  /** The spawned stands that are present and alive, in spawn order. */
  function LiveStands(entities: map<Uuid, Entity>, spawned: seq<Uuid>): (live: seq<Uuid>)
    ensures |live| <= |spawned|
  {
    if spawned == [] then []
    else
      var id := spawned[|spawned| - 1];
      LiveStands(entities, spawned[..|spawned| - 1])
        + (if id in entities && !entities[id].dead then [id] else [])
  }

  /** With distinct ids the pass removes exactly the stands that were alive
      before it started: those already dead are skipped. */
  lemma {:induction false} CleanupRemovesLive(entities: map<Uuid, Entity>, spawned: seq<Uuid>)
    requires Distinct(spawned)
    ensures CleanupPass(entities, spawned).removed == LiveStands(entities, spawned)
  {
    if spawned != [] {
      var init := spawned[..|spawned| - 1];
      var id := spawned[|spawned| - 1];
      CleanupRemovesLive(entities, init);
      assert id !in init;
    }
  }

  /** On a world where every spawned stand is already dead, the pass removes
      nothing and changes nothing. */
  lemma {:induction false} CleanupOfDead(entities: map<Uuid, Entity>, spawned: seq<Uuid>)
    requires forall id :: id in spawned && id in entities ==> entities[id].dead
    ensures CleanupPass(entities, spawned) == Teardown(entities, [])
  {
    if spawned != [] {
      CleanupOfDead(entities, spawned[..|spawned| - 1]);
    }
  }

  /** Running cleanup a second time changes nothing, and leaves no spawned stand alive. */
  lemma CleanupIdempotent(entities: map<Uuid, Entity>, spawned: seq<Uuid>)
    ensures var after := CleanupPass(entities, spawned).entities;
      && CleanupPass(after, spawned) == Teardown(after, [])
      && LiveStands(after, spawned) == []
  {
    var after := CleanupPass(entities, spawned).entities;
    CleanupOfDead(after, spawned);
    NoLiveStands(after, spawned);
  }

  lemma {:induction false} NoLiveStands(entities: map<Uuid, Entity>, spawned: seq<Uuid>)
    requires forall id :: id in spawned && id in entities ==> entities[id].dead
    ensures LiveStands(entities, spawned) == []
  {
    if spawned != [] {
      NoLiveStands(entities, spawned[..|spawned| - 1]);
    }
  }

  class UsageHologram {
    const world: World
    /** The player the hologram was built for. */
    const owner: Uuid
    /** The command prefix a click suggests. */
    const prompt: Option<string>
    const lines: seq<string>
    const base: Vec3
    /** Delay of the scheduled cleanup task, in ticks. */
    const cleanupDelay: nat
    /** The stands, in line order. */
    var spawned: seq<Uuid>
    var standIds: set<Uuid>
    /** The listener is registered with the event bus. */
    var listenerActive: bool
    /** The cleanup task is scheduled and has not run yet. */
    var cleanupPending: bool

    /** One stand per line, distinct ids, standIds the ids of spawned, and
        stand i carrying line i at its position. */
    ghost predicate Valid()
      reads this, world
    {
      && |spawned| == |lines|
      && Distinct(spawned)
      && standIds == IdSet(spawned)
      && forall i :: 0 <= i < |spawned| ==>
           spawned[i] in world.entities
           && world.entities[spawned[i]].stand == LineStand(lines[i], LineLocation(base, i))
    }

    /** Spawns the stands, registers the listener and schedules the cleanup. */
    constructor (world: World, owner: Uuid, prompt: Option<string>, lines: seq<string>, base: Vec3)
      requires world.Valid()
      modifies world`entities, world`nextId
      ensures Valid() && world.Valid()
      ensures this.world == world && this.owner == owner && this.prompt == prompt
      ensures this.lines == lines && this.base == base
      ensures |standIds| == |lines|
      ensures forall id :: id in standIds ==> id !in old(world.entities) && !world.entities[id].dead
      ensures world.entities.Keys == old(world.entities).Keys + standIds
      ensures forall id :: id in old(world.entities) ==> world.entities[id] == old(world.entities)[id]
      ensures listenerActive && cleanupPending && cleanupDelay == CleanupDelayTicks
    {
      this.world := world;
      this.owner := owner;
      this.prompt := prompt;
      this.lines := lines;
      this.base := base;
      cleanupDelay := CleanupDelayTicks;
      spawned := [];
      standIds := {};
      listenerActive := false;
      cleanupPending := false;
      new;
      SpawnStands();
      DistinctCardinality(spawned);
      listenerActive := true;
      cleanupPending := true;
    }

    /** The spawn loop: one fresh, living stand per line, in line order,
        leaving every other entity as it was. */
    method SpawnStands()
      requires world.Valid() && spawned == [] && standIds == {}
      modifies this`spawned, this`standIds, world`entities, world`nextId
      ensures Valid() && world.Valid()
      ensures forall id :: id in standIds ==> id !in old(world.entities) && !world.entities[id].dead
      ensures world.entities.Keys == old(world.entities).Keys + standIds
      ensures forall id :: id in old(world.entities) ==> world.entities[id] == old(world.entities)[id]
    {
      for i := 0 to |lines|
        invariant world.Valid()
        invariant |spawned| == i && Distinct(spawned)
        invariant standIds == IdSet(spawned)
        invariant world.entities.Keys == old(world.entities).Keys + standIds
        invariant forall k :: 0 <= k < i ==>
          spawned[k] !in old(world.entities)
          && world.entities[spawned[k]] == Entity(LineStand(lines[k], LineLocation(base, k)), false)
        invariant forall id :: id in old(world.entities) ==> world.entities[id] == old(world.entities)[id]
      {
        var text := lines[i];
        var id := world.Spawn(LineStand(text, LineLocation(base, i)));
        spawned := spawned + [id];
        standIds := standIds + {id};
      }
    }

    /** The event bus hands the event to the listener (it is registered and,
        with ignoreCancelled, the event is not cancelled) and the listener's
        filter matches. */
    predicate Handles(e: InteractAtEntityEvent)
      reads this, e
    {
      listenerActive && !e.cancelled && Targets(owner, standIds, e.player, e.rightClicked)
    }

    /** The listener's handler: a click by the owner on one of the stands is
        cancelled and answered with the prefill tip; any other is left alone. */
    method OnInteract(e: InteractAtEntityEvent)
      modifies e, world`chat
      ensures var hit := Targets(owner, standIds, e.player, e.rightClicked);
        && e.cancelled == (old(e.cancelled) || hit)
        && world.chat == old(world.chat) + (if hit then [PrefillTip(owner, prompt)] else [])
    {
      if e.player != owner {
        return;
      }
      if e.rightClicked !in standIds {
        return;
      }
      e.cancelled := true;
      world.SendMessage(PrefillTip(owner, prompt));
    }

    /** Delivery of one event through the bus: only a registered listener
        sees it, and only when it is not already cancelled. */
    method Dispatch(e: InteractAtEntityEvent)
      modifies e, world`chat
      ensures e.cancelled == (old(e.cancelled) || old(Handles(e)))
      ensures world.chat == old(world.chat) + (if old(Handles(e)) then [PrefillTip(owner, prompt)] else [])
    {
      if listenerActive && !e.cancelled {
        OnInteract(e);
      }
    }

    /** The scheduled cleanup: removes each spawned stand that is present and
        not dead, skipping the rest, then unregisters the listener. */
    method Cleanup()
      requires Valid()
      modifies world`entities, world`removeCalls, this`listenerActive, this`cleanupPending
      ensures Valid()
      ensures world.entities == CleanupPass(old(world.entities), spawned).entities
      ensures world.removeCalls == old(world.removeCalls) + LiveStands(old(world.entities), spawned)
      ensures forall id :: id in standIds ==> world.entities[id].dead
      ensures !listenerActive && !cleanupPending
    {
      for i := 0 to |spawned|
        invariant world.entities == CleanupPass(old(world.entities), spawned[..i]).entities
        invariant world.removeCalls == old(world.removeCalls) + CleanupPass(old(world.entities), spawned[..i]).removed
      {
        var id := spawned[i];
        assert spawned[..i + 1][..i] == spawned[..i];
        if id in world.entities && !world.entities[id].dead {
          world.Remove(id);
        }
      }
      assert spawned[..|spawned|] == spawned;
      CleanupRemovesLive(old(world.entities), spawned);
      listenerActive := false;
      cleanupPending := false;
    }
  }

  /** Shows a usage hologram to a player. A null player does nothing. */
  method GetUsageHologram(world: World, player: Option<Player>, prompt: Option<string>,
                          usages: Option<seq<Option<string>>>)
    returns (h: Option<UsageHologram>)
    requires world.Valid()
    modifies world`entities, world`nextId
    ensures player.None? ==> h.None? && world.entities == old(world.entities) && world.nextId == old(world.nextId)
    ensures player.Some? ==>
      && h.Some? && fresh(h.value) && h.value.Valid() && world.Valid()
      && h.value.world == world && h.value.owner == player.value.id && h.value.prompt == prompt
      && h.value.lines == ComposedLines(usages)
      && h.value.base == Base(player.value.eye, player.value.facing)
      && |h.value.standIds| == |ComposedLines(usages)|
      && (forall id :: id in h.value.standIds ==> id !in old(world.entities) && !world.entities[id].dead)
      && world.entities.Keys == old(world.entities).Keys + h.value.standIds
      && (forall id :: id in old(world.entities) ==>
            id in world.entities && world.entities[id] == old(world.entities)[id])
      && h.value.listenerActive && h.value.cleanupPending && h.value.cleanupDelay == CleanupDelayTicks
  {
    if player.None? {
      return None;
    }
    var lines := ComposeLines(usages);
    var base := Base(player.value.eye, player.value.facing);
    var hologram := new UsageHologram(world, player.value.id, prompt, lines, base);
    h := Some(hologram);
  }
}
