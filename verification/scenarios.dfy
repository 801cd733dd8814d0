/**
 * Clients of the hologram that show, from the contracts alone, how a session
 * behaves over its lifetime.
 */
module Scenarios {
  import opened Wrappers
  import opened UsageLines
  import opened Layout
  import opened Host
  import opened Hologram

  /** Every click by the owner on a stand is answered while the listener is
      registered, not just the first; a stranger's click is not. */
  method RepeatedClicks(h: UsageHologram, stand: Uuid, stranger: Uuid)
    requires h.listenerActive && stand in h.standIds && stranger != h.owner
    modifies h.world`chat
    ensures h.world.chat == old(h.world.chat) + [PrefillTip(h.owner, h.prompt), PrefillTip(h.owner, h.prompt)]
  {
    var click := new InteractAtEntityEvent(h.owner, stand);
    h.Dispatch(click);
    assert click.cancelled;
    var again := new InteractAtEntityEvent(h.owner, stand);
    h.Dispatch(again);
    assert again.cancelled;
    var other := new InteractAtEntityEvent(stranger, stand);
    h.Dispatch(other);
    assert !other.cancelled;
  }

  /** Cleanup run twice has the effect of one run: no stand is left alive,
      a click in between is ignored, and the second run removes nothing. */
  method CleanupSilences(h: UsageHologram, stand: Uuid)
    requires h.Valid() && stand in h.standIds
    modifies h.world`entities, h.world`removeCalls, h`listenerActive, h`cleanupPending, h.world`chat
    ensures stand in h.world.entities && h.world.entities[stand].dead && !h.listenerActive
    ensures h.world.entities == CleanupPass(old(h.world.entities), h.spawned).entities
    ensures h.world.removeCalls == old(h.world.removeCalls) + LiveStands(old(h.world.entities), h.spawned)
    ensures h.world.chat == old(h.world.chat)
  {
    h.Cleanup();
    var late := new InteractAtEntityEvent(h.owner, stand);
    h.Dispatch(late);
    assert !late.cancelled;
    var entitiesBefore := h.world.entities;
    h.Cleanup();
    CleanupOfDead(entitiesBefore, h.spawned);
    NoLiveStands(entitiesBefore, h.spawned);
  }

  /** The usages ["Use /x <arg>", ""] give four stands; two clicks give two tips. */
  method ClicksUntilCleanup() returns (stands: nat, tips: nat)
    ensures stands == 4 && tips == 2
  {
    var world := new World();
    var viewer := Player(7, Vec3(0.0, 0.0, 0.0), Vec3(0.0, 0.0, 1.0));
    var h := GetUsageHologram(world, Some(viewer), Some("/x "), Some([Some("Use /x <arg>"), Some("")]));
    var hologram := h.value;
    ExampleUsage();
    stands := |hologram.standIds|;
    var first := hologram.spawned[0];
    assert first in hologram.standIds;
    RepeatedClicks(hologram, first, 8);
    CleanupSilences(hologram, first);
    tips := |world.chat|;
  }

  /** Two players' holograms: one player's click on their own stand is
      answered by their hologram only. */
  method TwoViewers() returns (tipsA: nat, tipsB: nat)
    ensures tipsA == 1 && tipsB == 0
  {
    var world := new World();
    var a := Player(1, Vec3(0.0, 0.0, 0.0), Vec3(1.0, 0.0, 0.0));
    var b := Player(2, Vec3(5.0, 0.0, 0.0), Vec3(-1.0, 0.0, 0.0));
    var ha := GetUsageHologram(world, Some(a), Some("/a "), None);
    var hb := GetUsageHologram(world, Some(b), Some("/b "), None);
    FixedLinesOnly(None);
    var standA := ha.value.spawned[0];
    assert standA in ha.value.standIds;
    assert standA !in hb.value.standIds;
    var click := new InteractAtEntityEvent(1, standA);
    var before := |world.chat|;
    hb.value.Dispatch(click);
    tipsB := |world.chat| - before;
    ha.value.Dispatch(click);
    tipsA := |world.chat| - before - tipsB;
  }

  /** A null player: no hologram, the world is untouched. */
  method NullPlayer() returns (h: Option<UsageHologram>)
    ensures h.None?
  {
    var world := new World();
    h := GetUsageHologram(world, None, None, None);
  }
}
