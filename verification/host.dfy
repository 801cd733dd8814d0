/**
 * The part of the game server a usage hologram touches: a world of entities
 * addressed by unique id, the chat channel messages are sent to, and the
 * right-click-at-entity event. Everything else of the host is out of view.
 */
module Host {
  import opened Wrappers
  import opened Layout

  /** Unique ids of players and entities. */
  type Uuid = nat

  /** Attribute setters applied to each spawned armor stand. */
  datatype StandAttributes = StandAttributes(
    invisible: bool, marker: bool, small: bool, gravity: bool,
    collidable: bool, invulnerable: bool, customNameVisible: bool)

  /** Invisible, not a marker (so it keeps a hitbox), full size, no gravity,
      not collidable, invulnerable, name tag shown. */
  const HologramStandAttributes: StandAttributes :=
    StandAttributes(invisible := true, marker := false, small := false, gravity := false,
                    collidable := false, invulnerable := true, customNameVisible := true)

  datatype ArmorStand = ArmorStand(customName: string, location: Vec3, attributes: StandAttributes)

  /** An entity in the world; a removed entity stays known but is dead. */
  datatype Entity = Entity(stand: ArmorStand, dead: bool)

  /** A chat message with a click action that suggests (pre-fills) a command. */
  datatype ChatMessage = ChatMessage(recipient: Uuid, text: string, suggestCommand: Option<string>)

  /** A player as the hologram sees it: identity, eye position, and the unit
      vector the host's normalisation of the viewing direction gives. */
  datatype Player = Player(id: Uuid, eye: Vec3, facing: Vec3)

  class World {
    var entities: map<Uuid, Entity>
    /** Every id at or above nextId is unused. */
    var nextId: Uuid
    /** Messages sent to players, oldest first. */
    var chat: seq<ChatMessage>
    /** The ids passed to remove(), in call order. */
    ghost var removeCalls: seq<Uuid>

    ghost predicate Valid()
      reads this
    {
      forall id :: id in entities ==> id < nextId
    }

    constructor ()
      ensures Valid()
      ensures entities == map[] && chat == [] && removeCalls == []
    {
      entities := map[];
      nextId := 0;
      chat := [];
      removeCalls := [];
    }

    /** Spawns a living stand under an id no entity has had before. */
    method Spawn(stand: ArmorStand) returns (id: Uuid)
      requires Valid()
      modifies this`entities, this`nextId
      ensures Valid()
      ensures id !in old(entities)
      ensures entities == old(entities)[id := Entity(stand, false)]
    {
      id := nextId;
      entities := entities[id := Entity(stand, false)];
      nextId := nextId + 1;
    }

    /** Removes an entity: it is dead from now on. */
    method Remove(id: Uuid)
      requires id in entities
      modifies this`entities, this`removeCalls
      ensures entities == old(entities)[id := old(entities)[id].(dead := true)]
      ensures removeCalls == old(removeCalls) + [id]
    {
      entities := entities[id := entities[id].(dead := true)];
      removeCalls := removeCalls + [id];
    }

    method SendMessage(m: ChatMessage)
      modifies this`chat
      ensures chat == old(chat) + [m]
    {
      chat := chat + [m];
    }
  }

  /** A player right-clicking an entity; a listener may cancel it. */
  class InteractAtEntityEvent {
    const player: Uuid
    const rightClicked: Uuid
    var cancelled: bool

    constructor (player: Uuid, rightClicked: Uuid)
      ensures this.player == player && this.rightClicked == rightClicked && !cancelled
    {
      this.player := player;
      this.rightClicked := rightClicked;
      cancelled := false;
    }
  }
}
