/**
 * The game-link component: a table of links to other games keyed by their
 * game id, the transfer of an actor's saved state to a linked game (recorded
 * on the chain and broadcast), and the spawning of a received object under the
 * class its link maps it to.
 *
 * Engine reflection is abstract: an actor is its class path and the text of its
 * SaveGame properties, the class lookup and the spawn are outcomes passed in.
 */
module GameLink {
  import opened Wrappers
  import opened Json

  /** The path name of a UClass. */
  type ClassPath = string

  /** FGameLinkConfig. Soft class pointers are their class paths. */
  datatype GameLinkConfig = GameLinkConfig(
    targetGameId: string,
    targetGameEndpoint: string,
    allowDirectObjectTransfer: bool,
    classMappings: map<ClassPath, ClassPath>,
    linkMetadata: map<string, string>)

  /** A default-constructed FGameLinkConfig: direct transfer is allowed. */
  const DefaultConfig := GameLinkConfig("", "", true, map[], map[])

  /** FTransferredObjectData. */
  datatype TransferredObjectData = TransferredObjectData(
    objectId: string,
    sourcePlayerId: string,
    targetPlayerId: string,
    sourceGameId: string,
    objectClass: ClassPath,
    objectData: map<string, string>,
    isValid: bool)

  /** A default-constructed FTransferredObjectData: not valid. */
  const BlankTransfer := TransferredObjectData("", "", "", "", "", map[], false)

  /** An actor as SerializeActor sees it: its class and the exported text of its SaveGame properties. */
  datatype Actor = Actor(classPath: ClassPath, saveGameProperties: map<string, string>)

  /** The delegates the component broadcasts. */
  datatype LinkEvent =
    | GameLinkEstablished(targetGameId: string)
    | ObjectTransferred(objectId: string, targetPlayerId: string, success: bool)
    | ObjectReceived(actorClass: ClassPath, sourceId: string)

  /**
   * The components the owning actor carries besides this one: whether it has a
   * chain component, and the global id of its player component if it has one.
   */
  datatype Owner = Owner(hasChainComponent: bool, playerId: Option<string>)

  /**
   * The state the component changes: the link table, the transfer records
   * handed to the chain component's RecordTransaction, and the broadcasts.
   */
  datatype LinkState = LinkState(links: map<string, GameLinkConfig>, records: seq<JsonObject>, events: seq<LinkEvent>)

  const Initial := LinkState(map[], [], [])

  /** No link is keyed by the empty game id. */
  predicate NoEmptyKey(st: LinkState) {
    "" !in st.links
  }

  /**
   * RegisterGameLink: an empty target id is refused; otherwise the link is
   * stored under its id, replacing any earlier one, and announced.
   */
  function Register(st: LinkState, config: GameLinkConfig): (r: (bool, LinkState))
    ensures r.0 <==> config.targetGameId != []
    ensures !r.0 ==> r.1 == st
    ensures r.0 ==> r.1.links == st.links[config.targetGameId := config] && r.1.records == st.records
                    && r.1.events == st.events + [GameLinkEstablished(config.targetGameId)]
    ensures NoEmptyKey(st) ==> NoEmptyKey(r.1)
  {
    if config.targetGameId == [] then (false, st)
    else (true, st.(links := st.links[config.targetGameId := config],
                    events := st.events + [GameLinkEstablished(config.targetGameId)]))
  }

  /** IsGameLinked. */
  predicate Linked(st: LinkState, gameId: string) {
    gameId in st.links
  }

  /** GetGameLinkConfig: the stored link when there is one; otherwise the out-parameter is left as it was. */
  function LookupConfig(st: LinkState, gameId: string, outConfig: GameLinkConfig): (r: (bool, GameLinkConfig))
    ensures r.0 <==> Linked(st, gameId)
    ensures r.0 ==> r.1 == st.links[gameId]
    ensures !r.0 ==> r.1 == outConfig
  {
    if gameId in st.links then (true, st.links[gameId]) else (false, outConfig)
  }

  /**
   * FindMappedClass: nothing without a link for the game; the class the link
   * maps the source class to; otherwise the source class itself.
   */
  function FindMappedClass(st: LinkState, sourceClass: ClassPath, gameId: string): (r: Option<ClassPath>)
    ensures r.None? <==> !Linked(st, gameId)
    ensures r.Some? && sourceClass !in st.links[gameId].classMappings ==> r.value == sourceClass
    ensures r.Some? && sourceClass in st.links[gameId].classMappings ==> r.value == st.links[gameId].classMappings[sourceClass]
  {
    if gameId !in st.links then None
    else
      var mappings := st.links[gameId].classMappings;
      if sourceClass in mappings then Some(mappings[sourceClass]) else Some(sourceClass)
  }

  /** The JSON record of one transfer, as RecordTransferOnChain builds it; `now` is the clock in Unix seconds. */
  function TransferRecord(sourceGameId: string, targetGameId: string, objectId: string,
                          sourcePlayerId: string, targetPlayerId: string, now: int): JsonObject
  {
    map["type" := JString("game_object_transfer"),
        "source_game" := JString(sourceGameId),
        "target_game" := JString(targetGameId),
        "object_id" := JString(objectId),
        "source_player" := JString(sourcePlayerId),
        "target_player" := JString(targetPlayerId),
        "timestamp" := JNumber(now as real)]
  }

  /**
   * RecordTransferOnChain: the record goes to the chain component when the
   * owner has one; the transfer is announced as successful either way.
   */
  function RecordOnChain(owner: Owner, st: LinkState, sourceGameId: string, targetGameId: string, objectId: string,
                         sourcePlayerId: string, targetPlayerId: string, now: int): (r: LinkState)
    ensures r.links == st.links
    ensures r.events == st.events + [ObjectTransferred(objectId, targetPlayerId, true)]
    ensures |r.records| == |st.records| + (if owner.hasChainComponent then 1 else 0)
    ensures r.records[..|st.records|] == st.records
    ensures owner.hasChainComponent ==>
              r.records[|st.records|] == TransferRecord(sourceGameId, targetGameId, objectId, sourcePlayerId, targetPlayerId, now)
  {
    var record := TransferRecord(sourceGameId, targetGameId, objectId, sourcePlayerId, targetPlayerId, now);
    st.(records := st.records + (if owner.hasChainComponent then [record] else []),
        events := st.events + [ObjectTransferred(objectId, targetPlayerId, true)])
  }

  /** The target game is linked and its link allows direct transfer. */
  predicate TransferAllowed(st: LinkState, targetGameId: string) {
    targetGameId in st.links && st.links[targetGameId].allowDirectObjectTransfer
  }

  /**
   * TransferObjectData: refused, with nothing recorded or broadcast, unless the
   * target is linked and allows direct transfer; otherwise the transfer is
   * recorded and announced, and then announced once more.
   */
  function TransferData(owner: Owner, st: LinkState, data: TransferredObjectData, targetGameId: string, now: int)
    : (r: (bool, LinkState))
    ensures r.0 <==> TransferAllowed(st, targetGameId)
    ensures !r.0 ==> r.1 == st
    ensures r.0 ==> r.1.links == st.links
                    && r.1.events == st.events + [ObjectTransferred(data.objectId, data.targetPlayerId, true),
                                                  ObjectTransferred(data.objectId, data.targetPlayerId, true)]
  {
    if !TransferAllowed(st, targetGameId) then (false, st)
    else
      var recorded := RecordOnChain(owner, st, data.sourceGameId, targetGameId, data.objectId,
                                    data.sourcePlayerId, data.targetPlayerId, now);
      (true, recorded.(events := recorded.events + [ObjectTransferred(data.objectId, data.targetPlayerId, true)]))
  }

  /**
   * SerializeActor for a present actor: a fresh object id, the actor's class
   * and its SaveGame properties; the source game id is never filled in.
   */
  function SerializeActor(actor: Actor, freshId: string): (d: TransferredObjectData)
    ensures d.isValid && d.sourceGameId == [] && d.sourcePlayerId == [] && d.targetPlayerId == []
    ensures d.objectId == freshId && d.objectClass == actor.classPath && d.objectData == actor.saveGameProperties
  {
    BlankTransfer.(objectId := freshId, objectClass := actor.classPath, objectData := actor.saveGameProperties,
                   isValid := true)
  }

  /**
   * TransferGameObject: refused without an actor, a link to the target, a
   * player component or permission for direct transfer; otherwise the actor is
   * serialized, addressed from the owner's player to the target player, recorded
   * on the chain, and handed to TransferObjectData, which records it again.
   * `freshId` is the new GUID, `now1` and `now2` the clock at the two records.
   */
  function TransferObject(owner: Owner, st: LinkState, actor: Option<Actor>, targetGameId: string,
                          targetPlayerId: string, freshId: string, now1: int, now2: int): (r: (bool, LinkState))
  {
    if actor.None? || targetGameId !in st.links then (false, st)
    else if owner.playerId.None? then (false, st)
    else if !st.links[targetGameId].allowDirectObjectTransfer then (false, st)
    else
      var data := SerializeActor(actor.value, freshId).(sourcePlayerId := owner.playerId.value,
                                                         targetPlayerId := targetPlayerId);
      var recorded := RecordOnChain(owner, st, data.sourceGameId, targetGameId, data.objectId,
                                    data.sourcePlayerId, data.targetPlayerId, now1);
      TransferData(owner, recorded, data, targetGameId, now2)
  }

  /**
   * SpawnReceivedObject: nothing for invalid data, when the engine does not
   * find the data's class (`found` is FindObject's answer for it), for a source
   * game without a link, or when the world does not spawn the actor
   * (`spawned`); otherwise an actor of the class the data's class maps to,
   * announced with the data's source game id.
   */
  function Spawn(st: LinkState, data: TransferredObjectData, found: bool, spawned: bool)
    : (r: (Option<ClassPath>, LinkState))
    ensures r.0.Some? <==> data.isValid && found && Linked(st, data.sourceGameId) && spawned
    ensures r.0.None? ==> r.1 == st
    ensures r.0.Some? ==> Some(r.0.value) == FindMappedClass(st, data.objectClass, data.sourceGameId)
                          && r.1 == st.(events := st.events + [ObjectReceived(r.0.value, data.sourceGameId)])
  {
    if !data.isValid || !found then (None, st)
    else
      match FindMappedClass(st, data.objectClass, data.sourceGameId)
      case None => (None, st)
      case Some(target) =>
        if !spawned then (None, st)
        else (Some(target), st.(events := st.events + [ObjectReceived(target, data.sourceGameId)]))
  }

  /** After registering a link, the game is linked, its config is returned, and its class mappings are used. */
  lemma RegisterThenLookup(st: LinkState, config: GameLinkConfig, outConfig: GameLinkConfig, sourceClass: ClassPath)
    requires config.targetGameId != []
    ensures var after := Register(st, config).1;
            && Linked(after, config.targetGameId)
            && LookupConfig(after, config.targetGameId, outConfig) == (true, config)
            && FindMappedClass(after, sourceClass, config.targetGameId)
               == Some(if sourceClass in config.classMappings then config.classMappings[sourceClass] else sourceClass)
  {
  }

  /** Registering a link leaves every other game's link, and its absence, as it was. */
  lemma RegisterKeepsOthers(st: LinkState, config: GameLinkConfig, gameId: string, outConfig: GameLinkConfig)
    requires gameId != config.targetGameId
    ensures var after := Register(st, config).1;
            && (Linked(after, gameId) <==> Linked(st, gameId))
            && LookupConfig(after, gameId, outConfig) == LookupConfig(st, gameId, outConfig)
  {
  }

  /** A refused transfer records and broadcasts nothing; a permitted one is recorded once more when the owner has a chain component. */
  lemma TransferDataRecords(owner: Owner, st: LinkState, data: TransferredObjectData, targetGameId: string, now: int)
    requires TransferAllowed(st, targetGameId)
    ensures var r := TransferData(owner, st, data, targetGameId, now).1;
            r.records == st.records + if owner.hasChainComponent
                                      then [TransferRecord(data.sourceGameId, targetGameId, data.objectId,
                                                           data.sourcePlayerId, data.targetPlayerId, now)]
                                      else []
  {
  }

  /**
   * A successful TransferGameObject records the transfer twice, both times with
   * an empty source game, and announces it three times as a success.
   */
  lemma TransferGameObjectTwiceRecorded(owner: Owner, st: LinkState, actor: Option<Actor>, targetGameId: string,
                                        targetPlayerId: string, freshId: string, now1: int, now2: int)
    ensures var (ok, r) := TransferObject(owner, st, actor, targetGameId, targetPlayerId, freshId, now1, now2);
            && (ok <==> actor.Some? && owner.playerId.Some? && TransferAllowed(st, targetGameId))
            && (!ok ==> r == st)
            && (ok ==> var announce := ObjectTransferred(freshId, targetPlayerId, true);
                       && r.links == st.links
                       && r.events == st.events + [announce, announce, announce]
                       && r.records == st.records
                          + if owner.hasChainComponent
                            then [TransferRecord("", targetGameId, freshId, owner.playerId.value, targetPlayerId, now1),
                                  TransferRecord("", targetGameId, freshId, owner.playerId.value, targetPlayerId, now2)]
                            else [])
  {
    var (ok, r) := TransferObject(owner, st, actor, targetGameId, targetPlayerId, freshId, now1, now2);
    if ok {
      var data := SerializeActor(actor.value, freshId).(sourcePlayerId := owner.playerId.value,
                                                         targetPlayerId := targetPlayerId);
      var recorded := RecordOnChain(owner, st, data.sourceGameId, targetGameId, data.objectId,
                                    data.sourcePlayerId, data.targetPlayerId, now1);
      TransferDataRecords(owner, recorded, data, targetGameId, now2);
    }
  }

  /** The record carries the transfer's fields under the names the chain expects. */
  lemma TransferRecordReadsBack(sourceGameId: string, targetGameId: string, objectId: string,
                                sourcePlayerId: string, targetPlayerId: string, now: int, c: Coercion)
    ensures var record := TransferRecord(sourceGameId, targetGameId, objectId, sourcePlayerId, targetPlayerId, now);
            && GetStringField(record, "type", c) == "game_object_transfer"
            && GetStringField(record, "source_game", c) == sourceGameId
            && GetStringField(record, "target_game", c) == targetGameId
            && GetStringField(record, "object_id", c) == objectId
            && GetStringField(record, "source_player", c) == sourcePlayerId
            && GetStringField(record, "target_player", c) == targetPlayerId
            && GetNumberField(record, "timestamp", c) == now as real
  {
    var record := TransferRecord(sourceGameId, targetGameId, objectId, sourcePlayerId, targetPlayerId, now);
    assert record["source_game"] == JString(sourceGameId);
    assert record["target_game"] == JString(targetGameId);
    assert record["object_id"] == JString(objectId);
    assert record["source_player"] == JString(sourcePlayerId);
  }

  /**
   * Data that TransferGameObject serialized never spawns: its source game id is
   * empty, and RegisterGameLink never stores a link under the empty id.
   */
  lemma TransferredObjectNeverSpawns(st: LinkState, actor: Actor, freshId: string, sourcePlayerId: string,
                                     targetPlayerId: string, found: bool, spawned: bool)
    requires NoEmptyKey(st)
    ensures var data := SerializeActor(actor, freshId).(sourcePlayerId := sourcePlayerId, targetPlayerId := targetPlayerId);
            Spawn(st, data, found, spawned) == (None, st)
  {
  }

  /** Every sequence of registrations keeps the empty id out of the link table. */
  function RegisterAll(st: LinkState, configs: seq<GameLinkConfig>): LinkState
    decreases |configs|
  {
    if |configs| == 0 then st else RegisterAll(Register(st, configs[0]).1, configs[1..])
  }

  lemma {:induction false} RegisterAllNoEmptyKey(st: LinkState, configs: seq<GameLinkConfig>)
    requires NoEmptyKey(st)
    ensures NoEmptyKey(RegisterAll(st, configs))
    ensures forall config :: config in configs && config.targetGameId != [] ==> Linked(RegisterAll(st, configs), config.targetGameId)
    decreases |configs|
  {
    if |configs| > 0 {
      var next := Register(st, configs[0]).1;
      RegisterAllNoEmptyKey(next, configs[1..]);
      RegisterAllKeepsLinked(next, configs[1..]);
    }
  }

  /** Registration never removes a link. */
  lemma {:induction false} RegisterAllKeepsLinked(st: LinkState, configs: seq<GameLinkConfig>)
    ensures forall gameId :: Linked(st, gameId) ==> Linked(RegisterAll(st, configs), gameId)
    decreases |configs|
  {
    if |configs| > 0 {
      RegisterAllKeepsLinked(Register(st, configs[0]).1, configs[1..]);
    }
  }

  /** UInterverseGameLinkComponent, with the owner's other components. */
  class GameLinkComponent {
    const owner: Owner
    var gameLinks: map<string, GameLinkConfig>
    /** The serialized transfer records handed to the owner's chain component. */
    var records: seq<JsonObject>
    /** The delegates broadcast, in order. */
    var events: seq<LinkEvent>

    function State(): LinkState
      reads this
    {
      LinkState(gameLinks, records, events)
    }

    /** The component keeps the empty game id out of its table. */
    predicate Valid()
      reads this
    {
      NoEmptyKey(State())
    }

    constructor (owner: Owner)
      ensures this.owner == owner && State() == Initial && Valid()
    {
      this.owner := owner;
      gameLinks := map[];
      records := [];
      events := [];
    }

    method RegisterGameLink(config: GameLinkConfig) returns (ok: bool)
      requires Valid()
      modifies this
      ensures (ok, State()) == Register(old(State()), config) && Valid()
    {
      if config.targetGameId == [] {
        return false;
      }
      gameLinks := gameLinks[config.targetGameId := config];
      events := events + [GameLinkEstablished(config.targetGameId)];
      return true;
    }

    /** RecordTransferOnChain; `now` is the clock. */
    method RecordTransferOnChain(sourceGameId: string, targetGameId: string, objectId: string,
                                 sourcePlayerId: string, targetPlayerId: string, now: int)
      modifies this
      ensures State() == RecordOnChain(owner, old(State()), sourceGameId, targetGameId, objectId,
                                       sourcePlayerId, targetPlayerId, now)
    {
      var record := TransferRecord(sourceGameId, targetGameId, objectId, sourcePlayerId, targetPlayerId, now);
      if owner.hasChainComponent {
        records := records + [record];
      }
      events := events + [ObjectTransferred(objectId, targetPlayerId, true)];
    }

    method TransferObjectData(data: TransferredObjectData, targetGameId: string, now: int) returns (ok: bool)
      modifies this
      ensures (ok, State()) == TransferData(owner, old(State()), data, targetGameId, now)
    {
      if targetGameId !in gameLinks {
        return false;
      }
      if !gameLinks[targetGameId].allowDirectObjectTransfer {
        return false;
      }
      RecordTransferOnChain(data.sourceGameId, targetGameId, data.objectId, data.sourcePlayerId, data.targetPlayerId, now);
      events := events + [ObjectTransferred(data.objectId, data.targetPlayerId, true)];
      return true;
    }

    /** TransferGameObject; `freshId` is the GUID SerializeActor draws, `now1` and `now2` the clock at each record. */
    method TransferGameObject(actor: Option<Actor>, targetGameId: string, targetPlayerId: string,
                              freshId: string, now1: int, now2: int) returns (ok: bool)
      modifies this
      ensures (ok, State()) == TransferObject(owner, old(State()), actor, targetGameId, targetPlayerId, freshId, now1, now2)
    {
      if actor.None? || targetGameId !in gameLinks {
        return false;
      }
      if owner.playerId.None? {
        return false;
      }
      if !gameLinks[targetGameId].allowDirectObjectTransfer {
        return false;
      }
      var data := SerializeActor(actor.value, freshId);
      data := data.(sourcePlayerId := owner.playerId.value, targetPlayerId := targetPlayerId);
      RecordTransferOnChain(data.sourceGameId, targetGameId, data.objectId, data.sourcePlayerId, data.targetPlayerId, now1);
      ok := TransferObjectData(data, targetGameId, now2);
    }

    /** SpawnReceivedObject; `found` is FindObject's answer for the data's class, `spawned` whether the world spawns the actor. */
    method SpawnReceivedObject(data: TransferredObjectData, found: bool, spawned: bool)
      returns (actorClass: Option<ClassPath>)
      modifies this
      ensures (actorClass, State()) == Spawn(old(State()), data, found, spawned)
    {
      if !data.isValid || !found {
        return None;
      }
      var target := FindMappedClass(State(), data.objectClass, data.sourceGameId);
      if target.None? || !spawned {
        return None;
      }
      events := events + [ObjectReceived(target.value, data.sourceGameId)];
      return target;
    }

    function IsGameLinked(gameId: string): (b: bool)
      reads this
      ensures b <==> LookupConfig(State(), gameId, DefaultConfig).0
    {
      Linked(State(), gameId)
    }

    function GetGameLinkConfig(gameId: string, outConfig: GameLinkConfig): (bool, GameLinkConfig)
      reads this
    {
      LookupConfig(State(), gameId, outConfig)
    }

    /** GetLinkedGames: every linked game id once, in the table's own order. */
    method GetLinkedGames() returns (games: seq<string>)
      ensures |games| == |gameLinks|
      ensures forall g :: g in games <==> g in gameLinks
      ensures forall i, j :: 0 <= i < j < |games| ==> games[i] != games[j]
    {
      games := [];
      var pending := gameLinks.Keys;
      assert |pending| == |gameLinks|;
      while pending != {}
        invariant pending <= gameLinks.Keys
        invariant forall g :: g in games ==> g in gameLinks && g !in pending
        invariant forall g :: g in gameLinks ==> g in games || g in pending
        invariant |games| + |pending| == |gameLinks|
        invariant forall i, j :: 0 <= i < j < |games| ==> games[i] != games[j]
        decreases |pending|
      {
        var g :| g in pending;
        assert g !in games;
        games := games + [g];
        pending := pending - {g};
      }
    }
  }
}
