/**
 * server/rooms/DungeonRoom.ts: the room that hosts one dungeon state, joins
 * and leaves heroes, dispatches their messages and resolves door travel.
 * Clients are their session ids; the database and the network are left
 * out, and what the room would write or send is returned instead.
 */
module DungeonRoomModel {
  import opened Common
  import opened Tiles
  import opened UnitRules
  import opened UnitModel
  import opened DungeonLayout
  import opened DungeonStateModel
  import Doors

  const TICK_RATE: int := 20
  const SIMULATION_INTERVAL: int := 1000 / TICK_RATE
  const MAX_CLIENTS: int := 8
  const DEFAULT_DISPOSE_TIMEOUT: int := 5
  const DEATH_DISPOSE_TIMEOUT: int := 60 * 2
  const LOBBY_SEED: string := "castleseed1"

  /** The hero document: its id, where it is, how deep it has been, and what a player is built from. */
  datatype Hero = Hero(id: Option<string>, currentRoom: string, currentProgress: int, latestProgress: int, data: HeroData)

  /** The room options this model reads; `progress` 0 and a missing one are both falsy. */
  datatype RoomOptions = RoomOptions(progress: Option<int>, isPVPAllowed: bool)

  /** The `$set` onJoin writes when the hero's current depth changes. */
  datatype ProgressUpdate = ProgressUpdate(currentProgress: int, latestProgress: Option<int>)

  /** A door's destiny as the state reports it: a depth or door code, and an optional room name. */
  datatype Destiny = Destiny(progress: int, room: Option<string>)

  /** The `goto` message sent to a client. */
  datatype Goto = Goto(client: string, progress: int, room: Option<string>, isCheckPoint: bool)

  /**
   * The update onLeave writes: the `$set` fields (the inventories' and the
   * equipment's slots serialised as their items) and, for a truthy
   * checkpoint, the `$addToSet` of `checkPoints`.
   */
  datatype SavedHero = SavedHero(lvl: int, attributes: Stats.Attributes, pointsToDistribute: int,
                                 gold: int, diamond: int, hp: real, mp: real, xp: real,
                                 quickInventory: seq<Stats.Item>, inventory: seq<Stats.Item>,
                                 equipedItems: seq<Stats.EquipSlot>,
                                 currentProgress: int, currentRoom: string,
                                 currentCoords: Option<Option<Point>>, addToCheckPoints: Option<int>)

  /** The messages onMessage tells apart; the player-side handlers (Player.ts) are not part of this model. */
  datatype Message =
    | MoveTo(destiny: Point)
    | DistributePoint | InventoryDrag | InventorySell | UseItem | Cast | DropItem
    | CheckPoint(progress: int)
    | Chat(text: string)
    | Unknown

  datatype Handling = Ignored | Moved(moved: bool) | Travelled | Chatted | PlayerHandles | NotHandled

  /** `options.progress || 1`. */
  function InitialProgress(options: RoomOptions): int
  {
    if options.progress.Some? && options.progress.value != 0 then options.progress.value else 1
  }

  /** onGoTo's destination: FORWARD and BACK step from the hero's current depth, LATEST is its deepest, anything else is a depth. */
  function ResolvedProgress(code: int, hero: Hero): int
  {
    if code == Doors.FORWARD then hero.currentProgress + 1
    else if code == Doors.BACK then hero.currentProgress - 1
    else if code == Doors.LATEST then hero.latestProgress
    else code
  }

  /** What onJoin writes back: nothing if the hero is already at this depth, else the depth, and the deepest when it grows. */
  function JoinUpdate(roomProgress: int, hero: Hero): Option<ProgressUpdate>
  {
    if roomProgress == hero.currentProgress then None
    else Some(ProgressUpdate(roomProgress, if roomProgress > hero.latestProgress then Some(roomProgress) else None))
  }

  /** onLeave's timeout: two minutes after a death here or in the lobby, else unchanged. */
  function DisposeTimeoutAfterLeave(current: int, hpCurrent: real, progress: int): int
  {
    if hpCurrent <= 0.0 || progress == 1 then DEATH_DISPOSE_TIMEOUT else current
  }

  class DungeonRoom {
    const roomName: string
    const maxClients: int
    var progress: int
    var seed: string
    var state: DungeonState?
    var players: map<string, Unit>
    var heroes: map<string, Hero>
    var clientMap: map<Unit, string>
    var disposeTimeout: int
    var simulationInterval: int
    var autoDisposeTimeout: Option<int>
    var outbox: seq<Goto>

    predicate Ready()
      reads this, state
    {
      state != null && state.Valid()
    }

    /** The field initialisers. */
    constructor (roomName: string)
      ensures this.roomName == roomName && maxClients == MAX_CLIENTS && disposeTimeout == DEFAULT_DISPOSE_TIMEOUT
      ensures state == null && players == map[] && heroes == map[] && clientMap == map[] && outbox == []
      ensures autoDisposeTimeout == None
    {
      this.roomName := roomName;
      maxClients := MAX_CLIENTS;
      progress := 0;
      seed := "";
      state := null;
      players := map[];
      heroes := map[];
      clientMap := map[];
      disposeTimeout := DEFAULT_DISPOSE_TIMEOUT;
      simulationInterval := 0;
      autoDisposeTimeout := None;
      outbox := [];
    }

    /**
     * onInit: the depth defaults to 1; the lobby uses a fixed seed and other
     * depths the season's (`seasonSeed`, read from the database, not part of
     * this model); PvP only below the lobby and when asked for; the
     * simulation runs every 50 ms. The state is built as DungeonState's
     * constructor expects: the call passes (progress, seed, roomName), so
     * the seed lands in `difficulty` (which nothing here reads, so 0 is
     * passed) and the room name in `daylight` (which the constructor
     * overwrites from the clock anyway).
     */
    method OnInit(options: RoomOptions, seasonSeed: string, serverMinutes: int, generated: seq<seq<Tile>>,
                  startPosition: Point, endPosition: Point)
      requires LayoutFor(InitialProgress(options)).width >= 0 && LayoutFor(InitialProgress(options)).height >= 0
      requires Covers(generated, LayoutFor(InitialProgress(options)).width, LayoutFor(InitialProgress(options)).height)
      modifies this
      ensures Ready() && fresh(state)
      ensures progress == InitialProgress(options) && state.progress == progress
      ensures seed == (if progress == 1 then LOBBY_SEED else seasonSeed)
      ensures state.isPVPAllowed <==> progress > 1 && options.isPVPAllowed
      ensures simulationInterval == SIMULATION_INTERVAL
      ensures players == map[] && heroes == map[] && clientMap == map[]
      ensures disposeTimeout == old(disposeTimeout) && outbox == old(outbox) && autoDisposeTimeout == old(autoDisposeTimeout)
    {
      var p := InitialProgress(options);
      var s := new DungeonState(p, 0, serverMinutes, generated, startPosition, endPosition);
      progress := p;
      players, heroes, clientMap := map[], map[], map[];
      seed := if p == 1 then LOBBY_SEED else seasonSeed;
      ghost var entities, order, players0, playerOrder := s.entities, s.order, s.players, s.playerOrder;
      if s.progress > 1 && options.isPVPAllowed {
        s.isPVPAllowed := true;
      }
      assert s.entities == entities && s.order == order && s.players == players0 && s.playerOrder == playerOrder;
      state := s;
      simulationInterval := 1000 / TICK_RATE;
    }

    /** requestJoin: a request naming a depth joins only the room of that depth. */
    function RequestJoin(optionsProgress: Option<int>): (success: bool)
      reads this
      ensures optionsProgress.None? || optionsProgress == Some(0) ==> success
      ensures success && optionsProgress.Some? && optionsProgress.value != 0 ==> optionsProgress.value == progress
    {
      if optionsProgress.Some? && optionsProgress.value != 0 then optionsProgress.value == progress else true
    }

    /**
     * onJoin: the player is created from the hero (the options passed as a
     * third argument are not a parameter of createPlayer), the client
     * mappings are recorded, and the hero is moved to this room and depth.
     * Returns the database update, if any; the hero kept in memory records
     * the new current depth but not the deepest one.
     */
    method OnJoin(client: string, hero: Hero, facing: Facing) returns (update: Option<ProgressUpdate>, player: Unit)
      requires Ready() && Stats.KnownModifiers(hero.data.equipedItems)
      modifies this, state
      ensures Ready() && state == old(state) && fresh(player)
      ensures player.id == client
      ensures players == old(players)[client := player] && clientMap == old(clientMap)[player := client]
      ensures heroes == old(heroes)[client := hero.(currentRoom := roomName, currentProgress := state.progress)]
      ensures update == JoinUpdate(state.progress, hero)
      ensures state.players == old(state.players)[client := player] && state.entities == old(state.entities)[client := UnitEntity(player)]
      ensures state.order == Appended(old(state.order), client) && state.playerOrder == Appended(old(state.playerOrder), client)
      ensures progress == old(progress) && disposeTimeout == old(disposeTimeout) && outbox == old(outbox)
      ensures autoDisposeTimeout == old(autoDisposeTimeout) && seed == old(seed) && simulationInterval == old(simulationInterval)
    {
      player := state.CreatePlayer(client, hero.data, hero.currentProgress, facing);
      players := players[client := player];
      clientMap := clientMap[player := client];
      var h := hero;
      if roomName != h.currentRoom {
        h := h.(currentRoom := roomName);
      }
      update := None;
      if state.progress != h.currentProgress {
        update := JoinUpdate(state.progress, h);
        h := h.(currentProgress := state.progress);
      }
      heroes := heroes[client := h];
    }

    /**
     * onGoTo: nothing for a unit without a hero (an NPC); otherwise send
     * `goto` with the resolved depth, the room only when it is truthy (given
     * and not empty), and the caller's parameters.
     */
    method OnGoTo(player: Unit, destiny: Destiny, isCheckPoint: bool)
      modifies this`outbox
      ensures player !in clientMap || clientMap[player] !in heroes ==> outbox == old(outbox)
      ensures player in clientMap && clientMap[player] in heroes ==>
        outbox == old(outbox) + [Goto(clientMap[player], ResolvedProgress(destiny.progress, heroes[clientMap[player]]),
                                      if destiny.room.Some? && destiny.room.value != "" then destiny.room else None, isCheckPoint)]
    {
      if player !in clientMap || clientMap[player] !in heroes {
        return;
      }
      var client := clientMap[player];
      var hero := heroes[client];
      var room := if destiny.room.Some? && destiny.room.value != "" then destiny.room else None;
      outbox := outbox + [Goto(client, ResolvedProgress(destiny.progress, hero), room, isCheckPoint)];
    }

    /** The player of `client`, as a frame: the one unit a message may move. */
    function PlayerOf(client: string): set<Unit>
      reads this
    {
      if client in players then {players[client]} else {}
    }

    /**
     * onMessage: ignored for an unknown or dead player. `move` clears the
     * target and moves with target changes allowed (`path`, `liveUnitAt`
     * and `anyAt` are what the path-finder and the grid utilities would
     * answer); `checkpoint` travels as a checkpoint; `msg` adds a small text
     * event (`textId` is the new entity's id); the inventory, point and
     * casting messages go to the player (Player.ts is not part of this model).
     */
    method OnMessage(client: string, message: Message, path: seq<Point>, liveUnitAt: Option<Entity>,
                     anyAt: Option<Entity>, textId: string) returns (handling: Handling)
      requires Ready()
      modifies this`outbox, state`entities, state`order, PlayerOf(client)`position, PlayerOf(client)`action
      ensures state == old(state) && Ready()
      ensures client !in players || !old(players[client].IsAlive()) ==>
        handling == Ignored && outbox == old(outbox) && state.entities == old(state.entities) && state.order == old(state.order)
      ensures client in players && old(players[client].IsAlive()) ==>
        match message
        case MoveTo(d) =>
          var p := players[client];
          var start := old(p.position).(target := None);
          outbox == old(outbox) && state.entities == old(state.entities) && state.order == old(state.order) &&
          handling == Moved(!IsOwnTileSwapped(d, start)) &&
          (IsOwnTileSwapped(d, start) ==> p.position == start && p.action == old(p.action)) &&
          (!IsOwnTileSwapped(d, start) ==>
            var chosen := ChosenTarget(liveUnitAt, anyAt);
            var t := if chosen.Some? then chosen.value.AsUnit() else null;
            p.position == start.(target := if chosen.Some? then Some(chosen.value.Id()) else None, pending := StepsOf(path)) &&
            (t == null || !t.IsAlive() ==> p.action == None) &&
            (t != null && t.IsAlive() && old(p.IsBattlingAgainst(t)) ==> p.action == old(p.action)) &&
            (t != null && t.IsAlive() && !old(p.IsBattlingAgainst(t)) ==> p.action == Some(Battle(p, t))))
        case CheckPoint(p) =>
          handling == Travelled && state.entities == old(state.entities) &&
          (players[client] in clientMap && clientMap[players[client]] in heroes ==>
            outbox == old(outbox) + [Goto(clientMap[players[client]], ResolvedProgress(p, heroes[clientMap[players[client]]]), None, true)])
        case Chat(text) =>
          handling == Chatted && outbox == old(outbox) &&
          state.entities == old(state.entities)[textId := TextEventEntity(textId, text, Point(old(players[client].position.x), old(players[client].position.y)), None, None, true)]
        case Unknown => handling == NotHandled && outbox == old(outbox) && state.entities == old(state.entities)
        case _ => handling == PlayerHandles && outbox == old(outbox) && state.entities == old(state.entities)
    {
      if client !in players {
        return Ignored;
      }
      var player := players[client];
      if !player.IsAlive() {
        return Ignored;
      }
      match message {
        case MoveTo(destiny) =>
          player.position := player.position.(target := None);
          var moved := state.Move(player, destiny, true, path, liveUnitAt, anyAt);
          handling := Moved(moved);
        case CheckPoint(p) =>
          OnGoTo(player, Destiny(p, None), true);
          handling := Travelled;
        case Chat(text) =>
          state.AddMessage(textId, player, text);
          handling := Chatted;
        case Unknown =>
          handling := NotHandled;
        case _ =>
          handling := PlayerHandles;
      }
    }

    /**
     * onLeave: nothing for a hero without an id; otherwise the dispose
     * timeout becomes two minutes after a death here or in the lobby, the
     * hero's progress is returned for saving (coordinates outside the lobby,
     * when `shouldSaveCoords`; it, `gold`, `diamond` and `checkPoint` are
     * Player.ts fields, 0 standing for a missing one), the client is forgotten
     * and the player leaves the state, and the room's auto-dispose is reset
     * to the timeout (the loot room's portal extension uses the clock and is
     * left out).
     */
    method OnLeave(client: string, shouldSaveCoords: bool, gold: int, diamond: int, checkPoint: int) returns (saved: Option<SavedHero>)
      requires Ready() && client in heroes && client in players
      modifies this`disposeTimeout, this`players, this`heroes, this`clientMap, this`autoDisposeTimeout
      modifies state`entities, state`order, state`players, state`playerOrder
      ensures state == old(state) && Ready()
      ensures old(heroes[client]).id.None? ==>
        (saved == None && disposeTimeout == old(disposeTimeout) && autoDisposeTimeout == old(autoDisposeTimeout) &&
         players == old(players) && heroes == old(heroes) && clientMap == old(clientMap) &&
         state.players == old(state.players) && state.entities == old(state.entities) &&
         state.order == old(state.order) && state.playerOrder == old(state.playerOrder))
      ensures old(heroes[client]).id.Some? ==>
        var player := old(players[client]);
        var hero := old(heroes[client]);
        disposeTimeout == DisposeTimeoutAfterLeave(old(disposeTimeout), player.hp.current, progress) &&
        autoDisposeTimeout == Some(disposeTimeout) &&
        saved == Some(SavedHero(player.lvl, player.attributes, player.pointsToDistribute, gold, diamond,
          player.hp.current, player.mp.current, player.xp.current,
          player.quickInventory.items, player.inventory.items, player.equipedItems,
          hero.currentProgress, hero.currentRoom,
          if state.progress != 1 then Some(if shouldSaveCoords then Some(Point(player.position.x, player.position.y)) else None) else None,
          if checkPoint != 0 then Some(checkPoint) else None)) &&
        players == old(players) - {client} && heroes == old(heroes) - {client} && clientMap == old(clientMap) - {player} &&
        state.players == old(state.players) - {player.id} && state.entities == old(state.entities) - {player.id} &&
        state.order == Without(old(state.order), {player.id}) && state.playerOrder == Without(old(state.playerOrder), {player.id})
      ensures progress == old(progress) && outbox == old(outbox)
    {
      var hero := heroes[client];
      var player := players[client];
      if hero.id.None? {
        return None;
      }
      if player.hp.current <= 0.0 || progress == 1 {
        disposeTimeout := DEATH_DISPOSE_TIMEOUT;
      }
      var coords := if state.progress != 1 then Some(if shouldSaveCoords then Some(Point(player.position.x, player.position.y)) else None) else None;
      var checkPoints := if checkPoint != 0 then Some(checkPoint) else None;
      saved := Some(SavedHero(player.lvl, player.attributes, player.pointsToDistribute, gold, diamond,
        player.hp.current, player.mp.current, player.xp.current,
        player.quickInventory.items, player.inventory.items, player.equipedItems,
        hero.currentProgress, hero.currentRoom, coords, checkPoints));
      players := players - {client};
      clientMap := clientMap - {player};
      heroes := heroes - {client};
      state.RemovePlayer(player);
      autoDisposeTimeout := Some(disposeTimeout);
    }

    /** tick: one state update at the clock's current time. */
    method Tick(currentTime: int, eligible: string -> bool, aiDistance: string -> real, distance: (Point, Point) -> real,
                finder: (Point, Point) -> seq<Point>, liveUnitAt: Point -> Option<Entity>, anyAt: Point -> Option<Entity>)
      returns (calls: seq<PositionCall>, moves: map<string, Point>)
      requires Ready() && state.OnceEach()
      modifies state.RegisteredUnits()`hp, state.RegisteredUnits()`lastHpRegenerationTime, state.RegisteredUnits()`position,
        state.RegisteredUnits()`action, state.RegisteredEnemies()`lastUpdateTime
      ensures Ready()
      ensures var s := state;
        (|s.players| == 0 ==> calls == [] && moves == map[]) &&
        (|s.players| == 0 ==> (forall u :: u in s.RegisteredUnits() ==> unchanged(u)) &&
                                forall en :: en in s.RegisteredEnemies() ==> unchanged(en)) &&
        (|s.players| > 0 ==> |calls| == |s.order| && forall k :: 0 <= k < |s.order| ==>
          var b := old(BeforeTick(s.entities[s.order[k]], currentTime, eligible(s.order[k])));
          calls[k] == b.call && Ticked(s.entities[s.order[k]], b, currentTime, MoveOf(moves, s.order[k]), finder, liveUnitAt, anyAt)) &&
        (forall id :: id in moves ==> id in s.entities && s.entities[id].EnemyEntity?)
    {
      calls, moves := state.Update(currentTime, eligible, aiDistance, distance, finder, liveUnitAt, anyAt);
    }
  }

  // ----------------------------------------------------------------- lemmas

  /** A request naming a depth is accepted by rooms of that depth only, so two rooms of different depths never both take it. */
  lemma JoinPicksOneDepth(a: DungeonRoom, b: DungeonRoom, p: int)
    requires p != 0 && a.progress != b.progress
    ensures !(a.RequestJoin(Some(p)) && b.RequestJoin(Some(p)))
    ensures a.RequestJoin(Some(a.progress))
  {
  }

  /** A room on depth 0 or with no depth given is the lobby. */
  lemma ProgressDefaultsToLobby(isPVPAllowed: bool)
    ensures InitialProgress(RoomOptions(None, isPVPAllowed)) == 1
    ensures InitialProgress(RoomOptions(Some(0), isPVPAllowed)) == 1
  {
  }

  /** The door codes move one depth forward or back, or to the deepest; a depth resolves to itself. */
  lemma DoorCodesResolve(hero: Hero, code: int)
    ensures ResolvedProgress(Doors.FORWARD, hero) == hero.currentProgress + 1
    ensures ResolvedProgress(Doors.BACK, hero) == hero.currentProgress - 1
    ensures ResolvedProgress(Doors.LATEST, hero) == hero.latestProgress
    ensures !(code in {Doors.FORWARD, Doors.BACK, Doors.LATEST}) ==> ResolvedProgress(code, hero) == code
  {
  }

  /** Going forward then back returns to the same depth. */
  lemma ForwardThenBack(hero: Hero)
    ensures ResolvedProgress(Doors.BACK, hero.(currentProgress := ResolvedProgress(Doors.FORWARD, hero))) == hero.currentProgress
  {
  }

  /** Joining writes the depth exactly when it changes, and the deepest only when it grows. */
  lemma JoinUpdateRecordsDeepest(roomProgress: int, hero: Hero)
    ensures JoinUpdate(roomProgress, hero).Some? <==> roomProgress != hero.currentProgress
    ensures JoinUpdate(roomProgress, hero).Some? ==> JoinUpdate(roomProgress, hero).value.currentProgress == roomProgress
    ensures JoinUpdate(roomProgress, hero).Some? ==>
      (JoinUpdate(roomProgress, hero).value.latestProgress.Some? <==> roomProgress > hero.latestProgress)
  {
  }

  /** The dispose timeout is 120 s or what it was; a live player leaving a deeper room keeps it. */
  lemma DisposeTimeoutChoice(current: int, hpCurrent: real, progress: int)
    ensures DisposeTimeoutAfterLeave(current, hpCurrent, progress) in {current, 120}
    ensures hpCurrent > 0.0 && progress != 1 ==> DisposeTimeoutAfterLeave(current, hpCurrent, progress) == current
    ensures hpCurrent <= 0.0 || progress == 1 ==> DisposeTimeoutAfterLeave(current, hpCurrent, progress) == 120
  {
  }

  lemma SimulationInterval()
    ensures SIMULATION_INTERVAL == 50
  {
  }
}
