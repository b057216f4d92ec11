/** The functions a reactor script may call (`LuaReactor`): reading and resetting the
    reactor, setting its state, dropping items and spawning monsters next to it.

    A script call sees the Lua stack, which holds the call's arguments; a reactor is
    found from the two globals the script was created with. The map registry is an
    injected lookup that may fail. */
module LuaReactor {
  import opened Packets

  // ---------------------------------------------------------------------------
  // The Lua stack

  /** A Lua value, as far as these functions look at it. */
  datatype LuaValue = Number(n: int) | NonNumber

  /** Lua's stack indexing: 1 is the bottom, -1 the top; any other index is absent. */
  function StackAt(stack: seq<LuaValue>, index: int): (v: Option<LuaValue>)
    ensures 1 <= index <= |stack| ==> v == Some(stack[index - 1])
    ensures -|stack| <= index <= -1 ==> v == Some(stack[|stack| + index])
    ensures (index == 0 || index > |stack| || index < -|stack|) ==> v == None
  {
    if 1 <= index <= |stack| then Some(stack[index - 1])
    else if -|stack| <= index <= -1 then Some(stack[|stack| + index])
    else None
  }

  /** `lua_isnumber`. */
  predicate IsNumber(stack: seq<LuaValue>, index: int) {
    StackAt(stack, index).Some? && StackAt(stack, index).value.Number?
  }

  /** `lua_tointeger`: the number at `index`, or 0 when there is none. */
  function ToInteger(stack: seq<LuaValue>, index: int): (n: int)
    ensures !IsNumber(stack, index) ==> n == 0
    ensures IsNumber(stack, index) ==> Number(n) == StackAt(stack, index).value
  {
    match StackAt(stack, index)
    case Some(Number(n)) => n
    case _ => 0
  }

  /** An optional numeric argument converted to `int16_t`, with a default when the
      argument is absent or not a number. */
  function OptionalInt16Arg(args: seq<LuaValue>, index: int, default: int16): (r: int16)
    ensures !IsNumber(args, index) ==> r == default
    ensures IsNumber(args, index) ==> (r - ToInteger(args, index)) % 0x1_0000 == 0
    ensures IsNumber(args, index) && -0x8000 <= ToInteger(args, index) < 0x8000 ==> r == ToInteger(args, index)
  {
    if IsNumber(args, index) then ToInt16(ToInteger(args, index)) else default
  }

  /** Two values pushed on top of the stack are found at -2 and -1, whatever was below. */
  lemma PushedPairReadBack(stack: seq<LuaValue>, a: int, b: int)
    ensures ToInteger(stack + [Number(a), Number(b)], -2) == a
    ensures ToInteger(stack + [Number(a), Number(b)], -1) == b
  {
    var s := stack + [Number(a), Number(b)];
    assert StackAt(s, -2) == Some(s[|s| - 2]) && s[|s| - 2] == Number(a);
    assert StackAt(s, -1) == Some(s[|s| - 1]) && s[|s| - 1] == Number(b);
  }

  // ---------------------------------------------------------------------------
  // Reactors

  /** What `Reactor::setState` is told, and the trigger packet broadcast to the map;
      the packets' layout and any broadcast of `setState` itself are not part of this model. */
  datatype ReactorEvent = StateSet(state: int, notify: bool) | Triggered(state: int)

  datatype ReactorStatus = ReactorStatus(state: int, alive: bool)

  class Reactor {
    const id: int32
    const mapId: int32
    const pos: Pos
    var state: int
    var alive: bool
    ghost var events: seq<ReactorEvent>

    constructor (id: int32, mapId: int32, pos: Pos, state: int, alive: bool)
      ensures this.id == id && this.mapId == mapId && this.pos == pos
      ensures Status() == ReactorStatus(state, alive) && events == []
    {
      this.id, this.mapId, this.pos := id, mapId, pos;
      this.state, this.alive := state, alive;
      events := [];
    }

    function Status(): ReactorStatus
      reads this
    {
      ReactorStatus(state, alive)
    }
  }

  /** `Maps::getMap(mapId)->getReactor(reactorId)`: the reactors by map and reactor id. */
  class MapRegistry {
    const reactors: map<(int32, int32), Reactor>

    /** Each map's reactor list: the reactor stored under a key is on that map and has that id. */
    predicate Valid() {
      forall key :: key in reactors ==> reactors[key].mapId == key.0 && reactors[key].id == key.1
    }

    constructor (reactors: map<(int32, int32), Reactor>)
      requires forall key :: key in reactors ==> reactors[key].mapId == key.0 && reactors[key].id == key.1
      ensures this.reactors == reactors && Valid()
    {
      this.reactors := reactors;
    }
  }

  function Lookup(reactors: map<(int32, int32), Reactor>, mapId: int32, reactorId: int32): (r: Option<Reactor>)
    ensures r.Some? <==> (mapId, reactorId) in reactors
    ensures r.Some? ==> r.value == reactors[(mapId, reactorId)] && r.value in reactors.Values
  {
    if (mapId, reactorId) in reactors then Some(reactors[(mapId, reactorId)]) else None
  }

  // ---------------------------------------------------------------------------
  // What the script functions decide

  /** The item a drop holds: an equip is always one single item. */
  datatype DroppedItem = Equip(itemId: int32) | Stack(itemId: int32, amount: int16)

  datatype Drop = Drop(mapId: int32, item: DroppedItem, pos: Pos, owner: int32, ownershipTime: int)

  datatype MobSpawn = MobSpawn(mobId: int32, mapId: int32, pos: Pos)

  datatype ZakumSpawn = ZakumSpawn(mapId: int32, pos: Pos, foothold: int16)

  /** The amount `dropItem` uses: its second argument when that is a number, else 1. */
  function DropAmount(args: seq<LuaValue>): (amount: int16)
    ensures !IsNumber(args, 2) ==> amount == 1
    ensures IsNumber(args, 2) && -0x8000 <= ToInteger(args, 2) < 0x8000 ==> amount == ToInteger(args, 2)
  {
    OptionalInt16Arg(args, 2, 1)
  }

  function DropContents(itemId: int32, amount: int16, equip: bool): (item: DroppedItem)
    ensures item.itemId == itemId
    ensures equip <==> item.Equip?
    ensures !equip ==> item.amount == amount
  {
    if equip then Equip(itemId) else Stack(itemId, amount)
  }

  /** The drop belongs to the script's player when that player is on the server, else to nobody (0). */
  function DropOwner(player: Option<int32>): (owner: int32)
    ensures player.Some? ==> owner == player.value
    ensures player.None? ==> owner == 0
  {
    if player.Some? then player.value else 0
  }

  /** How long the owner keeps the drop to itself: 100 with a player, 0 (free for all) without. */
  function OwnershipWindow(player: Option<int32>): (time: int)
    ensures time == 100 <==> player.Some?
    ensures time == 0 <==> player.None?
  {
    if player.Some? then 100 else 0
  }

  /** A drop either has an owner with a window, or is free for all at once. */
  lemma DropOwnershipConsistent(player: Option<int32>)
    requires player.Some? ==> player.value != 0
    ensures DropOwner(player) == 0 <==> OwnershipWindow(player) == 0
  {
  }

  /** The foothold `spawnZakum` uses: its third argument when that is a number, else 0. */
  function ZakumFoothold(args: seq<LuaValue>): (foothold: int16)
    ensures !IsNumber(args, 3) ==> foothold == 0
    ensures IsNumber(args, 3) && -0x8000 <= ToInteger(args, 3) < 0x8000 ==> foothold == ToInteger(args, 3)
  {
    OptionalInt16Arg(args, 3, 0)
  }

  // ---------------------------------------------------------------------------
  // setState as written

  /** The value `setStateReactor` passes to `setState`, as written: the reactor lookup has
      already pushed the two globals when the argument is read at -1. */
  function SetStateArgumentAsWritten(args: seq<LuaValue>, reactorId: int32, mapId: int32): int {
    ToInteger(args + [Number(reactorId), Number(mapId)], -1)
  }

  /** So the reactor is set to the map id, whatever the script asked for. */
  lemma SetStateTakesMapId(args: seq<LuaValue>, reactorId: int32, mapId: int32)
    ensures SetStateArgumentAsWritten(args, reactorId, mapId) == mapId
  {
    PushedPairReadBack(args, reactorId, mapId);
  }

  /** The input that shows it: `setState(3)` in a script on map 211042300. */
  lemma SetStateCounterexample()
    ensures SetStateArgumentAsWritten([Number(3)], 0, 211042300) == 211042300
    ensures ToInteger([Number(3)], -1) == 3
  {
    SetStateTakesMapId([Number(3)], 0, 211042300);
  }

  // ---------------------------------------------------------------------------
  // The script

  /** A reactor script (`LuaReactor`): created for a player, a reactor and its map. */
  class ReactorScript {
    const playerId: int32
    const reactorId: int32
    const mapId: int32
    const maps: MapRegistry

    /** The constructor stores `system_reactorId` and `system_mapId`, the only way a
        script function later finds its reactor. */
    constructor (playerId: int32, reactorId: int32, mapId: int32, maps: MapRegistry)
      ensures this.playerId == playerId && this.reactorId == reactorId && this.mapId == mapId
      ensures this.maps == maps
    {
      this.playerId, this.reactorId, this.mapId := playerId, reactorId, mapId;
      this.maps := maps;
    }

    /** `getReactor`: pushes the two globals and looks the reactor up from them. */
    method GetReactor(stack: seq<LuaValue>) returns (r: Option<Reactor>, after: seq<LuaValue>)
      ensures after == stack + [Number(reactorId), Number(mapId)]
      ensures r == Lookup(maps.reactors, mapId, reactorId)
      ensures maps.Valid() && r.Some? ==> r.value.mapId == mapId && r.value.id == reactorId
    {
      after := stack + [Number(reactorId)];
      after := after + [Number(mapId)];
      PushedPairReadBack(stack, reactorId, mapId);
      var id := ToInt32(ToInteger(after, -2));
      var onMap := ToInt32(ToInteger(after, -1));
      r := Lookup(maps.reactors, onMap, id);
    }

    /** `getState`: pushes the reactor's state as the one result; changes no reactor. */
    method GetState(args: seq<LuaValue>) returns (result: Option<int>, after: seq<LuaValue>)
      ensures var r := Lookup(maps.reactors, mapId, reactorId);
        && (result.Some? <==> r.Some?)
        && (r.Some? ==>
              result.value == r.value.state
              && after == args + [Number(reactorId), Number(mapId), Number(r.value.state)])
    {
      var r;
      r, after := GetReactor(args);
      if r.None? {
        return None, after;
      }
      after := after + [Number(r.value.state)];
      result := Some(r.value.state);
    }

    /** `reset`: the reactor is revived at state 0 and a trigger goes out to its map. */
    method Reset(args: seq<LuaValue>) returns (found: bool)
      modifies maps.reactors.Values
      ensures var r := Lookup(maps.reactors, mapId, reactorId);
        && found == r.Some?
        && (found ==>
              r.value.Status() == ReactorStatus(0, true)
              && r.value.events == old(r.value.events) + [StateSet(0, true), Triggered(0)])
      ensures forall x :: x in maps.reactors.Values && Lookup(maps.reactors, mapId, reactorId) != Some(x) ==>
        x.Status() == old(x.Status()) && x.events == old(x.events)
    {
      var r, _ := GetReactor(args);
      if r.None? {
        return false;
      }
      var reactor := r.value;
      reactor.alive := true;
      reactor.state := 0;
      reactor.events := reactor.events + [StateSet(0, true)];
      reactor.events := reactor.events + [Triggered(reactor.state)];
      found := true;
    }

    /** `setState`, with the script's argument read before the lookup pushes anything:
        the reactor takes the state the script asked for, with notification. */
    method SetState(args: seq<LuaValue>) returns (found: bool)
      modifies maps.reactors.Values
      ensures var r := Lookup(maps.reactors, mapId, reactorId);
        && found == r.Some?
        && (found ==>
              r.value.Status() == old(r.value.Status()).(state := ToInteger(args, -1))
              && r.value.events == old(r.value.events) + [StateSet(ToInteger(args, -1), true)])
      ensures forall x :: x in maps.reactors.Values && Lookup(maps.reactors, mapId, reactorId) != Some(x) ==>
        x.Status() == old(x.Status()) && x.events == old(x.events)
    {
      var newState := ToInteger(args, -1);
      var r, _ := GetReactor(args);
      if r.None? {
        return false;
      }
      r.value.state := newState;
      r.value.events := r.value.events + [StateSet(newState, true)];
      found := true;
    }

    /** `setStateReactor` as written: the argument is read after the lookup. */
    method SetStateAsWritten(args: seq<LuaValue>) returns (found: bool)
      modifies maps.reactors.Values
      ensures var r := Lookup(maps.reactors, mapId, reactorId);
        && found == r.Some?
        && (found ==>
              r.value.Status() == old(r.value.Status()).(state := SetStateArgumentAsWritten(args, reactorId, mapId))
              && r.value.state == mapId
              && r.value.events == old(r.value.events) + [StateSet(mapId, true)])
      ensures forall x :: x in maps.reactors.Values && Lookup(maps.reactors, mapId, reactorId) != Some(x) ==>
        x.Status() == old(x.Status()) && x.events == old(x.events)
    {
      var r, after := GetReactor(args);
      if r.None? {
        return false;
      }
      SetStateTakesMapId(args, reactorId, mapId);
      var newState := ToInteger(after, -1);
      r.value.state := newState;
      r.value.events := r.value.events + [StateSet(newState, true)];
      found := true;
    }

    /** `dropItem(itemId [, amount])` at the reactor's position. `player` is the script's
        player when it is on the server; `isEquip` classifies item ids. */
    method DropItem(args: seq<LuaValue>, player: Option<int32>, isEquip: int32 -> bool) returns (d: Option<Drop>)
      ensures maps.Valid() && d.Some? ==> d.value.mapId == mapId
      ensures var r := Lookup(maps.reactors, mapId, reactorId);
        var itemId := ToInt32(ToInteger(args, 1));
        d == if r.None? then None
             else Some(Drop(r.value.mapId, DropContents(itemId, DropAmount(args), isEquip(itemId)),
                            r.value.pos, DropOwner(player), OwnershipWindow(player)))
    {
      var itemId := ToInt32(ToInteger(args, 1));
      var amount: int16 := 1;
      if IsNumber(args, 2) {
        amount := ToInt16(ToInteger(args, 2));
      }
      var r, _ := GetReactor(args);
      if r.None? {
        return None;
      }
      var owner := if player.Some? then player.value else 0;
      var item;
      if isEquip(itemId) {
        item := Equip(itemId);
      } else {
        item := Stack(itemId, amount);
      }
      var time := if player.Some? then 100 else 0;
      d := Some(Drop(r.value.mapId, item, r.value.pos, owner, time));
    }

    /** `spawnMob(mobId)`: the mob id is read before the lookup, so it is the script's argument. */
    method SpawnMob(args: seq<LuaValue>) returns (spawn: Option<MobSpawn>)
      ensures maps.Valid() && spawn.Some? ==> spawn.value.mapId == mapId
      ensures var r := Lookup(maps.reactors, mapId, reactorId);
        spawn == if r.None? then None else Some(MobSpawn(ToInt32(ToInteger(args, -1)), r.value.mapId, r.value.pos))
    {
      var mobId := ToInt32(ToInteger(args, -1));
      var r, _ := GetReactor(args);
      if r.None? {
        return None;
      }
      spawn := Some(MobSpawn(mobId, r.value.mapId, r.value.pos));
    }

    /** `spawnZakum(x, y [, foothold])` on the reactor's map. */
    method SpawnZakum(args: seq<LuaValue>) returns (spawn: Option<ZakumSpawn>)
      ensures maps.Valid() && spawn.Some? ==> spawn.value.mapId == mapId
      ensures var r := Lookup(maps.reactors, mapId, reactorId);
        spawn == if r.None? then None
                 else Some(ZakumSpawn(r.value.mapId, Pos(ToInt16(ToInteger(args, 1)), ToInt16(ToInteger(args, 2))),
                                      ZakumFoothold(args)))
    {
      var x := ToInt16(ToInteger(args, 1));
      var y := ToInt16(ToInteger(args, 2));
      var foothold: int16 := 0;
      if IsNumber(args, 3) {
        foothold := ToInt16(ToInteger(args, 3));
      }
      var r, _ := GetReactor(args);
      if r.None? {
        return None;
      }
      spawn := Some(ZakumSpawn(r.value.mapId, Pos(x, y), foothold));
    }
  }
}
