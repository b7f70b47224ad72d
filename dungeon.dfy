/** Rooms, the singly-linked room list and forward/back navigation over it. */
module Dungeons {
  import opened Wrappers
  import opened Entities
  import opened PathTracker
  import opened Players

  /**
   * A room. The rooms live in one sequence owned by the dungeon; `next` is the index of the
   * successor (the `Room* next` pointer), `None` for the last room.
   */
  datatype Room = Room(
    name: string,
    description: string,
    backgroundID: string,
    entity: Option<Entity>,
    next: Option<nat>,
    isFinalDoor: bool,
    isChoiceRoom: bool)

  /** A freshly constructed room: no entity, no successor, no flags. */
  function NewRoom(name: string, description: string, backgroundID: string): (r: Room)
    ensures r.next.None? && r.entity.None? && !r.isFinalDoor && !r.isChoiceRoom
  {
    Room(name, description, backgroundID, None, None, false, false)
  }

  /** The list is linear: each room links to the one after it and the last to nothing. */
  ghost predicate Linked(rooms: seq<Room>) {
    forall i :: 0 <= i < |rooms| ==> rooms[i].next == if i + 1 < |rooms| then Some(i + 1) else None
  }

  /** The list after `addRoom`: the old tail links to the new room, which ends the list. */
  function Appended(rooms: seq<Room>, room: Room): (r: seq<Room>)
    ensures |r| == |rooms| + 1 && r[|rooms|] == room
  {
    if rooms == [] then [room]
    else rooms[|rooms| - 1 := rooms[|rooms| - 1].(next := Some(|rooms|))] + [room]
  }

  /**
   * Appending a room that links nowhere keeps the list linear and changes nothing in the rooms
   * already there but the old last room's link.
   */
  lemma AppendedLinked(rooms: seq<Room>, room: Room)
    requires Linked(rooms) && room.next.None?
    ensures Linked(Appended(rooms, room))
    ensures forall i :: 0 <= i < |rooms| ==>
      Appended(rooms, room)[i] == rooms[i].(next := Appended(rooms, room)[i].next)
    ensures forall i :: 0 <= i < |rooms| - 1 ==> Appended(rooms, room)[i] == rooms[i]
  {
    var r := Appended(rooms, room);
    forall i | 0 <= i < |r|
      ensures r[i].next == if i + 1 < |r| then Some(i + 1) else None
    {
      if i + 1 < |rooms| {
        assert r[i] == rooms[i];
      }
    }
  }

  /** The current room and the path tracker's entries, topmost first. */
  datatype Cursor = Cursor(current: nat, path: seq<nat>)

  ghost predicate InBounds(rooms: seq<Room>, c: Cursor) {
    c.current < |rooms| && forall k :: k in c.path ==> k < |rooms|
  }

  /** The tracker holds exactly the rooms before the current one, the nearest on top. */
  function Trail(n: nat): (r: seq<nat>)
    ensures |r| == n
    ensures forall i :: 0 <= i < n ==> r[i] == n - 1 - i
  {
    if n == 0 then [] else [n - 1] + Trail(n - 1)
  }

  function CanForward(rooms: seq<Room>, c: Cursor): (r: bool)
    requires Linked(rooms) && c.current < |rooms|
    ensures r <==> c.current + 1 < |rooms|
  {
    rooms[c.current].next.Some?
  }

  function CanBack(c: Cursor): bool {
    c.path != []
  }

  /** `moveForward` on the cursor: push the current room and step to its successor, if any. */
  function Forward(rooms: seq<Room>, c: Cursor): (r: Cursor)
    requires Linked(rooms) && InBounds(rooms, c)
    ensures InBounds(rooms, r)
    ensures CanForward(rooms, c) ==> r == Cursor(c.current + 1, [c.current] + c.path)
    ensures !CanForward(rooms, c) ==> r == c
  {
    match rooms[c.current].next
    case Some(n) => Cursor(n, [c.current] + c.path)
    case None => c
  }

  /** `moveBack` on the cursor: pop the tracker into the current room, if it is not empty. */
  function Back(c: Cursor): (r: Cursor)
    ensures CanBack(c) ==> r.current == c.path[0] && r.path == c.path[1..]
    ensures !CanBack(c) ==> r == c
  {
    if c.path == [] then c else Cursor(c.path[0], c.path[1..])
  }

  /** Stepping forward and then back returns to the same room with the same tracker. */
  lemma ForwardThenBack(rooms: seq<Room>, c: Cursor)
    requires Linked(rooms) && InBounds(rooms, c) && CanForward(rooms, c)
    ensures CanBack(Forward(rooms, c)) && Back(Forward(rooms, c)) == c
  {
  }

  /** Navigation keeps the tracker equal to the trail of rooms behind the cursor. */
  lemma {:induction false} NavigationKeepsTrail(rooms: seq<Room>, c: Cursor)
    requires Linked(rooms) && InBounds(rooms, c)
    ensures c.path == Trail(c.current) ==> Forward(rooms, c).path == Trail(Forward(rooms, c).current)
    ensures c.path == Trail(c.current) ==> Back(c).path == Trail(Back(c).current)
    ensures c.path == Trail(c.current) && CanBack(c) ==> Back(c).current + 1 == c.current
  {
    if c.current > 0 && c.path == Trail(c.current) {
      assert Trail(c.current) == [c.current - 1] + Trail(c.current - 1);
    }
  }

  /**
   * `Dungeon`: the owned room list, the current-room cursor (`None` while the list is empty),
   * the path tracker and the player whose moves navigation spends.
   */
  class Dungeon {
    var rooms: seq<Room>
    var current: Option<nat>
    var player: Player
    var tracker: Stack<nat>

    ghost predicate Valid()
      reads this, tracker
    {
      tracker.Valid() && Linked(rooms) &&
      (current.None? <==> rooms == []) &&
      (current.None? ==> tracker.items == []) &&
      (current.Some? ==> InBounds(rooms, Cursor(current.value, tracker.items)))
    }

    ghost function Position(): Cursor
      reads this`current, this`tracker, tracker
      requires current.Some?
    {
      Cursor(current.value, tracker.items)
    }

    constructor (p: Player)
      ensures Valid() && fresh(tracker)
      ensures rooms == [] && player == p
    {
      rooms := [];
      current := None;
      player := p;
      tracker := new Stack<nat>();
    }

    /** Walks the `next` links to the tail and links the new room after it. */
    method AddRoom(room: Room)
      requires Valid() && room.next.None?
      modifies this`rooms, this`current
      ensures Valid() && rooms == Appended(old(rooms), room)
      ensures current == if old(current).None? then Some(0) else old(current)
    {
      if rooms == [] {
        rooms := [room];
        current := Some(0);
        return;
      }
      var tail := 0;
      while rooms[tail].next.Some?
        invariant tail < |rooms|
        decreases |rooms| - tail
      {
        tail := rooms[tail].next.value;
      }
      AppendedLinked(rooms, room);
      rooms := rooms[tail := rooms[tail].(next := Some(|rooms|))] + [room];
    }

    function CurrentRoom(): (r: Option<Room>)
      reads this, tracker
      requires Valid()
      ensures r.Some? <==> |rooms| > 0
      ensures r.Some? ==> r.value == rooms[current.value]
    {
      match current
      case None => None
      case Some(i) => Some(rooms[i])
    }

    function CanMoveBack(): (r: bool)
      reads this, tracker
      requires Valid()
      ensures r <==> tracker.Size() > 0
    {
      !tracker.IsEmpty()
    }

    function CanMoveForward(): (r: bool)
      reads this, tracker
      requires Valid()
      ensures r <==> current.Some? && current.value + 1 < |rooms|
    {
      current.Some? && rooms[current.value].next.Some?
    }

    /**
     * Writes through the current-room pointer: the room's description, entity and choice flag
     * change, its link does not.
     */
    method UpdateCurrentRoom(room: Room)
      requires Valid() && current.Some? && room.next == rooms[current.value].next
      modifies this`rooms
      ensures Valid() && rooms == old(rooms)[current.value := room]
    {
      rooms := rooms[current.value := room];
    }

    method MoveForward()
      requires Valid()
      modifies this`current, tracker, player`moves
      ensures Valid() && current.Some? == old(current).Some?
      ensures current.Some? ==> Position() == Forward(rooms, old(Position()))
      ensures player.moves == old(player.moves) - if old(CanMoveForward()) then 1 else 0
    {
      if CanMoveForward() {
        player.UseMove();
        tracker.Push(current.value);
        current := rooms[current.value].next;
      }
    }

    method MoveBack()
      requires Valid()
      modifies this`current, tracker, player`moves
      ensures Valid() && current.Some? == old(current).Some?
      ensures current.Some? ==> Position() == Back(old(Position()))
      ensures player.moves == old(player.moves) - if old(CanMoveBack()) then 1 else 0
    {
      if CanMoveBack() {
        player.UseMove();
        var top := tracker.Top();
        ghost var path := tracker.items;
        assert top.value in path;
        current := Some(top.value);
        tracker.Pop();
        assert forall k :: k in tracker.items ==> k in path;
      }
    }
  }
}
