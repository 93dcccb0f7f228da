/**
 Direct rooms: one per unordered pair of users, found again under the canonical order of the pair.
 */
module DirectRooms {
  import F = Friends
  import opened Keys
  import opened Wrappers

  type RoomId = nat

  datatype Room = Room(owner: PublicKey, deleted: bool)

  // `chat_rooms` keeps deleted rooms, and so does `direct_rooms`.
  datatype Tables = Tables(rooms: map<RoomId, Room>, direct: map<RoomId, (PublicKey, PublicKey)>)

  datatype Opened = Opened(room: RoomId, alreadyExisted: bool)

  // ---- What the statements do

  ghost predicate PairTaken(t: Tables, pair: (PublicKey, PublicKey)) {
    exists id :: id in t.direct && t.direct[id] == pair
  }

  ghost predicate IsFound(t: Tables, u: PublicKey, v: PublicKey, id: RoomId) {
    id in t.direct && t.direct[id] == OrderedPair(u, v) && id in t.rooms && !t.rooms[id].deleted
  }

  // room_id is a primary key, the ordered pair is UNIQUE, and its keys have full length.
  ghost predicate Insertable(t: Tables, u: PublicKey, v: PublicKey, id: RoomId) {
    id !in t.rooms && id !in t.direct && !PairTaken(t, OrderedPair(u, v)) && |u| == KEY_SIZE && |v| == KEY_SIZE && u != v
  }

  function Inserted(t: Tables, owner: PublicKey, other: PublicKey, id: RoomId): Tables {
    Tables(t.rooms[id := Room(owner, false)], t.direct[id := OrderedPair(owner, other)])
  }

  predicate MayDelete(t: Tables, user: PublicKey, id: RoomId) {
    id in t.rooms && !t.rooms[id].deleted && t.rooms[id].owner == user
  }

  function Deleted(t: Tables, id: RoomId): Tables
    requires id in t.rooms
  {
    t.(rooms := t.rooms[id := t.rooms[id].(deleted := true)])
  }

  // Direct rooms are rooms, and no pair has two.
  ghost predicate OnePerPair(t: Tables) {
    && t.direct.Keys <= t.rooms.Keys
    && forall a, b :: a in t.direct && b in t.direct && t.direct[a] == t.direct[b] ==> a == b
  }

  class RoomStore {
    const friends: F.FriendStore
    var rooms: map<RoomId, Room>
    var direct: map<RoomId, (PublicKey, PublicKey)>

    ghost function View(): Tables
      reads this
    {
      Tables(rooms, direct)
    }

    constructor (friends: F.FriendStore)
      ensures View() == Tables(map[], map[]) && this.friends == friends
    {
      this.friends := friends;
      rooms, direct := map[], map[];
    }

    method CreateRoom(owner: PublicKey, id: RoomId) returns (ok: bool)
      modifies this`rooms
      ensures ok == (id !in old(rooms) && |owner| == KEY_SIZE)
      ensures rooms == if ok then old(rooms)[id := Room(owner, false)] else old(rooms)
    {
      ok := id !in rooms && |owner| == KEY_SIZE;
      if ok {
        rooms := rooms[id := Room(owner, false)];
      }
    }

    method FindDirectRoomIDByUsers(u: PublicKey, v: PublicKey) returns (found: Option<RoomId>)
      ensures found.Some? ==> IsFound(View(), u, v, found.value)
      ensures found.None? ==> forall id :: !IsFound(View(), u, v, id)
    {
      var pair := OrderedPair(u, v);
      if id :| id in direct && direct[id] == pair && id in rooms && !rooms[id].deleted {
        return Some(id);
      }
      return None;
    }

    // The transaction: look again, then insert; a violated constraint rolls everything back.
    method CommitDirectRoom(user: PublicKey, target: PublicKey, id: RoomId) returns (r: Result<Opened, F.Error>)
      modifies this
      ensures r.Ok? || r == Err(F.Failed)
      ensures r.Ok? && r.value.alreadyExisted ==>
                IsFound(old(View()), user, target, r.value.room) && View() == old(View())
      ensures r.Ok? && !r.value.alreadyExisted ==>
                && r.value.room == id && (forall x :: !IsFound(old(View()), user, target, x))
                && Insertable(old(View()), user, target, id) && View() == Inserted(old(View()), user, target, id)
      ensures !r.Ok? ==> (forall x :: !IsFound(View(), user, target, x)) && !Insertable(View(), user, target, id)
      ensures !r.Ok? ==> View() == old(View())
    {
      var found := FindDirectRoomIDByUsers(user, target);
      if found.Some? {
        return Ok(Opened(found.value, true));
      }
      var before := rooms;
      var created := CreateRoom(user, id);
      if !created {
        return Err(F.Failed);
      }
      var pair := OrderedPair(user, target);
      if id in direct || (exists x :: x in direct && direct[x] == pair) || |target| != KEY_SIZE || user == target {
        rooms := before;
        return Err(F.Failed);
      }
      direct := direct[id := pair];
      return Ok(Opened(id, false));
    }

    method CreateDirectRoom(user: PublicKey, target: PublicKey, id: RoomId) returns (r: Result<Opened, F.Error>)
      modifies this
      ensures r == Err(F.InvalidPublicKey) <==> |target| != KEY_SIZE
      ensures r == Err(F.Forbidden) <==> |target| == KEY_SIZE && (user == target || !F.Joined(friends.View(), user, target))
      ensures r != Err(F.NotFound) && r != Err(F.Conflict)
      ensures r.Ok? && r.value.alreadyExisted ==>
                IsFound(old(View()), user, target, r.value.room) && View() == old(View())
      ensures r.Ok? && !r.value.alreadyExisted ==>
                && r.value.room == id && (forall x :: !IsFound(old(View()), user, target, x))
                && Insertable(old(View()), user, target, id) && View() == Inserted(old(View()), user, target, id)
      ensures r.Ok? && !r.value.alreadyExisted ==>
                && rooms == old(rooms)[r.value.room := Room(user, false)]
                && (forall x :: x in old(direct) ==> x in direct && direct[x] == old(direct)[x])
                && direct.Keys == old(direct).Keys + {r.value.room}
                && (direct[r.value.room] == (user, target) || direct[r.value.room] == (target, user))
                && AtMost(direct[r.value.room].0, direct[r.value.room].1)
      ensures r == Err(F.Failed) ==> (forall x :: !IsFound(View(), user, target, x)) && !Insertable(View(), user, target, id)
      ensures !r.Ok? ==> View() == old(View())
    {
      if |target| != KEY_SIZE {
        return Err(F.InvalidPublicKey);
      }
      if user == target {
        return Err(F.Forbidden);
      }
      var areFriends := friends.AreFriends(user, target);
      if !areFriends {
        return Err(F.Forbidden);
      }
      var found := FindDirectRoomIDByUsers(user, target);
      if found.Some? {
        return Ok(Opened(found.value, true));
      }
      r := CommitDirectRoom(user, target, id);
      PairIsSorted(user, target);
    }

    method DeleteRoom(user: PublicKey, id: RoomId) returns (r: Result<(), F.Error>)
      modifies this`rooms
      ensures r == if id !in old(rooms) || old(rooms)[id].deleted then Err(F.NotFound)
                   else if old(rooms)[id].owner != user then Err(F.Forbidden) else Ok(())
      ensures r.Ok? <==> MayDelete(old(View()), user, id)
      ensures View() == if r.Ok? then Deleted(old(View()), id) else old(View())
      ensures rooms == if r.Ok? then old(rooms)[id := Room(user, true)] else old(rooms)
    {
      if id !in rooms || rooms[id].deleted {
        return Err(F.NotFound);
      }
      if rooms[id].owner != user {
        return Err(F.Forbidden);
      }
      rooms := rooms[id := rooms[id].(deleted := true)];
      return Ok(());
    }
  }

  // ---- Runs

  // One answer to a caller, before or inside the transaction.
  datatype Opening = Opening(user: PublicKey, target: PublicKey, room: RoomId)

  // A call goes through Admit (what the friendship test says is open), Look and Commit, with other
  // steps in between; a failed statement changes nothing and is no step.
  datatype Step =
    | Admit(user: PublicKey, target: PublicKey)
    | Look(user: PublicKey, target: PublicKey, room: RoomId)
    | Commit(user: PublicKey, target: PublicKey, room: RoomId)
    | AddRoom(owner: PublicKey, room: RoomId)
    | Delete(user: PublicKey, room: RoomId)

  datatype World = World(t: Tables, admitted: set<(PublicKey, PublicKey)>, openings: seq<Opening>)

  ghost predicate Enabled(w: World, st: Step) {
    match st
    case Admit(user, target) => |target| == KEY_SIZE && user != target
    case Look(user, target, room) => (user, target) in w.admitted && IsFound(w.t, user, target, room)
    case Commit(user, target, room) =>
      && (user, target) in w.admitted
      && (IsFound(w.t, user, target, room)
          || ((forall x :: !IsFound(w.t, user, target, x)) && Insertable(w.t, user, target, room)))
    case AddRoom(owner, room) => room !in w.t.rooms
    case Delete(user, room) => MayDelete(w.t, user, room)
  }

  ghost function Next(w: World, st: Step): World
    requires Enabled(w, st)
  {
    match st
    case Admit(user, target) => w.(admitted := w.admitted + {(user, target)})
    case Look(user, target, room) => w.(openings := w.openings + [Opening(user, target, room)])
    case Commit(user, target, room) =>
      w.(t := if IsFound(w.t, user, target, room) then w.t else Inserted(w.t, user, target, room),
         openings := w.openings + [Opening(user, target, room)])
    case AddRoom(owner, room) => w.(t := w.t.(rooms := w.t.rooms[room := Room(owner, false)]))
    case Delete(_, room) => w.(t := Deleted(w.t, room))
  }

  ghost predicate Run(steps: seq<Step>, ws: seq<World>) {
    && |ws| == |steps| + 1
    && ws[0] == World(Tables(map[], map[]), {}, [])
    && forall n :: 0 <= n < |steps| ==> Enabled(ws[n], steps[n]) && ws[n + 1] == Next(ws[n], steps[n])
  }

  ghost predicate SamePair(a: Opening, b: Opening) {
    (a.user == b.user && a.target == b.target) || (a.user == b.target && a.target == b.user)
  }

  // Every answer given names the room the table keeps for the pair.
  ghost predicate Remembered(w: World) {
    forall o :: o in w.openings ==> o.room in w.t.direct && w.t.direct[o.room] == OrderedPair(o.user, o.target)
  }

  lemma {:induction false} RunKeepsRooms(steps: seq<Step>, ws: seq<World>, n: nat)
    requires Run(steps, ws) && n <= |steps|
    ensures OnePerPair(ws[n].t) && Remembered(ws[n])
  {
    if n > 0 {
      RunKeepsRooms(steps, ws, n - 1);
      assert Enabled(ws[n - 1], steps[n - 1]) && ws[n] == Next(ws[n - 1], steps[n - 1]);
      hide OrderedPair;
    }
  }

  // Over any run, room deletion included, two answers name the same room exactly when they are
  // about the same two users, whoever asked.
  lemma OneDirectRoomPerPair(steps: seq<Step>, ws: seq<World>, n: nat, i: nat, j: nat)
    requires Run(steps, ws) && n <= |steps| && i < |ws[n].openings| && j < |ws[n].openings|
    ensures var a, b := ws[n].openings[i], ws[n].openings[j]; a.room == b.room <==> SamePair(a, b)
  {
    RunKeepsRooms(steps, ws, n);
    var a, b := ws[n].openings[i], ws[n].openings[j];
    assert a in ws[n].openings && b in ws[n].openings;
    OrderedPairIsCanonical(a.user, a.target, b.user, b.target);
  }

  // The pair has a direct room, and it has been deleted.
  ghost predicate Closed(t: Tables, u: PublicKey, v: PublicKey) {
    exists id :: id in t.direct && t.direct[id] == OrderedPair(u, v) && id in t.rooms && t.rooms[id].deleted
  }

  lemma {:induction false} ClosedStaysClosed(steps: seq<Step>, ws: seq<World>, n: nat, m: nat, u: PublicKey,
      v: PublicKey)
    requires Run(steps, ws) && n <= m <= |steps| && Closed(ws[n].t, u, v)
    ensures Closed(ws[m].t, u, v)
  {
    if n < m {
      ClosedStaysClosed(steps, ws, n, m - 1, u, v);
      var id :| id in ws[m - 1].t.direct && ws[m - 1].t.direct[id] == OrderedPair(u, v)
                && id in ws[m - 1].t.rooms && ws[m - 1].t.rooms[id].deleted;
      assert Enabled(ws[m - 1], steps[m - 1]) && ws[m] == Next(ws[m - 1], steps[m - 1]);
      hide OrderedPair;
      assert id in ws[m].t.direct && ws[m].t.direct[id] == OrderedPair(u, v) && id in ws[m].t.rooms && ws[m].t.rooms[id].deleted;
    }
  }

  // A pair of distinct users gets an answer, its room or the new one, exactly while it has no
  // deleted room.
  lemma AnsweredExactlyUnlessClosed(t: Tables, u: PublicKey, v: PublicKey, unused: RoomId)
    requires OnePerPair(t) && |u| == KEY_SIZE && |v| == KEY_SIZE && u != v && unused !in t.rooms
    ensures (exists x :: IsFound(t, u, v, x)) || Insertable(t, u, v, unused) <==> !Closed(t, u, v)
  {
    hide OrderedPair;
    if PairTaken(t, OrderedPair(u, v)) {
      var id :| id in t.direct && t.direct[id] == OrderedPair(u, v);
      assert IsFound(t, u, v, id) <==> !Closed(t, u, v);
    }
  }

  // So in any run: an admitted caller can be answered exactly while the pair is not closed.
  lemma AdmittedIsAnsweredExactly(steps: seq<Step>, ws: seq<World>, n: nat, u: PublicKey, v: PublicKey, unused: RoomId)
    requires Run(steps, ws) && n <= |steps| && (u, v) in ws[n].admitted && |u| == KEY_SIZE && unused !in ws[n].t.rooms
    ensures (exists x :: Enabled(ws[n], Look(u, v, x))) || Enabled(ws[n], Commit(u, v, unused)) <==> !Closed(ws[n].t, u, v)
  {
    AdmittedAreDistinct(steps, ws, n, u, v);
    RunKeepsRooms(steps, ws, n);
    AnsweredExactlyUnlessClosed(ws[n].t, u, v, unused);
    assert forall x :: Enabled(ws[n], Look(u, v, x)) <==> IsFound(ws[n].t, u, v, x);
  }

  lemma {:induction false} AdmittedAreDistinct(steps: seq<Step>, ws: seq<World>, n: nat, u: PublicKey, v: PublicKey)
    requires Run(steps, ws) && n <= |steps| && (u, v) in ws[n].admitted
    ensures |v| == KEY_SIZE && u != v
  {
    if n > 0 {
      assert Enabled(ws[n - 1], steps[n - 1]) && ws[n] == Next(ws[n - 1], steps[n - 1]);
      if (u, v) in ws[n - 1].admitted {
        AdmittedAreDistinct(steps, ws, n - 1, u, v);
      }
    }
  }

  // The UNIQUE pair outlives the room: once a pair's direct room is deleted, neither of the two
  // gets an answer any more.
  lemma DeletionEndsThePair(steps: seq<Step>, ws: seq<World>, n: nat, m: nat, u: PublicKey, v: PublicKey)
    requires Run(steps, ws) && n <= m < |steps| && Closed(ws[n].t, u, v)
    ensures !(steps[m].Look? || steps[m].Commit?) || !SamePair(Opening(steps[m].user, steps[m].target, 0), Opening(u, v, 0))
  {
    ClosedStaysClosed(steps, ws, n, m, u, v);
    RunKeepsRooms(steps, ws, m);
    assert Enabled(ws[m], steps[m]);
    OrderedPairIsCanonical(u, v, v, u);
  }
}
