/**
 * The socket handlers of backend/server.js: the `connectedUsers` roster, which users are
 * online, and the per-socket record of the task being viewed, together with the events
 * the handlers emit and the sockets that receive them.
 */
module Presence {
  import opened Js
  import opened Wrappers

  type SocketId = string

  /** `{ id, name, role, socketId, joinedAt }`, a value of the roster. */
  datatype Entry = Entry(id: Value, name: Value, role: Value, socketId: SocketId, joinedAt: nat)

  /** `{ id, name, role }` as `user:join` receives it. */
  datatype UserData = UserData(id: Value, name: Value, role: Value)

  /** The `user` field of the viewer events. */
  datatype Viewer = Viewer(id: Value, name: Value, role: Value)

  datatype Event =
    | UsersUpdated(users: seq<Entry>)                // 'users:updated'
    | ViewerJoined(taskId: Value, user: Viewer)      // 'task:viewer_joined'
    | ViewerLeft(taskId: Value, user: Viewer)        // 'task:viewer_left'

  /** `io.emit` reaches every socket; `socket.to(room).emit` the room's other members. */
  datatype Emission =
    | ToAll(event: Event)
    | ToRoom(room: string, recipients: set<SocketId>, event: Event)

  /** The fields the handlers set on a socket, and the rooms it has joined. */
  datatype SocketState = SocketState(userId: Value, userName: Value, userRole: Value, currentTask: Value, rooms: set<string>)

  const FreshSocket := SocketState(Undefined, Undefined, Undefined, Undefined, {})

  function ViewerOf(s: SocketState): Viewer {
    Viewer(s.userId, s.userName, s.userRole)
  }

  /** The room of the sockets viewing a task: `task:${taskId}`. */
  function TaskRoom(taskId: Value): string {
    "task:" + ToText(taskId)
  }

  /** The members of `room` other than `sender`. */
  function Others(sockets: map<SocketId, SocketState>, room: string, sender: SocketId): set<SocketId> {
    set s | s in sockets && room in sockets[s].rooms && s != sender
  }

  // ---------------------------------------------------------------------------
  // The roster: a JavaScript Map, whose values keep the order their keys were first set

  predicate UniqueKeys(r: seq<Entry>) {
    forall i, j :: 0 <= i < j < |r| ==> r[i].socketId != r[j].socketId
  }

  /** The roster as a plain map from socket id to entry. */
  function AsMap(r: seq<Entry>): map<SocketId, Entry> {
    if r == [] then map[] else AsMap(r[1..])[r[0].socketId := r[0]]
  }

  predicate HasKey(r: seq<Entry>, k: SocketId) {
    exists i :: 0 <= i < |r| && r[i].socketId == k
  }

  /** `Map.prototype.set`: a present key keeps its place and takes the new value; a new key goes last. */
  function SetEntry(r: seq<Entry>, e: Entry): (s: seq<Entry>)
    ensures e in s
    ensures |r| <= |s| <= |r| + 1 && (|s| == |r| + 1 ==> s[|r|] == e)
  {
    if r == [] then [e]
    else if r[0].socketId == e.socketId then [e] + r[1..]
    else [r[0]] + SetEntry(r[1..], e)
  }

  /** `Map.prototype.delete`: an absent key changes nothing; a present one costs exactly one entry. */
  function DeleteEntry(r: seq<Entry>, k: SocketId): (s: seq<Entry>)
    ensures forall x :: x in s ==> x in r
    ensures (forall i :: 0 <= i < |r| ==> r[i].socketId != k) ==> s == r
    ensures forall i :: 0 <= i < |r| && r[i].socketId == k ==> |s| == |r| - 1
  {
    if r == [] then []
    else if r[0].socketId == k then r[1..]
    else [r[0]] + DeleteEntry(r[1..], k)
  }

  lemma {:induction false} AsMapKeys(r: seq<Entry>)
    ensures forall k :: k in AsMap(r) <==> HasKey(r, k)
  {
    if r != [] {
      AsMapKeys(r[1..]);
      forall k ensures HasKey(r, k) <==> k == r[0].socketId || HasKey(r[1..], k) {
        if HasKey(r, k) && k != r[0].socketId {
          var i :| 0 <= i < |r| && r[i].socketId == k;
          assert r[1..][i - 1].socketId == k;
        }
        if HasKey(r[1..], k) {
          var i :| 0 <= i < |r| - 1 && r[1..][i].socketId == k;
          assert r[i + 1].socketId == k;
        }
      }
    }
  }

  /** Setting a key: the map gains or overwrites that key, and duplicates never arise. */
  lemma {:induction false} SetEntryMap(r: seq<Entry>, e: Entry)
    requires UniqueKeys(r)
    ensures UniqueKeys(SetEntry(r, e))
    ensures AsMap(SetEntry(r, e)) == AsMap(r)[e.socketId := e]
  {
    if r != [] && r[0].socketId != e.socketId {
      var tail := SetEntry(r[1..], e);
      SetEntryMap(r[1..], e);
      SetEntryKeys(r[1..], e);
      assert ([r[0]] + tail)[1..] == tail;
      forall i, j | 0 <= i < j < |[r[0]] + tail| ensures ([r[0]] + tail)[i].socketId != ([r[0]] + tail)[j].socketId {
        if i == 0 {
          assert tail[j - 1] in tail;
          if tail[j - 1].socketId != e.socketId {
            var m :| 0 <= m < |r[1..]| && r[1..][m] == tail[j - 1];
            assert r[m + 1] == tail[j - 1];
          }
        }
      }
    } else if r != [] {
      forall i, j | 0 <= i < j < |r| ensures SetEntry(r, e)[i].socketId != SetEntry(r, e)[j].socketId {
        assert r[0].socketId != r[j].socketId;
      }
      assert ([e] + r[1..])[1..] == r[1..];
    }
  }

  /** A set keeps every entry in its place, except that an entry under the same key takes the new value. */
  lemma {:induction false} SetEntryPlace(r: seq<Entry>, e: Entry)
    ensures forall i :: 0 <= i < |r| ==>
      SetEntry(r, e)[i] == r[i] || (SetEntry(r, e)[i] == e && r[i].socketId == e.socketId)
  {
    if r != [] && r[0].socketId != e.socketId {
      SetEntryPlace(r[1..], e);
      forall i | 1 <= i < |r|
        ensures SetEntry(r, e)[i] == r[i] || (SetEntry(r, e)[i] == e && r[i].socketId == e.socketId)
      {
        assert SetEntry(r, e)[i] == SetEntry(r[1..], e)[i - 1];
        assert r[i] == r[1..][i - 1];
      }
    }
  }

  /** The keys after a set: the old ones, and the new entry's; every other entry is an old one. */
  lemma {:induction false} SetEntryKeys(r: seq<Entry>, e: Entry)
    ensures forall x :: x in SetEntry(r, e) ==> x == e || x in r
  {
    if r != [] && r[0].socketId != e.socketId {
      SetEntryKeys(r[1..], e);
      forall x | x in SetEntry(r, e) ensures x == e || x in r {
        if x != r[0] {
          assert x in SetEntry(r[1..], e);
        }
      }
    } else if r != [] {
      forall x | x in SetEntry(r, e) ensures x == e || x in r {
        if x != e {
          assert x in r[1..];
        }
      }
    }
  }

  /** Re-joining on the same socket replaces the entry in place: the roster does not grow. */
  lemma {:induction false} SetEntryLength(r: seq<Entry>, e: Entry)
    ensures |SetEntry(r, e)| == if HasKey(r, e.socketId) then |r| else |r| + 1
  {
    if r != [] {
      SetEntryLength(r[1..], e);
      if HasKey(r, e.socketId) && r[0].socketId != e.socketId {
        var i :| 0 <= i < |r| && r[i].socketId == e.socketId;
        assert r[1..][i - 1].socketId == e.socketId;
      }
      if HasKey(r[1..], e.socketId) {
        var i :| 0 <= i < |r| - 1 && r[1..][i].socketId == e.socketId;
        assert r[i + 1].socketId == e.socketId;
      }
    }
  }

  /** Deleting a key removes exactly that key and keeps the other entries in order. */
  lemma DeleteEntryMap(r: seq<Entry>, k: SocketId)
    requires UniqueKeys(r)
    ensures UniqueKeys(DeleteEntry(r, k))
    ensures AsMap(DeleteEntry(r, k)) == AsMap(r) - {k}
    ensures DeleteEntry(r, k) == Without(r, k)
  {
    DeleteEntryUnique(r, k);
    DeleteEntryAsMap(r, k);
  }

  lemma UniqueTail(r: seq<Entry>)
    requires UniqueKeys(r) && r != []
    ensures UniqueKeys(r[1..]) && !HasKey(r[1..], r[0].socketId)
  {
    forall a, b | 0 <= a < b < |r| - 1 ensures r[1..][a].socketId != r[1..][b].socketId {
      assert r[a + 1].socketId != r[b + 1].socketId;
    }
    forall i | 0 <= i < |r| - 1 ensures r[1..][i].socketId != r[0].socketId {
      assert r[0].socketId != r[i + 1].socketId;
    }
  }

  lemma {:induction false} DeleteEntryUnique(r: seq<Entry>, k: SocketId)
    requires UniqueKeys(r)
    ensures UniqueKeys(DeleteEntry(r, k)) && DeleteEntry(r, k) == Without(r, k)
  {
    if r != [] {
      UniqueTail(r);
      if r[0].socketId == k {
        WithoutAbsent(r[1..], k);
      } else {
        var tail := DeleteEntry(r[1..], k);
        DeleteEntryUnique(r[1..], k);
        assert ([r[0]] + tail)[1..] == tail;
        forall i, j | 0 <= i < j < |[r[0]] + tail| ensures ([r[0]] + tail)[i].socketId != ([r[0]] + tail)[j].socketId {
          if i == 0 {
            assert tail[j - 1] in Without(r[1..], k);
            var m :| 0 <= m < |r[1..]| && r[1..][m] == tail[j - 1];
          }
        }
      }
    }
  }

  lemma {:induction false} DeleteEntryAsMap(r: seq<Entry>, k: SocketId)
    requires UniqueKeys(r)
    ensures AsMap(DeleteEntry(r, k)) == AsMap(r) - {k}
  {
    if r != [] {
      UniqueTail(r);
      if r[0].socketId == k {
        AsMapKeys(r[1..]);
        assert AsMap(r[1..]) - {k} == AsMap(r[1..]);
      } else {
        DeleteEntryAsMap(r[1..], k);
        assert ([r[0]] + DeleteEntry(r[1..], k))[1..] == DeleteEntry(r[1..], k);
      }
    }
  }

  /** The entries of `r` with any key but `k`, in order: the reference for a delete. */
  function Without(r: seq<Entry>, k: SocketId): (w: seq<Entry>)
    ensures forall x :: x in w <==> x in r && x.socketId != k
  {
    if r == [] then [] else (if r[0].socketId == k then [] else [r[0]]) + Without(r[1..], k)
  }

  lemma {:induction false} WithoutAbsent(r: seq<Entry>, k: SocketId)
    requires !HasKey(r, k)
    ensures Without(r, k) == r
  {
    if r != [] {
      assert !HasKey(r[1..], k) by {
        forall i | 0 <= i < |r| - 1 ensures r[1..][i].socketId != k {
          assert r[i + 1].socketId != k;
        }
      }
      WithoutAbsent(r[1..], k);
    }
  }

  lemma WithoutSub(r: seq<Entry>, k: SocketId)
    ensures forall x :: x in Without(r, k) ==> x in r
  {
  }

  /** In a roster with unique keys, the map sends each key to its entry. */
  lemma {:induction false} AsMapAt(r: seq<Entry>, i: nat)
    requires UniqueKeys(r) && i < |r|
    ensures r[i].socketId in AsMap(r) && AsMap(r)[r[i].socketId] == r[i]
  {
    if i > 0 {
      assert UniqueKeys(r[1..]) by {
        forall a, b | 0 <= a < b < |r| - 1 ensures r[1..][a].socketId != r[1..][b].socketId {
          assert r[a + 1].socketId != r[b + 1].socketId;
        }
      }
      AsMapAt(r[1..], i - 1);
      assert r[0].socketId != r[i].socketId;
    }
  }

  // ---------------------------------------------------------------------------
  // The server

  class Server {
    var roster: seq<Entry>                       // connectedUsers
    var sockets: map<SocketId, SocketState>      // the connected sockets
    var log: seq<Emission>                       // everything emitted so far

    /**
     * The roster never holds a socket twice, an entry of a connected socket agrees with
     * the fields `user:join` set on it, and a socket with a truthy `userId` has an entry.
     */
    predicate Valid()
      reads this
    {
      UniqueKeys(roster) &&
      (forall i :: 0 <= i < |roster| && roster[i].socketId in sockets ==>
        var s := sockets[roster[i].socketId];
        roster[i].id == s.userId && roster[i].name == s.userName && roster[i].role == s.userRole) &&
      (forall s :: s in sockets && Truthy(sockets[s].userId) ==> s in AsMap(roster))
    }

    constructor ()
      ensures Valid() && roster == [] && sockets == map[] && log == []
    {
      roster, sockets, log := [], map[], [];
    }

    /** `io.on('connection')`: a socket with a fresh id and none of the fields set. */
    method Connect(id: SocketId)
      requires Valid() && id !in sockets && id !in AsMap(roster)
      modifies this
      ensures Valid()
      ensures sockets == old(sockets)[id := FreshSocket] && roster == old(roster) && log == old(log)
    {
      sockets := sockets[id := FreshSocket];
      assert forall i :: 0 <= i < |roster| ==> roster[i].socketId != id by {
        forall i | 0 <= i < |roster| ensures roster[i].socketId != id {
          AsMapAt(roster, i);
        }
      }
    }

    /** `user:join`: the socket takes the user's fields and role room; the roster entry is set; everyone gets the list. */
    method Join(s: SocketId, u: UserData, now: nat)
      requires Valid() && s in sockets
      modifies this
      ensures Valid()
      ensures var st := old(sockets)[s];
        sockets == old(sockets)[s := st.(userId := u.id, userName := u.name, userRole := u.role,
                                         rooms := st.rooms + {ToText(u.role)})]
      ensures roster == SetEntry(old(roster), Entry(u.id, u.name, u.role, s, now))
      ensures AsMap(roster) == AsMap(old(roster))[s := Entry(u.id, u.name, u.role, s, now)]
      ensures log == old(log) + [ToAll(UsersUpdated(roster))]
    {
      var e := Entry(u.id, u.name, u.role, s, now);
      var st := sockets[s];
      SetEntryMap(roster, e);
      SetEntryKeys(roster, e);
      ghost var before := roster;
      sockets := sockets[s := st.(userId := u.id, userName := u.name, userRole := u.role, rooms := st.rooms + {ToText(u.role)})];
      roster := SetEntry(roster, e);
      log := log + [ToAll(UsersUpdated(roster))];
      forall i | 0 <= i < |roster| && roster[i].socketId in sockets
        ensures roster[i].id == sockets[roster[i].socketId].userId &&
                roster[i].name == sockets[roster[i].socketId].userName &&
                roster[i].role == sockets[roster[i].socketId].userRole
      {
        assert roster[i] in roster;
        if roster[i] != e {
          var j :| 0 <= j < |before| && before[j] == roster[i];
          AsMapAt(roster, i);
        }
      }
    }

    /** `task:viewing`: the socket joins the task's room and records the task; the room's others are told. */
    method Viewing(s: SocketId, taskId: Value)
      requires Valid() && s in sockets
      modifies this
      ensures Valid()
      ensures var st := old(sockets)[s];
        sockets == old(sockets)[s := st.(currentTask := taskId, rooms := st.rooms + {TaskRoom(taskId)})]
      ensures roster == old(roster)
      ensures log == old(log) + [ToRoom(TaskRoom(taskId), Others(sockets, TaskRoom(taskId), s),
                                        ViewerJoined(taskId, ViewerOf(sockets[s])))]
    {
      var st := sockets[s];
      sockets := sockets[s := st.(currentTask := taskId, rooms := st.rooms + {TaskRoom(taskId)})];
      log := log + [ToRoom(TaskRoom(taskId), Others(sockets, TaskRoom(taskId), s), ViewerJoined(taskId, ViewerOf(sockets[s])))];
    }

    /** `task:stop_viewing`: the socket leaves the task's room and forgets its current task. */
    method StopViewing(s: SocketId, taskId: Value)
      requires Valid() && s in sockets
      modifies this
      ensures Valid()
      ensures var st := old(sockets)[s];
        sockets == old(sockets)[s := st.(currentTask := Null, rooms := st.rooms - {TaskRoom(taskId)})]
      ensures roster == old(roster)
      ensures log == old(log) + [ToRoom(TaskRoom(taskId), Others(sockets, TaskRoom(taskId), s),
                                        ViewerLeft(taskId, ViewerOf(sockets[s])))]
    {
      var st := sockets[s];
      sockets := sockets[s := st.(currentTask := Null, rooms := st.rooms - {TaskRoom(taskId)})];
      log := log + [ToRoom(TaskRoom(taskId), Others(sockets, TaskRoom(taskId), s), ViewerLeft(taskId, ViewerOf(sockets[s])))];
    }

    /**
     * `disconnect`: the socket is gone; a socket that joined with a truthy id leaves the
     * roster and, when it was viewing a task, that task's room is told; everyone gets the list.
     */
    method Disconnect(s: SocketId)
      requires Valid() && s in sockets
      modifies this
      ensures Valid()
      ensures sockets == old(sockets) - {s}
      ensures var st := old(sockets)[s];
        roster == (if Truthy(st.userId) then DeleteEntry(old(roster), s) else old(roster)) &&
        log == old(log) +
          (if Truthy(st.userId) && Truthy(st.currentTask)
           then [ToRoom(TaskRoom(st.currentTask), Others(sockets, TaskRoom(st.currentTask), s),
                        ViewerLeft(st.currentTask, ViewerOf(st)))]
           else []) +
          [ToAll(UsersUpdated(roster))]
      ensures AsMap(roster) == if Truthy(old(sockets)[s].userId) then AsMap(old(roster)) - {s} else AsMap(old(roster))
    {
      var st := sockets[s];
      sockets := sockets - {s};
      ghost var before := roster;
      var left: seq<Emission> := [];
      if Truthy(st.userId) {
        DeleteEntryMap(roster, s);
        roster := DeleteEntry(roster, s);
        if Truthy(st.currentTask) {
          left := [ToRoom(TaskRoom(st.currentTask), Others(sockets, TaskRoom(st.currentTask), s),
                          ViewerLeft(st.currentTask, ViewerOf(st)))];
        }
      }
      log := log + left + [ToAll(UsersUpdated(roster))];
      forall i | 0 <= i < |roster| && roster[i].socketId in sockets
        ensures roster[i].id == sockets[roster[i].socketId].userId &&
                roster[i].name == sockets[roster[i].socketId].userName &&
                roster[i].role == sockets[roster[i].socketId].userRole
      {
        assert roster[i] in before;
        var j :| 0 <= j < |before| && before[j] == roster[i];
      }
      forall k | k in sockets && Truthy(sockets[k].userId) ensures k in AsMap(roster) {
        assert k in AsMap(before);
      }
    }
  }

  // ---------------------------------------------------------------------------
  // Scenarios

  /** Re-joining on the same socket leaves one roster entry for it, holding the latest data. */
  method RejoinScenario(a: UserData, b: UserData) returns (size: nat, latest: Option<Entry>)
    ensures size == 1 && latest == Some(Entry(b.id, b.name, b.role, "s1", 2))
  {
    var server := new Server();
    server.Connect("s1");
    server.Join("s1", a, 1);
    server.Join("s1", b, 2);
    SetEntryLength([Entry(a.id, a.name, a.role, "s1", 1)], Entry(b.id, b.name, b.role, "s1", 2));
    size := |server.roster|;
    latest := if "s1" in AsMap(server.roster) then Some(AsMap(server.roster)["s1"]) else None;
  }

  /**
   * A socket that joined with a falsy id keeps its roster entry after it disconnects:
   * the entry outlives the socket.
   */
  method FalsyJoinScenario(name: Value, role: Value) returns (entries: seq<Entry>, connected: set<SocketId>)
    ensures entries == [Entry(Num(0), name, role, "s1", 1)] && connected == {}
  {
    var server := new Server();
    server.Connect("s1");
    server.Join("s1", UserData(Num(0), name, role), 1);
    server.Disconnect("s1");
    entries := server.roster;
    connected := server.sockets.Keys;
  }

  /** Two signed-in sockets viewing the same task. */
  method TwoViewers(a: UserData, b: UserData, taskId: Value) returns (server: Server)
    ensures fresh(server) && server.Valid()
    ensures server.sockets.Keys == {"s1", "s2"}
    ensures server.sockets["s1"].userId == a.id && server.sockets["s1"].currentTask == taskId
    ensures ViewerOf(server.sockets["s1"]) == Viewer(a.id, a.name, a.role)
    ensures TaskRoom(taskId) in server.sockets["s2"].rooms
  {
    server := new Server();
    server.Connect("s1");
    server.Connect("s2");
    server.Join("s1", a, 1);
    server.Join("s2", b, 2);
    server.Viewing("s1", taskId);
    server.Viewing("s2", taskId);
  }

  /** A viewer who disconnects is announced to the other viewer of the task, not to itself. */
  method ViewerLeavesScenario(a: UserData, b: UserData, taskId: Value) returns (last: seq<Emission>)
    requires Truthy(a.id) && Truthy(taskId)
    ensures |last| == 2 && last[0] == ToRoom(TaskRoom(taskId), {"s2"}, ViewerLeft(taskId, Viewer(a.id, a.name, a.role)))
  {
    var server := TwoViewers(a, b, taskId);
    var before := |server.log|;
    server.Disconnect("s1");
    assert server.sockets.Keys == {"s2"};
    assert Others(server.sockets, TaskRoom(taskId), "s1") == {"s2"};
    last := server.log[before..];
  }
}
