/** Who is in which chat room, kept twice: by room and by user. */
module ChatIndex {
  import opened GoChannels

  type Room = string
  type User = string

  /** A map of sets: `map[string]map[string]struct{}`. */
  type Index = map<string, set<string>>

  function Row(index: Index, key: string): set<string> {
    if key in index then index[key] else {}
  }

  function Put(index: Index, key: string, x: string): (r: Index)
    ensures forall k :: Row(r, k) == if k == key then Row(index, k) + {x} else Row(index, k)
  {
    index[key := Row(index, key) + {x}]
  }

  /** Removes one element, and its row with it when that becomes empty. */
  function Cut(index: Index, key: string, x: string): (r: Index)
    ensures forall k :: Row(r, k) == if k == key then Row(index, k) - {x} else Row(index, k)
  {
    if x !in Row(index, key) then index
    else if index[key] - {x} == {} then index - {key}
    else index[key := index[key] - {x}]
  }

  ghost predicate NoEmptyRow(index: Index) {
    forall k :: k in index ==> index[k] != {}
  }

  /** The two sides say the same. */
  ghost predicate Mirror(rooms: Index, userRooms: Index) {
    forall r, u :: u in Row(rooms, r) <==> r in Row(userRooms, u)
  }

  ghost predicate IndexValid(rooms: Index, userRooms: Index) {
    NoEmptyRow(rooms) && NoEmptyRow(userRooms) && Mirror(rooms, userRooms)
  }

  lemma PutKeepsNoEmptyRow(index: Index, key: string, x: string)
    requires NoEmptyRow(index)
    ensures NoEmptyRow(Put(index, key, x))
    ensures Put(index, key, x).Keys == index.Keys + {key}
    ensures x !in Row(index, key) ==> |Row(Put(index, key, x), key)| == |Row(index, key)| + 1
  {
    assert x in Put(index, key, x)[key];
  }

  lemma CutKeepsNoEmptyRow(index: Index, key: string, x: string)
    requires NoEmptyRow(index)
    ensures NoEmptyRow(Cut(index, key, x))
    ensures Cut(index, key, x).Keys == if Row(index, key) == {x} then index.Keys - {key} else index.Keys
    ensures x in Row(index, key) ==> |Row(Cut(index, key, x), key)| == |Row(index, key)| - 1
  {
    var r := Cut(index, key, x);
    if x in Row(index, key) {
      OnlyElement(index[key], x);
    }
    assert forall k :: k in r && k != key ==> r[k] == index[k];
  }

  lemma OnlyElement(s: set<string>, x: string)
    requires x in s
    ensures s - {x} == {} <==> s == {x}
  {
    if s - {x} == {} {
      assert s == s - {x} + {x};
    }
  }

  lemma PutKeepsMirror(rooms: Index, userRooms: Index, room: Room, user: User)
    requires Mirror(rooms, userRooms)
    ensures Mirror(Put(rooms, room, user), Put(userRooms, user, room))
  {
  }

  lemma CutKeepsMirror(rooms: Index, userRooms: Index, room: Room, user: User)
    requires Mirror(rooms, userRooms)
    ensures Mirror(Cut(rooms, room, user), Cut(userRooms, user, room))
  {
  }

  /** Undoing an insertion restores the map itself, and not just the relation, because no row is empty. */
  lemma CutUndoesPut(index: Index, key: string, x: string)
    requires NoEmptyRow(index) && x !in Row(index, key)
    ensures Cut(Put(index, key, x), key, x) == index
  {
    var put := Put(index, key, x);
    assert put[key] - {x} == Row(index, key);
  }

  // --- The relation -----------------------------------------------------------------------------------

  ghost function Members(rooms: Index): iset<(Room, User)> {
    iset r: Room, u: User | u in Row(rooms, r) :: (r, u)
  }

  /** Without empty rows there is only one way to write a relation down. */
  lemma OneForm(a: Index, b: Index)
    requires NoEmptyRow(a) && NoEmptyRow(b) && Members(a) == Members(b)
    ensures a == b
  {
    forall k ensures Row(a, k) == Row(b, k) {
      forall x ensures x in Row(a, k) <==> x in Row(b, k) {
        assert (k, x) in Members(a) <==> (k, x) in Members(b);
      }
    }
    forall k ensures k in a <==> k in b {
      assert k in a <==> Row(a, k) != {};
      assert k in b <==> Row(b, k) != {};
    }
    forall k | k in a ensures a[k] == b[k] {
      assert Row(a, k) == Row(b, k);
    }
  }

  lemma PutIsInsert(rooms: Index, room: Room, user: User)
    ensures Members(Put(rooms, room, user)) == Members(rooms) + iset{(room, user)}
  {
  }

  lemma CutIsDelete(rooms: Index, room: Room, user: User)
    ensures Members(Cut(rooms, room, user)) == Members(rooms) - iset{(room, user)}
  {
  }

  // --- The store's operations as values -----------------------------------------------------------------

  datatype Book = Book(clients: map<User, ChanId>, rooms: Index, userRooms: Index) {
    ghost predicate Valid() {
      IndexValid(rooms, userRooms)
    }
  }

  const EMPTY_BOOK: Book := Book(map[], map[], map[])

  /** A user without a client joins nothing. */
  function Join(b: Book, room: Room, user: User): (r: (Book, bool))
    ensures !r.1 ==> r.0 == b
  {
    if user !in b.clients || room in Row(b.userRooms, user) then (b, false) else
      (b.(rooms := Put(b.rooms, room, user), userRooms := Put(b.userRooms, user, room)), true)
  }

  datatype Left = Left(book: Book, removed: bool, roomEmpty: bool)

  function Leave(b: Book, room: Room, user: User): (r: Left)
    ensures !r.removed ==> r.book == b && !r.roomEmpty
  {
    if user !in Row(b.rooms, room) then Left(b, false, false) else
      var rooms := Cut(b.rooms, room, user);
      Left(b.(rooms := rooms, userRooms := Cut(b.userRooms, user, room)), true, room !in rooms)
  }

  lemma JoinKeepsValid(b: Book, room: Room, user: User)
    requires b.Valid()
    ensures Join(b, room, user).0.Valid()
  {
    PutKeepsNoEmptyRow(b.rooms, room, user);
    PutKeepsNoEmptyRow(b.userRooms, user, room);
    PutKeepsMirror(b.rooms, b.userRooms, room, user);
  }

  lemma LeaveKeepsValid(b: Book, room: Room, user: User)
    requires b.Valid()
    ensures Leave(b, room, user).book.Valid()
  {
    CutKeepsNoEmptyRow(b.rooms, room, user);
    CutKeepsNoEmptyRow(b.userRooms, user, room);
    CutKeepsMirror(b.rooms, b.userRooms, room, user);
  }

  /** Joining inserts one pair, and says so exactly when the user has a client and is not yet a member. */
  lemma JoinIsInsert(b: Book, room: Room, user: User)
    requires b.Valid()
    ensures var (r, added) := Join(b, room, user);
            && (added <==> user in b.clients && (room, user) !in Members(b.rooms))
            && Members(r.rooms) == (if added then Members(b.rooms) + iset{(room, user)} else Members(b.rooms))
            && r.clients == b.clients
  {
    PutIsInsert(b.rooms, room, user);
    assert user in Row(b.rooms, room) <==> room in Row(b.userRooms, user);
  }

  /** Leaving deletes one pair; `roomEmpty` is reported exactly by the last member. */
  lemma LeaveIsDelete(b: Book, room: Room, user: User)
    requires b.Valid()
    ensures var r := Leave(b, room, user);
            && Members(r.book.rooms) == Members(b.rooms) - iset{(room, user)}
            && (r.removed <==> (room, user) in Members(b.rooms))
            && (r.roomEmpty <==> r.removed && forall u :: u != user ==> (room, u) !in Members(b.rooms))
            && r.book.clients == b.clients
  {
    CutIsDelete(b.rooms, room, user);
    CutKeepsNoEmptyRow(b.rooms, room, user);
    if user in Row(b.rooms, room) {
      LastMember(b.rooms, room, user);
    }
  }

  lemma LastMember(rooms: Index, room: Room, user: User)
    requires user in Row(rooms, room)
    ensures Row(rooms, room) == {user} <==> forall u :: u != user ==> (room, u) !in Members(rooms)
  {
    if forall u :: u != user ==> (room, u) !in Members(rooms) {
      forall u | u in Row(rooms, room) ensures u == user {
        assert (room, u) in Members(rooms);
      }
    }
  }

  /** A failed join is undone exactly. */
  lemma LeaveUndoesJoin(b: Book, room: Room, user: User)
    requires b.Valid() && Join(b, room, user).1
    ensures Leave(Join(b, room, user).0, room, user).book == b
  {
    assert user in Row(b.rooms, room) <==> room in Row(b.userRooms, user);
    CutUndoesPut(b.rooms, room, user);
    CutUndoesPut(b.userRooms, user, room);
  }

  // --- One user out of many rooms -----------------------------------------------------------------------

  /** The index once `user` has left the rooms in `gone`. */
  function Evict(rooms: Index, user: User, gone: set<Room>): (r: Index)
    ensures forall k :: Row(r, k) == if k in gone then Row(rooms, k) - {user} else Row(rooms, k)
  {
    map k | k in rooms && !(k in gone && rooms[k] == {user}) :: if k in gone then rooms[k] - {user} else rooms[k]
  }

  lemma EvictKeepsNoEmptyRow(rooms: Index, user: User, gone: set<Room>)
    requires NoEmptyRow(rooms)
    ensures NoEmptyRow(Evict(rooms, user, gone))
  {
    forall k | k in rooms && user in rooms[k] ensures rooms[k] - {user} == {} <==> rooms[k] == {user} {
      OnlyElement(rooms[k], user);
    }
    assert forall k :: k in rooms && user !in rooms[k] ==> rooms[k] - {user} == rooms[k];
  }

  /** One more room. */
  lemma EvictOneMore(rooms: Index, user: User, gone: set<Room>, room: Room)
    requires NoEmptyRow(rooms) && room !in gone
    ensures Cut(Evict(rooms, user, gone), room, user) == Evict(rooms, user, gone + {room})
  {
    hide Members, Evict, Cut;
    var a, b := Cut(Evict(rooms, user, gone), room, user), Evict(rooms, user, gone + {room});
    EvictKeepsNoEmptyRow(rooms, user, gone);
    EvictKeepsNoEmptyRow(rooms, user, gone + {room});
    CutKeepsNoEmptyRow(Evict(rooms, user, gone), room, user);
    SameRows(a, b);
  }

  lemma SameRows(a: Index, b: Index)
    requires NoEmptyRow(a) && NoEmptyRow(b) && forall k :: Row(a, k) == Row(b, k)
    ensures a == b
  {
    assert forall k :: (k in a <==> Row(a, k) != {}) && (k in b <==> Row(b, k) != {});
    assert a.Keys == b.Keys;
    assert forall k :: k in a ==> a[k] == Row(a, k) && b[k] == Row(b, k);
  }

  /** Leaving every room takes away exactly the user's pairs. */
  lemma EvictAll(b: Book, user: User)
    requires b.Valid()
    ensures Members(Evict(b.rooms, user, Row(b.userRooms, user)))
         == iset r: Room, u: User | (r, u) in Members(b.rooms) && u != user :: (r, u)
  {
    var mine := Row(b.userRooms, user);
    var left := Evict(b.rooms, user, mine);
    forall r, u ensures (r, u) in Members(left) <==> (r, u) in Members(b.rooms) && u != user {
      assert u in Row(left, r) <==> u in Row(b.rooms, r) && !(r in mine && u == user);
      assert user in Row(b.rooms, r) <==> r in mine;
    }
  }
}
