/** The read side of the handlers: the LINQ queries behind the two message
    listings (`Where`, `OrderBy`/`OrderByDescending`, `Select`) and the join
    behind the room listing, as functions over the stored tables. */
module Queries {
  import opened Entities

  /** Which rows a message query keeps: those of one room, or those of one sender. */
  datatype Selector = ByRoom(roomId: int) | BySender(senderId: string)

  predicate Selects(sel: Selector, m: Msg)
  {
    match sel
    case ByRoom(r) => m.roomId == r
    case BySender(u) => m.senderId == u
  }

  /** A message table stored under its own ids, all in [1, bound). */
  ghost predicate KeyedBelow(t: map<int, Msg>, bound: int)
  {
    forall k :: k in t ==> t[k].id == k && 1 <= k < bound
  }

  predicate DistinctIds(s: seq<Msg>)
  {
    forall i, j :: 0 <= i < j < |s| ==> s[i].id != s[j].id
  }

  /** The rows of a message table with ids below `n`, in primary-key order. */
  function Rows(t: map<int, Msg>, n: int): (r: seq<Msg>)
    requires forall k :: k in t ==> t[k].id == k
    ensures forall m :: m in r ==> m.id in t && t[m.id] == m && m.id < n
    ensures forall k :: k in t && 1 <= k < n ==> t[k] in r
    ensures forall i, j :: 0 <= i < j < |r| ==> r[i].id < r[j].id
    ensures DistinctIds(r)
    decreases n
  {
    if n <= 1 then []
    else
      var prefix := Rows(t, n - 1);
      if n - 1 in t then prefix + [t[n - 1]] else prefix
  }

  /** `Where(m => ...)`: the rows the selector keeps, in their original order. */
  function Where(s: seq<Msg>, sel: Selector): (r: seq<Msg>)
    ensures forall m :: m in r <==> m in s && Selects(sel, m)
    ensures DistinctIds(s) ==> DistinctIds(r)
  {
    if s == [] then []
    else
      var rest := Where(s[1..], sel);
      assert s == [s[0]] + s[1..];
      if Selects(sel, s[0]) then
        (if DistinctIds(s) then DistinctTail(s); DistinctCons(s[0], rest); [s[0]] + rest
         else [s[0]] + rest)
      else
        (if DistinctIds(s) then DistinctTail(s); rest else rest)
  }

  lemma DistinctTail(s: seq<Msg>)
    requires |s| > 0 && DistinctIds(s)
    ensures DistinctIds(s[1..])
    ensures forall m :: m in s[1..] ==> m.id != s[0].id
  {
    forall m | m in s[1..] ensures m.id != s[0].id {
      var j :| 0 <= j < |s[1..]| && s[1..][j] == m;
      assert s[j + 1] == m;
    }
  }

  lemma DistinctCons(x: Msg, s: seq<Msg>)
    requires DistinctIds(s)
    requires forall m :: m in s ==> m.id != x.id
    ensures DistinctIds([x] + s)
  {
    var xs := [x] + s;
    forall i, j | 0 <= i < j < |xs| ensures xs[i].id != xs[j].id {
      assert xs[j] == s[j - 1];
      if i == 0 {
        assert s[j - 1] in s;
      } else {
        assert xs[i] == s[i - 1];
      }
    }
  }

  /** `a` may stand before `b` in a listing ordered by SentDate, ascending or
      descending. */
  predicate Before(a: Msg, b: Msg, ascending: bool)
  {
    if ascending then a.sentDate <= b.sentDate else b.sentDate <= a.sentDate
  }

  predicate Ordered(s: seq<Msg>, ascending: bool)
  {
    forall i, j :: 0 <= i < j < |s| ==> Before(s[i], s[j], ascending)
  }

  lemma OrderedCons(x: Msg, s: seq<Msg>, ascending: bool)
    requires Ordered(s, ascending)
    requires forall m :: m in s ==> Before(x, m, ascending)
    ensures Ordered([x] + s, ascending)
  {
    var xs := [x] + s;
    forall i, j | 0 <= i < j < |xs| ensures Before(xs[i], xs[j], ascending) {
      assert xs[j] == s[j - 1];
      if i == 0 {
        assert s[j - 1] in s;
      } else {
        assert xs[i] == s[i - 1];
      }
    }
  }

  /** Inserts `x` into a listing, before the first row it may stand before. */
  function Insert(x: Msg, s: seq<Msg>, ascending: bool): seq<Msg>
  {
    if s == [] || Before(x, s[0], ascending) then [x] + s
    else [s[0]] + Insert(x, s[1..], ascending)
  }

  /** Insertion adds exactly one occurrence of `x`. */
  lemma {:induction false} InsertPermutes(x: Msg, s: seq<Msg>, ascending: bool)
    ensures multiset(Insert(x, s, ascending)) == multiset(s) + multiset{x}
  {
    if s != [] && !Before(x, s[0], ascending) {
      InsertPermutes(x, s[1..], ascending);
      assert s == [s[0]] + s[1..];
    }
  }

  lemma InsertMembers(x: Msg, s: seq<Msg>, ascending: bool)
    ensures forall m :: m in Insert(x, s, ascending) <==> m == x || m in s
  {
    InsertPermutes(x, s, ascending);
    forall m ensures m in Insert(x, s, ascending) <==> m == x || m in s {
      assert m in Insert(x, s, ascending) <==> m in multiset(Insert(x, s, ascending));
      assert m in s <==> m in multiset(s);
    }
  }

  /** Inserting into an ordered listing keeps it ordered. */
  lemma {:induction false} InsertOrdered(x: Msg, s: seq<Msg>, ascending: bool)
    requires Ordered(s, ascending)
    ensures Ordered(Insert(x, s, ascending), ascending)
  {
    if s == [] || Before(x, s[0], ascending) {
      forall m | m in s ensures Before(x, m, ascending) {
        var j :| 0 <= j < |s| && s[j] == m;
        if j > 0 { assert Before(s[0], s[j], ascending); }
      }
      OrderedCons(x, s, ascending);
    } else {
      var tail := Insert(x, s[1..], ascending);
      assert Ordered(s[1..], ascending);
      InsertOrdered(x, s[1..], ascending);
      InsertMembers(x, s[1..], ascending);
      forall m | m in tail ensures Before(s[0], m, ascending) {
        if m != x {
          var j :| 0 <= j < |s[1..]| && s[1..][j] == m;
          assert s[j + 1] == m;
        }
      }
      OrderedCons(s[0], tail, ascending);
    }
  }

  /** Inserting a row with a new id keeps the ids distinct. */
  lemma {:induction false} InsertDistinct(x: Msg, s: seq<Msg>, ascending: bool)
    requires DistinctIds(s)
    requires forall m :: m in s ==> m.id != x.id
    ensures DistinctIds(Insert(x, s, ascending))
  {
    if s == [] || Before(x, s[0], ascending) {
      DistinctCons(x, s);
    } else {
      DistinctTail(s);
      InsertDistinct(x, s[1..], ascending);
      InsertMembers(x, s[1..], ascending);
      DistinctCons(s[0], Insert(x, s[1..], ascending));
    }
  }

  /** `OrderBy(m => m.SentDate)` (ascending) or `OrderByDescending` (not
      ascending). Rows with equal dates may come in any order; this
      insertion sort picks one. */
  function Sort(s: seq<Msg>, ascending: bool): seq<Msg>
  {
    if s == [] then [] else Insert(s[0], Sort(s[1..], ascending), ascending)
  }

  /** Sorting yields an ordered permutation of its input that keeps ids distinct. */
  lemma {:induction false} SortCorrect(s: seq<Msg>, ascending: bool)
    ensures Ordered(Sort(s, ascending), ascending)
    ensures multiset(Sort(s, ascending)) == multiset(s)
    ensures DistinctIds(s) ==> DistinctIds(Sort(s, ascending))
  {
    if s != [] {
      var sorted := Sort(s[1..], ascending);
      SortCorrect(s[1..], ascending);
      assert s == [s[0]] + s[1..];
      InsertOrdered(s[0], sorted, ascending);
      InsertPermutes(s[0], sorted, ascending);
      if DistinctIds(s) {
        DistinctTail(s);
        forall m | m in sorted ensures m.id != s[0].id {
          assert m in multiset(sorted);
          assert m in s[1..];
        }
        InsertDistinct(s[0], sorted, ascending);
      }
    }
  }

  /** A DTO listing shows exactly the selected rows of `t`: each DTO copies a
      stored, selected message, each selected message appears, and none twice. */
  ghost predicate ListsExactly(dtos: seq<MessageDto>, t: map<int, Msg>, sel: Selector)
  {
    && (forall d :: d in dtos ==> d.id in t && ToEntity(d) == t[d.id] && Selects(sel, t[d.id]))
    && (forall k :: k in t && Selects(sel, t[k]) ==> exists d :: d in dtos && d.id == k)
    && (forall i, j :: 0 <= i < j < |dtos| ==> dtos[i].id != dtos[j].id)
  }

  /** A DTO listing is ordered by SentDate, ascending or descending. */
  ghost predicate OrderedDtos(dtos: seq<MessageDto>, ascending: bool)
  {
    forall i, j :: 0 <= i < j < |dtos| ==>
      if ascending then dtos[i].sentDate <= dtos[j].sentDate
      else dtos[j].sentDate <= dtos[i].sentDate
  }

  /** `Select(m => new MessageDto { ... })` over a listing. */
  function Project(s: seq<Msg>, userNames: map<string, string>, fallback: string): seq<MessageDto>
  {
    if s == [] then [] else [ToDto(s[0], userNames, fallback)] + Project(s[1..], userNames, fallback)
  }

  lemma {:induction false} ProjectAt(s: seq<Msg>, userNames: map<string, string>, fallback: string)
    ensures |Project(s, userNames, fallback)| == |s|
    ensures forall i :: 0 <= i < |s| ==> Project(s, userNames, fallback)[i] == ToDto(s[i], userNames, fallback)
  {
    if s != [] {
      ProjectAt(s[1..], userNames, fallback);
    }
  }

  /** The rows a message listing shows, before projection: exactly the selected
      rows of the table, each once, ordered by SentDate. */
  lemma SelectedRows(t: map<int, Msg>, bound: int, sel: Selector, ascending: bool)
    requires KeyedBelow(t, bound)
    ensures var rows := Sort(Where(Rows(t, bound), sel), ascending);
      && (forall m :: m in rows ==> m.id in t && t[m.id] == m && Selects(sel, m))
      && (forall k :: k in t && Selects(sel, t[k]) ==> t[k] in rows)
      && DistinctIds(rows)
      && Ordered(rows, ascending)
  {
    var selected := Where(Rows(t, bound), sel);
    var rows := Sort(selected, ascending);
    SortCorrect(selected, ascending);
    forall m | m in rows ensures m in selected {
      assert m in multiset(rows);
    }
    forall k | k in t && Selects(sel, t[k]) ensures t[k] in rows {
      assert t[k] in multiset(selected);
    }
  }

  /** Projecting such rows gives a listing that shows exactly them, in order. */
  lemma ProjectionLists(rows: seq<Msg>, t: map<int, Msg>, sel: Selector, ascending: bool,
                        userNames: map<string, string>, fallback: string)
    requires forall k :: k in t ==> t[k].id == k
    requires forall m :: m in rows ==> m.id in t && t[m.id] == m && Selects(sel, m)
    requires forall k :: k in t && Selects(sel, t[k]) ==> t[k] in rows
    requires DistinctIds(rows) && Ordered(rows, ascending)
    ensures ListsExactly(Project(rows, userNames, fallback), t, sel)
    ensures OrderedDtos(Project(rows, userNames, fallback), ascending)
    ensures forall d :: d in Project(rows, userNames, fallback) ==>
              d.senderUserName == UserNameOr(userNames, d.senderId, fallback)
  {
    var dtos := Project(rows, userNames, fallback);
    ProjectAt(rows, userNames, fallback);
    forall d | d in dtos
      ensures d.id in t && ToEntity(d) == t[d.id] && Selects(sel, t[d.id])
      ensures d.senderUserName == UserNameOr(userNames, d.senderId, fallback)
    {
      var i :| 0 <= i < |dtos| && dtos[i] == d;
      assert rows[i] in rows;
    }
    forall k | k in t && Selects(sel, t[k]) ensures exists d :: d in dtos && d.id == k {
      var i :| 0 <= i < |rows| && rows[i] == t[k];
      assert dtos[i] == ToDto(rows[i], userNames, fallback);
      assert dtos[i] in dtos && dtos[i].id == k;
    }
  }

  /** A message listing: select, order by SentDate, project to DTOs with the
      sender name or `fallback`. */
  function Query(t: map<int, Msg>, bound: int, sel: Selector, ascending: bool,
                 userNames: map<string, string>, fallback: string): (dtos: seq<MessageDto>)
    requires KeyedBelow(t, bound)
    ensures ListsExactly(dtos, t, sel)
    ensures OrderedDtos(dtos, ascending)
    ensures forall d :: d in dtos ==> d.senderUserName == UserNameOr(userNames, d.senderId, fallback)
  {
    var rows := Sort(Where(Rows(t, bound), sel), ascending);
    SelectedRows(t, bound, sel, ascending);
    ProjectionLists(rows, t, sel, ascending, userNames, fallback);
    Project(rows, userNames, fallback)
  }

  /** `UserRooms.Where(ur => ur.UserId == userId).Include(ur => ur.Room)`
      projected to DTOs, reading room ids below `n` in key order. */
  function RoomsOf(rooms: map<int, string>, members: set<UserRoom>, userId: string, n: int): (r: seq<RoomDto>)
    ensures forall d :: d in r <==>
              1 <= d.id < n && d.id in rooms && UserRoom(userId, d.id) in members && d.chatRoomName == rooms[d.id]
    ensures forall i, j :: 0 <= i < j < |r| ==> r[i].id != r[j].id
    decreases n
  {
    if n <= 1 then []
    else
      var prefix := RoomsOf(rooms, members, userId, n - 1);
      var id := n - 1;
      if id in rooms && UserRoom(userId, id) in members then prefix + [RoomDto(id, rooms[id])] else prefix
  }
}
