// The game driver of the TypeScript generation (src/main.ts): the global
// `state` and the `PLAYERS` list as the class `Game`, whose methods apply the
// rules of src/core/logic.ts and the choices of src/core/ai.ts to the board.
//
// The territory record is a board in ascending id order, as in `Logic`.
// Player `i` of `PLAYERS` has id `i` (`startGame`), and a territory's owner is
// a player id, so `state.turn` doubles as the id of the player to move.
// Timers (`setTimeout`, the `wait` pauses of `cpuTurn`) become sequential steps;
// `Math.random()` is an explicit stream whose draws are counted from `k0`.
module MainTs {
  import opened Util
  import opened Logic
  import Ai
  import Rand

  datatype Kind = Human | Cpu(difficulty: Ai.Difficulty)

  datatype Player = Player(id: int, kind: Kind)

  datatype Phase = Deploy | Attack | Fortify

  // ---------------------------------------------------------------------
  // The board as a value

  /** The board with entry `id` given `owner` and `troops`; every other entry as it was. */
  function Put(board: seq<Territory>, id: int, owner: int, troops: int): (r: seq<Territory>)
    ensures |r| == |board|
    ensures forall i :: 0 <= i < |r| ==> r[i].id == board[i].id && r[i].neighbors == board[i].neighbors
    ensures forall i :: 0 <= i < |r| ==>
              && r[i].owner == (if board[i].id == id then owner else board[i].owner)
              && r[i].troops == (if board[i].id == id then troops else board[i].troops)
  {
    seq(|board|, i requires 0 <= i < |board| =>
      if board[i].id == id then board[i].(owner := owner, troops := troops) else board[i])
  }

  /** `updateTroopCount(terr, delta)` on the entry `id`: `delta` more troops, owner kept. */
  function Add(board: seq<Territory>, id: int, delta: int): (r: seq<Territory>)
    ensures |r| == |board|
    ensures forall i :: 0 <= i < |r| ==> r[i].id == board[i].id && r[i].neighbors == board[i].neighbors
    ensures forall i :: 0 <= i < |r| ==>
              && r[i].owner == board[i].owner
              && r[i].troops == (if board[i].id == id then board[i].troops + delta else board[i].troops)
  {
    seq(|board|, i requires 0 <= i < |board| =>
      if board[i].id == id then board[i].(troops := board[i].troops + delta) else board[i])
  }

  /** All troops on the board. */
  function Total(board: seq<Territory>): int {
    if board == [] then 0 else board[0].troops + Total(board[1..])
  }

  /** Same ids and neighbour sets at every position: only owners and troops differ. */
  predicate SameMap(a: seq<Territory>, b: seq<Territory>) {
    |a| == |b| && forall i :: 0 <= i < |a| ==> a[i].id == b[i].id && a[i].neighbors == b[i].neighbors
  }

  /** What a board keeps throughout a game of `n` players: one entry per positive id,
      every owner a player, every neighbour an existing territory, and every territory
      listed in the territory info. */
  predicate BoardOk(board: seq<Territory>, n: int, info: Ai.TerritoryInfo) {
    && ValidBoard(board)
    && (forall i :: 0 <= i < |board| ==> 0 <= board[i].owner < n && board[i].id in info)
    && (forall i, j :: 0 <= i < |board| && 0 <= j < |board[i].neighbors| ==> board[i].neighbors[j] in Ids(board))
  }

  /** The ids on the board. */
  function Ids(board: seq<Territory>): set<int> {
    if board == [] then {} else {board[0].id} + Ids(board[1..])
  }

  /** An id is on the board exactly when some territory carries it. */
  lemma {:induction false} IdsHas(board: seq<Territory>, x: int)
    ensures x in Ids(board) <==> HasId(board, x)
  {
    if board != [] {
      IdsHas(board[1..], x);
      if HasId(board, x) && board[0].id != x {
        var t :| t in board && t.id == x;
        assert t in board[1..];
      }
      if HasId(board[1..], x) {
        var t :| t in board[1..] && t.id == x;
        assert t in board;
      }
    }
  }

  /** Boards with the same id at every position hold the same ids. */
  lemma {:induction false} IdsAgree(a: seq<Territory>, b: seq<Territory>)
    requires |a| == |b| && forall i :: 0 <= i < |a| ==> a[i].id == b[i].id
    ensures Ids(a) == Ids(b)
  {
    if a != [] {
      IdsAgree(a[1..], b[1..]);
    }
  }

  /** Boards with the same map have the same ids, and one is valid when the other is. */
  lemma SameMapKeeps(a: seq<Territory>, b: seq<Territory>, x: int)
    requires SameMap(a, b)
    ensures HasId(a, x) <==> HasId(b, x)
    ensures ValidBoard(a) ==> ValidBoard(b)
  {
    if ValidBoard(a) {
      AscendingSameIds(a, b);
    }
    if HasId(a, x) {
      var t :| t in a && t.id == x;
      var i :| 0 <= i < |a| && a[i] == t;
      assert b[i] in b && b[i].id == x;
    }
    if HasId(b, x) {
      var t :| t in b && t.id == x;
      var i :| 0 <= i < |b| && b[i] == t;
      assert a[i] in a && a[i].id == x;
    }
  }

  /** In a valid board the entry read at `x` sits at the one position holding id `x`. */
  lemma LookupAt(board: seq<Territory>, i: int)
    requires ValidBoard(board) && 0 <= i < |board|
    ensures Lookup(board, board[i].id) == Some(board[i])
  {
    LookupUnique(board, board[i]);
  }

  /** In a valid board the entry at position `k` is the only one with its id. */
  lemma IdsDistinct(board: seq<Territory>, k: int)
    requires ValidBoard(board) && 0 <= k < |board|
    ensures forall i :: 0 <= i < |board| && i != k ==> board[i].id != board[k].id
  {
    AscendingPairs(board);
  }

  /** Two boards whose troops differ only at position `k`, by `delta`, differ in total by `delta`. */
  lemma {:induction false} TotalShift(a: seq<Territory>, b: seq<Territory>, k: int, delta: int)
    requires |a| == |b| && 0 <= k < |a|
    requires forall i :: 0 <= i < |a| && i != k ==> b[i].troops == a[i].troops
    requires b[k].troops == a[k].troops + delta
    ensures Total(b) == Total(a) + delta
  {
    if k == 0 {
      TotalSame(a[1..], b[1..]);
    } else {
      TotalShift(a[1..], b[1..], k - 1, delta);
    }
  }

  /** Two boards with the same troops at every position have the same total. */
  lemma {:induction false} TotalSame(a: seq<Territory>, b: seq<Territory>)
    requires |a| == |b|
    requires forall i :: 0 <= i < |a| ==> b[i].troops == a[i].troops
    ensures Total(b) == Total(a)
  {
    if a != [] {
      TotalSame(a[1..], b[1..]);
    }
  }

  /** In boards with the same map, the entry read at `x` sits at the same position. */
  lemma SameMapAt(board: seq<Territory>, r: seq<Territory>, x: int) returns (i: int)
    requires ValidBoard(board) && SameMap(board, r) && HasId(board, x)
    ensures 0 <= i < |board| && board[i].id == x
    ensures Lookup(board, x) == Some(board[i]) && Lookup(r, x) == Some(r[i])
  {
    var t :| t in board && t.id == x;
    i :| 0 <= i < |board| && board[i] == t;
    LookupAt(board, i);
    SameMapKeeps(board, r, x);
    LookupAt(r, i);
  }

  /** Changing the entry `id` of a valid board keeps it valid and its ids, and changes
      what is read at `id` and nothing else. */
  lemma PutRead(board: seq<Territory>, id: int, owner: int, troops: int, x: int)
    requires ValidBoard(board)
    ensures var r := Put(board, id, owner, troops);
            && SameMap(board, r) && ValidBoard(r)
            && (HasId(r, x) <==> HasId(board, x))
            && (HasId(board, x) ==>
                  && Lookup(r, x).value.neighbors == Lookup(board, x).value.neighbors
                  && Lookup(r, x).value.owner == (if x == id then owner else Lookup(board, x).value.owner)
                  && Lookup(r, x).value.troops == (if x == id then troops else Lookup(board, x).value.troops))
  {
    var r := Put(board, id, owner, troops);
    SameMapKeeps(board, r, x);
    if HasId(board, x) {
      var i := SameMapAt(board, r, x);
    }
  }

  /** Changing the entry at position `k` moves the total by the change in its troops. */
  lemma PutTotal(board: seq<Territory>, k: int, owner: int, troops: int)
    requires ValidBoard(board) && 0 <= k < |board|
    ensures Total(Put(board, board[k].id, owner, troops)) == Total(board) - board[k].troops + troops
  {
    IdsDistinct(board, k);
    TotalShift(board, Put(board, board[k].id, owner, troops), k, troops - board[k].troops);
  }

  /** Adding to the entry `id` of a valid board keeps it valid, its ids and its owners,
      and changes only the troops read at `id`. */
  lemma AddRead(board: seq<Territory>, id: int, delta: int, x: int)
    requires ValidBoard(board)
    ensures var r := Add(board, id, delta);
            && SameMap(board, r) && ValidBoard(r)
            && (HasId(r, x) <==> HasId(board, x))
            && (HasId(board, x) ==>
                  && Lookup(r, x).value.neighbors == Lookup(board, x).value.neighbors
                  && Lookup(r, x).value.owner == Lookup(board, x).value.owner
                  && Lookup(r, x).value.troops == Lookup(board, x).value.troops + (if x == id then delta else 0))
  {
    var r := Add(board, id, delta);
    SameMapKeeps(board, r, x);
    if HasId(board, x) {
      var i := SameMapAt(board, r, x);
    }
  }

  /** Adding `delta` to the entry at position `k` adds `delta` to the total. */
  lemma AddTotal(board: seq<Territory>, k: int, delta: int)
    requires ValidBoard(board) && 0 <= k < |board|
    ensures Total(Add(board, board[k].id, delta)) == Total(board) + delta
  {
    IdsDistinct(board, k);
    TotalShift(board, Add(board, board[k].id, delta), k, delta);
  }

  /** Adding to an id the board does not hold changes nothing. */
  lemma AddMissing(board: seq<Territory>, id: int, delta: int)
    requires !HasId(board, id)
    ensures Add(board, id, delta) == board
  {
    var r := Add(board, id, delta);
    forall i | 0 <= i < |board| ensures r[i] == board[i] {
      assert board[i] in board;
    }
  }

  /** A change of owner to a player and of troops keeps a board fit for the game. */
  lemma PutOk(board: seq<Territory>, id: int, owner: int, troops: int, n: int, info: Ai.TerritoryInfo)
    requires BoardOk(board, n, info) && 0 <= owner < n
    ensures BoardOk(Put(board, id, owner, troops), n, info)
    ensures SameMap(board, Put(board, id, owner, troops))
  {
    var r := Put(board, id, owner, troops);
    IdsAgree(board, r);
    SameMapKeeps(board, r, 0);
  }

  /** Adding troops keeps a board fit for the game. */
  lemma AddOk(board: seq<Territory>, id: int, delta: int, n: int, info: Ai.TerritoryInfo)
    requires BoardOk(board, n, info)
    ensures BoardOk(Add(board, id, delta), n, info)
    ensures SameMap(board, Add(board, id, delta))
  {
    var r := Add(board, id, delta);
    IdsAgree(board, r);
    SameMapKeeps(board, r, 0);
  }

  // ---------------------------------------------------------------------
  // Players and turns

  /** `startGame`'s `PLAYERS`: the human with id 0, then `cpuCount` CPUs of one
      difficulty with ids 1 to `cpuCount`. */
  function Roster(cpuCount: nat, difficulty: Ai.Difficulty): (ps: seq<Player>)
    ensures |ps| == cpuCount + 1 && ps[0] == Player(0, Human)
    ensures forall i :: 0 <= i < |ps| ==> ps[i].id == i
    ensures forall i :: 1 <= i < |ps| ==> ps[i].kind == Cpu(difficulty)
  {
    [Player(0, Human)] + seq(cpuCount, i requires 0 <= i < cpuCount => Player(i + 1, Cpu(difficulty)))
  }

  /** `(turn + 1) % PLAYERS.length` for a seat `turn` of `n`. */
  function Next(turn: int, n: int): (t: int)
    requires 0 <= turn < n
    ensures 0 <= t < n
  {
    if turn + 1 == n then 0 else turn + 1
  }

  /** The seat `c` places after `turn` in rotation order. */
  function Walk(turn: int, c: nat, n: int): (t: int)
    requires 0 <= turn < n
    ensures 0 <= t < n
  {
    if c == 0 then turn else Next(Walk(turn, c - 1, n), n)
  }

  /** The do-while of `endTurn`, at seat `turn` after `attempts` attempts: the next seat
      is tried, and it is passed over while its player owns no territory and fewer than
      `n` attempts were made. */
  function Advance(board: seq<Territory>, n: int, turn: int, attempts: nat): (t: int)
    requires 0 <= turn < n && attempts < n
    ensures 0 <= t < n
    decreases n - attempts
  {
    var t := Next(turn, n);
    if CountTerritories(board, t) == 0 && attempts + 1 < n then Advance(board, n, t, attempts + 1) else t
  }

  /** Walking `c` seats from `turn` without wrapping twice lands on `turn + c`, less `n`
      once it passes the last seat. */
  lemma {:induction false} WalkOffset(turn: int, c: nat, n: int)
    requires 0 <= turn < n && c <= n
    ensures Walk(turn, c, n) == if turn + c < n then turn + c else turn + c - n
  {
    if c > 0 {
      WalkOffset(turn, c - 1, n);
    }
  }

  /** The turn goes to the first player after the current one, in rotation order, that
      owns a territory. */
  lemma AdvanceFirstOwner(board: seq<Territory>, n: int, turn: int, b: nat)
    requires 0 <= turn < n && 1 <= b <= n
    requires CountTerritories(board, Walk(turn, b, n)) > 0
    requires forall c :: 1 <= c < b ==> CountTerritories(board, Walk(turn, c, n)) == 0
    ensures Advance(board, n, turn, 0) == Walk(turn, b, n)
  {
    AdvanceFrom(board, n, turn, 0, b);
  }

  lemma {:induction false} AdvanceFrom(board: seq<Territory>, n: int, turn: int, a: nat, b: nat)
    requires 0 <= turn < n && a < b <= n
    requires CountTerritories(board, Walk(turn, b, n)) > 0
    requires forall c :: a < c < b ==> CountTerritories(board, Walk(turn, c, n)) == 0
    ensures Advance(board, n, Walk(turn, a, n), a) == Walk(turn, b, n)
    decreases b - a
  {
    if a + 1 < b {
      AdvanceFrom(board, n, turn, a + 1, b);
    }
  }

  /** While some player owns a territory, the rotation stops at a player who owns one. */
  lemma AdvanceReachesOwner(board: seq<Territory>, n: int, turn: int, q: int)
    requires 0 <= turn < n && 0 <= q < n
    requires CountTerritories(board, q) > 0
    ensures CountTerritories(board, Advance(board, n, turn, 0)) > 0
  {
    var d := if q > turn then q - turn else q - turn + n;
    WalkOffset(turn, d, n);
    OwnerAhead(board, n, turn, 0, d);
  }

  lemma {:induction false} OwnerAhead(board: seq<Territory>, n: int, turn: int, a: nat, d: nat)
    requires 0 <= turn < n && a < d <= n
    requires CountTerritories(board, Walk(turn, d, n)) > 0
    ensures CountTerritories(board, Advance(board, n, Walk(turn, a, n), a)) > 0
    decreases d - a
  {
    if a + 1 < d {
      OwnerAhead(board, n, turn, a + 1, d);
    }
  }

  /** With no territory owned by anyone, all `n` attempts are made and the turn comes
      back to the same seat. */
  lemma AdvanceFullCircle(board: seq<Territory>, n: int, turn: int)
    requires 0 <= turn < n
    requires forall q :: 0 <= q < n ==> CountTerritories(board, q) == 0
    ensures Advance(board, n, turn, 0) == turn
  {
    WalkOffset(turn, n, n);
    FullFrom(board, n, turn, 0);
  }

  lemma {:induction false} FullFrom(board: seq<Territory>, n: int, turn: int, a: nat)
    requires 0 <= turn < n && a < n
    requires forall q :: 0 <= q < n ==> CountTerritories(board, q) == 0
    ensures Advance(board, n, Walk(turn, a, n), a) == Walk(turn, n, n)
    decreases n - a
  {
    if a + 1 < n {
      FullFrom(board, n, turn, a + 1);
    }
  }

  /** `PLAYERS.filter(p => countTerritories(state.territories, p.id) > 0)`. */
  function Active(players: seq<Player>, board: seq<Territory>): seq<Player> {
    if players == [] then []
    else
      var last := players[|players| - 1];
      Active(players[..|players| - 1], board) + (if CountTerritories(board, last.id) > 0 then [last] else [])
  }

  /** The active players are those who own a territory, each once when the roster has
      no repeats. */
  lemma {:induction false} ActiveMembers(players: seq<Player>, board: seq<Territory>)
    ensures forall q :: q in Active(players, board) <==> q in players && CountTerritories(board, q.id) > 0
    ensures NoDup(players) ==> NoDup(Active(players, board))
  {
    if players != [] {
      var front := players[..|players| - 1];
      var last := players[|players| - 1];
      ActiveMembers(front, board);
      assert players == front + [last];
      assert forall q :: q in front ==> q in players;
      assert NoDup(players) ==> last !in front;
    }
  }

  /** With `w` a player who owns a territory, exactly one player is still active when,
      and only when, no other player owns a territory. */
  lemma SoleSurvivor(players: seq<Player>, board: seq<Territory>, w: Player)
    requires NoDup(players) && w in players && CountTerritories(board, w.id) > 0
    ensures |Active(players, board)| == 1 <==>
              forall q :: q in players && CountTerritories(board, q.id) > 0 ==> q == w
  {
    var r := Active(players, board);
    ActiveMembers(players, board);
    if forall q :: q in players && CountTerritories(board, q.id) > 0 ==> q == w {
      OnlyActive(players, board, w);
    }
    if |r| == 1 {
      assert r[0] in r && w in r;
    }
  }

  /** When `w` is the one player owning territory, `w` alone is active. */
  lemma {:induction false} OnlyActive(players: seq<Player>, board: seq<Territory>, w: Player)
    requires NoDup(players) && w in players && CountTerritories(board, w.id) > 0
    requires forall q :: q in players && CountTerritories(board, q.id) > 0 ==> q == w
    ensures Active(players, board) == [w]
  {
    var front := players[..|players| - 1];
    var last := players[|players| - 1];
    assert players == front + [last];
    assert forall q :: q in front ==> q in players;
    if last == w {
      assert w !in front;
      NoneActive(front, board);
    } else {
      assert w in front;
      OnlyActive(front, board, w);
    }
  }

  /** No player is active when none of them owns a territory. */
  lemma {:induction false} NoneActive(players: seq<Player>, board: seq<Territory>)
    requires forall q :: q in players ==> CountTerritories(board, q.id) == 0
    ensures Active(players, board) == []
  {
    if players != [] {
      var front := players[..|players| - 1];
      assert forall q :: q in front ==> q in players;
      NoneActive(front, board);
    }
  }

  /** `maxAttacks` of `cpuTurn`: 10 for HARD, 5 for MEDIUM, 3 otherwise. */
  function MaxAttacks(difficulty: Ai.Difficulty): nat {
    match difficulty
    case Hard => 10
    case Medium => 5
    case _ => 3
  }

  /** The attack bonus of `resolveBattle`: 15 for a HARD CPU, 0 otherwise. */
  function Bonus(player: Player): int {
    if player.kind == Cpu(Ai.Hard) then 15 else 0
  }

  // ---------------------------------------------------------------------
  // Setting up the map

  /** `state.territories[id]`: the position of the entry with that id. */
  function IndexOf(board: seq<Territory>, id: int): (k: int)
    requires HasId(board, id)
    ensures 0 <= k < |board| && board[k].id == id
  {
    if board[0].id == id then 0
    else
      assert HasId(board[1..], id) by {
        var t :| t in board && t.id == id;
        var i :| 0 <= i < |board| && board[i] == t;
        assert board[1..][i - 1] == t;
      }
      1 + IndexOf(board[1..], id)
  }

  /** `addManualConnections` for one pair: each of `id1` and `id2` gains the other as a
      neighbour, when both territories exist; otherwise nothing changes. */
  function Link(board: seq<Territory>, id1: int, id2: int): (r: seq<Territory>)
    ensures |r| == |board|
    ensures forall i :: 0 <= i < |r| ==>
              r[i].id == board[i].id && r[i].owner == board[i].owner && r[i].troops == board[i].troops
  {
    if HasId(board, id1) && HasId(board, id2) then
      seq(|board|, i requires 0 <= i < |board| =>
        var n1 := if board[i].id == id1 then AddUnique(board[i].neighbors, id2) else board[i].neighbors;
        board[i].(neighbors := if board[i].id == id2 then AddUnique(n1, id1) else n1))
    else board
  }

  /** Linking adds exactly the two directions of the pair, when both ends exist, and
      keeps every neighbour list free of repeats. */
  lemma LinkNeighbours(board: seq<Territory>, id1: int, id2: int, i: int, v: int)
    requires 0 <= i < |board|
    ensures var r := Link(board, id1, id2);
            v in r[i].neighbors <==>
              v in board[i].neighbors ||
              (HasId(board, id1) && HasId(board, id2) &&
               ((board[i].id == id1 && v == id2) || (board[i].id == id2 && v == id1)))
    ensures NoDup(board[i].neighbors) ==> NoDup(Link(board, id1, id2)[i].neighbors)
  {
  }

  /** `addManualConnections`: every pair of `conns` linked in order. */
  function Connected(board: seq<Territory>, conns: seq<(int, int)>): (r: seq<Territory>)
    ensures |r| == |board|
    ensures forall i :: 0 <= i < |r| ==>
              r[i].id == board[i].id && r[i].owner == board[i].owner && r[i].troops == board[i].troops
  {
    if conns == [] then board
    else
      var last := conns[|conns| - 1];
      Link(Connected(board, conns[..|conns| - 1]), last.0, last.1)
  }

  /** Boards with the same ids at every position hold the same ids. */
  lemma SameIds(a: seq<Territory>, b: seq<Territory>, x: int)
    requires |a| == |b| && forall i :: 0 <= i < |a| ==> a[i].id == b[i].id
    ensures HasId(a, x) <==> HasId(b, x)
  {
    if HasId(a, x) {
      var t :| t in a && t.id == x;
      var i :| 0 <= i < |a| && a[i] == t;
      assert b[i] in b;
    }
    if HasId(b, x) {
      var t :| t in b && t.id == x;
      var i :| 0 <= i < |b| && b[i] == t;
      assert a[i] in a;
    }
  }

  /** After the manual connections, a neighbour of a territory either was one before or
      is the other end of a connection of that territory whose two ends exist. */
  lemma {:induction false} ConnectedOnlyFrom(board: seq<Territory>, conns: seq<(int, int)>, i: int, v: int)
    requires 0 <= i < |board|
    requires v in Connected(board, conns)[i].neighbors
    ensures v in board[i].neighbors ||
            exists c :: c in conns && HasId(board, c.0) && HasId(board, c.1) &&
                        ((board[i].id == c.0 && v == c.1) || (board[i].id == c.1 && v == c.0))
  {
    if conns != [] {
      var front := conns[..|conns| - 1];
      var last := conns[|conns| - 1];
      var mid := Connected(board, front);
      LinkNeighbours(mid, last.0, last.1, i, v);
      if v in mid[i].neighbors {
        ConnectedOnlyFrom(board, front, i, v);
        if !(v in board[i].neighbors) {
          var c :| c in front && HasId(board, c.0) && HasId(board, c.1) &&
                   ((board[i].id == c.0 && v == c.1) || (board[i].id == c.1 && v == c.0));
          assert c in conns;
        }
      } else {
        SameIds(board, mid, last.0);
        SameIds(board, mid, last.1);
        assert last in conns;
      }
    }
  }

  /** Connections only add neighbours: every neighbour before is one after. */
  lemma {:induction false} ConnectedKeeps(board: seq<Territory>, conns: seq<(int, int)>, i: int, v: int)
    requires 0 <= i < |board| && v in board[i].neighbors
    ensures v in Connected(board, conns)[i].neighbors
  {
    if conns != [] {
      var front := conns[..|conns| - 1];
      var last := conns[|conns| - 1];
      ConnectedKeeps(board, front, i, v);
      LinkNeighbours(Connected(board, front), last.0, last.1, i, v);
    }
  }

  /** Every connection whose two territories exist links them in both directions. */
  lemma {:induction false} ConnectedBothWays(board: seq<Territory>, conns: seq<(int, int)>, j: int, i: int)
    requires 0 <= j < |conns| && 0 <= i < |board|
    requires HasId(board, conns[j].0) && HasId(board, conns[j].1)
    ensures board[i].id == conns[j].0 ==> conns[j].1 in Connected(board, conns)[i].neighbors
    ensures board[i].id == conns[j].1 ==> conns[j].0 in Connected(board, conns)[i].neighbors
  {
    var front := conns[..|conns| - 1];
    var last := conns[|conns| - 1];
    var mid := Connected(board, front);
    SameIds(board, mid, conns[j].0);
    SameIds(board, mid, conns[j].1);
    if j == |conns| - 1 {
      LinkNeighbours(mid, last.0, last.1, i, conns[j].1);
      LinkNeighbours(mid, last.0, last.1, i, conns[j].0);
    } else {
      ConnectedBothWays(board, front, j, i);
      if board[i].id == conns[j].0 {
        ConnectedKeeps(mid, [last], i, conns[j].1);
        assert Connected(mid, [last]) == Link(Connected(mid, []), last.0, last.1);
      }
      if board[i].id == conns[j].1 {
        ConnectedKeeps(mid, [last], i, conns[j].0);
        assert Connected(mid, [last]) == Link(Connected(mid, []), last.0, last.1);
      }
    }
  }

  /** The manual connections keep a board fit for the game when they name existing
      territories only. */
  lemma {:induction false} ConnectedOk(board: seq<Territory>, conns: seq<(int, int)>, n: int, info: Ai.TerritoryInfo)
    requires BoardOk(board, n, info)
    ensures BoardOk(Connected(board, conns), n, info)
  {
    if conns != [] {
      var front := conns[..|conns| - 1];
      var last := conns[|conns| - 1];
      var mid := Connected(board, front);
      ConnectedOk(board, front, n, info);
      var r := Link(mid, last.0, last.1);
      forall i | 0 <= i < |r| ensures NoDup(r[i].neighbors) {
        LinkNeighbours(mid, last.0, last.1, i, 0);
      }
      IdsAgree(mid, r);
      AscendingSameIds(mid, r);
      forall i, j | 0 <= i < |r| && 0 <= j < |r[i].neighbors| ensures r[i].neighbors[j] in Ids(r) {
        var v := r[i].neighbors[j];
        LinkNeighbours(mid, last.0, last.1, i, v);
        IdsHas(mid, v);
        if v in mid[i].neighbors {
          var j' :| 0 <= j' < |mid[i].neighbors| && mid[i].neighbors[j'] == v;
        }
      }
    }
  }

  /** The first half of `assignTerritories`: the territory at place `i` of the shuffled
      `order` goes to player `i % n` with one troop. */
  function Deal(board: seq<Territory>, order: seq<int>, n: int): (r: seq<Territory>)
    requires n > 0
    ensures SameMap(board, r)
  {
    if order == [] then board
    else
      var m := |order| - 1;
      Put(Deal(board, order[..m], n), order[m], m % n, 1)
  }

  /** After dealing, each territory in the order belongs to the player its place names and
      holds one troop; the others are as they were. */
  lemma {:induction false} DealFacts(board: seq<Territory>, order: seq<int>, n: int, j: int)
    requires n > 0 && NoDup(order) && 0 <= j < |board|
    ensures forall i :: 0 <= i < |order| && board[j].id == order[i] ==>
              Deal(board, order, n)[j].owner == i % n && Deal(board, order, n)[j].troops == 1
    ensures board[j].id !in order ==>
              Deal(board, order, n)[j].owner == board[j].owner && Deal(board, order, n)[j].troops == board[j].troops
  {
    if order != [] {
      var m := |order| - 1;
      DealFacts(board, order[..m], n, j);
      forall i | 0 <= i < m ensures order[..m][i] == order[i] != order[m] { }
      assert order == order[..m] + [order[m]];
    }
  }

  /** The second half of `assignTerritories`: `c` single troops, the `c`-th on the
      territory at the place of `order` drawn by the (`k` + `c` - 1)-th random value. */
  function Sprinkle(board: seq<Territory>, order: seq<int>, rng: Rand.Stream, k: nat, c: nat): (r: seq<Territory>)
    requires Rand.Unit(rng) && (c > 0 ==> |order| > 0)
    ensures SameMap(board, r)
  {
    if c == 0 then board
    else Add(Sprinkle(board, order, rng, k, c - 1), order[Rand.Index(rng(k + c - 1), |order|)], 1)
  }

  /** The extra troops never change an owner or lower a count, and each adds one troop
      to the board when the order names existing territories only. */
  lemma {:induction false} SprinkleFacts(board: seq<Territory>, order: seq<int>, rng: Rand.Stream, k: nat, c: nat)
    requires Rand.Unit(rng) && (c > 0 ==> |order| > 0)
    requires ValidBoard(board) && forall x :: x in order ==> HasId(board, x)
    ensures forall j :: 0 <= j < |board| ==>
              Sprinkle(board, order, rng, k, c)[j].owner == board[j].owner &&
              Sprinkle(board, order, rng, k, c)[j].troops >= board[j].troops
    ensures Total(Sprinkle(board, order, rng, k, c)) == Total(board) + c
  {
    if c > 0 {
      SprinkleFacts(board, order, rng, k, c - 1);
      var mid := Sprinkle(board, order, rng, k, c - 1);
      var id := order[Rand.Index(rng(k + c - 1), |order|)];
      SameMapKeeps(board, mid, id);
      AddTotal(mid, IndexOf(mid, id), 1);
    }
  }

  /** A board whose every entry holds one troop holds as many troops as entries. */
  lemma {:induction false} TotalOnes(board: seq<Territory>)
    requires forall j :: 0 <= j < |board| ==> board[j].troops == 1
    ensures Total(board) == |board|
  {
    if board != [] {
      TotalOnes(board[1..]);
    }
  }

  /** The `forEach` of `assignTerritories`: each id of `order` in turn given to the
      player its place names, with one troop. */
  method DealRound(board: seq<Territory>, order: seq<int>, n: int) returns (b: seq<Territory>)
    requires n > 0
    ensures b == Deal(board, order, n)
  {
    b := board;
    var i := 0;
    while i < |order|
      invariant 0 <= i <= |order|
      invariant b == Deal(board, order[..i], n)
    {
      assert order[..i + 1][..i] == order[..i];
      b := Put(b, order[i], i % n, 1);
      i := i + 1;
    }
    assert order[..i] == order;
  }

  /** The `for` loop of `assignTerritories`: twice as many single troops as there are
      ids, each on the id at a random place of `order`, drawn from `k0` on. */
  method ExtraTroops(board: seq<Territory>, order: seq<int>, rng: Rand.Stream, k0: nat) returns (b: seq<Territory>)
    requires Rand.Unit(rng)
    ensures b == Sprinkle(board, order, rng, k0, 2 * |order|)
  {
    b := board;
    var c := 0;
    while c < 2 * |order|
      invariant 0 <= c <= 2 * |order|
      invariant b == Sprinkle(board, order, rng, k0, c)
    {
      b := Add(b, order[Rand.Index(rng(k0 + c), |order|)], 1);
      c := c + 1;
    }
  }

  /** Dealing keeps a board fit for the game. */
  lemma {:induction false} DealOk(board: seq<Territory>, order: seq<int>, n: int, info: Ai.TerritoryInfo)
    requires n > 0 && BoardOk(board, n, info)
    ensures BoardOk(Deal(board, order, n), n, info)
  {
    if order != [] {
      var m := |order| - 1;
      DealOk(board, order[..m], n, info);
      PutOk(Deal(board, order[..m], n), order[m], m % n, 1, n, info);
    }
  }

  /** The extra troops keep a board fit for the game. */
  lemma {:induction false} SprinkleOk(board: seq<Territory>, order: seq<int>, rng: Rand.Stream, k: nat, c: nat,
                                      n: int, info: Ai.TerritoryInfo)
    requires Rand.Unit(rng) && (c > 0 ==> |order| > 0) && BoardOk(board, n, info)
    ensures BoardOk(Sprinkle(board, order, rng, k, c), n, info)
  {
    if c > 0 {
      SprinkleOk(board, order, rng, k, c - 1, n, info);
      AddOk(Sprinkle(board, order, rng, k, c - 1), order[Rand.Index(rng(k + c - 1), |order|)], 1, n, info);
    }
  }

  /** `assignTerritories` over a shuffled order of every territory: each territory belongs
      to the player its place names, holds at least one troop, and the board holds three
      troops per territory. */
  lemma AssignFacts(board: seq<Territory>, order: seq<int>, n: int, rng: Rand.Stream, k: nat)
    requires n > 0 && Rand.Unit(rng) && ValidBoard(board)
    requires |order| == |board| && NoDup(order) && forall x :: x in order <==> HasId(board, x)
    ensures var r := Sprinkle(Deal(board, order, n), order, rng, k, 2 * |order|);
            && SameMap(board, r)
            && (forall i, j :: 0 <= i < |order| && 0 <= j < |board| && board[j].id == order[i] ==> r[j].owner == i % n)
            && (forall j :: 0 <= j < |board| ==> r[j].troops >= 1)
            && Total(r) == 3 * |board|
  {
    var d := Deal(board, order, n);
    forall j | 0 <= j < |board| ensures d[j].troops == 1 && forall i :: 0 <= i < |order| && board[j].id == order[i] ==> d[j].owner == i % n {
      DealFacts(board, order, n, j);
      assert board[j] in board && HasId(board, board[j].id);
      var i :| 0 <= i < |order| && order[i] == board[j].id;
    }
    TotalOnes(d);
    forall x | x in order ensures HasId(d, x) {
      SameMapKeeps(board, d, x);
    }
    SameMapKeeps(board, d, 0);
    SprinkleFacts(d, order, rng, k, 2 * |order|);
  }

  // ---------------------------------------------------------------------
  // Moves on the board

  /** A board with the map of one fit for the game, and a player as every owner, is fit
      for the game too. */
  lemma SettleOk(a: seq<Territory>, b: seq<Territory>, n: int, info: Ai.TerritoryInfo)
    requires BoardOk(a, n, info) && SameMap(a, b)
    requires forall i :: 0 <= i < |b| ==> 0 <= b[i].owner < n
    ensures BoardOk(b, n, info)
  {
    IdsAgree(a, b);
    SameMapKeeps(a, b, 0);
  }

  /** The do-while of `endTurn`: the seat after `turn`, passing over seats whose player
      owns nothing, for at most `n` attempts. */
  method NextSeat(board: seq<Territory>, n: int, turn: int) returns (t: int)
    requires 0 <= turn < n
    ensures t == Advance(board, n, turn, 0)
  {
    t := Next(turn, n);
    var attempts := 1;
    while CountTerritories(board, t) == 0 && attempts < n
      invariant 1 <= attempts <= n && 0 <= t < n
      invariant Advance(board, n, turn, 0) ==
                  if CountTerritories(board, t) == 0 && attempts < n then Advance(board, n, t, attempts) else t
      decreases n - attempts
    {
      t := Next(t, n);
      attempts := attempts + 1;
    }
  }

  /** The board updates of `resolveBattle`, attacker at `ka`, defender at `kd`: on a
      victory the defender passes to `owner` with `r.moveAmount` troops taken from the
      attacker; on a defeat the attacker loses `r.attackerLoss`. Nothing else changes. */
  method Fight(board: seq<Territory>, ka: int, kd: int, owner: int, r: BattleResult) returns (b: seq<Territory>)
    requires 0 <= ka < |board| && 0 <= kd < |board| && ka != kd
    ensures b == Fought(board, ka, kd, owner, r)
    ensures SameMap(board, b)
    ensures forall i :: 0 <= i < |b| && i != ka && i != kd ==> b[i].owner == board[i].owner && b[i].troops == board[i].troops
    ensures b[ka].owner == board[ka].owner
    ensures r.success ==> b[kd].owner == owner && b[kd].troops == r.moveAmount && b[ka].troops == board[ka].troops - r.moveAmount
    ensures !r.success ==> b[kd].owner == board[kd].owner && b[kd].troops == board[kd].troops &&
                           b[ka].troops == board[ka].troops - r.attackerLoss
    ensures Total(b) == Total(board) - (if r.success then board[kd].troops else r.attackerLoss)
  {
    if r.success {
      var b1 := board[kd := board[kd].(owner := owner, troops := r.moveAmount)];
      TotalShift(board, b1, kd, r.moveAmount - board[kd].troops);
      b := b1[ka := b1[ka].(troops := b1[ka].troops - r.moveAmount)];
      TotalShift(b1, b, ka, -r.moveAmount);
    } else {
      b := board[ka := board[ka].(troops := board[ka].troops - r.attackerLoss)];
      TotalShift(board, b, ka, -r.attackerLoss);
    }
  }

  /** The board `Fight` leaves: the defender at `kd` passes to `owner` with `r.moveAmount`
      troops taken from the attacker at `ka` on a victory; the attacker loses
      `r.attackerLoss` on a defeat. */
  function Fought(board: seq<Territory>, ka: int, kd: int, owner: int, r: BattleResult): (b: seq<Territory>)
    requires 0 <= ka < |board| && 0 <= kd < |board| && ka != kd
    ensures SameMap(board, b)
    ensures forall i :: 0 <= i < |b| ==> b[i].owner == board[i].owner || (i == kd && b[i].owner == owner)
  {
    if r.success then
      board[kd := board[kd].(owner := owner, troops := r.moveAmount)][ka := board[ka].(troops := board[ka].troops - r.moveAmount)]
    else
      board[ka := board[ka].(troops := board[ka].troops - r.attackerLoss)]
  }

  /** `updateTroopCount(source, -amount)` then `updateTroopCount(target, amount)`, for the
      territories at positions `ks` and `kt`: the amount leaves one and reaches the other. */
  method Shift(board: seq<Territory>, ks: int, kt: int, amount: int) returns (b: seq<Territory>)
    requires 0 <= ks < |board| && 0 <= kt < |board|
    ensures SameMap(board, b) && Total(b) == Total(board)
    ensures forall i :: 0 <= i < |b| ==>
              && b[i].owner == board[i].owner
              && b[i].troops == board[i].troops - (if i == ks then amount else 0) + (if i == kt then amount else 0)
  {
    var b1 := board[ks := board[ks].(troops := board[ks].troops - amount)];
    TotalShift(board, b1, ks, -amount);
    b := b1[kt := b1[kt].(troops := b1[kt].troops + amount)];
    TotalShift(b1, b, kt, amount);
  }

  /** The record of `getDeployments` applied entry by entry with `updateTroopCount`. */
  function Deployed(board: seq<Territory>, deps: seq<(int, int)>): (r: seq<Territory>)
    ensures SameMap(board, r)
  {
    if deps == [] then board
    else
      var m := |deps| - 1;
      Add(Deployed(board, deps[..m]), deps[m].0, deps[m].1)
  }

  /** Deploying positive amounts on existing territories keeps every owner, never lowers
      a count, and adds the amounts to the board. */
  lemma {:induction false} DeployedFacts(board: seq<Territory>, deps: seq<(int, int)>)
    requires ValidBoard(board) && forall e :: e in deps ==> e.1 > 0 && HasId(board, e.0)
    ensures forall i :: 0 <= i < |board| ==>
              Deployed(board, deps)[i].owner == board[i].owner && Deployed(board, deps)[i].troops >= board[i].troops
    ensures Total(Deployed(board, deps)) == Total(board) + Ai.SumAmounts(deps)
  {
    if deps != [] {
      var m := |deps| - 1;
      assert forall e :: e in deps[..m] ==> e in deps;
      DeployedFacts(board, deps[..m]);
      var mid := Deployed(board, deps[..m]);
      assert deps[m] in deps;
      SameMapKeeps(board, mid, deps[m].0);
      AddTotal(mid, IndexOf(mid, deps[m].0), deps[m].1);
    }
  }

  /** The deployment loop of `cpuTurn`: every entry whose territory exists adds its amount
      there and spends it from `reinforcements`. */
  method ApplyDeployments(board: seq<Territory>, deps: seq<(int, int)>, reinforcements: int)
    returns (b: seq<Territory>, left: int)
    ensures b == Deployed(board, deps)
    ensures (forall e :: e in deps ==> HasId(board, e.0)) ==> left == reinforcements - Ai.SumAmounts(deps)
  {
    b, left := board, reinforcements;
    var i := 0;
    while i < |deps|
      invariant 0 <= i <= |deps|
      invariant b == Deployed(board, deps[..i])
      invariant (forall e :: e in deps ==> HasId(board, e.0)) ==> left == reinforcements - Ai.SumAmounts(deps[..i])
    {
      assert deps[..i + 1][..i] == deps[..i];
      var (id, amount) := deps[i];
      SameMapKeeps(board, b, id);
      if HasId(b, id) {
        b := Add(b, id, amount);
        left := left - amount;
      } else {
        AddMissing(b, id, amount);
        assert deps[i] in deps;
      }
      i := i + 1;
    }
    assert deps[..i] == deps;
  }

  /** `after` is `before` once territory `a` has attacked territory `d` with the two
      draws at `k0` and `k0 + 1`: the winner takes the territory with what `moveAmount`
      says (at least one), the loser of a failed attack loses `attackerLoss`, an attacker
      with more than one troop keeps at least one, every other territory is unchanged and
      the total falls by the troops that died. */
  predicate Battled(before: seq<Territory>, after: seq<Territory>, a: int, d: int, players: seq<Player>,
                    rng: Rand.Stream, k0: nat)
    requires Rand.Unit(rng)
  {
    |after| == |before| && HasId(before, a) && HasId(before, d) &&
    (forall i :: 0 <= i < |before| && before[i].id != a && before[i].id != d ==>
       after[i].owner == before[i].owner && after[i].troops == before[i].troops) &&
    var ka := IndexOf(before, a);
    var kd := IndexOf(before, d);
    var att := before[ka];
    var def := before[kd];
    0 <= att.owner < |players| &&
    var r := CalculateBattleOutcome(att.troops, def.troops, Bonus(players[att.owner]), rng(k0), rng(k0 + 1));
    && after[ka].owner == att.owner
    && (r.success ==> after[kd].owner == att.owner && after[kd].troops == r.moveAmount >= 1 &&
                      after[ka].troops == att.troops - r.moveAmount)
    && (!r.success ==> after[kd].owner == def.owner && after[kd].troops == def.troops &&
                       after[ka].troops == att.troops - r.attackerLoss)
    && (att.troops > 1 ==> after[ka].troops >= 1)
    && Total(after) == Total(before) - (if r.success then def.troops else r.attackerLoss)
  }

  /** The board after `resolveBattle` of territory `a` on territory `d` with the two draws
      at `k0` and `k0 + 1`, as `Fight` leaves it. */
  function Attacked(board: seq<Territory>, players: seq<Player>, a: int, d: int, rng: Rand.Stream, k0: nat)
    : (b: seq<Territory>)
    requires HasId(board, a) && HasId(board, d) && a != d && Rand.Unit(rng)
    requires 0 <= board[IndexOf(board, a)].owner < |players|
    ensures SameMap(board, b)
    ensures forall i :: 0 <= i < |b| ==> b[i].owner == board[i].owner || b[i].owner == board[IndexOf(board, a)].owner
  {
    var ka := IndexOf(board, a);
    var kd := IndexOf(board, d);
    var att := board[ka];
    Fought(board, ka, kd, att.owner,
           CalculateBattleOutcome(att.troops, board[kd].troops, Bonus(players[att.owner]), rng(k0), rng(k0 + 1)))
  }

  /** The board part of `resolveBattle`: territory `a` attacks territory `d` with the two
      draws at `k0` and `k0 + 1`. */
  method BattleStep(board: seq<Territory>, n: int, info: Ai.TerritoryInfo, players: seq<Player>,
                    a: int, d: int, rng: Rand.Stream, k0: nat) returns (b: seq<Territory>)
    requires BoardOk(board, n, info) && n == |players| && HasId(board, a) && HasId(board, d) && a != d && Rand.Unit(rng)
    ensures BoardOk(b, n, info) && SameMap(board, b)
    ensures b == Attacked(board, players, a, d, rng, k0)
    ensures Battled(board, b, a, d, players, rng, k0)
  {
    var ka := IndexOf(board, a);
    var kd := IndexOf(board, d);
    var att := board[ka];
    var result := CalculateBattleOutcome(att.troops, board[kd].troops, Bonus(players[att.owner]), rng(k0), rng(k0 + 1));
    if att.troops > 1 {
      AttackerSurvives(att.troops, board[kd].troops, Bonus(players[att.owner]), rng(k0), rng(k0 + 1));
    }
    IdsDistinct(board, ka);
    IdsDistinct(board, kd);
    b := Fight(board, ka, kd, att.owner, result);
    SettleOk(board, b, n, info);
  }

  /** `after` is `before` with the record `getDeployments` returns for `p` applied, and
      `spent` is the sum of its amounts. The record is named through a bound variable, so
      that the definition of `Ai.DeploySpec` is unfolded only where a proof asks for it. */
  ghost predicate DeployedBy(p: int, diff: Ai.Difficulty, n: nat, before: seq<Territory>, cs: Ai.ContinentTable,
                             info: Ai.TerritoryInfo, rng: Rand.Stream, k0: nat, after: seq<Territory>, spent: int) {
    Rand.Unit(rng) &&
    forall d :: d == Ai.DeploySpec(p, diff, n, before, cs, info, rng, k0) ==>
      after == Deployed(before, d) && spent == Ai.SumAmounts(d)
  }

  /** The deployment step of `cpuTurn` on the board: the record `getDeployments` returns
      for `p`, applied entry by entry; `left` is what remains of the reinforcements and
      `k` the next unused random draw. */
  method DeployStep(board: seq<Territory>, n: int, info: Ai.TerritoryInfo, cs: Ai.ContinentTable, p: int,
                    diff: Ai.Difficulty, reinforcements: int, rng: Rand.Stream, k0: nat)
    returns (b: seq<Territory>, left: int, k: nat)
    requires BoardOk(board, n, info) && Rand.Unit(rng)
    ensures BoardOk(b, n, info) && SameMap(board, b)
    ensures DeployedBy(p, diff, Max(0, reinforcements), board, cs, info, rng, k0, b, reinforcements - left)
    ensures k == if diff == Ai.Easy && CountTerritories(board, p) > 0 then k0 + Max(0, reinforcements) else k0
    ensures forall i :: 0 <= i < |board| ==> b[i].owner == board[i].owner && b[i].troops >= board[i].troops
    ensures Total(b) + left == Total(board) + reinforcements
    ensures reinforcements >= 0 && CountTerritories(board, p) > 0 && diff != Ai.Unrecognised ==> left == 0
  {
    BoardReadable(board, n, info, p, diff);
    var deps;
    deps, k := Ai.GetDeployments(p, diff, reinforcements, board, cs, info, rng, k0);
    Ai.DeploymentsConserve(p, diff, Max(0, reinforcements), board, cs, info, rng, k0);
    forall e | e in deps ensures e.1 > 0 && HasId(board, e.0) {
      var t :| t in board && t.owner == p && t.id == e.0;
    }
    DeployedFacts(board, deps);
    OwnedIffCount(board, p);
    b, left := ApplyDeployments(board, deps, reinforcements);
    SettleOk(board, b, n, info);
  }

  /** An attack the AI picks on a valid board joins two different existing territories. */
  lemma AttackEnds(p: int, diff: Ai.Difficulty, board: seq<Territory>, info: Ai.TerritoryInfo, rng: Rand.Stream, k0: nat)
    requires Rand.Unit(rng) && ValidBoard(board) && Ai.AttackReadable(diff, p, board, info)
    requires Ai.NextAttack(p, diff, board, info, rng, k0).0.Some?
    ensures var m := Ai.NextAttack(p, diff, board, info, rng, k0).0.value;
            HasId(board, m.0) && HasId(board, m.1) && m.0 != m.1 && board[IndexOf(board, m.0)].owner == p
  {
    Ai.AttackIsLegal(p, diff, board, info, rng, k0);
    var m := Ai.NextAttack(p, diff, board, info, rng, k0).0.value;
    var s :| s in board && s.owner == p && s.troops > 1 && s.id == m.0 && m.1 in s.neighbors;
    var i :| 0 <= i < |board| && board[i] == s;
    LookupAt(board, i);
    IdsDistinct(board, i);
    assert IndexOf(board, m.0) == i;
  }

  /** On a valid board a shift between two positions is a shift between their ids. */
  lemma ShiftById(board: seq<Territory>, b: seq<Territory>, ks: int, kt: int, amount: int)
    requires ValidBoard(board) && 0 <= ks < |board| && 0 <= kt < |board| && |b| == |board|
    requires forall i :: 0 <= i < |b| ==>
               b[i].troops == board[i].troops - (if i == ks then amount else 0) + (if i == kt then amount else 0)
    ensures forall i :: 0 <= i < |b| ==>
              b[i].troops == board[i].troops - (if board[i].id == board[ks].id then amount else 0)
                                             + (if board[i].id == board[kt].id then amount else 0)
  {
    IdsDistinct(board, ks);
    IdsDistinct(board, kt);
  }

  /** A fortification the AI settles on joins two territories on the board. */
  lemma FortifyEnds(p: int, diff: Ai.Difficulty, board: seq<Territory>)
    requires Ai.FortifyReadable(p, diff, board)
    ensures var f := Ai.Fortify(p, diff, board);
            f.Some? ==> HasId(board, f.value.sourceId) && HasId(board, f.value.targetId)
  {
    Ai.FortifyIsBest(p, diff, board);
    if Ai.Fortify(p, diff, board).Some? {
      var f := Ai.Fortify(p, diff, board).value;
      var a := Ai.Analyze(p, board, []);
      var s :| s in board && s.owner == p && s.troops > 1 && f.targetId in s.neighbors && Ai.MoveFrom(diff, p, a, board, s, f);
    }
  }

  /** The fortification step of `cpuTurn` on the board: the move `getFortification`
      settles on for `p`, if any, applied with `updateTroopCount`. */
  method ApplyFortification(board: seq<Territory>, n: int, info: Ai.TerritoryInfo, p: int, diff: Ai.Difficulty)
    returns (b: seq<Territory>)
    requires BoardOk(board, n, info)
    ensures BoardOk(b, n, info) && SameMap(board, b) && Total(b) == Total(board)
    ensures FortifiedBy(p, diff, board, b)
  {
    b := board;
    BoardReadable(board, n, info, p, diff);
    FortifyEnds(p, diff, board);
    ghost var f := Ai.Fortify(p, diff, board);
    var move := Ai.GetFortification(p, diff, board);
    if move.Some? {
      var (s, t, amount) := move.value;
      if HasId(board, s) && HasId(board, t) {
        var ks := IndexOf(board, s);
        var kt := IndexOf(board, t);
        b := Shift(board, ks, kt, amount);
        ShiftById(board, b, ks, kt, amount);
        SettleOk(board, b, n, info);
      }
    }
    assert Fortified(board, b, f);
  }

  /** The AI finds no attack for `p` on `board` from draw `k` on. */
  ghost predicate NoAttack(p: int, diff: Ai.Difficulty, board: seq<Territory>, info: Ai.TerritoryInfo, rng: Rand.Stream, k: nat) {
    Rand.Unit(rng) && Ai.AttackReadable(diff, p, board, info) && Ai.NextAttack(p, diff, board, info, rng, k).0 == None
  }

  /** One pass of `cpuTurn`'s attack loop for `p` from draw `k0`: `go` holds exactly when
      `getNextAttack` picks an attack, whose source is `p`'s and whose target differs from
      it; then `after` is `before` after that battle, fought with the next two draws,
      and otherwise `after` is `before`; `k` is the next unused draw. The pick is named
      through a bound variable, so that `Ai.NextAttack` is unfolded only where a proof
      asks for it. */
  ghost predicate AttackedBy(p: int, diff: Ai.Difficulty, players: seq<Player>, before: seq<Territory>,
                             info: Ai.TerritoryInfo, rng: Rand.Stream, k0: nat, go: bool, after: seq<Territory>, k: nat) {
    Rand.Unit(rng) &&
    forall q {:trigger Attacked(before, players, q.0.value.0, q.0.value.1, rng, q.1)} ::
      Ai.AttackReadable(diff, p, before, info) && q == Ai.NextAttack(p, diff, before, info, rng, k0) ==>
        && go == q.0.Some?
        && (go ==> && HasId(before, q.0.value.0) && HasId(before, q.0.value.1) && q.0.value.0 != q.0.value.1
                   && before[IndexOf(before, q.0.value.0)].owner == p && 0 <= p < |players|
                   && after == Attacked(before, players, q.0.value.0, q.0.value.1, rng, q.1) && k == q.1 + 2)
        && (!go ==> after == before && k == q.1)
  }

  /** `trail` is a run of attack passes for `p`, each beginning at the matching entry of
      `draws`: each board but the first is the one `AttackedBy` gives after the board
      before it, and the game was still going on after each of them but the last. */
  ghost predicate Passes(p: int, diff: Ai.Difficulty, players: seq<Player>, info: Ai.TerritoryInfo, rng: Rand.Stream,
                         trail: seq<seq<Territory>>, draws: seq<nat>)
    decreases |trail|
  {
    && |trail| == |draws| > 0
    && (|trail| > 1 ==>
          var n := |trail| - 1;
          && Passes(p, diff, players, info, rng, trail[..n], draws[..n])
          && AttackedBy(p, diff, players, trail[n - 1], info, rng, draws[n - 1], true, trail[n], draws[n])
          && (n > 1 ==> |Active(players, trail[n - 1])| != 1))
  }

  /** `after` is `before` with the fortification `f`, if any, applied: its amount leaves
      the source and reaches the target, and nothing else changes. */
  predicate Fortified(before: seq<Territory>, after: seq<Territory>, f: Option<Ai.FortMove>) {
    && |after| == |before|
    && (forall i :: 0 <= i < |before| ==> after[i].owner == before[i].owner)
    && (f.None? ==> forall i :: 0 <= i < |before| ==> after[i].troops == before[i].troops)
    && (f.Some? ==>
          forall i :: 0 <= i < |before| ==>
            after[i].troops == before[i].troops
              - (if before[i].id == f.value.sourceId then f.value.amount else 0)
              + (if before[i].id == f.value.targetId then f.value.amount else 0))
  }

  /** `after` is `before` with the fortification `getFortification` settles on for `p`
      applied. The move is named through a bound variable, so that the definition of
      `Ai.Fortify` is unfolded only where a proof asks for it. */
  ghost predicate FortifiedBy(p: int, diff: Ai.Difficulty, before: seq<Territory>, after: seq<Territory>) {
    Ai.FortifyReadable(p, diff, before) && forall f :: f == Ai.Fortify(p, diff, before) ==> Fortified(before, after, f)
  }

  /** A fortification the AI settles on between two different territories leaves exactly
      one troop behind. */
  lemma FortifyLeavesOne(p: int, diff: Ai.Difficulty, before: seq<Territory>, after: seq<Territory>, i: int)
    requires ValidBoard(before) && Ai.FortifyReadable(p, diff, before)
    requires Fortified(before, after, Ai.Fortify(p, diff, before)) && Ai.Fortify(p, diff, before).Some?
    requires 0 <= i < |before| && before[i].id == Ai.Fortify(p, diff, before).value.sourceId
    requires Ai.Fortify(p, diff, before).value.targetId != Ai.Fortify(p, diff, before).value.sourceId
    ensures after[i].troops == 1
  {
    Ai.FortifyIsBest(p, diff, before);
    var f := Ai.Fortify(p, diff, before).value;
    var a := Ai.Analyze(p, before, []);
    var s :| s in before && s.owner == p && s.troops > 1 && f.targetId in s.neighbors && Ai.MoveFrom(diff, p, a, before, s, f);
    IdsDistinct(before, i);
  }

  // ---------------------------------------------------------------------
  // The game state

  /** `Object.values(CURRENT_CONTINENT_DATA)`: the continent records in key order. */
  function ContinentList(cs: Ai.ContinentTable): (r: seq<Continent>)
    ensures |r| == |cs| && forall i :: 0 <= i < |cs| ==> r[i] == cs[i].1
  {
    seq(|cs|, i requires 0 <= i < |cs| => cs[i].1)
  }

  /** The selection names an existing territory one of whose neighbours is `tId`. */
  predicate Adjacent(board: seq<Territory>, sel: Option<int>, tId: int) {
    sel.Some? && HasId(board, sel.value) && tId in board[IndexOf(board, sel.value)].neighbors
  }

  /** A player has a territory listed among their own exactly when they own one. */
  lemma OwnedIffCount(board: seq<Territory>, p: int)
    ensures Ai.Owned(board, p) != [] <==> CountTerritories(board, p) > 0
  {
    Ai.OwnedMembers(board, p);
    if Ai.Owned(board, p) != [] {
      assert Ai.Owned(board, p)[0] in Ai.Owned(board, p);
    }
    if CountTerritories(board, p) > 0 {
      var t :| t in board && t.owner == p;
      assert t in Ai.Owned(board, p);
    }
  }

  /** A board fit for the game can be read by every AI query, for every player. */
  lemma BoardReadable(board: seq<Territory>, n: int, info: Ai.TerritoryInfo, p: int, diff: Ai.Difficulty)
    requires BoardOk(board, n, info)
    ensures forall t :: t in board ==> Ai.NeighboursExist(board, t)
    ensures Ai.AttackReadable(diff, p, board, info)
    ensures Ai.FortifyReadable(p, diff, board)
  {
    forall t, k | t in board && 0 <= k < |t.neighbors| ensures HasId(board, t.neighbors[k]) {
      var i :| 0 <= i < |board| && board[i] == t;
      IdsHas(board, t.neighbors[k]);
    }
    forall s, k | s in board && s.owner == p && s.troops > 1 && 0 <= k < |s.neighbors|
      ensures Ai.PairReadable(diff, p, board, info, s, s.neighbors[k])
    {
      var i :| 0 <= i < |board| && board[i] == s;
      var j := IndexOf(board, s.neighbors[k]);
    }
  }

  /** The `state` object of the game with the constant tables it reads: `PLAYERS`,
      `CURRENT_CONTINENT_DATA` and `CURRENT_TERRITORY_INFO`. */
  class Game {
    const players: seq<Player>
    const continents: Ai.ContinentTable
    const info: Ai.TerritoryInfo
    var board: seq<Territory>
    var turn: int
    var phase: Phase
    var reinforcements: int
    var selected: Option<int>
    var gameOver: bool

    /** Players are numbered by seat, the turn names a seat, the board stays fit for
        the game and a selection names an existing territory. */
    ghost predicate Valid()
      reads this
    {
      && |players| > 0
      && (forall i :: 0 <= i < |players| ==> players[i].id == i)
      && 0 <= turn < |players|
      && BoardOk(board, |players|, info)
      && (selected.Some? ==> HasId(board, selected.value))
    }

    /** `startGame` up to `initGame`: the roster and the initial `state`; the board is
        the one the map builder produced. */
    constructor (cpuCount: nat, difficulty: Ai.Difficulty, board0: seq<Territory>,
                 continents: Ai.ContinentTable, info: Ai.TerritoryInfo)
      requires BoardOk(board0, cpuCount + 1, info)
      ensures Valid()
      ensures players == Roster(cpuCount, difficulty) && board == board0
      ensures this.continents == continents && this.info == info
      ensures turn == 0 && phase == Deploy && reinforcements == 5 && selected == None && !gameOver
    {
      players := Roster(cpuCount, difficulty);
      this.continents := continents;
      this.info := info;
      board := board0;
      turn := 0;
      phase := Deploy;
      reinforcements := 5;
      selected := None;
      gameOver := false;
    }

    /** `addManualConnections`: the pairs linked in order. Only neighbour sets change. */
    method AddManualConnections(conns: seq<(int, int)>)
      requires Valid()
      modifies this
      ensures Valid()
      ensures board == Connected(old(board), conns)
      ensures turn == old(turn) && phase == old(phase) && reinforcements == old(reinforcements)
      ensures selected == old(selected) && gameOver == old(gameOver)
    {
      var i := 0;
      while i < |conns|
        invariant 0 <= i <= |conns|
        invariant board == Connected(old(board), conns[..i])
        invariant turn == old(turn) && phase == old(phase) && reinforcements == old(reinforcements)
        invariant selected == old(selected) && gameOver == old(gameOver)
      {
        assert conns[..i + 1][..i] == conns[..i];
        board := Link(board, conns[i].0, conns[i].1);
        i := i + 1;
      }
      assert conns[..i] == conns;
      ConnectedOk(old(board), conns, |players|, info);
      if selected.Some? {
        SameIds(old(board), board, selected.value);
      }
    }

    /** `assignTerritories` with the shuffled `order` of every territory id: a deal round
        then twice as many single troops at random; `k` is the next unused random draw. */
    method AssignTerritories(order: seq<int>, rng: Rand.Stream, k0: nat) returns (k: nat)
      requires Valid() && Rand.Unit(rng)
      modifies this
      ensures Valid()
      ensures board == Sprinkle(Deal(old(board), order, |players|), order, rng, k0, 2 * |order|)
      ensures k == k0 + 2 * |order|
      ensures turn == old(turn) && phase == old(phase) && reinforcements == old(reinforcements)
      ensures selected == old(selected) && gameOver == old(gameOver)
    {
      var n := |players|;
      var dealt := DealRound(board, order, n);
      var b := ExtraTroops(dealt, order, rng, k0);
      DealOk(board, order, n, info);
      SprinkleOk(dealt, order, rng, k0, 2 * |order|, n, info);
      if selected.Some? {
        SameMapKeeps(board, dealt, selected.value);
        SameMapKeeps(dealt, b, selected.value);
      }
      board := b;
      k := k0 + 2 * |order|;
    }

    /** The deploy branch of `handleTerritoryClick`: on a territory of the player whose
        turn it is, while reinforcements remain, one of them (every one on shift) is
        placed there; the attack phase begins once none remain. */
    method DeployClick(tId: int, shift: bool)
      requires Valid() && HasId(board, tId) && phase == Deploy
      modifies this
      ensures Valid() && SameMap(old(board), board)
      ensures turn == old(turn) && gameOver == old(gameOver)
      ensures var t := old(board)[IndexOf(old(board), tId)];
              !(t.owner == turn && old(reinforcements) > 0) ==>
                board == old(board) && reinforcements == old(reinforcements) && phase == Deploy && selected == old(selected)
      ensures var kt := IndexOf(old(board), tId);
              var amount := if shift then old(reinforcements) else 1;
              old(board)[kt].owner == turn && old(reinforcements) > 0 ==>
                && board[kt].troops == old(board)[kt].troops + amount
                && reinforcements == old(reinforcements) - amount
                && (reinforcements == 0 ==> phase == Attack && selected == None)
                && (reinforcements != 0 ==> phase == Deploy && selected == old(selected))
      ensures forall i :: 0 <= i < |board| ==>
                board[i].owner == old(board)[i].owner && (board[i].id != tId ==> board[i].troops == old(board)[i].troops)
      ensures Total(board) + reinforcements == old(Total(board) + reinforcements)
      ensures old(reinforcements) >= 0 ==> reinforcements >= 0
    {
      var kt := IndexOf(board, tId);
      if board[kt].owner == turn && reinforcements > 0 {
        var amount := if shift then reinforcements else 1;
        var b := board[kt := board[kt].(troops := board[kt].troops + amount)];
        TotalShift(board, b, kt, amount);
        IdsDistinct(board, kt);
        SettleOk(board, b, |players|, info);
        if selected.Some? {
          SameMapKeeps(board, b, selected.value);
        }
        board := b;
        reinforcements := reinforcements - amount;
        if reinforcements == 0 {
          phase := Attack;
          selected := None;
        }
      }
    }

    /** The attack branch of `handleTerritoryClick`: clicking the selection clears it;
        clicking a territory of the player's selects it when it holds more than one troop;
        clicking another player's territory next to the selection resolves a battle. */
    method AttackClick(tId: int, rng: Rand.Stream, k0: nat) returns (k: nat)
      requires Valid() && HasId(board, tId) && phase == Attack && Rand.Unit(rng)
      modifies this
      ensures Valid() && SameMap(old(board), board)
      ensures turn == old(turn) && phase == Attack && reinforcements == old(reinforcements)
      ensures old(selected) == Some(tId) ==>
                selected == None && board == old(board) && gameOver == old(gameOver) && k == k0
      ensures var t := old(board)[IndexOf(old(board), tId)];
              old(selected) != Some(tId) && t.owner == turn ==>
                && selected == (if t.troops > 1 then Some(tId) else old(selected))
                && board == old(board) && gameOver == old(gameOver) && k == k0
      ensures var t := old(board)[IndexOf(old(board), tId)];
              old(selected) != Some(tId) && t.owner != turn && !Adjacent(old(board), old(selected), tId) ==>
                selected == old(selected) && board == old(board) && gameOver == old(gameOver) && k == k0
      ensures var t := old(board)[IndexOf(old(board), tId)];
              old(selected) != Some(tId) && t.owner != turn && Adjacent(old(board), old(selected), tId) ==>
                && board == Attacked(old(board), players, old(selected).value, tId, rng, k0)
                && selected == None && k == k0 + 2
                && gameOver == (old(gameOver) || |Active(players, board)| == 1)
      ensures forall i :: 0 <= i < |board| && (board[i].owner != old(board)[i].owner || board[i].troops != old(board)[i].troops) ==>
                board[i].id == tId || old(selected) == Some(board[i].id)
    {
      k := k0;
      var kt := IndexOf(board, tId);
      if selected == Some(tId) {
        selected := None;
      } else if board[kt].owner == turn {
        if board[kt].troops > 1 {
          selected := Some(tId);
        }
      } else if selected.Some? {
        var source := board[IndexOf(board, selected.value)];
        if tId in source.neighbors {
          k := ResolveBattle(source.id, tId, rng, k0);
        }
      }
    }

    /** The fortify branch of `handleTerritoryClick`: clicking the selection clears it;
        with no selection, a territory of the player's with more than one troop becomes the
        source; with a source, clicking an adjacent territory of the player's moves one
        troop there (all but one on shift) as long as the source holds more than one, and
        asks for the end of the turn once the source is down to one. */
    method FortifyClick(tId: int, shift: bool) returns (endTurnDue: bool)
      requires Valid() && HasId(board, tId) && phase == Fortify
      modifies this
      ensures Valid() && SameMap(old(board), board) && Total(board) == old(Total(board))
      ensures turn == old(turn) && phase == Fortify && reinforcements == old(reinforcements) && gameOver == old(gameOver)
      ensures forall i :: 0 <= i < |board| ==> board[i].owner == old(board)[i].owner
      ensures forall i :: 0 <= i < |board| && board[i].troops != old(board)[i].troops ==>
                board[i].id == tId || old(selected) == Some(board[i].id)
      ensures old(selected) == Some(tId) ==> selected == None && board == old(board) && !endTurnDue
      ensures var t := old(board)[IndexOf(old(board), tId)];
              old(selected).None? ==>
                && selected == (if t.owner == turn && t.troops > 1 then Some(tId) else None)
                && board == old(board) && !endTurnDue
      ensures var t := old(board)[IndexOf(old(board), tId)];
              old(selected).Some? && old(selected) != Some(tId) && !(t.owner == turn && Adjacent(old(board), old(selected), tId)) ==>
                && selected == (if t.owner == turn && t.troops > 1 then Some(tId) else old(selected))
                && board == old(board) && !endTurnDue
      ensures old(selected).Some? && old(selected) != Some(tId) ==>
                var ks := IndexOf(old(board), old(selected).value);
                var kt := IndexOf(old(board), tId);
                var amount := if shift then old(board)[ks].troops - 1 else 1;
                old(board)[kt].owner == turn && Adjacent(old(board), old(selected), tId) ==>
                  && selected == old(selected)
                  && (old(board)[ks].troops <= 1 ==> board == old(board) && !endTurnDue)
                  && (old(board)[ks].troops > 1 ==>
                        && board[ks].troops == old(board)[ks].troops - amount >= 1
                        && board[kt].troops == old(board)[kt].troops + amount
                        && endTurnDue == (board[ks].troops == 1))
    {
      endTurnDue := false;
      var kt := IndexOf(board, tId);
      var t := board[kt];
      if selected == Some(tId) {
        selected := None;
      } else if selected.None? {
        if t.owner == turn && t.troops > 1 {
          selected := Some(tId);
        }
      } else {
        var ks := IndexOf(board, selected.value);
        var src := board[ks];
        if t.owner == turn && tId in src.neighbors {
          if src.troops > 1 {
            var amount := if shift then src.troops - 1 else 1;
            MoveTroops(ks, kt, amount);
            endTurnDue := board[ks].troops == 1;
          }
        } else if t.owner == turn && t.troops > 1 {
          selected := Some(tId);
        }
      }
    }

    /** `amount` troops move from the territory at `ks` to the one at `kt`
        (`updateTroopCount` on each); nothing else changes. */
    method MoveTroops(ks: int, kt: int, amount: int)
      requires Valid() && 0 <= ks < |board| && 0 <= kt < |board| && ks != kt
      modifies this
      ensures Valid() && SameMap(old(board), board) && Total(board) == old(Total(board))
      ensures turn == old(turn) && phase == old(phase) && reinforcements == old(reinforcements)
      ensures gameOver == old(gameOver) && selected == old(selected)
      ensures forall i :: 0 <= i < |board| ==>
                && board[i].owner == old(board)[i].owner
                && board[i].troops == old(board)[i].troops - (if i == ks then amount else 0) + (if i == kt then amount else 0)
    {
      var b := Shift(board, ks, kt, amount);
      SettleOk(board, b, |players|, info);
      if selected.Some? {
        SameMapKeeps(board, b, selected.value);
      }
      board := b;
    }

    /** `handleTerritoryClick(tId, e)` with `e.shiftKey` as `shift`: nothing happens once
        the game is over or during a CPU turn; otherwise the branch of the current phase.
        `endTurnDue` stands for the delayed `endTurn` a finished fortification asks for. */
    method HandleTerritoryClick(tId: int, shift: bool, rng: Rand.Stream, k0: nat) returns (k: nat, endTurnDue: bool)
      requires Valid() && HasId(board, tId) && Rand.Unit(rng)
      modifies this
      ensures Valid() && SameMap(old(board), board) && turn == old(turn)
      ensures old(gameOver) || players[old(turn)].kind.Cpu? ==>
                && board == old(board) && phase == old(phase) && reinforcements == old(reinforcements)
                && selected == old(selected) && gameOver == old(gameOver) && k == k0 && !endTurnDue
      ensures old(phase) == Deploy ==> Total(board) + reinforcements == old(Total(board) + reinforcements)
      ensures old(phase) == Fortify ==> Total(board) == old(Total(board))
      ensures old(phase) != Attack ==> gameOver == old(gameOver) && k == k0
      ensures endTurnDue ==> old(phase) == Fortify
      ensures !old(gameOver) && !players[old(turn)].kind.Cpu? && old(phase) == Deploy ==>
                && !endTurnDue && k == k0
                && SameMap(old(board), board)
                && turn == old(turn) && gameOver == old(gameOver)
                && (var t := old(board)[IndexOf(old(board), tId)];
                   !(t.owner == turn && old(reinforcements) > 0) ==>
                     board == old(board) && reinforcements == old(reinforcements) && phase == Deploy && selected == old(selected))
                && (var kt := IndexOf(old(board), tId);
                   var amount := if shift then old(reinforcements) else 1;
                   old(board)[kt].owner == turn && old(reinforcements) > 0 ==>
                     && board[kt].troops == old(board)[kt].troops + amount
                     && reinforcements == old(reinforcements) - amount
                     && (reinforcements == 0 ==> phase == Attack && selected == None)
                     && (reinforcements != 0 ==> phase == Deploy && selected == old(selected)))
                && (forall i :: 0 <= i < |board| ==>
                     board[i].owner == old(board)[i].owner && (board[i].id != tId ==> board[i].troops == old(board)[i].troops))
                && Total(board) + reinforcements == old(Total(board) + reinforcements)
                && (old(reinforcements) >= 0 ==> reinforcements >= 0)
      ensures !old(gameOver) && !players[old(turn)].kind.Cpu? && old(phase) == Attack ==>
                && !endTurnDue
                && SameMap(old(board), board)
                && turn == old(turn) && phase == Attack && reinforcements == old(reinforcements)
                && (old(selected) == Some(tId) ==>
                     selected == None && board == old(board) && gameOver == old(gameOver) && k == k0)
                && (var t := old(board)[IndexOf(old(board), tId)];
                   old(selected) != Some(tId) && t.owner == turn ==>
                     && selected == (if t.troops > 1 then Some(tId) else old(selected))
                     && board == old(board) && gameOver == old(gameOver) && k == k0)
                && (var t := old(board)[IndexOf(old(board), tId)];
                   old(selected) != Some(tId) && t.owner != turn && !Adjacent(old(board), old(selected), tId) ==>
                     selected == old(selected) && board == old(board) && gameOver == old(gameOver) && k == k0)
                && (var t := old(board)[IndexOf(old(board), tId)];
                   old(selected) != Some(tId) && t.owner != turn && Adjacent(old(board), old(selected), tId) ==>
                     && board == Attacked(old(board), players, old(selected).value, tId, rng, k0)
                     && selected == None && k == k0 + 2
                     && gameOver == (old(gameOver) || |Active(players, board)| == 1))
                && (forall i :: 0 <= i < |board| && (board[i].owner != old(board)[i].owner || board[i].troops != old(board)[i].troops) ==>
                     board[i].id == tId || old(selected) == Some(board[i].id))
      ensures !old(gameOver) && !players[old(turn)].kind.Cpu? && old(phase) == Fortify ==>
                && k == k0
                && SameMap(old(board), board) && Total(board) == old(Total(board))
                && turn == old(turn) && phase == Fortify && reinforcements == old(reinforcements) && gameOver == old(gameOver)
                && (forall i :: 0 <= i < |board| ==> board[i].owner == old(board)[i].owner)
                && (forall i :: 0 <= i < |board| && board[i].troops != old(board)[i].troops ==>
                     board[i].id == tId || old(selected) == Some(board[i].id))
                && (old(selected) == Some(tId) ==> selected == None && board == old(board) && !endTurnDue)
                && (var t := old(board)[IndexOf(old(board), tId)];
                   old(selected).None? ==>
                     && selected == (if t.owner == turn && t.troops > 1 then Some(tId) else None)
                     && board == old(board) && !endTurnDue)
                && (var t := old(board)[IndexOf(old(board), tId)];
                   old(selected).Some? && old(selected) != Some(tId) && !(t.owner == turn && Adjacent(old(board), old(selected), tId)) ==>
                     && selected == (if t.owner == turn && t.troops > 1 then Some(tId) else old(selected))
                     && board == old(board) && !endTurnDue)
                && (old(selected).Some? && old(selected) != Some(tId) ==>
                     var ks := IndexOf(old(board), old(selected).value);
                     var kt := IndexOf(old(board), tId);
                     var amount := if shift then old(board)[ks].troops - 1 else 1;
                     old(board)[kt].owner == turn && Adjacent(old(board), old(selected), tId) ==>
                       && selected == old(selected)
                       && (old(board)[ks].troops <= 1 ==> board == old(board) && !endTurnDue)
                       && (old(board)[ks].troops > 1 ==>
                             && board[ks].troops == old(board)[ks].troops - amount >= 1
                             && board[kt].troops == old(board)[kt].troops + amount
                             && endTurnDue == (board[ks].troops == 1)))
    {
      k, endTurnDue := k0, false;
      if gameOver || players[turn].kind.Cpu? {
        return;
      }
      if phase == Deploy {
        DeployClick(tId, shift);
      } else if phase == Attack {
        k := AttackClick(tId, rng, k0);
      } else {
        endTurnDue := FortifyClick(tId, shift);
      }
    }

    /** `resolveBattle` from territory `a` on territory `d`, with two random draws from
        `k0`: the winner takes the territory with half of what stays behind (at least one),
        the loser of a failed attack loses half its troops; then the selection is cleared
        and the win condition checked. */
    method ResolveBattle(a: int, d: int, rng: Rand.Stream, k0: nat) returns (k: nat)
      requires Valid() && HasId(board, a) && HasId(board, d) && a != d && Rand.Unit(rng)
      modifies this
      ensures Valid() && SameMap(old(board), board)
      ensures k == k0 + 2 && selected == None
      ensures turn == old(turn) && phase == old(phase) && reinforcements == old(reinforcements)
      ensures gameOver == (old(gameOver) || |Active(players, board)| == 1)
      ensures board == Attacked(old(board), players, a, d, rng, k0)
      ensures Battled(old(board), board, a, d, players, rng, k0)
    {
      var b := BattleStep(board, |players|, info, players, a, d, rng, k0);
      board := b;
      selected := None;
      CheckWinCondition();
      k := k0 + 2;
    }

    /** `btnAction`, the phase button: deploy to attack once every reinforcement is
        placed, attack to fortify, and fortify to the end of the turn. */
    method BtnAction() returns (cpuDue: bool)
      requires Valid()
      modifies this
      ensures Valid() && board == old(board) && gameOver == old(gameOver)
      ensures old(phase) == Deploy ==>
                && turn == old(turn) && reinforcements == old(reinforcements) && !cpuDue
                && (old(reinforcements) == 0 ==> phase == Attack && selected == None)
                && (old(reinforcements) != 0 ==> phase == Deploy && selected == old(selected))
      ensures old(phase) == Attack ==>
                phase == Fortify && selected == None && turn == old(turn) && reinforcements == old(reinforcements) && !cpuDue
      ensures old(phase) == Fortify && old(gameOver) ==> phase == Fortify && turn == old(turn) && !cpuDue
      ensures old(phase) == Fortify && !old(gameOver) ==>
                && turn == Advance(board, |players|, old(turn), 0) && phase == Deploy && selected == None
                && reinforcements == Reinforcements(turn, board, ContinentList(continents))
                && cpuDue == players[turn].kind.Cpu?
    {
      cpuDue := false;
      if phase == Deploy && reinforcements == 0 {
        phase := Attack;
        selected := None;
      } else if phase == Attack {
        phase := Fortify;
        selected := None;
      } else if phase == Fortify {
        cpuDue := EndTurn();
      }
    }

    /** `endTurn`: unless the game is over or the human still has troops to deploy, the
        turn passes to the next seat whose player owns territory (after at most one round),
        who gets the reinforcements `calculateReinforcements` grants. `cpuDue` stands for
        the delayed `cpuTurn` a CPU seat asks for. */
    method EndTurn() returns (cpuDue: bool)
      requires Valid()
      modifies this
      ensures Valid() && board == old(board) && gameOver == old(gameOver)
      ensures old(gameOver) || (players[old(turn)].kind == Human && old(phase) == Deploy && old(reinforcements) > 0) ==>
                && turn == old(turn) && phase == old(phase) && reinforcements == old(reinforcements)
                && selected == old(selected) && !cpuDue
      ensures !(old(gameOver) || (players[old(turn)].kind == Human && old(phase) == Deploy && old(reinforcements) > 0)) ==>
                && turn == Advance(board, |players|, old(turn), 0) && phase == Deploy && selected == None
                && reinforcements == Reinforcements(turn, board, ContinentList(continents))
                && cpuDue == players[turn].kind.Cpu?
    {
      cpuDue := false;
      if gameOver || (players[turn].kind == Human && phase == Deploy && reinforcements > 0) {
        return;
      }
      var t := NextSeat(board, |players|, turn);
      turn := t;
      phase := Deploy;
      selected := None;
      reinforcements := CalculateReinforcements(turn, board, ContinentList(continents));
      cpuDue := players[turn].kind.Cpu?;
    }

    /** `cpuTurn`: for a CPU seat while the game goes on, the deployments `getDeployments`
        records (the board `deployed`), the attack loop (the passes `trail` from `deployed`
        to `attacked`, as `CpuAttacks` states), the fortification `getFortification`
        settles on, and the end of the turn unless the attacks ended the game. */
    method CpuTurn(rng: Rand.Stream, k0: nat)
      returns (k: nat, cpuDue: bool, ghost deployed: seq<Territory>, ghost attacked: seq<Territory>,
               ghost trail: seq<seq<Territory>>, ghost draws: seq<nat>)
      requires Valid() && Rand.Unit(rng)
      modifies this
      ensures Valid() && SameMap(old(board), board)
      ensures old(gameOver) || players[old(turn)].kind == Human ==>
                && board == old(board) && turn == old(turn) && phase == old(phase) && reinforcements == old(reinforcements)
                && selected == old(selected) && gameOver == old(gameOver) && k == k0 && !cpuDue
      ensures !old(gameOver) && players[old(turn)].kind.Cpu? ==>
                var diff := players[old(turn)].kind.difficulty;
                && (exists spent :: DeployedBy(old(turn), diff, Max(0, old(reinforcements)), old(board), continents, info,
                                               rng, k0, deployed, spent))
                && SameMap(deployed, attacked)
                && Passes(old(turn), diff, players, info, rng, trail, draws)
                && 0 < |trail| <= MaxAttacks(diff) + 1 && trail[0] == deployed && trail[|trail| - 1] == attacked
                && draws[0] == (if diff == Ai.Easy && CountTerritories(old(board), old(turn)) > 0
                                then k0 + Max(0, old(reinforcements)) else k0)
                && (forall i :: 0 <= i < |deployed| ==>
                      (deployed[i].owner == old(turn) ==> attacked[i].owner == old(turn))
                      && (attacked[i].owner == old(turn) || attacked[i].owner == deployed[i].owner))
                && FortifiedBy(old(turn), diff, attacked, board)
                && (gameOver ==> turn == old(turn) && phase == Fortify && !cpuDue)
                && (!gameOver ==> && turn == Advance(board, |players|, old(turn), 0) && phase == Deploy && selected == None
                                  && reinforcements == Reinforcements(turn, board, ContinentList(continents))
                                  && cpuDue == players[turn].kind.Cpu?)
    {
      k, cpuDue, deployed, attacked, trail, draws := k0, false, board, board, [board], [k0];
      if !gameOver && players[turn].kind.Cpu? {
        var diff := players[turn].kind.difficulty;
        ghost var r0 := reinforcements;
        k := CpuDeploy(diff, rng, k0);
        deployed := board;
        assert DeployedBy(turn, diff, Max(0, r0), old(board), continents, info, rng, k0, deployed, r0 - reinforcements);
        k, attacked, trail, draws := CpuBattles(diff, rng, k);
        cpuDue := EndTurn();
      }
    }

    /** The attack and fortify phases of `cpuTurn`: the attack loop, whose passes `trail`
        lead from the board to `attacked`, and then the fortification `getFortification`
        settles on. */
    method CpuBattles(diff: Ai.Difficulty, rng: Rand.Stream, k0: nat)
      returns (k: nat, ghost attacked: seq<Territory>, ghost trail: seq<seq<Territory>>, ghost draws: seq<nat>)
      requires Valid() && Rand.Unit(rng)
      modifies this
      ensures Valid() && SameMap(old(board), board) && SameMap(old(board), attacked)
      ensures turn == old(turn) && phase == Fortify && reinforcements == old(reinforcements)
      ensures Passes(turn, diff, players, info, rng, trail, draws)
      ensures 0 < |trail| <= MaxAttacks(diff) + 1 && trail[0] == old(board) && trail[|trail| - 1] == attacked
      ensures draws[0] == k0
      ensures forall i :: 0 <= i < |attacked| ==>
                (old(board)[i].owner == turn ==> attacked[i].owner == turn)
                && (attacked[i].owner == turn || attacked[i].owner == old(board)[i].owner)
      ensures FortifiedBy(turn, diff, attacked, board)
    {
      k, trail, draws := CpuAttackPhase(diff, rng, k0);
      attacked := board;
      phase := Fortify;
      CpuFortify(diff);
    }

    /** The attack phase of `cpuTurn`: the phase becomes attack and the attack loop runs,
        its passes `trail` leading from the board to the board it leaves. */
    method CpuAttackPhase(diff: Ai.Difficulty, rng: Rand.Stream, k0: nat)
      returns (k: nat, ghost trail: seq<seq<Territory>>, ghost draws: seq<nat>)
      requires Valid() && Rand.Unit(rng)
      modifies this
      ensures Valid() && SameMap(old(board), board)
      ensures turn == old(turn) && phase == Attack && reinforcements == old(reinforcements)
      ensures Passes(turn, diff, players, info, rng, trail, draws)
      ensures 0 < |trail| <= MaxAttacks(diff) + 1 && trail[0] == old(board) && trail[|trail| - 1] == board
      ensures draws[0] == k0
      ensures forall i :: 0 <= i < |board| ==>
                (old(board)[i].owner == turn ==> board[i].owner == turn)
                && (board[i].owner == turn || board[i].owner == old(board)[i].owner)
    {
      phase := Attack;
      var count;
      k, count, trail, draws := CpuAttacks(diff, rng, k0);
    }

    /** The deployment step of `cpuTurn`: the record `getDeployments` returns, applied
        entry by entry, spending the reinforcements. */
    method CpuDeploy(diff: Ai.Difficulty, rng: Rand.Stream, k0: nat) returns (k: nat)
      requires Valid() && Rand.Unit(rng)
      modifies this
      ensures Valid() && SameMap(old(board), board)
      ensures turn == old(turn) && phase == old(phase) && selected == old(selected) && gameOver == old(gameOver)
      ensures DeployedBy(turn, diff, Max(0, old(reinforcements)), old(board), continents, info, rng, k0,
                         board, old(reinforcements) - reinforcements)
      ensures k == if diff == Ai.Easy && CountTerritories(old(board), turn) > 0 then k0 + Max(0, old(reinforcements)) else k0
      ensures forall i :: 0 <= i < |board| ==> board[i].owner == old(board)[i].owner && board[i].troops >= old(board)[i].troops
      ensures Total(board) + reinforcements == old(Total(board) + reinforcements)
      ensures old(reinforcements) >= 0 && CountTerritories(old(board), turn) > 0 && diff != Ai.Unrecognised ==> reinforcements == 0
    {
      var b, left;
      b, left, k := DeployStep(board, |players|, info, continents, turn, diff, reinforcements, rng, k0);
      if selected.Some? {
        SameMapKeeps(board, b, selected.value);
      }
      board, reinforcements := b, left;
    }

    /** The attack loop of `cpuTurn`: while fewer than `maxAttacks` attacks were made and
        the game goes on, one `AttackOnce`. `trail` holds the board before each attack
        and after the last, and `draws` the draw each pass began at: every attack is the
        pass `AttackedBy` describes, the game went on after each but the last, and the
        loop ends at the cap, at the end of the game, or at a pass that found no attack.
        It never costs the player a territory: every territory the player held stays
        the player's, and every other one keeps its owner or passes to the player. */
    method CpuAttacks(diff: Ai.Difficulty, rng: Rand.Stream, k0: nat)
      returns (k: nat, count: nat, ghost trail: seq<seq<Territory>>, ghost draws: seq<nat>)
      requires Valid() && Rand.Unit(rng)
      modifies this
      ensures |draws| == count + 1
      ensures AttackLoop(diff, rng, k0, old(board), old(selected), old(gameOver), old(turn), old(phase), old(reinforcements),
                         draws[count], count, trail, draws)
      ensures count == MaxAttacks(diff) || gameOver || AttackedBy(turn, diff, players, board, info, rng, draws[count], false, board, k)
      ensures count < MaxAttacks(diff) && !gameOver ==> NoAttack(turn, diff, board, info, rng, draws[count])
      ensures old(gameOver) ==> k == k0
    {
      k, count, trail, draws := k0, 0, [board], [k0];
      while count < MaxAttacks(diff) && !gameOver
        invariant AttackLoop(diff, rng, k0, old(board), old(selected), old(gameOver), old(turn), old(phase), old(reinforcements),
                             k, count, trail, draws)
        decreases MaxAttacks(diff) - count
      {
        var go, k1;
        go, k1, trail, draws := AttackStep(diff, rng, k0, old(board), old(selected), old(gameOver), old(turn), old(phase),
                                           old(reinforcements), k, count, trail, draws);
        k := k1;
        if !go {
          break;
        }
        count := count + 1;
      }
    }

    /** The state of `cpuTurn`'s attack loop, for a turn that began on the board `start`
        with the selection `sel`, the game-over flag `over0`, the seat `t`, the phase `ph`
        and the reinforcements `rf`, after `count` attacks with draw `k` next: at most
        `maxAttacks` attacks; `trail` holds the board before each attack and after the
        last, and `draws` the draw each pass began at, every attack being the pass
        `AttackedBy` describes and the game going on after each but the last; the game
        is over once a single player owns territory after an attack; and no territory
        of the player was lost, every other one keeping its owner or passing to the
        player. */
    ghost predicate AttackLoop(diff: Ai.Difficulty, rng: Rand.Stream, k0: nat, start: seq<Territory>, sel: Option<int>,
                               over0: bool, t: int, ph: Phase, rf: int, k: nat, count: nat,
                               trail: seq<seq<Territory>>, draws: seq<nat>)
      reads this
    {
      && Valid() && SameMap(start, board) && count <= MaxAttacks(diff)
      && turn == t && phase == ph && reinforcements == rf
      && |trail| == |draws| == count + 1 && trail[0] == start && draws[0] == k0
      && trail[count] == board && draws[count] == k
      && Passes(turn, diff, players, info, rng, trail, draws)
      && (count > 0 ==> !over0 && selected == None)
      && (count == 0 ==> selected == sel)
      && gameOver == (over0 || (count > 0 && |Active(players, board)| == 1))
      && (over0 ==> count == 0 && board == start && k == k0)
      && forall i :: 0 <= i < |board| ==>
           (start[i].owner == turn ==> board[i].owner == turn) && (board[i].owner == turn || board[i].owner == start[i].owner)
    }

    /** One pass of the attack loop: `AttackOnce`, with the trail grown by its board when
        it attacked; when it found no attack, the board is left as it was. */
    method AttackStep(diff: Ai.Difficulty, rng: Rand.Stream, k0: nat, ghost start: seq<Territory>, ghost sel: Option<int>,
                      ghost over0: bool, ghost t: int, ghost ph: Phase, ghost rf: int, k: nat, count: nat,
                      ghost trail: seq<seq<Territory>>, ghost draws: seq<nat>)
      returns (go: bool, k': nat, ghost trail': seq<seq<Territory>>, ghost draws': seq<nat>)
      requires AttackLoop(diff, rng, k0, start, sel, over0, t, ph, rf, k, count, trail, draws)
      requires Rand.Unit(rng) && count < MaxAttacks(diff) && !gameOver
      modifies this
      ensures go ==> AttackLoop(diff, rng, k0, start, sel, over0, t, ph, rf, k', count + 1, trail', draws')
      ensures !go ==> && AttackLoop(diff, rng, k0, start, sel, over0, t, ph, rf, k, count, trail, draws)
                      && AttackedBy(turn, diff, players, board, info, rng, k, false, board, k')
                      && NoAttack(turn, diff, board, info, rng, k)
                      && trail' == trail && draws' == draws
    {
      BoardReadable(board, |players|, info, turn, diff);
      ghost var before := board;
      assert count > 0 ==> |Active(players, before)| != 1;
      go, k' := AttackOnce(diff, rng, k);
      if go {
        trail', draws' := trail + [board], draws + [k'];
        assert trail'[..count + 1] == trail && draws'[..count + 1] == draws;
      } else {
        trail', draws' := trail, draws;
      }
    }

    /** One turn of the attack loop's body: the attack `getNextAttack` picks from draw
        `k0`, resolved with `resolveBattle` when both its territories exist; `go` is
        false, and nothing changes, when the loop breaks off there. */
    method AttackOnce(diff: Ai.Difficulty, rng: Rand.Stream, k0: nat) returns (go: bool, k: nat)
      requires Valid() && Rand.Unit(rng) && Ai.AttackReadable(diff, turn, board, info)
      modifies this
      ensures Valid() && SameMap(old(board), board)
      ensures turn == old(turn) && phase == old(phase) && reinforcements == old(reinforcements)
      ensures AttackedBy(old(turn), diff, players, old(board), info, rng, k0, go, board, k)
      ensures !go ==> board == old(board) && selected == old(selected) && gameOver == old(gameOver)
                      && NoAttack(turn, diff, board, info, rng, k0)
      ensures go ==> selected == None && gameOver == (old(gameOver) || |Active(players, board)| == 1)
      ensures forall i :: 0 <= i < |board| ==>
                (old(board)[i].owner == turn ==> board[i].owner == turn)
                && (board[i].owner == turn || board[i].owner == old(board)[i].owner)
    {
      var move;
      move, k := Ai.GetNextAttack(turn, diff, board, info, rng, k0);
      if move.None? {
        return false, k;
      }
      AttackEnds(turn, diff, board, info, rng, k0);
      if HasId(board, move.value.0) && HasId(board, move.value.1) {
        k := ResolveBattle(move.value.0, move.value.1, rng, k);
        go := true;
      } else {
        go := false;
      }
    }

    /** The fortification step of `cpuTurn`: the move `getFortification` settles on, if
        any, applied with `updateTroopCount`. */
    method CpuFortify(diff: Ai.Difficulty)
      requires Valid()
      modifies this
      ensures Valid() && SameMap(old(board), board) && Total(board) == old(Total(board))
      ensures turn == old(turn) && phase == old(phase) && reinforcements == old(reinforcements)
      ensures selected == old(selected) && gameOver == old(gameOver)
      ensures FortifiedBy(turn, diff, old(board), board)
    {
      var b := ApplyFortification(board, |players|, info, turn, diff);
      if selected.Some? {
        SameMapKeeps(board, b, selected.value);
      }
      board := b;
    }

    /** `checkWinCondition`: the game ends once exactly one player owns territory. */
    method CheckWinCondition()
      modifies this
      ensures gameOver == (old(gameOver) || |Active(players, board)| == 1)
      ensures board == old(board) && turn == old(turn) && phase == old(phase)
      ensures reinforcements == old(reinforcements) && selected == old(selected)
    {
      if gameOver {
        return;
      }
      var active := Active(players, board);
      if |active| == 1 {
        gameOver := true;
      }
    }
  }
}
