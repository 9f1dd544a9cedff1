// Game flow of the dice-and-cards generation (js/game.js): setting up a game,
// starting a turn, the click handler of the three phases, the classic dice
// battle, fortification, reinforcements, the owned-territory path search and
// winner detection. All of it works on the shared `JsState.GameState` store.
//
// Territory lookups follow the source: a key missing from the store reads as
// `undefined`, whose owner matches no player.
module JsGame {
  import opened Util
  import opened Constants
  import opened Sorting
  import Rand
  import opened JsState

  // ------------------------------------------------------------- territory queries

  /** `territories[t]?.ownerId === p`. */
  predicate Owns(m: map<Tid, Holding>, t: Tid, p: int) {
    t in m && m[t].ownerId == p
  }

  /** The keys in `keys` owned by `p`, in key order: the `.filter` over `Object.keys(territories)`. */
  function OwnedIn(keys: seq<Tid>, m: map<Tid, Holding>, p: int): (r: seq<Tid>)
    ensures forall t :: t in r <==> t in keys && Owns(m, t, p)
    ensures |r| <= |keys|
  {
    if keys == [] then []
    else
      var last := keys[|keys| - 1];
      OwnedIn(keys[..|keys| - 1], m, p) + (if Owns(m, last, p) then [last] else [])
  }

  /** When every listed key is owned, the filter keeps them all. */
  lemma {:induction false} OwnedInAll(keys: seq<Tid>, m: map<Tid, Holding>, p: int)
    requires forall t :: t in keys ==> Owns(m, t, p)
    ensures OwnedIn(keys, m, p) == keys
    decreases |keys|
  {
    if keys != [] {
      var front, last := keys[..|keys| - 1], keys[|keys| - 1];
      forall t | t in front
        ensures Owns(m, t, p)
      {
        assert t in keys;
      }
      OwnedInAll(front, m, p);
      assert Owns(m, last, p);
      assert OwnedIn(keys, m, p) == front + [last];
      assert front + [last] == keys;
    }
  }

  /** The army total over the listed territories. */
  function TotalArmies(keys: seq<Tid>, m: map<Tid, Holding>): int
    requires forall t :: t in keys ==> t in m
  {
    if keys == [] then 0
    else TotalArmies(keys[..|keys| - 1], m) + m[keys[|keys| - 1]].armies
  }

  /** The armies standing on the listed territories that `p` owns. */
  function PlayerArmies(keys: seq<Tid>, m: map<Tid, Holding>, p: int): int
    requires forall t :: t in keys ==> t in m
  {
    if keys == [] then 0
    else
      var last := keys[|keys| - 1];
      PlayerArmies(keys[..|keys| - 1], m, p) + (if m[last].ownerId == p then m[last].armies else 0)
  }

  /** Replacing one territory's record changes the totals by exactly the difference. */
  lemma {:induction false} UpdateTotals(keys: seq<Tid>, m: map<Tid, Holding>, t: Tid, h: Holding, p: int)
    requires NoDup(keys) && t in m
    requires forall u :: u in keys ==> u in m
    ensures TotalArmies(keys, m[t := h]) ==
      TotalArmies(keys, m) + (if t in keys then h.armies - m[t].armies else 0)
    ensures PlayerArmies(keys, m[t := h], p) ==
      PlayerArmies(keys, m, p)
      + (if t in keys && h.ownerId == p then h.armies else 0)
      - (if t in keys && m[t].ownerId == p then m[t].armies else 0)
    decreases |keys|
  {
    if keys != [] {
      var front := keys[..|keys| - 1];
      assert NoDup(front);
      UpdateTotals(front, m, t, h, p);
      assert keys == front + [keys[|keys| - 1]];
    }
  }

  /** `amount` armies leave `s` and arrive at `t`, in that order. */
  function Transfer(m: map<Tid, Holding>, s: Tid, t: Tid, amount: int): map<Tid, Holding>
    requires s in m && t in m
  {
    var m1 := m[s := m[s].(armies := m[s].armies - amount)];
    m1[t := m1[t].(armies := m1[t].armies + amount)]
  }

  /** A transfer changes no owner and no key, and keeps both the army total and
      the armies of every player when the two territories share an owner. */
  lemma TransferConserves(keys: seq<Tid>, m: map<Tid, Holding>, s: Tid, t: Tid, amount: int, p: int)
    requires NoDup(keys) && s in keys && t in keys
    requires forall u :: u in keys ==> u in m
    ensures var m' := Transfer(m, s, t, amount);
      (forall u :: u in m' <==> u in m) && (forall u :: u in m ==> m'[u].ownerId == m[u].ownerId)
    ensures TotalArmies(keys, Transfer(m, s, t, amount)) == TotalArmies(keys, m)
    ensures m[s].ownerId == m[t].ownerId ==> PlayerArmies(keys, Transfer(m, s, t, amount), p) == PlayerArmies(keys, m, p)
  {
    var m1 := m[s := m[s].(armies := m[s].armies - amount)];
    UpdateTotals(keys, m, s, m1[s], p);
    UpdateTotals(keys, m1, t, m1[t].(armies := m1[t].armies + amount), p);
  }

  // ----------------------------------------------------------- calculateReinforcements

  /** Every territory of the continent is owned by `p` (`continentTerritories.every(...)`). */
  predicate Controls(m: map<Tid, Holding>, p: int, c: Continent) {
    forall t :: t in Members(c) ==> Owns(m, t, p)
  }

  /** The bonuses of the continents among `cs` that `p` controls. */
  function ContinentBonuses(m: map<Tid, Holding>, p: int, cs: seq<Continent>): int {
    if cs == [] then 0
    else
      var c := cs[|cs| - 1];
      ContinentBonuses(m, p, cs[..|cs| - 1]) + (if Controls(m, p, c) then Bonus(c) else 0)
  }

  function BonusTotal(cs: seq<Continent>): int {
    if cs == [] then 0 else BonusTotal(cs[..|cs| - 1]) + Bonus(cs[|cs| - 1])
  }

  /** The reinforcements of `p`: none without territories, otherwise
      max(3, ⌊n/3⌋) plus the bonus of every continent held whole. */
  function Reinforcements(keys: seq<Tid>, m: map<Tid, Holding>, p: int): int {
    var n := |OwnedIn(keys, m, p)|;
    if n == 0 then 0 else Max(3, n / 3) + ContinentBonuses(m, p, AllContinents)
  }

  /** `calculateReinforcements`, summing the continent bonuses in a loop. */
  method CalculateReinforcements(gs: GameState, p: int) returns (r: int)
    ensures r == Reinforcements(gs.order, gs.territories, p)
  {
    var mine := OwnedIn(gs.order, gs.territories, p);
    if |mine| == 0 {
      return 0;
    }
    r := Max(3, |mine| / 3);
    var i := 0;
    while i < |AllContinents|
      invariant 0 <= i <= |AllContinents|
      invariant r == Max(3, |mine| / 3) + ContinentBonuses(gs.territories, p, AllContinents[..i])
    {
      var c := AllContinents[i];
      assert AllContinents[..i + 1][..i] == AllContinents[..i];
      if forall t :: t in Members(c) ==> Owns(gs.territories, t, p) {
        r := r + Bonus(c);
      }
      i := i + 1;
    }
    assert AllContinents[..i] == AllContinents;
  }

  lemma {:induction false} BonusesBounded(m: map<Tid, Holding>, p: int, cs: seq<Continent>)
    ensures 0 <= ContinentBonuses(m, p, cs) <= BonusTotal(cs)
    decreases |cs|
  {
    if cs != [] {
      BonusesBounded(m, p, cs[..|cs| - 1]);
    }
  }

  /** A player owning nothing gets nothing; anyone else gets at least three,
      at least a third of their territories, and at most 24 in bonuses on top. */
  lemma ReinforcementBounds(keys: seq<Tid>, m: map<Tid, Holding>, p: int)
    ensures OwnedIn(keys, m, p) == [] ==> Reinforcements(keys, m, p) == 0
    ensures OwnedIn(keys, m, p) != [] ==>
      var n := |OwnedIn(keys, m, p)|;
      3 <= Reinforcements(keys, m, p) && n / 3 <= Reinforcements(keys, m, p) <= Max(3, n / 3) + 24
  {
    BonusesBounded(m, p, AllContinents);
    assert BonusTotal(AllContinents) == 24 by { BonusTotalAll(); }
  }

  lemma BonusTotalAll()
    ensures BonusTotal(AllContinents) == 24
  {
    var cs := AllContinents;
    assert cs[..1][..0] == [] && cs[..2][..1] == cs[..1] && cs[..3][..2] == cs[..2];
    assert cs[..4][..3] == cs[..3] && cs[..5][..4] == cs[..4] && cs[..5] == cs[..|cs| - 1];
    assert BonusTotal(cs[..1]) == 5;
    assert BonusTotal(cs[..2]) == 7;
    assert BonusTotal(cs[..3]) == 12;
    assert BonusTotal(cs[..4]) == 15;
    assert BonusTotal(cs[..5]) == 22;
  }

  /** Gaining territories never lowers the continent bonus. */
  lemma {:induction false} BonusesMonotone(m: map<Tid, Holding>, m': map<Tid, Holding>, p: int, cs: seq<Continent>)
    requires forall t :: Owns(m, t, p) ==> Owns(m', t, p)
    ensures ContinentBonuses(m, p, cs) <= ContinentBonuses(m', p, cs)
    decreases |cs|
  {
    if cs != [] {
      BonusesMonotone(m, m', p, cs[..|cs| - 1]);
    }
  }

  /** Holding the whole classic map is worth 42/3 = 14 plus every bonus, 38 armies. */
  lemma WholeMapReinforcements(keys: seq<Tid>, m: map<Tid, Holding>, p: int)
    requires multiset(keys) == multiset(AllTerritories())
    requires forall t :: Owns(m, t, p)
    ensures Reinforcements(keys, m, p) == 38
  {
    OwnedInAll(keys, m, p);
    AllTerritoriesExact();
    assert |keys| == |multiset(keys)| == |multiset(AllTerritories())| == 42;
    AllControlled(m, p, AllContinents);
    BonusTotalAll();
  }

  lemma {:induction false} AllControlled(m: map<Tid, Holding>, p: int, cs: seq<Continent>)
    requires forall t :: Owns(m, t, p)
    ensures ContinentBonuses(m, p, cs) == BonusTotal(cs)
    decreases |cs|
  {
    if cs != [] {
      AllControlled(m, p, cs[..|cs| - 1]);
    }
  }

  // ------------------------------------------------------------------ isPathBetween

  /** The adjacency table the search follows: `territoriesData[t].adj`. */
  type Graph = Tid -> seq<Tid>

  /** One step of the search: to a neighbour the player owns. */
  predicate Step(g: Graph, m: map<Tid, Holding>, p: int, u: Tid, v: Tid) {
    v in g(u) && Owns(m, v, p)
  }

  /** A walk whose every step enters a territory of `p` (the first territory is not checked). */
  ghost predicate IsWalk(g: Graph, m: map<Tid, Holding>, p: int, w: seq<Tid>) {
    |w| >= 1 && forall i :: 0 <= i < |w| - 1 ==> Step(g, m, p, w[i], w[i + 1])
  }

  ghost predicate Reachable(g: Graph, m: map<Tid, Holding>, p: int, s: Tid, e: Tid) {
    exists w :: IsWalk(g, m, p, w) && w[0] == s && w[|w| - 1] == e
  }

  /** Every territory id, as a set. */
  function AllIds(): set<Tid> {
    set t | t in AllTerritories()
  }

  /** A set closed under steps that holds a walk's first territory holds its last. */
  lemma {:induction false} ClosedHoldsWalk(g: Graph, m: map<Tid, Holding>, p: int, s: set<Tid>, w: seq<Tid>)
    requires IsWalk(g, m, p, w) && w[0] in s
    requires forall u, v :: u in s && Step(g, m, p, u, v) ==> v in s
    ensures w[|w| - 1] in s
    decreases |w|
  {
    if |w| > 1 {
      var front := w[..|w| - 1];
      assert IsWalk(g, m, p, front);
      ClosedHoldsWalk(g, m, p, s, front);
      assert Step(g, m, p, w[|w| - 2], w[|w| - 1]);
    }
  }

  ghost predicate WalkFromTo(g: Graph, m: map<Tid, Holding>, p: int, w: seq<Tid>, s: Tid, e: Tid) {
    IsWalk(g, m, p, w) && w[0] == s && w[|w| - 1] == e
  }

  /** Each visited territory has a recorded walk from the start. */
  ghost predicate Witnessed(g: Graph, m: map<Tid, Holding>, p: int, start: Tid, visited: set<Tid>, walks: map<Tid, seq<Tid>>) {
    forall v :: v in visited ==> v in walks && WalkFromTo(g, m, p, walks[v], start, v)
  }

  /** The queue holds visited territories, each once. */
  predicate Queued(queue: seq<Tid>, visited: set<Tid>) {
    NoDup(queue) && forall v :: v in queue ==> v in visited
  }

  /** Every visited territory that has left the queue has all its steps visited. */
  ghost predicate ClosedOutside(g: Graph, m: map<Tid, Holding>, p: int, visited: set<Tid>, queue: seq<Tid>) {
    forall u, v :: u in visited && u !in queue && Step(g, m, p, u, v) ==> v in visited
  }

  lemma ExtendWalk(g: Graph, m: map<Tid, Holding>, p: int, w: seq<Tid>, s: Tid, u: Tid, v: Tid)
    requires WalkFromTo(g, m, p, w, s, u) && Step(g, m, p, u, v)
    ensures WalkFromTo(g, m, p, w + [v], s, v)
  {
  }

  /** `isPathBetween`: breadth-first search from `start` through territories
      of `p`, over the adjacency table `g` and the territory records `m`. */
  method IsPathBetween(g: Graph, m: map<Tid, Holding>, start: Tid, end: Tid, p: int) returns (found: bool)
    ensures found <==> Reachable(g, m, p, start, end)
  {
    var queue := [start];
    var visited := {start};
    ghost var walks: map<Tid, seq<Tid>> := map[start := [start]];
    while queue != []
      invariant Queued(queue, visited) && start in visited
      invariant Witnessed(g, m, p, start, visited, walks)
      invariant end in visited ==> end in queue
      invariant ClosedOutside(g, m, p, visited, queue)
      decreases AllIds() - visited, |queue|
    {
      var cur := queue[0];
      queue := queue[1..];
      if cur == end {
        assert WalkFromTo(g, m, p, walks[cur], start, end);
        return true;
      }
      ghost var before := visited;
      visited, queue, walks := Expand(g, m, p, cur, visited, queue, walks, start);
      if visited != before {
        InAllIdsSubset(visited);
        assert AllIds() - visited < AllIds() - before;
      }
    }
    if Reachable(g, m, p, start, end) {
      var w :| IsWalk(g, m, p, w) && w[0] == start && w[|w| - 1] == end;
      ClosedHoldsWalk(g, m, p, visited, w);
    }
    return false;
  }

  lemma InAllIdsSubset(s: set<Tid>)
    ensures s <= AllIds()
  {
    AllTerritoriesExact();
  }

  /** The inner loop of the search: queue every owned, unvisited neighbour of `cur`. */
  method Expand(g: Graph, m: map<Tid, Holding>, p: int, cur: Tid, visited: set<Tid>, queue: seq<Tid>,
                ghost walks: map<Tid, seq<Tid>>, ghost start: Tid)
    returns (visited': set<Tid>, queue': seq<Tid>, ghost walks': map<Tid, seq<Tid>>)
    requires cur in visited && cur !in queue
    requires Queued(queue, visited) && Witnessed(g, m, p, start, visited, walks)
    requires ClosedOutside(g, m, p, visited, queue + [cur])
    ensures Queued(queue', visited') && Witnessed(g, m, p, start, visited', walks')
    ensures ClosedOutside(g, m, p, visited', queue')
    ensures visited <= visited' && (visited' == visited ==> |queue'| == |queue|)
    ensures forall v :: v in queue ==> v in queue'
    ensures forall v :: v in visited' && v !in visited ==> v in queue'
  {
    var adj := g(cur);
    visited', queue', walks' := visited, queue, walks;
    var i := 0;
    while i < |adj|
      invariant 0 <= i <= |adj|
      invariant visited <= visited' && (visited' == visited ==> queue' == queue)
      invariant Queued(queue', visited') && Witnessed(g, m, p, start, visited', walks')
      invariant forall v :: v in visited' && v !in visited ==> v in queue'
      invariant forall v :: v in queue ==> v in queue'
      invariant cur !in queue'
      invariant forall j :: 0 <= j < i && Step(g, m, p, cur, adj[j]) ==> adj[j] in visited'
    {
      var v := adj[i];
      if v !in visited' && Owns(m, v, p) {
        ExtendWalk(g, m, p, walks'[cur], start, cur, v);
        visited' := visited' + {v};
        queue' := queue' + [v];
        walks' := walks'[v := walks'[cur] + [v]];
      }
      i := i + 1;
    }
    ClosedAfterExpand(g, m, p, cur, visited, queue, visited', queue');
  }

  lemma ClosedAfterExpand(g: Graph, m: map<Tid, Holding>, p: int, cur: Tid, visited: set<Tid>, queue: seq<Tid>,
                          visited': set<Tid>, queue': seq<Tid>)
    requires ClosedOutside(g, m, p, visited, queue + [cur])
    requires visited <= visited'
    requires forall v :: v in visited' && v !in visited ==> v in queue'
    requires forall v :: v in queue ==> v in queue'
    requires forall v :: Step(g, m, p, cur, v) ==> v in visited'
    ensures ClosedOutside(g, m, p, visited', queue')
  {
    forall u, v | u in visited' && u !in queue' && Step(g, m, p, u, v) ensures v in visited' {
      if u != cur {
        assert u in visited && u !in queue + [cur];
      }
    }
  }

  // ------------------------------------------------------------------------ rollDice

  /** `rollDice(count)`: `count` dice from consecutive draws (none for a count below one). */
  function RollDice(count: int, rng: Rand.Stream, k: nat): (r: seq<int>)
    requires Rand.Unit(rng)
    ensures |r| == Max(count, 0)
    ensures forall i :: 0 <= i < |r| ==> 1 <= r[i] <= 6
  {
    var r := seq(Max(count, 0), i requires 0 <= i < Max(count, 0) => Rand.Die(rng(k + i)));
    assert forall i :: 0 <= i < |r| ==> r[i] == Rand.Die(rng(k + i));
    r
  }

  // ------------------------------------------------------------------- dice battle

  /** How many of the first `n` pairs the attacker's die wins (strictly higher). */
  function AttackerWins(a: seq<int>, d: seq<int>, n: nat): nat
    requires n <= |a| && n <= |d|
  {
    if n == 0 then 0
    else AttackerWins(a, d, n - 1) + (if a[n - 1] > d[n - 1] then 1 else 0)
  }

  /** The comparison loop of `performAttack` and of the AI's battles: the
      highest dice are paired, and a tie goes to the defender. */
  method CompareRolls(a: seq<int>, d: seq<int>) returns (attackerLosses: int, defenderLosses: int)
    ensures defenderLosses == AttackerWins(a, d, Min(|a|, |d|))
    ensures attackerLosses + defenderLosses == Min(|a|, |d|)
    ensures attackerLosses >= 0 && defenderLosses >= 0
  {
    attackerLosses, defenderLosses := 0, 0;
    var i := 0;
    while i < Min(|a|, |d|)
      invariant 0 <= i <= Min(|a|, |d|)
      invariant defenderLosses == AttackerWins(a, d, i)
      invariant attackerLosses + defenderLosses == i
      invariant attackerLosses >= 0
    {
      if a[i] > d[i] {
        defenderLosses := defenderLosses + 1;
      } else {
        attackerLosses := attackerLosses + 1;
      }
      i := i + 1;
    }
  }

  /** Ties favour the defender: when no attacker die beats its pair, the
      defender loses nothing; when every one does, the attacker loses nothing. */
  lemma {:induction false} TiesToDefender(a: seq<int>, d: seq<int>, n: nat)
    requires n <= |a| && n <= |d|
    ensures (forall i :: 0 <= i < n ==> a[i] <= d[i]) ==> AttackerWins(a, d, n) == 0
    ensures (forall i :: 0 <= i < n ==> a[i] > d[i]) ==> AttackerWins(a, d, n) == n
    ensures AttackerWins(a, d, n) <= n
    decreases n
  {
    if n > 0 {
      TiesToDefender(a, d, n - 1);
    }
  }

  /** The armies that move in after a conquest: `min(dice, source − 1)`, or one
      when that is not positive. */
  function ConquestMove(dice: int, sourceArmies: int): int {
    var m := Min(dice, sourceArmies - 1);
    if m > 0 then m else 1
  }

  // ---------------------------------------------------------------- checkForWinner

  /** Some territory record names `id` as its owner. */
  predicate HasTerritory(m: map<Tid, Holding>, id: int) {
    exists t :: t in m && m[t].ownerId == id
  }

  /** The players still holding territory, in player order. */
  function ActivePlayers(ps: seq<Player>, m: map<Tid, Holding>): (r: seq<Player>)
    ensures |r| <= |ps|
  {
    if ps == [] then []
    else ActivePlayers(ps[..|ps| - 1], m) + (if HasTerritory(m, ps[|ps| - 1].id) then [ps[|ps| - 1]] else [])
  }

  /** The indices of the players still holding territory. */
  ghost function ActiveIndices(ps: seq<Player>, m: map<Tid, Holding>): set<int> {
    set i | 0 <= i < |ps| && HasTerritory(m, ps[i].id)
  }

  lemma {:induction false} ActiveCount(ps: seq<Player>, m: map<Tid, Holding>)
    ensures |ActivePlayers(ps, m)| == |ActiveIndices(ps, m)|
    decreases |ps|
  {
    if ps != [] {
      var n := |ps| - 1;
      ActiveCount(ps[..n], m);
      var front := ActiveIndices(ps[..n], m);
      if HasTerritory(m, ps[n].id) {
        assert ActiveIndices(ps, m) == front + {n};
      } else {
        assert ActiveIndices(ps, m) == front;
      }
    }
  }

  /** `checkForWinner`: exactly one player still holds territory. */
  function CheckForWinner(gs: GameState): bool
    reads gs
  {
    |ActivePlayers(gs.players, gs.territories)| == 1
  }

  /** There is a winner exactly when one player, and only that one, holds territory. */
  lemma WinnerIsSoleHolder(ps: seq<Player>, m: map<Tid, Holding>)
    ensures |ActivePlayers(ps, m)| == 1 <==>
      exists i :: 0 <= i < |ps| && HasTerritory(m, ps[i].id) &&
        forall j :: 0 <= j < |ps| && HasTerritory(m, ps[j].id) ==> j == i
  {
    ActiveCount(ps, m);
    var s := ActiveIndices(ps, m);
    if |s| == 1 {
      var i :| i in s;
      assert s - {i} == {} by {
        assert |s - {i}| == 0;
      }
      assert forall j :: 0 <= j < |ps| && HasTerritory(m, ps[j].id) ==> j == i by {
        forall j | 0 <= j < |ps| && HasTerritory(m, ps[j].id) ensures j == i {
          assert j in s;
        }
      }
    }
    if exists i :: 0 <= i < |ps| && HasTerritory(m, ps[i].id) &&
        forall j :: 0 <= j < |ps| && HasTerritory(m, ps[j].id) ==> j == i {
      var i :| 0 <= i < |ps| && HasTerritory(m, ps[i].id) &&
        forall j :: 0 <= j < |ps| && HasTerritory(m, ps[j].id) ==> j == i;
      assert s == {i};
    }
  }

  // ------------------------------------------------------------------ performAttack

  /** One exchange of dice as `performAttack` applies it to the two records. */
  datatype Exchange = Exchange(source: Holding, target: Holding, attackerLosses: int, defenderLosses: int, conquered: bool)

  /** The records after the attacker's sorted rolls `a` meet the defender's
      sorted rolls `d`. */
  function Fight(src: Holding, tgt: Holding, attackerId: int, dice: int, a: seq<int>, d: seq<int>): Exchange {
    var n := Min(|a|, |d|);
    var dl := AttackerWins(a, d, n);
    var s1 := src.(armies := src.armies - (n - dl));
    if tgt.armies - dl <= 0 then
      var move := ConquestMove(dice, s1.armies);
      Exchange(s1.(armies := s1.armies - move), Holding(attackerId, move), n - dl, dl, true)
    else
      Exchange(s1, tgt.(armies := tgt.armies - dl), n - dl, dl, false)
  }

  /** The exchange costs exactly one army per compared pair; the target falls
      exactly when its losses empty it, and then passes to the attacker with the
      surviving armies split between the two records. With fewer dice than
      source armies, the source always keeps an army. */
  lemma FightFacts(src: Holding, tgt: Holding, attackerId: int, dice: int, a: seq<int>, d: seq<int>)
    ensures var x := Fight(src, tgt, attackerId, dice, a, d);
      x.attackerLosses >= 0 && x.defenderLosses >= 0 &&
      x.attackerLosses + x.defenderLosses == Min(|a|, |d|)
    ensures var x := Fight(src, tgt, attackerId, dice, a, d);
      (x.conquered <==> tgt.armies - x.defenderLosses <= 0) && x.source.ownerId == src.ownerId
    ensures var x := Fight(src, tgt, attackerId, dice, a, d);
      x.conquered ==>
        x.target.ownerId == attackerId && x.target.armies >= 1 &&
        x.source.armies + x.target.armies == src.armies - x.attackerLosses
    ensures var x := Fight(src, tgt, attackerId, dice, a, d);
      !x.conquered ==>
        x.target.ownerId == tgt.ownerId &&
        x.source.armies == src.armies - x.attackerLosses &&
        x.target.armies == tgt.armies - x.defenderLosses
    ensures var x := Fight(src, tgt, attackerId, dice, a, d);
      1 <= dice < src.armies && |a| == dice && tgt.armies >= 1 && |d| == Min(tgt.armies, 2) ==>
        x.source.armies >= 1
  {
    TiesToDefender(a, d, Min(|a|, |d|));
  }

  /** `performAttack(dice)`: roll `dice` attacker dice and `min(armies, 2)`
      defender dice from the stream, sort both descending, compare pairwise
      and apply the exchange to the two records of the attack context. A
      conquest closes the attack dialog, which drops the selection, and
      reports whether the game is won. */
  method PerformAttack(gs: GameState, dice: int, rng: Rand.Stream, k: nat) returns (k': nat, won: bool)
    requires Rand.Unit(rng)
    requires gs.attackContext.Some? && gs.CurrentPlayer().Some?
    requires gs.attackContext.value.sourceId in gs.territories
    requires gs.attackContext.value.targetId in gs.territories
    requires gs.attackContext.value.sourceId != gs.attackContext.value.targetId
    modifies gs
    ensures var ctx := old(gs.attackContext.value);
      var tgt := old(gs.territories[ctx.targetId]);
      var a := SortDesc(RollDice(dice, rng, k));
      var d := SortDesc(RollDice(Min(tgt.armies, 2), rng, k + Max(dice, 0)));
      var x := Fight(old(gs.territories[ctx.sourceId]), tgt, old(gs.CurrentPlayer().value.id), dice, a, d);
      k' == k + Max(dice, 0) + Max(Min(tgt.armies, 2), 0) &&
      gs.View() == old(gs.View()).(
        territories := old(gs.territories)[ctx.sourceId := x.source][ctx.targetId := x.target],
        selectedTerritory := if x.conquered then None else old(gs.selectedTerritory)) &&
      won == (x.conquered && CheckForWinner(gs))
  {
    var ctx := gs.attackContext.value;
    var src := gs.territories[ctx.sourceId];
    var tgt := gs.territories[ctx.targetId];
    var defenderDice := Min(tgt.armies, 2);
    var a := SortDesc(RollDice(dice, rng, k));
    var d := SortDesc(RollDice(defenderDice, rng, k + Max(dice, 0)));
    k' := k + Max(dice, 0) + Max(defenderDice, 0);
    var conquered;
    src, tgt, conquered := ResolveAttack(src, tgt, gs.CurrentPlayer().value.id, dice, a, d);
    gs.territories := gs.territories[ctx.sourceId := src][ctx.targetId := tgt];
    won := false;
    if conquered {
      gs.SetSelectedTerritory(None);
      won := CheckForWinner(gs);
    }
  }

  /** The body of `performAttack` on the two records: losses from the compared
      rolls, then, if the defender is wiped out, the conquest and the move in. */
  method ResolveAttack(src: Holding, tgt: Holding, me: int, dice: int, a: seq<int>, d: seq<int>)
    returns (src': Holding, tgt': Holding, conquered: bool)
    ensures var x := Fight(src, tgt, me, dice, a, d);
      src' == x.source && tgt' == x.target && conquered == x.conquered
  {
    var attackerLosses, defenderLosses := CompareRolls(a, d);
    src' := src.(armies := src.armies - attackerLosses);
    tgt' := tgt.(armies := tgt.armies - defenderLosses);
    conquered := tgt'.armies <= 0;
    if conquered {
      var armiesToMove := Min(dice, src'.armies - 1);
      var moved := if armiesToMove > 0 then armiesToMove else 1;
      tgt' := Holding(me, moved);
      src' := src'.(armies := src'.armies - moved);
    }
  }

  // ---------------------------------------------------------------- turn rotation

  /** How many places `q` lies after `i` round a table of `n`. */
  function Distance(i: int, q: int, n: int): int {
    if q >= i then q - i else q - i + n
  }

  /** Passing the turn on from a seat other than `q` brings `q` one place nearer. */
  lemma DistanceStep(i: int, q: int, n: int)
    requires 0 <= i < n && 0 <= q < n && i != q
    ensures 0 <= Distance(NextIndex(i, n), q, n) == Distance(i, q, n) - 1
  {
    if i + 1 < n {
      ModUnique(i + 1, n, 0, i + 1);
    } else {
      ModUnique(i + 1, n, 1, 0);
    }
  }

  /** The store fields a turn change leaves alone. */
  twostate predicate TurnKeeps(gs: GameState)
    reads gs
  {
    gs.territories == old(gs.territories) && gs.order == old(gs.order) &&
    gs.deck == old(gs.deck) && gs.discardPile == old(gs.discardPile) &&
    gs.aiBattleSpeed == old(gs.aiBattleSpeed) && gs.isBlitzing == old(gs.isBlitzing) &&
    gs.attackContext == old(gs.attackContext) && gs.revealedTerritories == old(gs.revealedTerritories)
  }

  /** `startTurn`: stop if the game is won; pass over players who hold no
      territory; give the first one who does their reinforcements, and either
      hand over to the AI (`aiTurnDue`) or open the human's reinforce phase.
      `skipped` counts the players passed over. */
  method StartTurn(gs: GameState) returns (won: bool, aiTurnDue: bool, ghost skipped: nat)
    requires 0 <= gs.currentPlayerIndex < |gs.players|
    requires exists i :: 0 <= i < |gs.players| && HasTerritory(gs.territories, gs.players[i].id)
    modifies gs
    ensures TurnKeeps(gs) && |gs.players| == old(|gs.players|)
    ensures 0 <= gs.currentPlayerIndex < |gs.players|
    ensures gs.currentPlayerIndex == Rotate(old(gs.currentPlayerIndex), |gs.players|, skipped)
    ensures forall j :: 0 <= j < skipped ==>
      !HasTerritory(gs.territories, old(gs.players)[Rotate(old(gs.currentPlayerIndex), |gs.players|, j)].id)
    ensures won == old(CheckForWinner(gs))
    ensures won ==> skipped == 0 && !aiTurnDue && gs.players == old(gs.players) && gs.gamePhase == old(gs.gamePhase)
    ensures !won ==>
      var i := gs.currentPlayerIndex;
      HasTerritory(gs.territories, gs.players[i].id) &&
      gs.players == old(gs.players)[i := old(gs.players)[i].(armiesToDeploy := Reinforcements(gs.order, gs.territories, gs.players[i].id))] &&
      aiTurnDue == gs.players[i].isAI &&
      gs.gamePhase == (if aiTurnDue then old(gs.gamePhase) else Reinforce)
    ensures (skipped > 0 || (!won && !aiTurnDue)) ==> gs.selectedTerritory == None
    ensures skipped == 0 && (won || aiTurnDue) ==> gs.selectedTerritory == old(gs.selectedTerritory)
    ensures skipped > 0 ==> gs.fortify == ClearedFortify && gs.modifiedTerritories == {}
    ensures skipped == 0 ==> gs.fortify == old(gs.fortify) && gs.modifiedTerritories == old(gs.modifiedTerritories)
  {
    won, skipped := PassOverEliminated(gs);
    if won {
      return won, false, skipped;
    }
    aiTurnDue := GrantReinforcements(gs);
  }

  /** The winner check and the skipping of `startTurn`: the turn passes on
      until it reaches a player holding territory, unless the game is won. */
  method PassOverEliminated(gs: GameState) returns (won: bool, ghost skipped: nat)
    requires 0 <= gs.currentPlayerIndex < |gs.players|
    requires exists i :: 0 <= i < |gs.players| && HasTerritory(gs.territories, gs.players[i].id)
    modifies gs
    ensures 0 <= gs.currentPlayerIndex < |gs.players| == old(|gs.players|)
    ensures gs.currentPlayerIndex == Rotate(old(gs.currentPlayerIndex), |gs.players|, skipped)
    ensures forall j :: 0 <= j < skipped ==>
      !HasTerritory(gs.territories, gs.players[Rotate(old(gs.currentPlayerIndex), |gs.players|, j)].id)
    ensures won == old(CheckForWinner(gs))
    ensures won ==> skipped == 0
    ensures !won ==> HasTerritory(gs.territories, gs.players[gs.currentPlayerIndex].id)
    ensures skipped == 0 ==> gs.View() == old(gs.View())
    ensures skipped > 0 ==> gs.View() == old(gs.View()).(currentPlayerIndex := gs.currentPlayerIndex,
      selectedTerritory := None, fortify := ClearedFortify, modifiedTerritories := {})
  {
    var n := |gs.players|;
    ghost var q :| 0 <= q < n && HasTerritory(gs.territories, gs.players[q].id);
    ghost var start := gs.currentPlayerIndex;
    ghost var m, ps := gs.territories, gs.players;
    skipped := 0;
    while true
      invariant 0 <= gs.currentPlayerIndex < n == |gs.players|
      invariant gs.territories == m && gs.players == ps
      invariant gs.currentPlayerIndex == Rotate(start, n, skipped)
      invariant forall j :: 0 <= j < skipped ==> !HasTerritory(m, ps[Rotate(start, n, j)].id)
      invariant skipped > 0 ==> !old(CheckForWinner(gs))
      invariant skipped == 0 ==> gs.View() == old(gs.View())
      invariant skipped > 0 ==> gs.View() == old(gs.View()).(currentPlayerIndex := gs.currentPlayerIndex,
        selectedTerritory := None, fortify := ClearedFortify, modifiedTerritories := {})
      decreases Distance(gs.currentPlayerIndex, q, n)
    {
      if CheckForWinner(gs) {
        return true, skipped;
      }
      var i := gs.currentPlayerIndex;
      if HasTerritory(gs.territories, gs.players[i].id) {
        return false, skipped;
      }
      DistanceStep(i, q, n);
      gs.NextPlayer();
      skipped := skipped + 1;
    }
  }

  /** The rest of `startTurn`: the current player's reinforcements are stored
      on their record; an AI player's turn is due, a human enters the
      reinforce phase. */
  method GrantReinforcements(gs: GameState) returns (aiTurnDue: bool)
    requires 0 <= gs.currentPlayerIndex < |gs.players|
    modifies gs
    ensures gs.currentPlayerIndex == old(gs.currentPlayerIndex) && |gs.players| == old(|gs.players|)
    ensures var i := gs.currentPlayerIndex;
      gs.players == old(gs.players)[i := old(gs.players)[i].(armiesToDeploy := Reinforcements(gs.order, gs.territories, gs.players[i].id))] &&
      aiTurnDue == gs.players[i].isAI
    ensures gs.View() == old(gs.View()).(players := gs.players,
      gamePhase := if aiTurnDue then old(gs.gamePhase) else Reinforce,
      selectedTerritory := if aiTurnDue then old(gs.selectedTerritory) else None)
  {
    var i := gs.currentPlayerIndex;
    var current := gs.players[i];
    var reinforcements := CalculateReinforcements(gs, current.id);
    gs.players := gs.players[i := current.(armiesToDeploy := reinforcements)];
    aiTurnDue := current.isAI;
    if !aiTurnDue {
      gs.SetGamePhase(Reinforce);
    }
  }

  // ------------------------------------------------------- advanceToNextPlayer, endTurn

  /** `advanceToNextPlayer`: `nextPlayer` followed by `startTurn`. */
  method AdvanceToNextPlayer(gs: GameState) returns (won: bool, aiTurnDue: bool, ghost skipped: nat)
    requires 0 <= gs.currentPlayerIndex && |gs.players| > 0
    requires exists i :: 0 <= i < |gs.players| && HasTerritory(gs.territories, gs.players[i].id)
    modifies gs
    ensures TurnKeeps(gs) && |gs.players| == old(|gs.players|)
    ensures 0 <= gs.currentPlayerIndex < |gs.players|
    ensures var first := NextIndex(old(gs.currentPlayerIndex), |gs.players|);
      gs.currentPlayerIndex == Rotate(first, |gs.players|, skipped) &&
      forall j :: 0 <= j < skipped ==> !HasTerritory(gs.territories, old(gs.players)[Rotate(first, |gs.players|, j)].id)
    ensures gs.fortify == ClearedFortify && gs.modifiedTerritories == {} && gs.selectedTerritory == None
    ensures won ==> CheckForWinner(gs) && !aiTurnDue && gs.players == old(gs.players) && gs.gamePhase == old(gs.gamePhase)
    ensures !won ==>
      var i := gs.currentPlayerIndex;
      HasTerritory(gs.territories, gs.players[i].id) &&
      gs.players == old(gs.players)[i := old(gs.players)[i].(armiesToDeploy := Reinforcements(gs.order, gs.territories, gs.players[i].id))] &&
      aiTurnDue == gs.players[i].isAI &&
      gs.gamePhase == (if aiTurnDue then old(gs.gamePhase) else Reinforce)
  {
    gs.NextPlayer();
    won, aiTurnDue, skipped := StartTurn(gs);
  }

  /** `endTurn`. */
  method EndTurn(gs: GameState) returns (won: bool, aiTurnDue: bool, ghost skipped: nat)
    requires 0 <= gs.currentPlayerIndex && |gs.players| > 0
    requires exists i :: 0 <= i < |gs.players| && HasTerritory(gs.territories, gs.players[i].id)
    modifies gs
    ensures TurnKeeps(gs) && |gs.players| == old(|gs.players|)
    ensures 0 <= gs.currentPlayerIndex < |gs.players|
    ensures var first := NextIndex(old(gs.currentPlayerIndex), |gs.players|);
      gs.currentPlayerIndex == Rotate(first, |gs.players|, skipped) &&
      forall j :: 0 <= j < skipped ==> !HasTerritory(gs.territories, old(gs.players)[Rotate(first, |gs.players|, j)].id)
    ensures gs.fortify == ClearedFortify && gs.selectedTerritory == None && gs.modifiedTerritories == {}
    ensures won ==> CheckForWinner(gs) && gs.players == old(gs.players) && gs.gamePhase == old(gs.gamePhase)
    ensures !won ==>
      var i := gs.currentPlayerIndex;
      HasTerritory(gs.territories, gs.players[i].id) &&
      gs.players[i].armiesToDeploy == Reinforcements(gs.order, gs.territories, gs.players[i].id) &&
      aiTurnDue == gs.players[i].isAI && (!aiTurnDue ==> gs.gamePhase == Reinforce)
    ensures !won ==>
      var i := gs.currentPlayerIndex;
      gs.players == old(gs.players)[i := old(gs.players)[i].(armiesToDeploy := Reinforcements(gs.order, gs.territories, gs.players[i].id))] &&
      gs.gamePhase == (if aiTurnDue then old(gs.gamePhase) else Reinforce)
  {
    won, aiTurnDue, skipped := AdvanceToNextPlayer(gs);
  }

  /** `endAttackPhase`: on to the fortify phase, dropping the selection. */
  method EndAttackPhase(gs: GameState)
    modifies gs
    ensures gs.View() == old(gs.View()).(gamePhase := Fortify, selectedTerritory := None)
  {
    gs.SetGamePhase(Fortify);
  }

  // ----------------------------------------------------------------- confirmFortify

  /** `confirmFortify(amount)`: move the armies, mark the fortification made,
      close the dialog (which clears the fortify record) and pass the turn on. */
  method ConfirmFortify(gs: GameState, amount: int) returns (won: bool, aiTurnDue: bool, ghost skipped: nat)
    requires gs.fortify.source.Some? && gs.fortify.target.Some?
    requires gs.fortify.source.value in gs.territories && gs.fortify.target.value in gs.territories
    requires 0 <= gs.currentPlayerIndex && |gs.players| > 0
    requires exists i :: 0 <= i < |gs.players| && HasTerritory(gs.territories, gs.players[i].id)
    modifies gs
    ensures gs.territories == Transfer(old(gs.territories), old(gs.fortify.source.value), old(gs.fortify.target.value), amount)
    ensures gs.order == old(gs.order) && |gs.players| == old(|gs.players|)
    ensures gs.deck == old(gs.deck) && gs.discardPile == old(gs.discardPile) && gs.attackContext == old(gs.attackContext)
    ensures gs.aiBattleSpeed == old(gs.aiBattleSpeed) && gs.isBlitzing == old(gs.isBlitzing)
    ensures gs.revealedTerritories == old(gs.revealedTerritories) && gs.modifiedTerritories == {}
    ensures 0 <= gs.currentPlayerIndex < |gs.players|
    ensures var first := NextIndex(old(gs.currentPlayerIndex), |gs.players|);
      gs.currentPlayerIndex == Rotate(first, |gs.players|, skipped) &&
      forall j :: 0 <= j < skipped ==> !HasTerritory(gs.territories, old(gs.players)[Rotate(first, |gs.players|, j)].id)
    ensures gs.fortify == ClearedFortify && gs.selectedTerritory == None
    ensures won ==> CheckForWinner(gs) && gs.players == old(gs.players) && gs.gamePhase == old(gs.gamePhase)
    ensures !won ==>
      var i := gs.currentPlayerIndex;
      HasTerritory(gs.territories, gs.players[i].id) &&
      gs.players[i].armiesToDeploy == Reinforcements(gs.order, gs.territories, gs.players[i].id) &&
      aiTurnDue == gs.players[i].isAI && (!aiTurnDue ==> gs.gamePhase == Reinforce)
    ensures !won ==>
      var i := gs.currentPlayerIndex;
      gs.players == old(gs.players)[i := old(gs.players)[i].(armiesToDeploy := Reinforcements(gs.order, gs.territories, gs.players[i].id))] &&
      gs.gamePhase == (if aiTurnDue then old(gs.gamePhase) else Reinforce)
  {
    var source, target := gs.fortify.source.value, gs.fortify.target.value;
    ghost var holder :| 0 <= holder < |gs.players| && HasTerritory(gs.territories, gs.players[holder].id);
    MoveArmies(gs, source, target, amount);
    assert HasTerritory(gs.territories, gs.players[holder].id);
    gs.SetFortified();
    gs.ClearFortify();
    won, aiTurnDue, skipped := AdvanceToNextPlayer(gs);
  }

  /** `amount` armies leave `source` for `target`; every holder keeps a territory. */
  method MoveArmies(gs: GameState, source: Tid, target: Tid, amount: int)
    requires source in gs.territories && target in gs.territories
    modifies gs
    ensures gs.View() == old(gs.View()).(territories := Transfer(old(gs.territories), source, target, amount))
    ensures forall id :: HasTerritory(old(gs.territories), id) ==> HasTerritory(gs.territories, id)
  {
    ghost var m := gs.territories;
    gs.territories := Transfer(gs.territories, source, target, amount);
    forall id | HasTerritory(m, id)
      ensures HasTerritory(gs.territories, id)
    {
      var h :| h in m && m[h].ownerId == id;
      assert h in gs.territories && gs.territories[h].ownerId == id;
    }
  }

  // --------------------------------------------------------------- onTerritoryClick

  /** The territory belongs to `p` and can spare an army (`armies > 1`). */
  predicate CanSpare(m: map<Tid, Holding>, t: Tid, p: int) {
    Owns(m, t, p) && m[t].armies > 1
  }

  /** The store after a click on `t`: what the handler of the current phase
      makes of it, and nothing during an AI turn or in any other phase. */
  ghost function Clicked(s: Snapshot, t: Tid): Snapshot
    requires 0 <= s.currentPlayerIndex < |s.players| && t in s.territories
  {
    if s.players[s.currentPlayerIndex].isAI then s
    else match s.gamePhase
      case Reinforce => ReinforceClicked(s, t)
      case Attack => AttackClicked(s, t)
      case Fortify => FortifyClicked(s, t)
      case _ => s
  }

  /** A reinforce-phase click: one army from the pool onto one's own `t`;
      the last one opens the attack phase. */
  function ReinforceClicked(s: Snapshot, t: Tid): Snapshot
    requires 0 <= s.currentPlayerIndex < |s.players| && t in s.territories
  {
    var i := s.currentPlayerIndex;
    var me := s.players[i];
    var h := s.territories[t];
    if h.ownerId == me.id then
      s.(territories := s.territories[t := h.(armies := h.armies + 1)],
         players := s.players[i := me.(armiesToDeploy := me.armiesToDeploy - 1)],
         gamePhase := if me.armiesToDeploy == 1 then Attack else s.gamePhase,
         selectedTerritory := if me.armiesToDeploy == 1 then None else s.selectedTerritory)
    else s
  }

  /** An attack-phase click: the attack context on an enemy neighbour of the
      selection, or else a new selection (or none). */
  function AttackClicked(s: Snapshot, t: Tid): Snapshot
    requires 0 <= s.currentPlayerIndex < |s.players| && t in s.territories
  {
    var me := s.players[s.currentPlayerIndex].id;
    var m := s.territories;
    match s.selectedTerritory
    case Some(src) =>
      if m[t].ownerId != me && t in Adj(src) then s.(attackContext := Some(AttackContext(src, t)))
      else s.(selectedTerritory := if CanSpare(m, t, me) then Some(t) else None)
    case None => s.(selectedTerritory := if CanSpare(m, t, me) then Some(t) else None)
  }

  /** A fortify-phase click: nothing once the turn has fortified; otherwise a
      target joined to the source, or else a new source (or none). */
  ghost function FortifyClicked(s: Snapshot, t: Tid): Snapshot
    requires 0 <= s.currentPlayerIndex < |s.players| && t in s.territories
  {
    var me := s.players[s.currentPlayerIndex].id;
    var m := s.territories;
    var f := s.fortify;
    if f.hasFortified then s
    else match f.source
      case None => s.(fortify := f.(source := if CanSpare(m, t, me) then Some(t) else None))
      case Some(src) =>
        if Owns(m, t, me) && t != src && Reachable(Adj, m, me, src, t) then s.(fortify := f.(target := Some(t)))
        else s.(fortify := f.(source := if CanSpare(m, t, me) then Some(t) else None, target := None))
  }

  /** `onTerritoryClick(t)`: ignored during an AI turn; otherwise the handler
      of the current phase runs, and clicks in any other phase do nothing. */
  method OnTerritoryClick(gs: GameState, t: Tid)
    requires gs.CurrentPlayer().Some? && t in gs.territories
    modifies gs
    ensures gs.View() == Clicked(old(gs.View()), t)
    ensures old(gs.CurrentPlayer().value.isAI) || old(gs.gamePhase) !in {Reinforce, Attack, Fortify} ==>
      gs.View() == old(gs.View())
    ensures old(gs.gamePhase) != Reinforce ==> gs.territories == old(gs.territories) && gs.players == old(gs.players)
    ensures gs.currentPlayerIndex == old(gs.currentPlayerIndex) && gs.order == old(gs.order)
  {
    var current := gs.CurrentPlayer().value;
    if current.isAI {
      return;
    }
    match gs.gamePhase
    case Reinforce => ReinforceClick(gs, t);
    case Attack => AttackClick(gs, t);
    case Fortify => FortifyClick(gs, t);
    case _ =>
  }

  /** The reinforce phase: a click on one's own territory places one army
      there from the pool, and an emptied pool opens the attack phase; any
      other click changes nothing. The armies on the map plus the pool stay
      the same. */
  method ReinforceClick(gs: GameState, t: Tid)
    requires gs.CurrentPlayer().Some? && t in gs.territories
    modifies gs
    ensures gs.View() == ReinforceClicked(old(gs.View()), t)
    ensures old(gs.KeysListed()) ==>
      gs.KeysListed() &&
      TotalArmies(gs.order, gs.territories) + gs.players[gs.currentPlayerIndex].armiesToDeploy ==
      old(TotalArmies(gs.order, gs.territories) + gs.players[gs.currentPlayerIndex].armiesToDeploy)
  {
    var i := gs.currentPlayerIndex;
    var current := gs.players[i];
    var h := gs.territories[t];
    if h.ownerId == current.id {
      PlaceFromPool(gs, t, i);
      if current.armiesToDeploy - 1 == 0 {
        gs.SetGamePhase(Attack);
      }
    }
  }

  /** One army moves from player `i`'s pool onto `t`. */
  method PlaceFromPool(gs: GameState, t: Tid, i: int)
    requires 0 <= i < |gs.players| && t in gs.territories
    modifies gs
    ensures var h := old(gs.territories[t]);
      var me := old(gs.players[i]);
      gs.View() == old(gs.View()).(
        territories := old(gs.territories)[t := h.(armies := h.armies + 1)],
        players := old(gs.players)[i := me.(armiesToDeploy := me.armiesToDeploy - 1)])
    ensures old(gs.KeysListed()) ==>
      gs.KeysListed() && TotalArmies(gs.order, gs.territories) == old(TotalArmies(gs.order, gs.territories)) + 1
  {
    var h := gs.territories[t];
    var m := gs.territories[t := h.(armies := h.armies + 1)];
    if gs.KeysListed() {
      UpdateTotals(gs.order, gs.territories, t, h.(armies := h.armies + 1), 0);
    }
    gs.territories, gs.players := m, gs.players[i := gs.players[i].(armiesToDeploy := gs.players[i].armiesToDeploy - 1)];
  }

  /** The attack phase. Without a selection, a click selects one's own
      territory that can spare an army. With one, a click on an enemy
      neighbour of the selection opens the attack dialog on that pair (the
      attack context); any other click reselects, or clears the selection. */
  method AttackClick(gs: GameState, t: Tid)
    requires gs.CurrentPlayer().Some? && t in gs.territories
    modifies gs
    ensures gs.View() == AttackClicked(old(gs.View()), t)
    ensures gs.selectedTerritory != old(gs.selectedTerritory) && gs.selectedTerritory.Some? ==>
      CanSpare(gs.territories, gs.selectedTerritory.value, gs.CurrentPlayer().value.id)
    ensures gs.attackContext != old(gs.attackContext) ==>
      var ctx := gs.attackContext.value;
      Some(ctx.sourceId) == gs.selectedTerritory && ctx.targetId == t &&
      !Owns(gs.territories, t, gs.CurrentPlayer().value.id) && t in Adj(ctx.sourceId)
  {
    var me := gs.CurrentPlayer().value.id;
    var h := gs.territories[t];
    match gs.selectedTerritory
    case None =>
      if h.ownerId == me && h.armies > 1 {
        gs.SetSelectedTerritory(Some(t));
      }
    case Some(s) =>
      if h.ownerId != me && t in Adj(s) {
        gs.SetAttackContext(s, t);
      } else {
        gs.SetSelectedTerritory(if h.ownerId == me && h.armies > 1 then Some(t) else None);
      }
  }

  /** The fortify phase, once per turn. Without a source, a click picks one's
      own territory that can spare an army. With one, a click on another own
      territory joined to the source through the player's territories picks
      the target (and opens the fortify dialog); any other click re-picks the
      source, or clears it, and drops the target. */
  method FortifyClick(gs: GameState, t: Tid)
    requires gs.CurrentPlayer().Some? && t in gs.territories
    modifies gs
    ensures gs.View() == FortifyClicked(old(gs.View()), t)
    ensures gs.fortify.target != old(gs.fortify.target) && gs.fortify.target.Some? ==>
      var me := gs.CurrentPlayer().value.id;
      gs.fortify.source.Some? && Owns(gs.territories, t, me) && gs.fortify.target == Some(t) &&
      t != gs.fortify.source.value && Reachable(Adj, gs.territories, me, gs.fortify.source.value, t)
  {
    if gs.fortify.hasFortified {
      return;
    }
    var me := gs.CurrentPlayer().value.id;
    var h := gs.territories[t];
    match gs.fortify.source
    case None =>
      if h.ownerId == me && h.armies > 1 {
        gs.SetFortifySource(Some(t));
      }
    case Some(s) =>
      var joined := false;
      if h.ownerId == me && t != s {
        joined := IsPathBetween(Adj, gs.territories, s, t, me);
      }
      if joined {
        gs.SetFortifyTarget(Some(t));
      } else {
        gs.SetFortifySource(if h.ownerId == me && h.armies > 1 then Some(t) else None);
        gs.SetFortifyTarget(None);
      }
  }

  // ------------------------------------------------------------------------ setupGame

  /** `startingArmiesMap[totalPlayers]`: nothing outside two to five players. */
  function StartingArmies(totalPlayers: int): (r: Option<int>)
    ensures r.Some? <==> 2 <= totalPlayers <= 5
    ensures r.Some? ==> r.value == 50 - 5 * totalPlayers
  {
    if totalPlayers == 2 then Some(40)
    else if totalPlayers == 3 then Some(35)
    else if totalPlayers == 4 then Some(30)
    else if totalPlayers == 5 then Some(25)
    else None
  }

  /** Seat `i` of the table set up by `setupGame`: the human in seat 0 with
      id 1, the AI players after it with ids 2, 3, .... */
  predicate Seated(ps: seq<Player>, n: int) {
    |ps| == n && forall i :: 0 <= i < n ==> ps[i].id == i + 1 && ps[i].isAI == (i > 0)
  }

  /** The roster loop of `setupGame`. The source leaves `armiesToDeploy`
      unset until the first turn; here it starts at zero. */
  method CreatePlayers(numAI: nat) returns (ps: seq<Player>)
    ensures Seated(ps, numAI + 1)
  {
    ps := [Player(1, false, 0)];
    var i := 0;
    while i < numAI
      invariant 0 <= i <= numAI && Seated(ps, i + 1)
    {
      ps := ps + [Player(i + 2, true, 0)];
      i := i + 1;
    }
  }

  /** The dealing loop: the territory at position `i` of the shuffled order
      goes to the player in seat `i mod n`, with one army. */
  method DealTerritories(deal: seq<Tid>, ps: seq<Player>) returns (m: map<Tid, Holding>)
    requires NoDup(deal) && |ps| > 0
    ensures forall t :: t in m <==> t in deal
    ensures forall i :: 0 <= i < |deal| ==> m[deal[i]] == Holding(ps[i % |ps|].id, 1)
    ensures forall t :: t in m ==> m[t].armies == 1
  {
    m := map[];
    var i := 0;
    while i < |deal|
      invariant 0 <= i <= |deal|
      invariant forall t :: t in m <==> t in deal[..i]
      invariant forall j :: 0 <= j < i ==> m[deal[j]] == Holding(ps[j % |ps|].id, 1)
      invariant forall t :: t in m ==> m[t].armies == 1
    {
      assert deal[..i + 1] == deal[..i] + [deal[i]];
      m := m[deal[i] := Holding(ps[i % |ps|].id, 1)];
      i := i + 1;
    }
    assert deal[..i] == deal;
  }

  /** Records that agree on every key and owner give the same filter. */
  lemma {:induction false} OwnedInSameOwners(keys: seq<Tid>, m: map<Tid, Holding>, m': map<Tid, Holding>, p: int)
    requires forall t :: t in keys ==> (t in m <==> t in m') && (t in m ==> m[t].ownerId == m'[t].ownerId)
    ensures OwnedIn(keys, m, p) == OwnedIn(keys, m', p)
    decreases |keys|
  {
    if keys != [] {
      OwnedInSameOwners(keys[..|keys| - 1], m, m', p);
    }
  }

  /** With one army everywhere, a player's armies are the number of their territories. */
  lemma {:induction false} OneArmyEach(keys: seq<Tid>, m: map<Tid, Holding>, p: int)
    requires forall t :: t in keys ==> t in m && m[t].armies == 1
    ensures PlayerArmies(keys, m, p) == |OwnedIn(keys, m, p)|
    decreases |keys|
  {
    if keys != [] {
      OneArmyEach(keys[..|keys| - 1], m, p);
    }
  }

  /** Two consecutive positions never share a seat when there are two or more seats. */
  lemma NeighbouringSeats(l: nat, n: int)
    requires n >= 2 && l >= 1
    ensures (l - 1) % n != l % n
  {
    var r := (l - 1) % n;
    ModStep(l - 1, n);
    if r + 1 < n {
      ModUnique(r + 1, n, 0, r + 1);
    } else {
      ModUnique(r + 1, n, 1, 0);
    }
  }

  /** Among the first `l` dealt positions, at most every other one belongs to
      one seat: twice the count is at most `l`, plus one if the last position
      is that seat's. */
  lemma {:induction false} DealShare(deal: seq<Tid>, m: map<Tid, Holding>, n: int, j: int, l: nat)
    requires n >= 2 && 0 <= j < n && l <= |deal|
    requires forall i :: 0 <= i < |deal| ==> deal[i] in m && m[deal[i]].ownerId == i % n + 1
    ensures 2 * |OwnedIn(deal[..l], m, j + 1)| <= l + (if l > 0 && (l - 1) % n == j then 1 else 0)
    decreases l
  {
    if l > 0 {
      var front := deal[..l - 1];
      var last := deal[l - 1];
      DealShare(deal, m, n, j, l - 1);
      assert deal[..l][..l - 1] == front && deal[..l][l - 1] == last;
      var seat := (l - 1) % n;
      assert m[last].ownerId == seat + 1;
      assert OwnedIn(deal[..l], m, j + 1) == OwnedIn(front, m, j + 1) + (if Owns(m, last, j + 1) then [last] else []);
      if l >= 2 {
        NeighbouringSeats(l - 1, n);
      }
    }
  }

  /** On the classic map every seat of a table of two or more gets at most 21
      territories, and the first `n` seats at least one each. */
  lemma DealBounds(deal: seq<Tid>, m: map<Tid, Holding>, n: int, j: int)
    requires n >= 2 && 0 <= j < n && |deal| == 42
    requires forall i :: 0 <= i < |deal| ==> deal[i] in m && m[deal[i]].ownerId == i % n + 1
    ensures |OwnedIn(deal, m, j + 1)| <= 21
    ensures n <= 42 ==> |OwnedIn(deal, m, j + 1)| >= 1
  {
    DealShare(deal, m, n, j, 42);
    assert deal[..42] == deal;
    if n <= 42 {
      ModUnique(j, n, 0, j);
      assert deal[j] in OwnedIn(deal, m, j + 1);
    }
  }

  /** `m` holds the territories of `m0`, with the same owners and no fewer armies. */
  ghost predicate Grows(m0: map<Tid, Holding>, m: map<Tid, Holding>) {
    forall t :: (t in m <==> t in m0) && (t in m0 ==> m[t].ownerId == m0[t].ownerId && m[t].armies >= m0[t].armies)
  }

  /** The top-up loop for one player: `startingArmies − |mine|` single armies,
      each on a territory of theirs picked by the stream. */
  method TopUp(deal: seq<Tid>, m0: map<Tid, Holding>, id: int, startingArmies: int, rng: Rand.Stream, k0: nat)
    returns (m: map<Tid, Holding>, k: nat)
    requires Rand.Unit(rng) && NoDup(deal)
    requires forall t :: t in deal ==> t in m0
    requires startingArmies > |OwnedIn(deal, m0, id)| ==> |OwnedIn(deal, m0, id)| > 0
    ensures Grows(m0, m)
    ensures PlayerArmies(deal, m, id) == PlayerArmies(deal, m0, id) + Max(startingArmies - |OwnedIn(deal, m0, id)|, 0)
    ensures forall p :: p != id ==> PlayerArmies(deal, m, p) == PlayerArmies(deal, m0, p)
    ensures k == k0 + Max(startingArmies - |OwnedIn(deal, m0, id)|, 0)
  {
    var mine := OwnedIn(deal, m0, id);
    var armiesToPlace := startingArmies - |mine|;
    m, k := m0, k0;
    var i := 0;
    while i < armiesToPlace
      invariant 0 <= i <= Max(armiesToPlace, 0) && k == k0 + i
      invariant Grows(m0, m)
      invariant PlayerArmies(deal, m, id) == PlayerArmies(deal, m0, id) + i
      invariant forall p :: p != id ==> PlayerArmies(deal, m, p) == PlayerArmies(deal, m0, p)
    {
      var pick := mine[Rand.Index(rng(k), |mine|)];
      assert pick in deal && m0[pick].ownerId == id;
      forall p {
        UpdateTotals(deal, m, pick, m[pick].(armies := m[pick].armies + 1), p);
      }
      m := m[pick := m[pick].(armies := m[pick].armies + 1)];
      k := k + 1;
      i := i + 1;
    }
  }

  /** The distribution loop of `setupGame`: every player, in seat order, is
      topped up to the starting armies. */
  method DistributeArmies(deal: seq<Tid>, m0: map<Tid, Holding>, n: int, startingArmies: int, rng: Rand.Stream, k0: nat)
    returns (m: map<Tid, Holding>, k: nat)
    requires Rand.Unit(rng) && NoDup(deal) && 2 <= n <= 5
    requires forall t :: t in deal ==> t in m0 && m0[t].armies == 1
    requires forall id :: 1 <= id <= n ==> 1 <= |OwnedIn(deal, m0, id)| <= startingArmies
    ensures Grows(m0, m)
    ensures forall id :: 1 <= id <= n ==> PlayerArmies(deal, m, id) == startingArmies
  {
    m, k := m0, k0;
    forall id | 1 <= id <= n
      ensures PlayerArmies(deal, m0, id) == |OwnedIn(deal, m0, id)|
    {
      OneArmyEach(deal, m0, id);
    }
    var id := 1;
    while id <= n
      invariant 1 <= id <= n + 1
      invariant Grows(m0, m)
      invariant forall q :: 1 <= q < id ==> PlayerArmies(deal, m, q) == startingArmies
      invariant forall q :: id <= q <= n ==> PlayerArmies(deal, m, q) == |OwnedIn(deal, m0, q)|
    {
      m, k := TopUpSeat(deal, m0, m, id, startingArmies, rng, k);
      id := id + 1;
    }
  }

  /** One pass of the distribution loop: seat `id`, still at one army per
      territory, is topped up to the starting armies; the other seats keep theirs. */
  method TopUpSeat(deal: seq<Tid>, m0: map<Tid, Holding>, m1: map<Tid, Holding>, id: int,
                   startingArmies: int, rng: Rand.Stream, k1: nat)
    returns (m: map<Tid, Holding>, k: nat)
    requires Rand.Unit(rng) && NoDup(deal) && (forall t :: t in deal ==> t in m0)
    requires 1 <= |OwnedIn(deal, m0, id)| <= startingArmies
    requires Grows(m0, m1) && PlayerArmies(deal, m1, id) == |OwnedIn(deal, m0, id)|
    ensures Grows(m0, m) && PlayerArmies(deal, m, id) == startingArmies
    ensures forall q :: q != id ==> PlayerArmies(deal, m, q) == PlayerArmies(deal, m1, q)
  {
    OwnedInSameOwners(deal, m0, m1, id);
    m, k := TopUp(deal, m1, id, startingArmies, rng, k1);
  }

  /** The territory records `setupGame` builds: dealt round the table of
      `numAI + 1` seats in the order `deal`, then topped up. */
  method DealAndDistribute(deal: seq<Tid>, ps: seq<Player>, rng: Rand.Stream, k0: nat)
    returns (m: map<Tid, Holding>, k: nat)
    requires Rand.Unit(rng) && NoDup(deal) && |deal| == 42 && Seated(ps, |ps|) && |ps| > 0
    ensures forall t :: t in m <==> t in deal
    ensures forall i :: 0 <= i < |deal| ==> m[deal[i]].ownerId == i % |ps| + 1 && m[deal[i]].armies >= 1
    ensures StartingArmies(|ps|).Some? ==>
      forall id :: 1 <= id <= |ps| ==> PlayerArmies(deal, m, id) == StartingArmies(|ps|).value
    ensures StartingArmies(|ps|).None? ==> forall t :: t in m ==> m[t].armies == 1
  {
    var m0 := DealTerritories(deal, ps);
    SeatedOwners(deal, ps, m0);
    m, k := m0, k0;
    var startingArmies := StartingArmies(|ps|);
    if startingArmies.Some? {
      DealSizes(deal, m0, |ps|);
      m, k := DistributeArmies(deal, m0, |ps|, startingArmies.value, rng, k0);
    }
  }

  /** Dealt round a seated table, the i-th territory goes to seat i mod n, whose id is one more. */
  lemma SeatedOwners(deal: seq<Tid>, ps: seq<Player>, m: map<Tid, Holding>)
    requires |ps| > 0 && Seated(ps, |ps|)
    requires forall t :: t in deal ==> t in m
    requires forall i :: 0 <= i < |deal| ==> m[deal[i]] == Holding(ps[i % |ps|].id, 1)
    ensures forall i :: 0 <= i < |deal| ==> m[deal[i]].ownerId == i % |ps| + 1
  {
    forall i | 0 <= i < |deal|
      ensures m[deal[i]].ownerId == i % |ps| + 1
    {
      var seat := i % |ps|;
      assert 0 <= seat < |ps|;
      assert ps[seat].id == seat + 1;
    }
  }

  /** Every seat of a table of two to five gets between 1 and 21 of the 42 territories. */
  lemma DealSizes(deal: seq<Tid>, m: map<Tid, Holding>, n: int)
    requires 2 <= n <= 5 && |deal| == 42
    requires forall i :: 0 <= i < |deal| ==> deal[i] in m && m[deal[i]].ownerId == i % n + 1
    ensures forall id :: 1 <= id <= n ==> 1 <= |OwnedIn(deal, m, id)| <= 21
  {
    forall id | 1 <= id <= n
      ensures 1 <= |OwnedIn(deal, m, id)| <= 21
    {
      DealBounds(deal, m, n, id - 1);
    }
  }

  /** `setupGame(numAI)`: a fresh store, the human and `numAI` AI players,
      the territories in the shuffled order `deal` dealt round the table with
      one army each, every player topped up to the starting armies of the
      table's size (none for other sizes), then the first turn. */
  method SetupGame(gs: GameState, numAI: nat, deal: seq<Tid>, rng: Rand.Stream, k0: nat)
    returns (won: bool, k: nat)
    requires Rand.Unit(rng) && NoDup(deal) && |deal| == |AllTerritories()|
    modifies gs
    ensures |gs.players| == numAI + 1 && gs.currentPlayerIndex == 0
    ensures forall i :: 0 <= i < |gs.players| ==> gs.players[i].id == i + 1 && gs.players[i].isAI == (i > 0)
    ensures gs.order == deal && gs.KeysListed()
    ensures forall i :: 0 <= i < |deal| ==>
      gs.territories[deal[i]].ownerId == i % (numAI + 1) + 1 && gs.territories[deal[i]].armies >= 1
    ensures StartingArmies(numAI + 1).Some? ==>
      forall id :: 1 <= id <= numAI + 1 ==> PlayerArmies(gs.order, gs.territories, id) == StartingArmies(numAI + 1).value
    ensures StartingArmies(numAI + 1).None? ==> forall t :: t in gs.territories ==> gs.territories[t].armies == 1
    ensures won ==> CheckForWinner(gs)
    ensures !won ==>
      gs.gamePhase == Reinforce && gs.players[0].armiesToDeploy == Reinforcements(gs.order, gs.territories, 1)
    ensures gs.deck == [] && gs.discardPile == [] && gs.fortify == ClearedFortify && gs.selectedTerritory == None
  {
    AllTerritoriesExact();
    gs.InitGameState();
    var players := CreatePlayers(numAI);
    gs.SetPlayers(players);
    var territories;
    territories, k := DealAndDistribute(deal, players, rng, k0);
    gs.SetTerritories(territories, deal);
    Seat0Holds(deal, territories, numAI + 1);
    assert gs.players[0].id == 1 && HasTerritory(gs.territories, gs.players[0].id);
    ghost var skipped;
    var aiTurnDue;
    won, aiTurnDue, skipped := StartTurn(gs);
    assert skipped == 0 by {
      if skipped > 0 {
        assert Rotate(0, numAI + 1, 0) == 0;
      }
    }
  }

  /** The first dealt territory belongs to the human. */
  lemma Seat0Holds(deal: seq<Tid>, m: map<Tid, Holding>, n: int)
    requires n > 0 && |deal| > 0
    requires forall i :: 0 <= i < |deal| ==> deal[i] in m && m[deal[i]].ownerId == i % n + 1
    ensures HasTerritory(m, 1)
  {
    ModUnique(0, n, 0, 0);
    assert m[deal[0]].ownerId == 1;
  }
}
