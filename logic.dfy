// The pure rules core of the TypeScript generation (src/core/logic.ts):
// territory counting, the reinforcement formula, the troop-scaled battle roll,
// move validation and the grid-scan adjacency map.
//
// A `Record<number, Territory>` is a sequence of territories in ascending id
// order, which is the order `Object.values` visits positive integer keys in.
// A `Set<number>` of neighbours is a duplicate-free sequence in insertion order.
module Logic {
  import opened Util
  import Grid

  datatype Territory = Territory(id: int, owner: int, troops: int, neighbors: seq<int>)

  datatype Continent = Continent(bonus: int, territories: seq<int>)

  datatype BattleResult = BattleResult(
    success: bool,
    attackerLoss: int,
    defenderLoss: int,
    conquered: bool,
    moveAmount: int)

  /** A well-formed territory record: positive ids in strictly ascending order
      (one entry per key) and duplicate-free neighbour sets. */
  predicate ValidBoard(board: seq<Territory>) {
    && (forall i :: 0 <= i < |board| ==> board[i].id > 0 && NoDup(board[i].neighbors))
    && Ascending(board)
  }

  /** Every id is below the next one. */
  predicate Ascending(board: seq<Territory>) {
    |board| < 2 || (board[0].id < board[1].id && Ascending(board[1..]))
  }

  /** Ascending ids depend on the ids alone. */
  lemma {:induction false} AscendingSameIds(a: seq<Territory>, b: seq<Territory>)
    requires Ascending(a) && |a| == |b| && forall i :: 0 <= i < |a| ==> a[i].id == b[i].id
    ensures Ascending(b)
  {
    if |a| >= 2 {
      assert a[1..][0] == a[1] && b[1..][0] == b[1];
      forall i | 0 <= i < |a[1..]| ensures a[1..][i].id == b[1..][i].id {
        assert a[1..][i] == a[i + 1] && b[1..][i] == b[i + 1];
      }
      AscendingSameIds(a[1..], b[1..]);
    }
  }

  /** Ascending ids, pair by pair. */
  lemma {:induction false} AscendingPairs(board: seq<Territory>)
    requires Ascending(board)
    ensures forall i, j :: 0 <= i < j < |board| ==> board[i].id < board[j].id
  {
    if |board| >= 2 {
      var rest := board[1..];
      AscendingPairs(rest);
      forall i, j | 0 <= i < j < |board| ensures board[i].id < board[j].id {
        assert board[j] == rest[j - 1];
        if i > 0 {
          assert board[i] == rest[i - 1];
        } else if j > 1 {
          assert board[1] == rest[0];
        }
      }
    }
  }

  /** Pairwise ascending ids are ascending. */
  lemma {:induction false} PairsAscending(board: seq<Territory>)
    requires forall i, j :: 0 <= i < j < |board| ==> board[i].id < board[j].id
    ensures Ascending(board)
  {
    if |board| >= 2 {
      var rest := board[1..];
      forall i, j | 0 <= i < j < |rest| ensures rest[i].id < rest[j].id {
        assert rest[i] == board[i + 1] && rest[j] == board[j + 1];
      }
      PairsAscending(rest);
    }
  }

  predicate HasId(board: seq<Territory>, id: int) {
    exists t :: t in board && t.id == id
  }

  /** `territories[id]`: the entry with that id, or `undefined`. */
  function Lookup(board: seq<Territory>, id: int): (r: Option<Territory>)
    ensures r.None? <==> !HasId(board, id)
    ensures r.Some? ==> r.value in board && r.value.id == id
  {
    if board == [] then None
    else if board[0].id == id then Some(board[0])
    else Lookup(board[1..], id)
  }

  /** In a valid board an id names at most one entry, so any entry with that id is the one found. */
  lemma {:induction false} LookupUnique(board: seq<Territory>, t: Territory)
    requires ValidBoard(board)
    requires t in board
    ensures Lookup(board, t.id) == Some(t)
  {
    var i :| 0 <= i < |board| && board[i] == t;
    if i > 0 {
      AscendingPairs(board);
      assert board[0].id < t.id;
      ValidTail(board);
      assert board[1..][i - 1] == t;
      LookupUnique(board[1..], t);
    }
  }

  /** The ids the player owns. */
  ghost function OwnedIds(board: seq<Territory>, p: int): set<int> {
    set i | 0 <= i < |board| && board[i].owner == p :: board[i].id
  }

  /** `countTerritories`: how many entries the player owns; zero exactly when it owns none. */
  function CountTerritories(board: seq<Territory>, p: int): (n: nat)
    ensures n <= |board|
    ensures n == 0 <==> forall t :: t in board ==> t.owner != p
  {
    if board == [] then 0
    else (if board[0].owner == p then 1 else 0) + CountTerritories(board[1..], p)
  }

  /** Dropping the first entry keeps a board valid. */
  lemma {:induction false} ValidTail(board: seq<Territory>)
    requires ValidBoard(board) && board != []
    ensures ValidBoard(board[1..])
    ensures forall t :: t in board[1..] ==> t.id > board[0].id
  {
    var rest := board[1..];
    AscendingPairs(board);
    forall t | t in rest ensures t.id > board[0].id {
      var k :| 0 <= k < |rest| && rest[k] == t;
      assert board[k + 1] == t;
    }
  }

  /** Dropping the last entry keeps a board valid, and every earlier id is below the last. */
  lemma {:induction false} ValidInit(board: seq<Territory>)
    requires ValidBoard(board) && board != []
    ensures ValidBoard(board[..|board| - 1])
    ensures forall t :: t in board[..|board| - 1] ==> t.id < board[|board| - 1].id
  {
    var init := board[..|board| - 1];
    AscendingPairs(board);
    forall i, j | 0 <= i < j < |init| ensures init[i].id < init[j].id {
      assert init[i] == board[i] && init[j] == board[j];
    }
    PairsAscending(init);
    forall t | t in init ensures t.id < board[|board| - 1].id {
      var k :| 0 <= k < |init| && init[k] == t;
      assert board[k] == t;
    }
  }

  /** With one entry per id, the count is the number of ids the player owns. */
  lemma {:induction false} CountTerritoriesIsOwnedIds(board: seq<Territory>, p: int)
    requires ValidBoard(board)
    ensures CountTerritories(board, p) == |OwnedIds(board, p)|
  {
    if board != [] {
      var rest := board[1..];
      ValidTail(board);
      CountTerritoriesIsOwnedIds(rest, p);
      var head: set<int> := if board[0].owner == p then {board[0].id} else {};
      OwnedIdsSplit(board, p);
      assert board[0].id !in OwnedIds(rest, p);
      assert |head + OwnedIds(rest, p)| == |head| + |OwnedIds(rest, p)|;
    }
  }

  lemma {:induction false} OwnedIdsSplit(board: seq<Territory>, p: int)
    requires board != []
    ensures OwnedIds(board, p) == (if board[0].owner == p then {board[0].id} else {}) + OwnedIds(board[1..], p)
  {
    var rest := board[1..];
    forall id | id in OwnedIds(board, p)
      ensures id in (if board[0].owner == p then {board[0].id} else {}) + OwnedIds(rest, p)
    {
      var i :| 0 <= i < |board| && board[i].owner == p && board[i].id == id;
      if i > 0 {
        assert rest[i - 1] == board[i];
      }
    }
    forall id | id in OwnedIds(rest, p) ensures id in OwnedIds(board, p) {
      var i :| 0 <= i < |rest| && rest[i].owner == p && rest[i].id == id;
      assert board[i + 1] == rest[i];
    }
  }

  /** `data.territories.every(tid => territories[tid] && territories[tid].owner === p)`. */
  predicate OwnsAll(board: seq<Territory>, p: int, tids: seq<int>) {
    forall k :: 0 <= k < |tids| ==> Lookup(board, tids[k]).Some? && Lookup(board, tids[k]).value.owner == p
  }

  /** The continent pays its bonus: it lists at least one territory and the player owns every one listed. */
  predicate PaysBonus(board: seq<Territory>, p: int, c: Continent) {
    |c.territories| > 0 && OwnsAll(board, p, c.territories)
  }

  /** The bonuses of the continents, in order, that pay out to the player. */
  function ContinentBonus(board: seq<Territory>, p: int, cs: seq<Continent>): int {
    if cs == [] then 0
    else ContinentBonus(board, p, cs[..|cs| - 1]) + (if PaysBonus(board, p, cs[|cs| - 1]) then cs[|cs| - 1].bonus else 0)
  }

  /** Reinforcements before the zero case: three at least, or a third of the territories. */
  function Base(count: nat): (b: nat)
    ensures b >= 3 && 3 * b <= Max(9, count)
    ensures count >= 9 ==> count < 3 * b + 3
  {
    Max(3, count / 3)
  }

  /** The reinforcement rule of src/core/logic.ts: nothing for a player who owns nothing. */
  function Reinforcements(p: int, board: seq<Territory>, cs: seq<Continent>): int {
    var count := CountTerritories(board, p);
    if count == 0 then 0 else Base(count) + ContinentBonus(board, p, cs)
  }

  /** `calculateReinforcements`: sums the paying continents' bonuses in a loop. */
  method CalculateReinforcements(p: int, board: seq<Territory>, cs: seq<Continent>) returns (r: int)
    ensures r == Reinforcements(p, board, cs)
  {
    var count := CountTerritories(board, p);
    if count == 0 {
      return 0;
    }
    var base := Max(3, count / 3);
    var bonus := 0;
    var i := 0;
    while i < |cs|
      invariant 0 <= i <= |cs|
      invariant bonus == ContinentBonus(board, p, cs[..i])
    {
      var data := cs[i];
      if |data.territories| > 0 {
        var ownsAll := true;
        var k := 0;
        while k < |data.territories| && ownsAll
          invariant 0 <= k <= |data.territories|
          invariant ownsAll <==> OwnsAll(board, p, data.territories[..k])
        {
          var t := Lookup(board, data.territories[k]);
          ownsAll := t.Some? && t.value.owner == p;
          k := k + 1;
        }
        assert ownsAll <==> OwnsAll(board, p, data.territories) by {
          if ownsAll {
            assert data.territories[..k] == data.territories;
          } else {
            assert OwnsAll(board, p, data.territories) ==> OwnsAll(board, p, data.territories[..k]);
          }
        }
        if ownsAll {
          bonus := bonus + data.bonus;
        }
      }
      assert cs[..i + 1][..i] == cs[..i];
      i := i + 1;
    }
    assert cs[..i] == cs;
    return base + bonus;
  }

  /** Continents with an empty list, or listing an id the map lacks, contribute nothing. */
  lemma {:induction false} UnpayingContinentsIgnored(board: seq<Territory>, p: int, cs: seq<Continent>, c: Continent)
    requires c.territories == [] || exists k :: 0 <= k < |c.territories| && !HasId(board, c.territories[k])
    ensures ContinentBonus(board, p, cs + [c]) == ContinentBonus(board, p, cs)
    ensures ContinentBonus(board, p, [c] + cs) == ContinentBonus(board, p, cs)
  {
    assert !PaysBonus(board, p, c);
    assert (cs + [c])[..|cs|] == cs;
    PrependUnpaying(board, p, cs, c);
  }

  lemma {:induction false} PrependUnpaying(board: seq<Territory>, p: int, cs: seq<Continent>, c: Continent)
    requires !PaysBonus(board, p, c)
    ensures ContinentBonus(board, p, [c] + cs) == ContinentBonus(board, p, cs)
    decreases |cs|
  {
    if cs != [] {
      var init := cs[..|cs| - 1];
      assert ([c] + cs)[..|cs|] == [c] + init;
      assert ([c] + cs)[|cs|] == cs[|cs| - 1];
      PrependUnpaying(board, p, init, c);
    }
  }

  /** A player who owns anything receives at least three, when no bonus is negative. */
  lemma {:induction false} ReinforcementsAtLeastThree(p: int, board: seq<Territory>, cs: seq<Continent>)
    requires exists t :: t in board && t.owner == p
    requires forall c :: c in cs ==> c.bonus >= 0
    ensures Reinforcements(p, board, cs) >= 3
  {
    BonusNonNegative(board, p, cs);
  }

  lemma {:induction false} BonusNonNegative(board: seq<Territory>, p: int, cs: seq<Continent>)
    requires forall c :: c in cs ==> c.bonus >= 0
    ensures ContinentBonus(board, p, cs) >= 0
    decreases |cs|
  {
    if cs != [] {
      assert forall c :: c in cs[..|cs| - 1] ==> c in cs;
      BonusNonNegative(board, p, cs[..|cs| - 1]);
    }
  }

  /** Territories lo, lo+1, ..., lo+n-1, all owned by `p`, with one troop each. */
  function Mock(p: int, lo: int, n: nat): (b: seq<Territory>)
    ensures |b| == n
    ensures forall i :: 0 <= i < n ==> b[i] == Territory(lo + i, p, 1, [])
    ensures forall t :: t in b ==> lo <= t.id < lo + n
    decreases n
  {
    if n == 0 then [] else [Territory(lo, p, 1, [])] + Mock(p, lo + 1, n - 1)
  }

  lemma {:induction false} MockCount(p: int, lo: int, n: nat)
    ensures CountTerritories(Mock(p, lo, n), p) == n
    decreases n
  {
    if n > 0 {
      assert Mock(p, lo, n)[1..] == Mock(p, lo + 1, n - 1);
      MockCount(p, lo + 1, n - 1);
    }
  }

  /** The continent of the reinforcement examples: territories 101 and 102, bonus 5. */
  const TestContinents: seq<Continent> := [Continent(5, [101, 102])]

  /** A player who owns nothing receives nothing. */
  lemma ReinforcementExampleEmpty()
    ensures Reinforcements(0, [], TestContinents) == 0
  {
  }

  /** Territories 1..n of one player, with no bonus because territory 101 is missing,
      give the base amount alone: five give 3 and twelve give 4. */
  lemma {:induction false} ReinforcementExampleBase(n: nat)
    requires 1 <= n <= 100
    ensures Reinforcements(0, Mock(0, 1, n), TestContinents) == Max(3, n / 3)
  {
    MockCount(0, 1, n);
    assert Lookup(Mock(0, 1, n), TestContinents[0].territories[0]).None?;
    assert !PaysBonus(Mock(0, 1, n), 0, TestContinents[|TestContinents| - 1]);
    assert TestContinents[..|TestContinents| - 1] == [];
    assert ContinentBonus(Mock(0, 1, n), 0, TestContinents) == 0;
  }

  /** Two territories that make up a whole 5-bonus continent give 3 + 5 = 8; with one of them
      held by another player the bonus is lost. */
  lemma {:induction false} ReinforcementExampleBonus()
    ensures Reinforcements(0, [Territory(101, 0, 1, []), Territory(102, 0, 1, [])], TestContinents) == 8
    ensures Reinforcements(0, [Territory(101, 0, 1, []), Territory(102, 1, 1, [])], TestContinents) == 3
  {
    var two := [Territory(101, 0, 1, []), Territory(102, 0, 1, [])];
    assert Lookup(two, 102) == Some(two[1]) by { assert two[1..][0] == two[1]; }
    assert PaysBonus(two, 0, TestContinents[0]);
    assert CountTerritories(two, 0) == 2 by { assert two[1..][1..] == []; }
    var split := [Territory(101, 0, 1, []), Territory(102, 1, 1, [])];
    assert Lookup(split, 102) == Some(split[1]) by { assert split[1..][0] == split[1]; }
    assert TestContinents[0].territories[1] == 102;
    assert !PaysBonus(split, 0, TestContinents[0]);
    assert CountTerritories(split, 0) == 1 by { assert split[1..][1..] == []; }
    assert TestContinents[..0] == [];
  }

  /** `Math.floor(randomFn() * attackerTroops * 10) + attackerBonus`. */
  function AttackRoll(r1: real, attackerTroops: int, attackerBonus: int): int {
    (r1 * (attackerTroops as real) * 10.0).Floor + attackerBonus
  }

  /** `Math.floor(randomFn() * defenderTroops * 10) + 5`: defenders get five extra. */
  function DefenceRoll(r2: real, defenderTroops: int): int {
    (r2 * (defenderTroops as real) * 10.0).Floor + 5
  }

  /** `calculateBattleOutcome`, with the two random draws `r1` and `r2` as inputs. */
  function CalculateBattleOutcome(attackerTroops: int, defenderTroops: int, attackerBonus: int, r1: real, r2: real): (r: BattleResult)
    ensures r.success <==> AttackRoll(r1, attackerTroops, attackerBonus) > DefenceRoll(r2, defenderTroops)
    ensures r.conquered == r.success
    // victory: the defender is wiped out, the attacker loses nothing and moves
    // in half of what stays behind rounded down, but at least one
    ensures r.success ==> r.defenderLoss == defenderTroops && r.attackerLoss == 0
    ensures r.success ==> r.moveAmount >= 1 && (attackerTroops <= 4 ==> r.moveAmount == 1)
    ensures r.success && attackerTroops >= 3 ==> attackerTroops - 2 <= 2 * r.moveAmount <= attackerTroops - 1
    // defeat: the attacker loses half its troops rounded up, never more than it has
    ensures !r.success ==> r.defenderLoss == 0 && r.moveAmount == 0
    ensures !r.success && attackerTroops >= 0 ==> attackerTroops <= 2 * r.attackerLoss <= attackerTroops + 1
    ensures !r.success ==> r.attackerLoss <= attackerTroops
  {
    var attRoll := AttackRoll(r1, attackerTroops, attackerBonus);
    var defRoll := DefenceRoll(r2, defenderTroops);
    var success := attRoll > defRoll;
    if success then
      BattleResult(true, 0, defenderTroops, true, Max(1, (attackerTroops - 1) / 2))
    else
      BattleResult(false, Min((attackerTroops + 1) / 2, attackerTroops), 0, false, 0)
  }

  /** An attacker of two or more keeps at least one troop whatever the rolls. */
  lemma AttackerSurvives(attackerTroops: int, defenderTroops: int, attackerBonus: int, r1: real, r2: real)
    requires attackerTroops >= 2
    ensures var r := CalculateBattleOutcome(attackerTroops, defenderTroops, attackerBonus, r1, r2);
            attackerTroops - r.attackerLoss - r.moveAmount >= 1
  {
  }

  /** The rolls stay in their ranges: the attacker's in [bonus, 10·att + bonus) and
      the defender's in [5, 10·def + 5). */
  lemma {:induction false} RollRanges(r1: real, r2: real, att: nat, def: nat, bonus: int)
    requires 0.0 <= r1 < 1.0 && 0.0 <= r2 < 1.0
    ensures att > 0 ==> bonus <= AttackRoll(r1, att, bonus) < 10 * att + bonus
    ensures def > 0 ==> 5 <= DefenceRoll(r2, def) < 10 * def + 5
  {
    ScaledFloorRange(r1, att);
    ScaledFloorRange(r2, def);
  }

  lemma {:induction false} ScaledFloorRange(r: real, n: nat)
    requires 0.0 <= r < 1.0
    ensures n > 0 ==> 0 <= (r * (n as real) * 10.0).Floor < 10 * n
  {
    if n > 0 {
      var a := r * (n as real);
      assert 0.0 <= a < n as real by {
        assert r * (n as real) < 1.0 * (n as real);
      }
      assert 0.0 <= a * 10.0 < (10 * n) as real;
    }
  }

  /** The examples of the battle rule: 10 against 5 winning moves 4 in; 3 against 1
      winning moves 1; 10 losing loses 5; 1 losing loses its only troop. */
  lemma BattleExamples()
    ensures CalculateBattleOutcome(10, 5, 0, 0.9, 0.1) == BattleResult(true, 0, 5, true, 4)
    ensures CalculateBattleOutcome(3, 1, 0, 0.9, 0.1) == BattleResult(true, 0, 1, true, 1)
    ensures CalculateBattleOutcome(10, 5, 0, 0.1, 0.9) == BattleResult(false, 5, 0, false, 0)
    ensures CalculateBattleOutcome(1, 1, 0, 0.1, 0.9) == BattleResult(false, 1, 0, false, 0)
  {
    assert (0.9 * 10.0 * 10.0).Floor == 90;
    assert (0.1 * 5.0 * 10.0).Floor == 5;
    assert (0.9 * 3.0 * 10.0).Floor == 27;
    assert (0.1 * 1.0 * 10.0).Floor == 1;
    assert (0.1 * 10.0 * 10.0).Floor == 10;
    assert (0.9 * 5.0 * 10.0).Floor == 45;
    assert (0.9 * 1.0 * 10.0).Floor == 9;
  }

  /** `isValidMove`: false for a missing source, otherwise whether the target is its neighbour. */
  function IsValidMove(sourceId: int, targetId: int, board: seq<Territory>): (ok: bool)
    ensures !HasId(board, sourceId) ==> !ok
  {
    match Lookup(board, sourceId)
    case None => false
    case Some(source) => targetId in source.neighbors
  }

  /** On a board with distinct ids, a move is valid exactly when the territory
      with the source id lists the target among its neighbours. */
  lemma IsValidMoveMeans(sourceId: int, targetId: int, board: seq<Territory>)
    requires ValidBoard(board)
    ensures IsValidMove(sourceId, targetId, board) <==>
      exists t :: t in board && t.id == sourceId && targetId in t.neighbors
  {
    match Lookup(board, sourceId)
    case None =>
    case Some(source) =>
      forall t | t in board && t.id == sourceId
        ensures t == source
      {
        LookupUnique(board, t);
      }
  }

  /** The direction list of `generateAdjacencyMap`, as (dy, dx). */
  const TsDirections: seq<(int, int)> := [(0, 1), (1, 0), (0, -1), (-1, 0)]

  /** `generateAdjacencyMap`: every land id to the neighbours it touches, symmetric,
      without water or self-links, and complete for touching cells. */
  method GenerateAdjacencyMap(rows: int, cols: int, layout: seq<seq<int>>) returns (adj: map<int, seq<int>>)
    requires Grid.RowsReadable(layout, rows, cols)
    ensures Grid.Sound(adj, layout, rows, cols)
    ensures Grid.Complete(adj, layout, rows, cols)
  {
    assert Grid.FourDirections(TsDirections) by {
      assert TsDirections[0] == (0, 1) && TsDirections[1] == (1, 0);
      assert TsDirections[2] == (0, -1) && TsDirections[3] == (-1, 0);
    }
    adj := Grid.ScanAdjacency(rows, cols, layout, TsDirections);
  }
}
