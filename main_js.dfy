// The original all-in-one generation (src/main.js): the global `state` as the
// class `Game`, its click handlers, the troop-scaled battle roll, the turn
// rotation, the reinforcement rule and the random CPU player.
//
// The board is the territory record in ascending id order, as in `Logic`, and
// the steps main.js shares with src/main.ts (the manual connections, the deal,
// the do-while rotation, the troop updates) are taken from `MainTs`; what this
// generation does differently is defined here. Player `i` of `PLAYERS` has id
// `i`, seat 0 is the human, every other seat a CPU. Timers (`setTimeout`,
// `setInterval`) become sequential steps and `Math.random()` an explicit stream
// whose draws are counted from `k0`.
module MainJs {
  import opened Util
  import opened Logic
  import Grid
  import Rand
  import Ai
  import MainTs

  /** `ROWS` and `COLS`: the size of the grid `calculateAdjacency` scans. */
  const Rows := 28
  const Cols := 40

  /** The four steps of `calculateAdjacency`, as (dy, dx): written there as
      [dx, dy] pairs, they try the cell below, to the right, above and to the left. */
  const JsDirections: seq<(int, int)> := [(1, 0), (0, 1), (-1, 0), (0, -1)]

  /** `CLASSIC_CONTINENT_DATA` in key order: the bonus and the listed territories. */
  const ClassicContinents: seq<Continent> := [
    Continent(5, [11, 12, 13, 14, 15, 16, 17, 18, 19]),
    Continent(2, [21, 22, 23, 24]),
    Continent(5, [31, 32, 33, 34, 35, 36, 37]),
    Continent(3, [41, 42, 43, 44, 45, 46]),
    Continent(7, [51, 52, 53, 54, 55, 56, 57, 58, 59, 60, 61, 62]),
    Continent(2, [71, 72, 73, 74])]

  /** `CLASSIC_CONNECTIONS`: the links across water. */
  const ClassicConnections: seq<(int, int)> := [
    (11, 54), (13, 31), (23, 41), (31, 33), (31, 32), (42, 36),
    (41, 36), (41, 35), (62, 71), (73, 71), (72, 71), (72, 74)]

  // ---------------------------------------------------------------------
  // The battle of `resolveBattle`

  /** What a battle does to the attacker: a victory moves troops in, a defeat costs troops. */
  datatype Outcome = Victory(moveAmount: int) | Defeat(loss: int)

  /** The rolls of `resolveBattle` for an attacker of `att` and a defender of `def`
      troops, with the draws `r1` and `r2`: no attack bonus, and an attacker who keeps
      at least one troop after a defeat. */
  function Battle(att: int, def: int, r1: real, r2: real): (o: Outcome)
    ensures o.Victory? <==> AttackRoll(r1, att, 0) > DefenceRoll(r2, def)
    // victory: half of what stays behind moves in, rounded down, but at least one
    ensures o.Victory? ==> o.moveAmount >= 1 && (att <= 4 ==> o.moveAmount == 1)
    ensures o.Victory? && att >= 3 ==> att - 2 <= 2 * o.moveAmount <= att - 1
    ensures o.Victory? && att >= 2 ==> att - o.moveAmount >= 1
    // defeat: half the attacker rounded up, but never its last troop
    ensures o.Defeat? && att >= 1 ==> 0 <= o.loss && att - o.loss >= 1
    ensures o.Defeat? && att >= 2 ==> att <= 2 * o.loss <= att + 1
  {
    if AttackRoll(r1, att, 0) > DefenceRoll(r2, def) then Victory(Max(1, (att - 1) / 2))
    else Defeat(Min((att + 1) / 2, att - 1))
  }

  /** The battle of src/main.js against `calculateBattleOutcome` of src/core/logic.ts
      without a bonus: the same rolls decide, a victory moves the same troops in, and a
      defeat costs the same troops except for a lone attacker, which the core empties
      and this generation spares. */
  lemma {:induction false} BattleAgrees(att: int, def: int, r1: real, r2: real)
    ensures var o := Battle(att, def, r1, r2);
            var c := CalculateBattleOutcome(att, def, 0, r1, r2);
            && (o.Victory? <==> c.success)
            && (o.Victory? ==> o.moveAmount == c.moveAmount)
            && (o.Defeat? && att >= 2 ==> o.loss == c.attackerLoss)
            && (o.Defeat? && att == 1 ==> o.loss == 0 && c.attackerLoss == 1)
  {
    var o := Battle(att, def, r1, r2);
    if o.Defeat? && att >= 2 {
      assert (att + 1) / 2 <= att - 1;
    }
  }

  /** The board after `resolveBattle(attacker, defender)` for the territories `a` and
      `d`, with the draws `r1` and `r2`: on a victory the defender is emptied, passes to
      the attacker's owner and receives the troops that move in, which leave the
      attacker; on a defeat the attacker loses its troops. */
  function Clash(board: seq<Territory>, a: int, d: int, r1: real, r2: real): (r: seq<Territory>)
    requires HasId(board, a) && HasId(board, d)
    ensures MainTs.SameMap(board, r)
  {
    var ka := MainTs.IndexOf(board, a);
    var kd := MainTs.IndexOf(board, d);
    var att := board[ka];
    var def := board[kd];
    match Battle(att.troops, def.troops, r1, r2)
    case Victory(m) => board[kd := def.(owner := att.owner, troops := m)][ka := att.(troops := att.troops - m)]
    case Defeat(l) => board[ka := att.(troops := att.troops - l)]
  }

  /** A battle keeps the board fit for the game, with its map and its ids. */
  lemma ClashOk(board: seq<Territory>, n: int, info: Ai.TerritoryInfo, a: int, d: int, r1: real, r2: real)
    requires MainTs.BoardOk(board, n, info) && HasId(board, a) && HasId(board, d)
    ensures var r := Clash(board, a, d, r1, r2);
            MainTs.BoardOk(r, n, info) && MainTs.SameMap(board, r) && MainTs.Ids(r) == MainTs.Ids(board)
  {
    var r := Clash(board, a, d, r1, r2);
    assert forall i :: 0 <= i < |r| ==> 0 <= r[i].owner < n by {
      var ka := MainTs.IndexOf(board, a);
      assert 0 <= board[ka].owner < n;
    }
    MainTs.SettleOk(board, r, n, info);
    MainTs.IdsAgree(board, r);
  }

  /** A battle changes the attacker and the defender only: the attacker keeps its owner
      and, from two troops up, at least one troop; the defender either passes to the
      attacker's owner holding the troops that moved in (at least one), or is untouched;
      the board loses the defender's troops or the attacker's loss. */
  lemma ClashFacts(board: seq<Territory>, a: int, d: int, r1: real, r2: real)
    requires ValidBoard(board) && HasId(board, a) && HasId(board, d) && a != d
    ensures var r := Clash(board, a, d, r1, r2);
            var ka := MainTs.IndexOf(board, a);
            var kd := MainTs.IndexOf(board, d);
            var att := board[ka];
            var def := board[kd];
            && |r| == |board| && ka != kd
            && (forall i :: 0 <= i < |r| && i != ka && i != kd ==> r[i] == board[i])
            && r[ka].owner == att.owner
            && (att.troops >= 2 ==> r[ka].troops >= 1)
            && (match Battle(att.troops, def.troops, r1, r2)
                case Victory(m) =>
                  && r[kd].owner == att.owner && r[kd].troops == m >= 1 && r[ka].troops == att.troops - m
                  && MainTs.Total(r) == MainTs.Total(board) - def.troops
                case Defeat(l) =>
                  && r[kd] == def && r[ka].troops == att.troops - l
                  && MainTs.Total(r) == MainTs.Total(board) - l)
  {
    var ka := MainTs.IndexOf(board, a);
    var kd := MainTs.IndexOf(board, d);
    var att := board[ka];
    var def := board[kd];
    var r := Clash(board, a, d, r1, r2);
    match Battle(att.troops, def.troops, r1, r2)
    case Victory(m) =>
      var b1 := board[kd := def.(owner := att.owner, troops := m)];
      MainTs.TotalShift(board, b1, kd, m - def.troops);
      MainTs.TotalShift(b1, r, ka, -m);
    case Defeat(l) =>
      MainTs.TotalShift(board, r, ka, -l);
  }

  // ---------------------------------------------------------------------
  // Reinforcements and the winner

  /** `data.territories.every(tid => state.territories[tid].owner === pid)`: true for an
      empty list. */
  predicate Holds(board: seq<Territory>, p: int, c: Continent) {
    OwnsAll(board, p, c.territories)
  }

  /** The bonus loop of `calculateReinforcements`: the bonuses of the continents, in
      order, whose every listed territory the player owns. */
  function Bonuses(board: seq<Territory>, p: int, cs: seq<Continent>): int {
    if cs == [] then 0
    else Bonuses(board, p, cs[..|cs| - 1]) + (if Holds(board, p, cs[|cs| - 1]) then cs[|cs| - 1].bonus else 0)
  }

  /** `calculateReinforcements` of src/main.js: three at least, or a third of the
      territories, plus the bonuses, with no exception for a player who owns nothing. */
  function JsReinforcements(p: int, board: seq<Territory>, cs: seq<Continent>): int {
    Base(CountTerritories(board, p)) + Bonuses(board, p, cs)
  }

  /** The ids the continents list. */
  function Listed(cs: seq<Continent>): set<int> {
    set c, k | 0 <= c < |cs| && 0 <= k < |cs[c].territories| :: cs[c].territories[k]
  }

  /** `calculateReinforcements`: counts the territories, then adds the bonus of every
      continent held, testing the listed territories in order until one is not the
      player's. Each listed id must name a territory (the source reads its owner). */
  method CalculateJsReinforcements(p: int, board: seq<Territory>, cs: seq<Continent>) returns (r: int)
    requires Listed(cs) <= MainTs.Ids(board)
    ensures r == JsReinforcements(p, board, cs)
  {
    var count := CountTerritories(board, p);
    var base := Max(3, count / 3);
    var bonus := 0;
    var i := 0;
    while i < |cs|
      invariant 0 <= i <= |cs|
      invariant bonus == Bonuses(board, p, cs[..i])
    {
      var data := cs[i];
      var ownsAll := true;
      var k := 0;
      while k < |data.territories| && ownsAll
        invariant 0 <= k <= |data.territories|
        invariant ownsAll <==> OwnsAll(board, p, data.territories[..k])
      {
        assert data.territories[k] in Listed(cs);
        MainTs.IdsHas(board, data.territories[k]);
        var t := Lookup(board, data.territories[k]);
        ownsAll := t.value.owner == p;
        k := k + 1;
      }
      assert ownsAll <==> OwnsAll(board, p, data.territories) by {
        if ownsAll {
          assert data.territories[..k] == data.territories;
        } else {
          assert OwnsAll(board, p, data.territories) ==> OwnsAll(board, p, data.territories[..k]);
        }
      }
      if ownsAll {
        bonus := bonus + data.bonus;
      }
      assert cs[..i + 1][..i] == cs[..i];
      i := i + 1;
    }
    assert cs[..i] == cs;
    r := base + bonus;
  }

  /** Where every continent lists a territory, the bonuses are those of src/core/logic.ts. */
  lemma {:induction false} BonusesAgree(board: seq<Territory>, p: int, cs: seq<Continent>)
    requires forall c :: c in cs ==> c.territories != []
    ensures Bonuses(board, p, cs) == ContinentBonus(board, p, cs)
    decreases |cs|
  {
    if cs != [] {
      assert forall c :: c in cs[..|cs| - 1] ==> c in cs;
      BonusesAgree(board, p, cs[..|cs| - 1]);
      assert cs[|cs| - 1] in cs;
    }
  }

  /** The reinforcement rules of the two generations against each other: for a player
      who owns territory, with no continent listing nothing, they agree; a player who
      owns nothing still receives three here, where the core grants nothing. */
  lemma ReinforcementsAgree(p: int, board: seq<Territory>, cs: seq<Continent>)
    requires forall c :: c in cs ==> c.territories != []
    ensures CountTerritories(board, p) > 0 ==> JsReinforcements(p, board, cs) == Reinforcements(p, board, cs)
    ensures CountTerritories(board, p) == 0 ==> JsReinforcements(p, board, cs) == 3 && Reinforcements(p, board, cs) == 0
  {
    BonusesAgree(board, p, cs);
    if CountTerritories(board, p) == 0 {
      NothingHeld(board, p, cs);
    }
  }

  /** With no negative bonus, `calculateReinforcements` grants every player at least
      three troops, and at least the bonus of each continent the player holds. */
  lemma {:induction false} BonusesAtLeast(board: seq<Territory>, p: int, cs: seq<Continent>)
    requires forall c :: c in cs ==> c.bonus >= 0
    ensures JsReinforcements(p, board, cs) >= 3 + Bonuses(board, p, cs) >= 3
    ensures forall i :: 0 <= i < |cs| && Holds(board, p, cs[i]) ==> Bonuses(board, p, cs) >= cs[i].bonus
    decreases |cs|
  {
    if cs != [] {
      var front := cs[..|cs| - 1];
      assert forall c :: c in front ==> c in cs;
      BonusesAtLeast(board, p, front);
      assert cs[|cs| - 1] in cs;
      forall i | 0 <= i < |cs| - 1 ensures cs[i] == front[i] {
      }
    }
  }

  /** A player with no territory holds no continent that lists one. */
  lemma {:induction false} NothingHeld(board: seq<Territory>, p: int, cs: seq<Continent>)
    requires CountTerritories(board, p) == 0
    requires forall c :: c in cs ==> c.territories != []
    ensures Bonuses(board, p, cs) == 0
    decreases |cs|
  {
    if cs != [] {
      var c := cs[|cs| - 1];
      assert c in cs;
      assert forall c' :: c' in cs[..|cs| - 1] ==> c' in cs;
      NothingHeld(board, p, cs[..|cs| - 1]);
      var x := c.territories[0];
      assert Lookup(board, x).Some? ==> Lookup(board, x).value.owner != p;
      assert !Holds(board, p, c);
    }
  }

  /** A continent that lists no territory pays its bonus to every player. */
  lemma {:induction false} EmptyContinentPays(board: seq<Territory>, p: int, cs: seq<Continent>, bonus: int)
    ensures Bonuses(board, p, cs + [Continent(bonus, [])]) == Bonuses(board, p, cs) + bonus
  {
    assert (cs + [Continent(bonus, [])])[..|cs|] == cs;
  }

  /** On the classic map the two rules agree for every player who owns territory. */
  lemma ClassicReinforcements(p: int, board: seq<Territory>)
    requires CountTerritories(board, p) > 0
    ensures JsReinforcements(p, board, ClassicContinents) == Reinforcements(p, board, ClassicContinents)
  {
    forall c | c in ClassicContinents ensures c.territories != [] {
      var i :| 0 <= i < |ClassicContinents| && ClassicContinents[i] == c;
    }
    ReinforcementsAgree(p, board, ClassicContinents);
  }

  /** `PLAYERS.filter(p => countTerritories(p.id) > 0)`, as the ids of seats 0 to n - 1. */
  function Survivors(board: seq<Territory>, n: nat): seq<int> {
    if n == 0 then []
    else Survivors(board, n - 1) + (if CountTerritories(board, n - 1) > 0 then [n - 1] else [])
  }

  /** The survivors are the seats that own a territory, each once. */
  lemma {:induction false} SurvivorsMembers(board: seq<Territory>, n: nat)
    ensures forall q :: q in Survivors(board, n) <==> 0 <= q < n && CountTerritories(board, q) > 0
    ensures NoDup(Survivors(board, n))
  {
    if n > 0 {
      SurvivorsMembers(board, n - 1);
    }
  }

  /** On a board whose owners are all seats, exactly one seat survives when, and only
      when, every territory has the same owner. */
  lemma LoneSurvivor(board: seq<Territory>, n: nat)
    requires board != [] && forall i :: 0 <= i < |board| ==> 0 <= board[i].owner < n
    ensures |Survivors(board, n)| == 1 <==> forall i :: 0 <= i < |board| ==> board[i].owner == board[0].owner
  {
    var s := Survivors(board, n);
    var w := board[0].owner;
    SurvivorsMembers(board, n);
    assert CountTerritories(board, w) > 0 by { assert board[0] in board; }
    assert w in s;
    if |s| == 1 {
      forall i | 0 <= i < |board| ensures board[i].owner == w {
        assert board[i] in board;
        assert board[i].owner in s;
      }
    }
    if forall i :: 0 <= i < |board| ==> board[i].owner == w {
      forall q | 0 <= q < n && CountTerritories(board, q) > 0 ensures q == w {
        var t :| t in board && t.owner == q;
        var i :| 0 <= i < |board| && board[i] == t;
      }
      OnlySurvivor(board, n, w);
    }
  }

  /** When `w` is the one seat owning territory, `w` alone survives. */
  lemma {:induction false} OnlySurvivor(board: seq<Territory>, n: nat, w: int)
    requires 0 <= w < n && CountTerritories(board, w) > 0
    requires forall q :: 0 <= q < n && CountTerritories(board, q) > 0 ==> q == w
    ensures Survivors(board, n) == [w]
  {
    if w == n - 1 {
      NoSurvivor(board, n - 1);
    } else {
      OnlySurvivor(board, n - 1, w);
    }
  }

  /** No seat survives when none of them owns a territory. */
  lemma {:induction false} NoSurvivor(board: seq<Territory>, n: nat)
    requires forall q :: 0 <= q < n ==> CountTerritories(board, q) == 0
    ensures Survivors(board, n) == []
  {
    if n > 0 {
      NoSurvivor(board, n - 1);
    }
  }

  // ---------------------------------------------------------------------
  // The random CPU of `cpuTurn`

  /** The ids of a list of territories, in order. */
  function IdsOf(ts: seq<Territory>): (r: seq<int>)
    ensures |r| == |ts| && forall i :: 0 <= i < |ts| ==> r[i] == ts[i].id
  {
    seq(|ts|, i requires 0 <= i < |ts| => ts[i].id)
  }

  /** The deployment loop of `cpuTurn` on `board`: one troop at a time, each on the
      territory of `order` at the place the next draw names, until none is left; `left`
      is what remains of `r`. */
  method DeployAtRandom(board: seq<Territory>, order: seq<int>, r: int, rng: Rand.Stream, k0: nat)
    returns (b: seq<Territory>, left: int)
    requires Rand.Unit(rng) && (r > 0 ==> |order| > 0)
    ensures b == MainTs.Sprinkle(board, order, rng, k0, Max(0, r))
    ensures left == Min(r, 0)
  {
    b, left := board, r;
    while left > 0
      invariant r <= 0 ==> left == r && b == board
      invariant r > 0 ==> 0 <= left <= r && b == MainTs.Sprinkle(board, order, rng, k0, r - left)
    {
      b := MainTs.Add(b, order[Rand.Index(rng(k0 + (r - left)), |order|)], 1);
      left := left - 1;
    }
  }

  /** Troops sprinkled over `order` never reach a territory outside it. */
  lemma {:induction false} SprinkleOnly(board: seq<Territory>, order: seq<int>, rng: Rand.Stream, k: nat, c: nat, j: int)
    requires Rand.Unit(rng) && (c > 0 ==> |order| > 0)
    requires 0 <= j < |board| && board[j].id !in order
    ensures MainTs.Sprinkle(board, order, rng, k, c)[j] == board[j]
    decreases c
  {
    if c > 0 {
      SprinkleOnly(board, order, rng, k, c - 1, j);
    }
  }

  /** The deployment of `cpuTurn` places every troop on a territory of the player: no
      owner changes, only the player's territories grow, and the board gains `c` troops. */
  lemma DeployOnOwned(board: seq<Territory>, p: int, rng: Rand.Stream, k: nat, c: nat)
    requires ValidBoard(board) && Rand.Unit(rng) && (c > 0 ==> Ai.Owned(board, p) != [])
    ensures var b := MainTs.Sprinkle(board, IdsOf(Ai.Owned(board, p)), rng, k, c);
            && MainTs.SameMap(board, b)
            && (forall j :: 0 <= j < |board| ==> b[j].owner == board[j].owner && b[j].troops >= board[j].troops)
            && (forall j :: 0 <= j < |board| && board[j].owner != p ==> b[j] == board[j])
            && MainTs.Total(b) == MainTs.Total(board) + c
  {
    var mine := Ai.Owned(board, p);
    var order := IdsOf(mine);
    Ai.OwnedMembers(board, p);
    forall x | x in order ensures HasId(board, x) {
      var i :| 0 <= i < |order| && order[i] == x;
      assert mine[i] in mine;
    }
    MainTs.SprinkleFacts(board, order, rng, k, c);
    forall j | 0 <= j < |board| && board[j].owner != p
      ensures MainTs.Sprinkle(board, order, rng, k, c)[j] == board[j]
    {
      if board[j].id in order {
        var i :| 0 <= i < |order| && order[i] == board[j].id;
        assert mine[i] in mine;
        LookupUnique(board, mine[i]);
        LookupUnique(board, board[j]);
      }
      SprinkleOnly(board, order, rng, k, c, j);
    }
  }

  /** `Object.values(state.territories).filter(t => t.owner === state.turn && t.troops > 2)`. */
  function Strong(scan: seq<Territory>, p: int): seq<Territory> {
    if scan == [] then []
    else
      var t := scan[|scan| - 1];
      Strong(scan[..|scan| - 1], p) + (if t.owner == p && t.troops > 2 then [t] else [])
  }

  lemma {:induction false} StrongMembers(scan: seq<Territory>, p: int)
    ensures forall t :: t in Strong(scan, p) <==> t in scan && t.owner == p && t.troops > 2
  {
    if scan != [] {
      StrongMembers(scan[..|scan| - 1], p);
      assert scan == scan[..|scan| - 1] + [scan[|scan| - 1]];
    }
  }

  /** The enemy neighbours of a source, in the insertion order of its neighbour set. */
  function Foes(board: seq<Territory>, p: int, nbrs: seq<int>): seq<int> {
    if nbrs == [] then []
    else
      var v := nbrs[|nbrs| - 1];
      Foes(board, p, nbrs[..|nbrs| - 1]) + (if Ai.EnemyAt(board, p, v) then [v] else [])
  }

  lemma {:induction false} FoesMembers(board: seq<Territory>, p: int, nbrs: seq<int>)
    ensures forall v :: v in Foes(board, p, nbrs) <==> v in nbrs && Ai.EnemyAt(board, p, v)
  {
    if nbrs != [] {
      FoesMembers(board, p, nbrs[..|nbrs| - 1]);
      assert nbrs == nbrs[..|nbrs| - 1] + [nbrs[|nbrs| - 1]];
    }
  }

  /** What one tick of the attack interval picks: no attack, or an attack from `source`
      on `target`; `next` is the first draw it leaves unused. */
  datatype Pick = Idle(next: nat) | Strike(source: int, target: int, next: nat)

  /** One tick of the attack interval of `cpuTurn` for player `p`, from draw `k`: a
      random strong territory, then a random enemy neighbour of it. */
  function PickAttack(board: seq<Territory>, p: int, rng: Rand.Stream, k: nat): Pick
    requires Rand.Unit(rng)
  {
    var strong := Strong(board, p);
    if strong == [] then Idle(k)
    else
      var s := strong[Rand.Index(rng(k), |strong|)];
      var foes := Foes(board, p, s.neighbors);
      if foes == [] then Idle(k + 1)
      else Strike(s.id, foes[Rand.Index(rng(k + 1), |foes|)], k + 2)
  }

  /** An attack the CPU picks comes from one of its territories holding more than two
      troops and goes to an existing enemy neighbour of it, and takes two draws. */
  lemma PickAttackLegal(board: seq<Territory>, p: int, rng: Rand.Stream, k: nat)
    requires Rand.Unit(rng) && ValidBoard(board)
    ensures var m := PickAttack(board, p, rng, k);
            m.Strike? ==>
              && m.next == k + 2 && HasId(board, m.source) && HasId(board, m.target) && m.source != m.target
              && Lookup(board, m.source).value.owner == p && Lookup(board, m.source).value.troops > 2
              && m.target in Lookup(board, m.source).value.neighbors
              && Lookup(board, m.target).value.owner != p
  {
    var strong := Strong(board, p);
    StrongMembers(board, p);
    if strong != [] {
      var s := strong[Rand.Index(rng(k), |strong|)];
      assert s in strong;
      var foes := Foes(board, p, s.neighbors);
      FoesMembers(board, p, s.neighbors);
      if foes != [] {
        var v := foes[Rand.Index(rng(k + 1), |foes|)];
        assert v in foes;
        LookupUnique(board, s);
      }
    }
  }

  /** No attack is picked without a draw exactly when the player has no territory holding
      more than two troops; otherwise an idle tick has drawn the source only. */
  lemma PickAttackIdle(board: seq<Territory>, p: int, rng: Rand.Stream, k: nat)
    requires Rand.Unit(rng)
    ensures var m := PickAttack(board, p, rng, k);
            m.Idle? ==>
              && (m.next == k <==> forall t :: t in board ==> t.owner != p || t.troops <= 2)
              && k <= m.next <= k + 1
  {
    StrongMembers(board, p);
    var strong := Strong(board, p);
    if strong != [] {
      assert strong[0] in strong;
    } else {
      forall t | t in board ensures t.owner != p || t.troops <= 2 {
        assert t !in strong;
      }
    }
  }

  /** One tick of the attack interval of `cpuTurn` while the game goes on: the attack
      picked, if any, resolved, and the win condition checked among the `n` seats. The
      result is the board, whether the game is now over, and the next unused draw. */
  function Tick(board: seq<Territory>, n: nat, p: int, rng: Rand.Stream, k: nat): (r: (seq<Territory>, bool, nat))
    requires Rand.Unit(rng) && ValidBoard(board)
    ensures MainTs.SameMap(board, r.0) && ValidBoard(r.0)
  {
    PickAttackLegal(board, p, rng, k);
    match PickAttack(board, p, rng, k)
    case Idle(k1) => (board, false, k1)
    case Strike(a, d, k1) =>
      var b := Clash(board, a, d, rng(k1), rng(k1 + 1));
      MainTs.SameMapKeeps(board, b, 0);
      (b, |Survivors(b, n)| == 1, k1 + 2)
  }

  /** The attack interval of `cpuTurn` with `c` ticks left, from the board, the game-over
      flag and the draw `k`: it stops once the game is over or no tick is left. */
  function Raid(board: seq<Territory>, n: nat, p: int, over: bool, rng: Rand.Stream, k: nat, c: nat)
    : (seq<Territory>, bool, nat)
    requires Rand.Unit(rng) && ValidBoard(board)
    decreases c
  {
    if over || c == 0 then (board, over, k)
    else
      var t := Tick(board, n, p, rng, k);
      Raid(t.0, n, p, t.1, rng, t.2, c - 1)
  }

  /** What a raid by `p` may do to one territory: `p` keeps it if it had it, one that does
      not end with `p` is left exactly as it was, and a territory holding troops, or none,
      is not emptied below that. */
  predicate Kept(before: Territory, after: Territory, p: int) {
    && (before.owner == p ==> after.owner == p)
    && (after.owner != p ==> after == before)
    && (before.troops >= 1 ==> after.troops >= 1)
    && (before.troops >= 0 ==> after.troops >= 0)
  }

  /** What the attack interval may do to a board, from `before` to `after`: the board
      stays fit for the game with the same map, every territory is kept in the sense of
      `Kept`, and the board never gains troops. */
  predicate Raided(before: seq<Territory>, after: seq<Territory>, n: int, info: Ai.TerritoryInfo, p: int) {
    && MainTs.BoardOk(after, n, info) && MainTs.SameMap(before, after) && MainTs.Ids(after) == MainTs.Ids(before)
    && (forall j :: 0 <= j < |before| ==> Kept(before[j], after[j], p))
    && ((forall j :: 0 <= j < |before| ==> before[j].troops >= 0) ==> MainTs.Total(after) <= MainTs.Total(before))
  }

  /** One battle the CPU picks is a raid: its attacker is the player's and holds more
      than two troops, its defender belongs to someone else. */
  lemma ClashRaided(board: seq<Territory>, n: int, info: Ai.TerritoryInfo, p: int, a: int, d: int, r1: real, r2: real)
    requires MainTs.BoardOk(board, n, info) && HasId(board, a) && HasId(board, d) && a != d
    requires Lookup(board, a).value.owner == p && Lookup(board, a).value.troops > 2
    requires Lookup(board, d).value.owner != p
    ensures Raided(board, Clash(board, a, d, r1, r2), n, info, p)
  {
    var r := Clash(board, a, d, r1, r2);
    ClashOk(board, n, info, a, d, r1, r2);
    ClashFacts(board, a, d, r1, r2);
    var ka := MainTs.IndexOf(board, a);
    var kd := MainTs.IndexOf(board, d);
    MainTs.LookupAt(board, ka);
    MainTs.LookupAt(board, kd);
    assert board[ka].owner == p && board[ka].troops > 2 && board[kd].owner != p;
    assert Kept(board[ka], r[ka], p) && Kept(board[kd], r[kd], p);
    assert forall j :: 0 <= j < |board| ==> Kept(board[j], r[j], p);
  }

  /** A tick is a raid by `p`, and it reports the game over only when one seat is left. */
  lemma TickRaided(board: seq<Territory>, n: nat, info: Ai.TerritoryInfo, p: int, rng: Rand.Stream, k: nat)
    requires MainTs.BoardOk(board, n, info) && Rand.Unit(rng)
    ensures var t := Tick(board, n, p, rng, k);
            Raided(board, t.0, n, info, p) && (t.1 ==> |Survivors(t.0, n)| == 1)
  {
    PickAttackLegal(board, p, rng, k);
    match PickAttack(board, p, rng, k)
    case Idle(_) =>
    case Strike(a, d, k1) =>
      ClashRaided(board, n, info, p, a, d, rng(k1), rng(k1 + 1));
  }

  lemma RaidedTrans(a: seq<Territory>, b: seq<Territory>, c: seq<Territory>, n: int, info: Ai.TerritoryInfo, p: int)
    requires Raided(a, b, n, info, p) && Raided(b, c, n, info, p)
    ensures Raided(a, c, n, info, p)
  {
  }

  /** The attack interval is a raid by `p`; once the game is over it changes nothing, and
      it ends the game only when a single seat is left owning territory. */
  lemma {:induction false} RaidFacts(board: seq<Territory>, n: nat, info: Ai.TerritoryInfo, p: int, over: bool,
                                     rng: Rand.Stream, k: nat, c: nat)
    requires MainTs.BoardOk(board, n, info) && Rand.Unit(rng)
    ensures var t := Raid(board, n, p, over, rng, k, c);
            && Raided(board, t.0, n, info, p)
            && (over ==> t.1 && t.0 == board)
            && (t.1 ==> over || |Survivors(t.0, n)| == 1)
    decreases c
  {
    if !over && c > 0 {
      var t := Tick(board, n, p, rng, k);
      TickRaided(board, n, info, p, rng, k);
      RaidFacts(t.0, n, info, p, t.1, rng, t.2, c - 1);
      RaidedTrans(board, t.0, Raid(t.0, n, p, t.1, rng, t.2, c - 1).0, n, info, p);
    }
  }

  /** The body of the attack interval of `cpuTurn` while the game goes on: a random
      strong territory of the player, a random enemy neighbour of it, and the battle.
      `fought` records that a battle took place (`resolveBattle` clears the selection). */
  method TickStep(board: seq<Territory>, n: nat, info: Ai.TerritoryInfo, p: int, rng: Rand.Stream, k0: nat)
    returns (b: seq<Territory>, over: bool, fought: bool, k: nat)
    requires MainTs.BoardOk(board, n, info) && Rand.Unit(rng)
    ensures (b, over, k) == Tick(board, n, p, rng, k0)
    ensures MainTs.BoardOk(b, n, info) && (over ==> fought) && (!fought ==> b == board)
  {
    b, over, fought, k := board, false, false, k0;
    var strong := Strong(b, p);
    if |strong| > 0 {
      var source := strong[Rand.Index(rng(k), |strong|)];
      var foes := Foes(b, p, source.neighbors);
      k := k + 1;
      if |foes| > 0 {
        var target := foes[Rand.Index(rng(k), |foes|)];
        k := k + 1;
        assert PickAttack(board, p, rng, k0) == Strike(source.id, target, k);
        PickAttackLegal(board, p, rng, k0);
        ClashOk(board, n, info, source.id, target, rng(k), rng(k + 1));
        b := Clash(b, source.id, target, rng(k), rng(k + 1));
        k := k + 2;
        fought := true;
        over := |Survivors(b, n)| == 1;
      }
    }
  }

  /** The number of attack ticks in one CPU turn. */
  const CpuTicks: nat := 3

  /** The attack interval of `cpuTurn`: three ticks, stopping once the game is over. */
  method Raids(board: seq<Territory>, n: nat, info: Ai.TerritoryInfo, p: int, rng: Rand.Stream, k0: nat)
    returns (b: seq<Territory>, over: bool, fought: bool, k: nat)
    requires MainTs.BoardOk(board, n, info) && Rand.Unit(rng)
    ensures b == Raid(board, n, p, false, rng, k0, CpuTicks).0
    ensures over == Raid(board, n, p, false, rng, k0, CpuTicks).1
    ensures k == Raid(board, n, p, false, rng, k0, CpuTicks).2
    ensures MainTs.BoardOk(b, n, info) && MainTs.SameMap(board, b)
    ensures over ==> fought
    ensures !fought ==> b == board
  {
    b, over, fought, k := board, false, false, k0;
    var attacks := 0;
    while !over && attacks < CpuTicks
      invariant 0 <= attacks <= CpuTicks
      invariant MainTs.BoardOk(b, n, info) && MainTs.SameMap(board, b)
      invariant Raid(board, n, p, false, rng, k0, CpuTicks) == Raid(b, n, p, over, rng, k, CpuTicks - attacks)
      invariant over ==> fought
      invariant !fought ==> b == board
    {
      var f;
      b, over, f, k := TickStep(b, n, info, p, rng, k);
      fought := fought || f;
      attacks := attacks + 1;
    }
  }

  // ---------------------------------------------------------------------
  // The map of `calculateAdjacency`

  /** The neighbour sets of the board as a map from id to neighbours. */
  function NeighbourMap(board: seq<Territory>): map<int, seq<int>> {
    if board == [] then map[] else NeighbourMap(board[1..])[board[0].id := board[0].neighbors]
  }

  /** On a valid board the map has a key for every territory and holds its neighbours. */
  lemma {:induction false} NeighbourMapAt(board: seq<Territory>)
    requires ValidBoard(board)
    ensures forall x :: x in NeighbourMap(board) <==> HasId(board, x)
    ensures forall i :: 0 <= i < |board| ==>
              board[i].id in NeighbourMap(board) && NeighbourMap(board)[board[i].id] == board[i].neighbors
  {
    if board != [] {
      ValidTail(board);
      NeighbourMapAt(board[1..]);
      MainTs.IdsDistinct(board, 0);
      forall x ensures HasId(board, x) <==> x == board[0].id || HasId(board[1..], x) {
        MainTs.IdsHas(board, x);
        MainTs.IdsHas(board[1..], x);
      }
      forall i | 0 < i < |board| ensures NeighbourMap(board)[board[i].id] == board[i].neighbors {
        assert board[1..][i - 1] == board[i];
      }
    }
  }

  /** The board `createGridAndTerritories` leaves for `calculateAdjacency`: one territory,
      with no neighbours yet, for every id that is land in the grid, and no other. */
  ghost predicate Blank(board: seq<Territory>, layout: seq<seq<int>>) {
    && (forall i :: 0 <= i < |board| ==> board[i].neighbors == [] && Grid.Land(layout, Rows, Cols, board[i].id))
    && (forall a :: Grid.Land(layout, Rows, Cols, a) ==> HasId(board, a))
  }

  /** The scan of a grid whose land ids are exactly the territories of the board has a
      key for every territory and no other, and links territories only. */
  lemma ScanKeys(board: seq<Territory>, layout: seq<seq<int>>, adj: map<int, seq<int>>)
    requires Blank(board, layout)
    requires Grid.Sound(adj, layout, Rows, Cols) && Grid.Complete(adj, layout, Rows, Cols)
    ensures forall x :: x in adj <==> HasId(board, x)
    ensures forall x :: x in adj ==> NoDup(adj[x]) && forall v :: v in adj[x] ==> v in adj
  {
    forall x ensures x in adj <==> HasId(board, x) {
      if HasId(board, x) {
        var t :| t in board && t.id == x;
        var i :| 0 <= i < |board| && board[i] == t;
        assert Grid.Land(layout, Rows, Cols, x);
        var y, z :| Grid.InGrid(Rows, Cols, y, z) && Grid.Cell(layout, y, z) == x;
      }
      if x in adj {
        assert Grid.Land(layout, Rows, Cols, x);
      }
    }
    forall x, v | x in adj && v in adj[x] ensures v in adj {
      assert Grid.Edge(adj, x, v);
    }
  }

  /** Writing the scan into the territories keeps the board fit for the game, and the
      board's neighbour sets are then the scan. */
  lemma Install(board: seq<Territory>, b: seq<Territory>, n: int, info: Ai.TerritoryInfo, adj: map<int, seq<int>>)
    requires MainTs.BoardOk(board, n, info)
    requires forall x :: x in adj <==> HasId(board, x)
    requires forall x :: x in adj ==> NoDup(adj[x]) && forall v :: v in adj[x] ==> v in adj
    requires |b| == |board| && forall i :: 0 <= i < |board| ==> board[i].id in adj && b[i] == board[i].(neighbors := adj[board[i].id])
    ensures MainTs.BoardOk(b, n, info) && MainTs.Ids(b) == MainTs.Ids(board)
    ensures NeighbourMap(b) == adj
  {
    MainTs.IdsAgree(board, b);
    AscendingSameIds(board, b);
    forall i, j | 0 <= i < |b| && 0 <= j < |b[i].neighbors| ensures b[i].neighbors[j] in MainTs.Ids(b) {
      MainTs.IdsHas(board, b[i].neighbors[j]);
    }
    NeighbourMapAt(b);
    forall x ensures x in NeighbourMap(b) <==> x in adj {
      MainTs.SameIds(board, b, x);
    }
    forall x | x in adj ensures NeighbourMap(b)[x] == adj[x] {
      var t :| t in board && t.id == x;
      var i :| 0 <= i < |board| && board[i] == t;
    }
  }

  /** `calculateAdjacency` on a blank board: the grid scan with the directions of
      src/main.js, its neighbour sets written into the territories. Afterwards the
      neighbour sets are exactly those of the scan, so they are sound and complete for
      the grid, and owners and troops are as they were. */
  method Adjacency(board: seq<Territory>, n: int, info: Ai.TerritoryInfo, layout: seq<seq<int>>)
    returns (b: seq<Territory>)
    requires MainTs.BoardOk(board, n, info) && Grid.RowsReadable(layout, Rows, Cols) && Blank(board, layout)
    ensures MainTs.BoardOk(b, n, info) && MainTs.Ids(b) == MainTs.Ids(board)
    ensures |b| == |board| && forall i :: 0 <= i < |b| ==>
              b[i].id == board[i].id && b[i].owner == board[i].owner && b[i].troops == board[i].troops
    ensures Grid.Sound(NeighbourMap(b), layout, Rows, Cols) && Grid.Complete(NeighbourMap(b), layout, Rows, Cols)
  {
    assert Grid.FourDirections(JsDirections) by {
      assert JsDirections[0] == (1, 0) && JsDirections[1] == (0, 1);
      assert JsDirections[2] == (-1, 0) && JsDirections[3] == (0, -1);
    }
    var adj := Grid.ScanAdjacency(Rows, Cols, layout, JsDirections);
    ScanKeys(board, layout, adj);
    forall i | 0 <= i < |board| ensures board[i].id in adj {
      assert board[i] in board;
    }
    b := seq(|board|, i requires 0 <= i < |board| => board[i].(neighbors := adj[board[i].id]));
    Install(board, b, n, info, adj);
  }

  // ---------------------------------------------------------------------
  // A whole CPU turn

  /** The deployment of `cpuTurn` leaves a valid board. */
  lemma DeployValid(board: seq<Territory>, p: int, rng: Rand.Stream, k: nat, c: nat)
    requires ValidBoard(board) && Rand.Unit(rng) && (c > 0 ==> Ai.Owned(board, p) != [])
    ensures ValidBoard(MainTs.Sprinkle(board, IdsOf(Ai.Owned(board, p)), rng, k, c))
  {
    DeployOnOwned(board, p, rng, k, c);
    MainTs.SameMapKeeps(board, MainTs.Sprinkle(board, IdsOf(Ai.Owned(board, p)), rng, k, c), 0);
  }

  /** The board after the deployment of `cpuTurn`: `Max(0, r)` single troops over the
      territories `p` owns, drawing from `k0`; it is as fit for play as the board before. */
  function Deployment(board: seq<Territory>, p: int, r: int, rng: Rand.Stream, k0: nat): (d: seq<Territory>)
    requires ValidBoard(board) && Rand.Unit(rng) && Ai.Owned(board, p) != []
    ensures ValidBoard(d)
  {
    DeployValid(board, p, rng, k0, Max(0, r));
    MainTs.Sprinkle(board, IdsOf(Ai.Owned(board, p)), rng, k0, Max(0, r))
  }

  /** The first draw the attacks of `cpuTurn` use: the deployment takes one draw per
      troop it places. */
  function AttackDraw(k0: nat, r: int): (k: nat)
    ensures k >= k0 && (r > 0 ==> k == k0 + r)
  {
    k0 + Max(0, r)
  }

  /** `cpuTurn` for a seat `p` that owns territory, with `r` reinforcements and draws from
      `k0`: the deployment, then the attack interval drawing from where the deployment
      stopped; the result is the board, the game-over flag and the next unused draw. */
  function CpuPlay(board: seq<Territory>, n: nat, p: int, r: int, rng: Rand.Stream, k0: nat)
    : (seq<Territory>, bool, nat)
    requires ValidBoard(board) && Rand.Unit(rng) && Ai.Owned(board, p) != []
  {
    Raid(Deployment(board, p, r, rng, k0), n, p, false, rng, AttackDraw(k0, r), CpuTicks)
  }

  /** `CpuPlay` is the attack interval on the deployed board `d`, drawing from `k`. */
  lemma CpuPlayOf(board: seq<Territory>, n: nat, p: int, r: int, rng: Rand.Stream, k0: nat, d: seq<Territory>)
    requires ValidBoard(board) && Rand.Unit(rng) && Ai.Owned(board, p) != [] && d == Deployment(board, p, r, rng, k0)
    ensures ValidBoard(d)
    ensures CpuPlay(board, n, p, r, rng, k0) == Raid(d, n, p, false, rng, AttackDraw(k0, r), CpuTicks)
  {
  }

  /** The deployment and the attacks of `cpuTurn` in a row. */
  method CpuRound(board: seq<Territory>, n: nat, info: Ai.TerritoryInfo, p: int, r: int, rng: Rand.Stream, k0: nat)
    returns (b: seq<Territory>, left: int, over: bool, fought: bool, k: nat)
    requires MainTs.BoardOk(board, n, info) && Rand.Unit(rng) && Ai.Owned(board, p) != []
    ensures var t := CpuPlay(board, n, p, r, rng, k0); b == t.0 && over == t.1 && k == t.2
    ensures MainTs.BoardOk(b, n, info) && MainTs.SameMap(board, b) && MainTs.Ids(b) == MainTs.Ids(board)
    ensures left == Min(r, 0) && (over ==> fought)
  {
    var order := IdsOf(Ai.Owned(board, p));
    var d;
    d, left := DeployAtRandom(board, order, r, rng, k0);
    assert d == Deployment(board, p, r, rng, k0);
    DeployOnOwned(board, p, rng, k0, Max(0, r));
    MainTs.SettleOk(board, d, n, info);
    MainTs.IdsAgree(board, d);
    CpuPlayOf(board, n, p, r, rng, k0, d);
    b, over, fought, k := Raids(d, n, info, p, rng, AttackDraw(k0, r));
    MainTs.IdsAgree(board, b);
  }

  /** A CPU turn only ever helps the CPU: it keeps every territory it had and is the only
      one to gain any, nobody else gains troops, no territory holding troops is emptied,
      and the board ends with at most the deployed reinforcements more troops. */
  lemma PlayedFacts(before: seq<Territory>, n: nat, info: Ai.TerritoryInfo, p: int, r: int, rng: Rand.Stream, k0: nat)
    requires MainTs.BoardOk(before, n, info) && Rand.Unit(rng) && Ai.Owned(before, p) != []
    ensures var t := CpuPlay(before, n, p, r, rng, k0);
            && MainTs.BoardOk(t.0, n, info) && MainTs.SameMap(before, t.0)
            && (forall j :: 0 <= j < |before| ==>
                  && (before[j].owner == p ==> t.0[j].owner == p)
                  && (t.0[j].owner != before[j].owner ==> t.0[j].owner == p)
                  && (before[j].troops >= 1 ==> t.0[j].troops >= 1)
                  && (t.0[j].owner != p ==> t.0[j].troops <= before[j].troops))
            && ((forall j :: 0 <= j < |before| ==> before[j].troops >= 0) ==>
                  MainTs.Total(t.0) <= MainTs.Total(before) + Max(0, r))
            && (t.1 ==> |Survivors(t.0, n)| == 1)
  {
    var c := Max(0, r);
    var k := AttackDraw(k0, r);
    var d, after, over := DeployThenRaidAt(before, n, info, p, c, rng, k0, k);
  }

  /** `PlayedFacts` for the board `cpuTurn` deploys to, with the attacks drawing from `k`. */
  lemma DeployThenRaidAt(before: seq<Territory>, n: nat, info: Ai.TerritoryInfo, p: int, c: nat, rng: Rand.Stream,
                         k0: nat, k: nat) returns (d: seq<Territory>, after: seq<Territory>, over: bool)
    requires MainTs.BoardOk(before, n, info) && Rand.Unit(rng) && Ai.Owned(before, p) != []
    ensures d == MainTs.Sprinkle(before, IdsOf(Ai.Owned(before, p)), rng, k0, c) && ValidBoard(d)
    ensures after == Raid(d, n, p, false, rng, k, CpuTicks).0
    ensures over == Raid(d, n, p, false, rng, k, CpuTicks).1
    ensures MainTs.BoardOk(after, n, info) && MainTs.SameMap(before, after)
    ensures forall j :: 0 <= j < |before| ==>
              && (before[j].owner == p ==> after[j].owner == p)
              && (after[j].owner != before[j].owner ==> after[j].owner == p)
              && (before[j].troops >= 1 ==> after[j].troops >= 1)
              && (after[j].owner != p ==> after[j].troops <= before[j].troops)
    ensures (forall j :: 0 <= j < |before| ==> before[j].troops >= 0) ==>
              MainTs.Total(after) <= MainTs.Total(before) + c
    ensures over ==> |Survivors(after, n)| == 1
  {
    DeployOnOwned(before, p, rng, k0, c);
    d := MainTs.Sprinkle(before, IdsOf(Ai.Owned(before, p)), rng, k0, c);
    RaidAfterDeploy(before, d, n, info, p, c, rng, k);
    after := Raid(d, n, p, false, rng, k, CpuTicks).0;
    over := Raid(d, n, p, false, rng, k, CpuTicks).1;
  }

  /** `PlayedFacts` for the attack interval after any deployment of `c` troops onto `p`'s
      own territories. */
  lemma RaidAfterDeploy(before: seq<Territory>, d: seq<Territory>, n: nat, info: Ai.TerritoryInfo, p: int, c: nat,
                        rng: Rand.Stream, k: nat)
    requires MainTs.BoardOk(before, n, info) && Rand.Unit(rng)
    requires MainTs.SameMap(before, d)
    requires forall j :: 0 <= j < |before| ==> d[j].owner == before[j].owner && d[j].troops >= before[j].troops
    requires forall j :: 0 <= j < |before| && before[j].owner != p ==> d[j] == before[j]
    requires MainTs.Total(d) == MainTs.Total(before) + c
    ensures ValidBoard(d)
    ensures var t := Raid(d, n, p, false, rng, k, CpuTicks);
            && MainTs.BoardOk(t.0, n, info) && MainTs.SameMap(before, t.0)
            && (forall j :: 0 <= j < |before| ==>
                  && (before[j].owner == p ==> t.0[j].owner == p)
                  && (t.0[j].owner != before[j].owner ==> t.0[j].owner == p)
                  && (before[j].troops >= 1 ==> t.0[j].troops >= 1)
                  && (t.0[j].owner != p ==> t.0[j].troops <= before[j].troops))
            && ((forall j :: 0 <= j < |before| ==> before[j].troops >= 0) ==>
                  MainTs.Total(t.0) <= MainTs.Total(before) + c)
            && (t.1 ==> |Survivors(t.0, n)| == 1)
  {
    MainTs.SettleOk(before, d, n, info);
    RaidFacts(d, n, info, p, false, rng, k, CpuTicks);
    var t := Raid(d, n, p, false, rng, k, CpuTicks);
    DeployThenRaid(before, d, t.0, n, info, p, c);
  }

  /** A deployment onto `p`'s own territories followed by a raid by `p`. */
  lemma DeployThenRaid(before: seq<Territory>, d: seq<Territory>, after: seq<Territory>, n: nat,
                       info: Ai.TerritoryInfo, p: int, c: nat)
    requires MainTs.SameMap(before, d)
    requires forall j :: 0 <= j < |before| ==> d[j].owner == before[j].owner && d[j].troops >= before[j].troops
    requires forall j :: 0 <= j < |before| && before[j].owner != p ==> d[j] == before[j]
    requires MainTs.Total(d) == MainTs.Total(before) + c
    requires Raided(d, after, n, info, p)
    ensures MainTs.SameMap(before, after)
    ensures forall j :: 0 <= j < |before| ==>
              && (before[j].owner == p ==> after[j].owner == p)
              && (after[j].owner != before[j].owner ==> after[j].owner == p)
              && (before[j].troops >= 1 ==> after[j].troops >= 1)
              && (after[j].owner != p ==> after[j].troops <= before[j].troops)
    ensures (forall j :: 0 <= j < |before| ==> before[j].troops >= 0) ==>
              MainTs.Total(after) <= MainTs.Total(before) + c
  {
    forall j | 0 <= j < |before| && after[j].owner != p
      ensures after[j].troops <= before[j].troops
    {
      assert Kept(d[j], after[j], p);
    }
  }

  // ---------------------------------------------------------------------
  // The global `state`

  /** The global `state` of src/main.js once `startGame` has run, with the tables it
      reads: the number of `PLAYERS`, `CURRENT_CONTINENT_DATA` and
      `CURRENT_TERRITORY_INFO`. Seat 0 is the human. */
  class Game {
    const seats: nat
    const continents: seq<Continent>
    const info: Ai.TerritoryInfo
    var board: seq<Territory>
    var turn: int
    var phase: MainTs.Phase
    var reinforcements: int
    var selected: Option<int>
    var gameOver: bool

    /** The turn names a seat, the board stays fit for the game, every territory a
        continent lists exists, and a selection names an existing territory. */
    ghost predicate Valid()
      reads this
    {
      && seats > 0
      && 0 <= turn < seats
      && MainTs.BoardOk(board, seats, info)
      && Listed(continents) <= MainTs.Ids(board)
      && (selected.Some? ==> HasId(board, selected.value))
    }

    /** `startGame`: one human and `cpuCount` CPU seats, and the initial `state`; the
        board is the one `createGridAndTerritories` produced. */
    constructor (cpuCount: nat, board0: seq<Territory>, continents: seq<Continent>, info: Ai.TerritoryInfo)
      requires MainTs.BoardOk(board0, cpuCount + 1, info) && Listed(continents) <= MainTs.Ids(board0)
      ensures Valid()
      ensures seats == cpuCount + 1 && board == board0 && this.continents == continents && this.info == info
      ensures turn == 0 && phase == MainTs.Deploy && reinforcements == 5 && selected == None && !gameOver
    {
      seats := cpuCount + 1;
      this.continents := continents;
      this.info := info;
      board := board0;
      turn := 0;
      phase := MainTs.Deploy;
      reinforcements := 5;
      selected := None;
      gameOver := false;
    }

    /** `calculateAdjacency` on the board `createGridAndTerritories` left: every
        territory's neighbours become those the grid scan finds, which are sound and
        complete for the grid; nothing else changes. */
    method CalculateAdjacency(layout: seq<seq<int>>)
      requires Valid() && Grid.RowsReadable(layout, Rows, Cols) && Blank(board, layout)
      modifies this
      ensures Valid()
      ensures |board| == |old(board)| && forall i :: 0 <= i < |board| ==>
                board[i].id == old(board)[i].id && board[i].owner == old(board)[i].owner
                && board[i].troops == old(board)[i].troops
      ensures Grid.Sound(NeighbourMap(board), layout, Rows, Cols) && Grid.Complete(NeighbourMap(board), layout, Rows, Cols)
      ensures turn == old(turn) && phase == old(phase) && reinforcements == old(reinforcements)
      ensures selected == old(selected) && gameOver == old(gameOver)
    {
      var b := Adjacency(board, seats, info, layout);
      if selected.Some? {
        MainTs.SameIds(board, b, selected.value);
      }
      board := b;
    }

    /** `addManualConnections`: the pairs linked in order, each only when both of its
        territories exist. Only neighbour sets change. */
    method AddManualConnections(conns: seq<(int, int)>)
      requires Valid()
      modifies this
      ensures Valid()
      ensures board == MainTs.Connected(old(board), conns)
      ensures turn == old(turn) && phase == old(phase) && reinforcements == old(reinforcements)
      ensures selected == old(selected) && gameOver == old(gameOver)
    {
      var i := 0;
      while i < |conns|
        invariant 0 <= i <= |conns|
        invariant board == MainTs.Connected(old(board), conns[..i])
        invariant turn == old(turn) && phase == old(phase) && reinforcements == old(reinforcements)
        invariant selected == old(selected) && gameOver == old(gameOver)
      {
        assert conns[..i + 1][..i] == conns[..i];
        board := MainTs.Link(board, conns[i].0, conns[i].1);
        i := i + 1;
      }
      assert conns[..i] == conns;
      MainTs.ConnectedOk(old(board), conns, seats, info);
      MainTs.IdsAgree(old(board), board);
      if selected.Some? {
        MainTs.SameIds(old(board), board, selected.value);
      }
    }

    /** `assignTerritories` with the shuffled `order` of the territory keys: the
        territory at place `i` goes to seat `i % seats` with one troop, then twice as
        many single troops land at random; `k` is the next unused random draw. */
    method AssignTerritories(order: seq<int>, rng: Rand.Stream, k0: nat) returns (k: nat)
      requires Valid() && Rand.Unit(rng)
      modifies this
      ensures Valid()
      ensures board == MainTs.Sprinkle(MainTs.Deal(old(board), order, seats), order, rng, k0, 2 * |order|)
      ensures k == k0 + 2 * |order|
      ensures turn == old(turn) && phase == old(phase) && reinforcements == old(reinforcements)
      ensures selected == old(selected) && gameOver == old(gameOver)
    {
      var dealt := MainTs.DealRound(board, order, seats);
      var b := MainTs.ExtraTroops(dealt, order, rng, k0);
      MainTs.DealOk(board, order, seats, info);
      MainTs.SprinkleOk(dealt, order, rng, k0, 2 * |order|, seats, info);
      MainTs.IdsAgree(board, dealt);
      MainTs.IdsAgree(dealt, b);
      if selected.Some? {
        MainTs.SameMapKeeps(board, dealt, selected.value);
        MainTs.SameMapKeeps(dealt, b, selected.value);
      }
      board := b;
      k := k0 + 2 * |order|;
    }

    /** The deploy branch of `handleTerritoryClick`: on a territory of the player whose
        turn it is, while reinforcements remain, one of them is placed there; once none
        remain the attack phase begins with no selection (after a delay in the source). */
    method DeployClick(tId: int)
      requires Valid() && HasId(board, tId) && phase == MainTs.Deploy
      modifies this
      ensures Valid() && MainTs.SameMap(old(board), board)
      ensures turn == old(turn) && gameOver == old(gameOver)
      ensures var t := old(board)[MainTs.IndexOf(old(board), tId)];
              !(t.owner == turn && old(reinforcements) > 0) ==>
                board == old(board) && reinforcements == old(reinforcements) && phase == MainTs.Deploy
                && selected == old(selected)
      ensures var kt := MainTs.IndexOf(old(board), tId);
              old(board)[kt].owner == turn && old(reinforcements) > 0 ==>
                && board[kt].troops == old(board)[kt].troops + 1
                && reinforcements == old(reinforcements) - 1
                && (reinforcements == 0 ==> phase == MainTs.Attack && selected == None)
                && (reinforcements != 0 ==> phase == MainTs.Deploy && selected == old(selected))
      ensures forall i :: 0 <= i < |board| ==>
                board[i].owner == old(board)[i].owner && (board[i].id != tId ==> board[i].troops == old(board)[i].troops)
      ensures MainTs.Total(board) + reinforcements == old(MainTs.Total(board) + reinforcements)
      ensures old(reinforcements) >= 0 ==> reinforcements >= 0
    {
      var kt := MainTs.IndexOf(board, tId);
      if board[kt].owner == turn && reinforcements > 0 {
        var b := board[kt := board[kt].(troops := board[kt].troops + 1)];
        MainTs.TotalShift(board, b, kt, 1);
        MainTs.IdsDistinct(board, kt);
        MainTs.SettleOk(board, b, seats, info);
        MainTs.IdsAgree(board, b);
        if selected.Some? {
          MainTs.SameMapKeeps(board, b, selected.value);
        }
        board := b;
        reinforcements := reinforcements - 1;
        if reinforcements == 0 {
          phase := MainTs.Attack;
          selected := None;
        }
      }
    }

    /** The attack branch of `handleTerritoryClick`: clicking the selection clears it;
        clicking a territory of the player's selects it when it holds more than one
        troop; clicking another player's territory next to the selection resolves a
        battle. */
    method AttackClick(tId: int, rng: Rand.Stream, k0: nat) returns (k: nat)
      requires Valid() && HasId(board, tId) && phase == MainTs.Attack && Rand.Unit(rng)
      modifies this
      ensures Valid() && MainTs.SameMap(old(board), board)
      ensures turn == old(turn) && phase == MainTs.Attack && reinforcements == old(reinforcements)
      ensures old(selected) == Some(tId) ==>
                selected == None && board == old(board) && gameOver == old(gameOver) && k == k0
      ensures var t := old(board)[MainTs.IndexOf(old(board), tId)];
              old(selected) != Some(tId) && t.owner == turn ==>
                && selected == (if t.troops > 1 then Some(tId) else old(selected))
                && board == old(board) && gameOver == old(gameOver) && k == k0
      ensures var t := old(board)[MainTs.IndexOf(old(board), tId)];
              old(selected) != Some(tId) && t.owner != turn && !MainTs.Adjacent(old(board), old(selected), tId) ==>
                selected == old(selected) && board == old(board) && gameOver == old(gameOver) && k == k0
      ensures var t := old(board)[MainTs.IndexOf(old(board), tId)];
              old(selected) != Some(tId) && t.owner != turn && MainTs.Adjacent(old(board), old(selected), tId) ==>
                && board == Clash(old(board), old(selected).value, tId, rng(k0), rng(k0 + 1))
                && selected == None && k == k0 + 2
                && gameOver == (old(gameOver) || |Survivors(board, seats)| == 1)
    {
      k := k0;
      var kt := MainTs.IndexOf(board, tId);
      if selected == Some(tId) {
        selected := None;
      } else if board[kt].owner == turn {
        if board[kt].troops > 1 {
          selected := Some(tId);
        }
      } else if selected.Some? {
        var source := board[MainTs.IndexOf(board, selected.value)];
        if tId in source.neighbors {
          k := ResolveBattle(source.id, tId, rng, k0);
        }
      }
    }

    /** The fortify branch of `handleTerritoryClick`: clicking the selection clears it;
        with no selection, a territory of the player's with more than one troop becomes
        the source; with a source, clicking an adjacent territory of the player's moves
        one troop there as long as the source holds more than one, and asks for the end
        of the turn once the source is down to one; clicking any other territory of the
        player's with more than one troop makes it the source. */
    method FortifyClick(tId: int) returns (endTurnDue: bool)
      requires Valid() && HasId(board, tId) && phase == MainTs.Fortify
      modifies this
      ensures Valid() && MainTs.SameMap(old(board), board) && MainTs.Total(board) == old(MainTs.Total(board))
      ensures turn == old(turn) && phase == MainTs.Fortify && reinforcements == old(reinforcements)
      ensures gameOver == old(gameOver)
      ensures forall i :: 0 <= i < |board| ==> board[i].owner == old(board)[i].owner
      ensures forall i :: 0 <= i < |board| && board[i].troops != old(board)[i].troops ==>
                board[i].id == tId || old(selected) == Some(board[i].id)
      ensures old(selected) == Some(tId) ==> selected == None && board == old(board) && !endTurnDue
      ensures var t := old(board)[MainTs.IndexOf(old(board), tId)];
              old(selected).None? ==>
                && selected == (if t.owner == turn && t.troops > 1 then Some(tId) else None)
                && board == old(board) && !endTurnDue
      ensures var t := old(board)[MainTs.IndexOf(old(board), tId)];
              old(selected).Some? && old(selected) != Some(tId)
              && !(t.owner == turn && MainTs.Adjacent(old(board), old(selected), tId)) ==>
                && selected == (if t.owner == turn && t.troops > 1 then Some(tId) else old(selected))
                && board == old(board) && !endTurnDue
      ensures old(selected).Some? && old(selected) != Some(tId) ==>
                var ks := MainTs.IndexOf(old(board), old(selected).value);
                var kt := MainTs.IndexOf(old(board), tId);
                old(board)[kt].owner == turn && MainTs.Adjacent(old(board), old(selected), tId) ==>
                  && selected == old(selected)
                  && (old(board)[ks].troops <= 1 ==> board == old(board) && !endTurnDue)
                  && (old(board)[ks].troops > 1 ==>
                        && board[ks].troops == old(board)[ks].troops - 1
                        && board[kt].troops == old(board)[kt].troops + 1
                        && endTurnDue == (board[ks].troops == 1))
    {
      endTurnDue := false;
      var kt := MainTs.IndexOf(board, tId);
      var t := board[kt];
      if selected == Some(tId) {
        selected := None;
      } else if selected.None? {
        if t.owner == turn && t.troops > 1 {
          selected := Some(tId);
        }
      } else {
        var ks := MainTs.IndexOf(board, selected.value);
        var src := board[ks];
        if t.owner == turn && tId in src.neighbors {
          if src.troops > 1 {
            var b := MainTs.Shift(board, ks, kt, 1);
            MainTs.IdsDistinct(board, ks);
            MainTs.IdsDistinct(board, kt);
            MainTs.SettleOk(board, b, seats, info);
            MainTs.IdsAgree(board, b);
            MainTs.SameMapKeeps(board, b, selected.value);
            board := b;
            endTurnDue := board[ks].troops == 1;
          }
        } else if t.owner == turn && t.troops > 1 {
          selected := Some(tId);
        }
      }
    }

    /** `handleTerritoryClick(tId)`: nothing happens once the game is over or while a
        CPU seat plays; otherwise the branch of the current phase. `endTurnDue` stands
        for the delayed `endTurn` a depleted fortification source asks for. */
    method HandleTerritoryClick(tId: int, rng: Rand.Stream, k0: nat) returns (k: nat, endTurnDue: bool)
      requires Valid() && HasId(board, tId) && Rand.Unit(rng)
      modifies this
      ensures Valid() && MainTs.SameMap(old(board), board) && turn == old(turn)
      ensures old(gameOver) || old(turn) != 0 ==>
                && board == old(board) && phase == old(phase) && reinforcements == old(reinforcements)
                && selected == old(selected) && gameOver == old(gameOver) && k == k0 && !endTurnDue
      ensures old(phase) == MainTs.Deploy ==>
                MainTs.Total(board) + reinforcements == old(MainTs.Total(board) + reinforcements)
      ensures old(phase) == MainTs.Fortify ==> MainTs.Total(board) == old(MainTs.Total(board))
      ensures old(phase) != MainTs.Attack ==> gameOver == old(gameOver) && k == k0
      ensures endTurnDue ==> old(phase) == MainTs.Fortify
      ensures !old(gameOver) && old(turn) == 0 && old(phase) == MainTs.Deploy ==>
                && !endTurnDue && k == k0
                && MainTs.SameMap(old(board), board)
                && turn == old(turn) && gameOver == old(gameOver)
                && (var t := old(board)[MainTs.IndexOf(old(board), tId)];
                   !(t.owner == turn && old(reinforcements) > 0) ==>
                     board == old(board) && reinforcements == old(reinforcements) && phase == MainTs.Deploy
                     && selected == old(selected))
                && (var kt := MainTs.IndexOf(old(board), tId);
                   old(board)[kt].owner == turn && old(reinforcements) > 0 ==>
                     && board[kt].troops == old(board)[kt].troops + 1
                     && reinforcements == old(reinforcements) - 1
                     && (reinforcements == 0 ==> phase == MainTs.Attack && selected == None)
                     && (reinforcements != 0 ==> phase == MainTs.Deploy && selected == old(selected)))
                && (forall i :: 0 <= i < |board| ==>
                     board[i].owner == old(board)[i].owner && (board[i].id != tId ==> board[i].troops == old(board)[i].troops))
                && MainTs.Total(board) + reinforcements == old(MainTs.Total(board) + reinforcements)
                && (old(reinforcements) >= 0 ==> reinforcements >= 0)
      ensures !old(gameOver) && old(turn) == 0 && old(phase) == MainTs.Attack ==>
                && !endTurnDue
                && MainTs.SameMap(old(board), board)
                && turn == old(turn) && phase == MainTs.Attack && reinforcements == old(reinforcements)
                && (old(selected) == Some(tId) ==>
                     selected == None && board == old(board) && gameOver == old(gameOver) && k == k0)
                && (var t := old(board)[MainTs.IndexOf(old(board), tId)];
                   old(selected) != Some(tId) && t.owner == turn ==>
                     && selected == (if t.troops > 1 then Some(tId) else old(selected))
                     && board == old(board) && gameOver == old(gameOver) && k == k0)
                && (var t := old(board)[MainTs.IndexOf(old(board), tId)];
                   old(selected) != Some(tId) && t.owner != turn && !MainTs.Adjacent(old(board), old(selected), tId) ==>
                     selected == old(selected) && board == old(board) && gameOver == old(gameOver) && k == k0)
                && (var t := old(board)[MainTs.IndexOf(old(board), tId)];
                   old(selected) != Some(tId) && t.owner != turn && MainTs.Adjacent(old(board), old(selected), tId) ==>
                     && board == Clash(old(board), old(selected).value, tId, rng(k0), rng(k0 + 1))
                     && selected == None && k == k0 + 2
                     && gameOver == (old(gameOver) || |Survivors(board, seats)| == 1))
      ensures !old(gameOver) && old(turn) == 0 && old(phase) == MainTs.Fortify ==>
                && k == k0
                && MainTs.SameMap(old(board), board) && MainTs.Total(board) == old(MainTs.Total(board))
                && turn == old(turn) && phase == MainTs.Fortify && reinforcements == old(reinforcements)
                && gameOver == old(gameOver)
                && (forall i :: 0 <= i < |board| ==> board[i].owner == old(board)[i].owner)
                && (forall i :: 0 <= i < |board| && board[i].troops != old(board)[i].troops ==>
                     board[i].id == tId || old(selected) == Some(board[i].id))
                && (old(selected) == Some(tId) ==> selected == None && board == old(board) && !endTurnDue)
                && (var t := old(board)[MainTs.IndexOf(old(board), tId)];
                   old(selected).None? ==>
                     && selected == (if t.owner == turn && t.troops > 1 then Some(tId) else None)
                     && board == old(board) && !endTurnDue)
                && (var t := old(board)[MainTs.IndexOf(old(board), tId)];
                   old(selected).Some? && old(selected) != Some(tId)
                   && !(t.owner == turn && MainTs.Adjacent(old(board), old(selected), tId)) ==>
                     && selected == (if t.owner == turn && t.troops > 1 then Some(tId) else old(selected))
                     && board == old(board) && !endTurnDue)
                && (old(selected).Some? && old(selected) != Some(tId) ==>
                     var ks := MainTs.IndexOf(old(board), old(selected).value);
                     var kt := MainTs.IndexOf(old(board), tId);
                     old(board)[kt].owner == turn && MainTs.Adjacent(old(board), old(selected), tId) ==>
                       && selected == old(selected)
                       && (old(board)[ks].troops <= 1 ==> board == old(board) && !endTurnDue)
                       && (old(board)[ks].troops > 1 ==>
                             && board[ks].troops == old(board)[ks].troops - 1
                             && board[kt].troops == old(board)[kt].troops + 1
                             && endTurnDue == (board[ks].troops == 1)))
    {
      k, endTurnDue := k0, false;
      if gameOver || turn != 0 {
        return;
      }
      if phase == MainTs.Deploy {
        DeployClick(tId);
      } else if phase == MainTs.Attack {
        k := AttackClick(tId, rng, k0);
      } else {
        endTurnDue := FortifyClick(tId);
      }
    }

    /** `btnAction`, the phase button: deploy to attack once every reinforcement is
        placed, attack to fortify, and fortify to the end of the turn. */
    method BtnAction() returns (cpuDue: bool)
      requires Valid()
      modifies this
      ensures Valid() && board == old(board) && gameOver == old(gameOver)
      ensures old(phase) == MainTs.Deploy ==>
                && turn == old(turn) && reinforcements == old(reinforcements) && !cpuDue
                && (old(reinforcements) == 0 ==> phase == MainTs.Attack && selected == None)
                && (old(reinforcements) != 0 ==> phase == MainTs.Deploy && selected == old(selected))
      ensures old(phase) == MainTs.Attack ==>
                && phase == MainTs.Fortify && selected == None && turn == old(turn)
                && reinforcements == old(reinforcements) && !cpuDue
      ensures old(phase) == MainTs.Fortify && old(gameOver) ==> phase == MainTs.Fortify && turn == old(turn) && !cpuDue
      ensures old(phase) == MainTs.Fortify && !old(gameOver) ==>
                && turn == MainTs.Advance(board, seats, old(turn), 0) && phase == MainTs.Deploy && selected == None
                && reinforcements == JsReinforcements(turn, board, continents) && cpuDue == (turn != 0)
    {
      cpuDue := false;
      if phase == MainTs.Deploy && reinforcements == 0 {
        phase := MainTs.Attack;
        selected := None;
      } else if phase == MainTs.Attack {
        phase := MainTs.Fortify;
        selected := None;
      } else if phase == MainTs.Fortify {
        cpuDue := EndTurn();
      }
    }

    /** `resolveBattle` from territory `a` on territory `d`, with two random draws from
        `k0`: the battle of `Clash`, then the selection cleared and the win condition
        checked. */
    method ResolveBattle(a: int, d: int, rng: Rand.Stream, k0: nat) returns (k: nat)
      requires Valid() && HasId(board, a) && HasId(board, d) && a != d && Rand.Unit(rng)
      modifies this
      ensures Valid() && MainTs.SameMap(old(board), board)
      ensures board == Clash(old(board), a, d, rng(k0), rng(k0 + 1))
      ensures k == k0 + 2 && selected == None
      ensures turn == old(turn) && phase == old(phase) && reinforcements == old(reinforcements)
      ensures gameOver == (old(gameOver) || |Survivors(board, seats)| == 1)
    {
      var b := Clash(board, a, d, rng(k0), rng(k0 + 1));
      ClashOk(board, seats, info, a, d, rng(k0), rng(k0 + 1));
      board := b;
      selected := None;
      CheckWinCondition();
      k := k0 + 2;
    }

    /** `endTurn`: unless the game is over or reinforcements are still to be deployed,
        the turn passes to the next seat that owns territory (after at most one round),
        which gets the reinforcements `calculateReinforcements` grants. `cpuDue` stands
        for the delayed `cpuTurn` a CPU seat asks for. */
    method EndTurn() returns (cpuDue: bool)
      requires Valid()
      modifies this
      ensures Valid() && board == old(board) && gameOver == old(gameOver)
      ensures old(gameOver) || (old(phase) == MainTs.Deploy && old(reinforcements) > 0) ==>
                && turn == old(turn) && phase == old(phase) && reinforcements == old(reinforcements)
                && selected == old(selected) && !cpuDue
      ensures !(old(gameOver) || (old(phase) == MainTs.Deploy && old(reinforcements) > 0)) ==>
                && turn == MainTs.Advance(board, seats, old(turn), 0) && phase == MainTs.Deploy && selected == None
                && reinforcements == JsReinforcements(turn, board, continents) && cpuDue == (turn != 0)
    {
      cpuDue := false;
      if gameOver || (phase == MainTs.Deploy && reinforcements > 0) {
        return;
      }
      turn := MainTs.NextSeat(board, seats, turn);
      phase := MainTs.Deploy;
      selected := None;
      reinforcements := CalculateJsReinforcements(turn, board, continents);
      cpuDue := turn != 0;
    }

    /** `cpuTurn` while the game goes on: a seat that owns nothing ends its turn at once;
        otherwise its reinforcements go one by one onto random territories of its own,
        then up to three random attacks follow, stopping once the game is over, and the
        turn ends unless it is. The phase is never changed. */
    method CpuTurn(rng: Rand.Stream, k0: nat) returns (k: nat, cpuDue: bool)
      requires Valid() && Rand.Unit(rng)
      modifies this
      ensures Valid() && MainTs.SameMap(old(board), board)
      ensures old(gameOver) ==>
                && board == old(board) && turn == old(turn) && phase == old(phase)
                && reinforcements == old(reinforcements) && selected == old(selected) && gameOver
                && k == k0 && !cpuDue
      ensures !old(gameOver) && Ai.Owned(old(board), old(turn)) == [] ==>
                && board == old(board) && !gameOver && k == k0
                && (old(phase) == MainTs.Deploy && old(reinforcements) > 0 ==>
                      turn == old(turn) && phase == old(phase) && reinforcements == old(reinforcements)
                      && selected == old(selected) && !cpuDue)
                && (!(old(phase) == MainTs.Deploy && old(reinforcements) > 0) ==>
                      && turn == MainTs.Advance(board, seats, old(turn), 0) && phase == MainTs.Deploy
                      && selected == None && reinforcements == JsReinforcements(turn, board, continents)
                      && cpuDue == (turn != 0))
      ensures !old(gameOver) && Ai.Owned(old(board), old(turn)) != [] ==>
                && (var t := CpuPlay(old(board), seats, old(turn), old(reinforcements), rng, k0);
                    board == t.0 && gameOver == t.1 && k == t.2)
                && (gameOver ==>
                      && turn == old(turn) && phase == old(phase) && reinforcements == Min(old(reinforcements), 0)
                      && !cpuDue)
                && (!gameOver ==>
                      && turn == MainTs.Advance(board, seats, old(turn), 0) && phase == MainTs.Deploy
                      && selected == None && reinforcements == JsReinforcements(turn, board, continents)
                      && cpuDue == (turn != 0))
    {
      k, cpuDue := k0, false;
      if gameOver {
        return;
      }
      if Ai.Owned(board, turn) == [] {
        cpuDue := EndTurn();
        return;
      }
      k := CpuPlays(rng, k0);
      if !gameOver {
        cpuDue := EndTurn();
      }
    }

    /** The deployment and the attack interval of `cpuTurn` for a seat that owns
        territory while the game goes on: the board, the game-over flag and the next
        unused draw are those of `CpuPlay`, every reinforcement is spent, and a battle
        clears the selection. */
    method CpuPlays(rng: Rand.Stream, k0: nat) returns (k: nat)
      requires Valid() && Rand.Unit(rng) && !gameOver && Ai.Owned(board, turn) != []
      modifies this
      ensures Valid() && MainTs.SameMap(old(board), board)
      ensures var t := CpuPlay(old(board), seats, old(turn), old(reinforcements), rng, k0);
              board == t.0 && gameOver == t.1 && k == t.2
      ensures turn == old(turn) && phase == old(phase) && reinforcements == Min(old(reinforcements), 0)
    {
      var b, left, over, fought;
      b, left, over, fought, k := CpuRound(board, seats, info, turn, reinforcements, rng, k0);
      if selected.Some? {
        MainTs.SameMapKeeps(board, b, selected.value);
      }
      board, reinforcements := b, left;
      if fought {
        selected := None;
      }
      gameOver := over;
    }

    /** `checkWinCondition`: the game ends once exactly one seat owns territory. */
    method CheckWinCondition()
      modifies this
      ensures gameOver == (old(gameOver) || |Survivors(board, seats)| == 1)
      ensures board == old(board) && turn == old(turn) && phase == old(phase)
      ensures reinforcements == old(reinforcements) && selected == old(selected)
    {
      if gameOver {
        return;
      }
      if |Survivors(board, seats)| == 1 {
        gameOver := true;
      }
    }
  }
}
