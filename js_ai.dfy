// The computer player of the dice-and-cards generation (js/ai.js): it puts
// its whole pool on one territory, attacks while it has an attack worth
// making, and makes one fortifying move before ending its turn.
//
// The adjacency table is a parameter `g` (the game passes `Constants.Adj`).
// Every lookup of a neighbour's record in the source assumes the record
// exists, so the methods ask for a store holding a record for every
// territory. The timers between the phases are left out: the phases run one
// after the other.
module JsAi {
  import opened Util
  import opened Constants
  import opened Sorting
  import Rand
  import opened JsState
  import opened JsGame

  /** Every territory of the map has a record. */
  ghost predicate Complete(m: map<Tid, Holding>) {
    forall t: Tid :: t in m
  }

  /** Every record holds at least one army. */
  ghost predicate Garrisoned(m: map<Tid, Holding>) {
    forall t :: t in m ==> m[t].armies >= 1
  }

  /** The records listed by `keys`, one for every territory, each with an army. */
  ghost predicate Sound(keys: seq<Tid>, m: map<Tid, Holding>) {
    (forall u :: u in m <==> u in keys) && Complete(m) && Garrisoned(m)
  }

  /** Some neighbour of `t` belongs to another player: `adj.some(a => territories[a].ownerId !== p)`. */
  predicate Exposed(g: Graph, m: map<Tid, Holding>, t: Tid, p: int)
    requires Complete(m)
  {
    exists a :: a in g(t) && m[a].ownerId != p
  }

  // ------------------------------------------------------------- executeAIReinforce

  /** The border territories among `mine`, in order. */
  function Borders(g: Graph, m: map<Tid, Holding>, p: int, mine: seq<Tid>): (r: seq<Tid>)
    requires Complete(m)
    ensures forall t :: t in r <==> t in mine && Exposed(g, m, t, p)
  {
    if mine == [] then []
    else
      var last := mine[|mine| - 1];
      Borders(g, m, p, mine[..|mine| - 1]) + (if Exposed(g, m, last, p) then [last] else [])
  }

  /** The pick of `executeAIReinforce`: a border territory chosen by the
      stream when there is one, the first owned one otherwise. */
  function ReinforcePick(g: Graph, m: map<Tid, Holding>, p: int, mine: seq<Tid>, r: real): (t: Tid)
    requires Complete(m) && mine != [] && 0.0 <= r < 1.0
    ensures t in mine
    ensures Borders(g, m, p, mine) != [] ==> Exposed(g, m, t, p)
  {
    var borders := Borders(g, m, p, mine);
    if borders != [] then borders[Rand.Index(r, |borders|)] else mine[0]
  }

  /** `executeAIReinforce`: nothing for a player without territory; otherwise
      the whole pool goes onto the picked territory and the pool is emptied. */
  method ExecuteAIReinforce(gs: GameState, g: Graph, rng: Rand.Stream, k: nat) returns (placed: Option<Tid>, k': nat)
    requires Rand.Unit(rng) && gs.CurrentPlayer().Some? && Complete(gs.territories)
    modifies gs
    ensures var mine := OwnedIn(old(gs.order), old(gs.territories), old(gs.CurrentPlayer().value.id));
      placed == if mine == [] then None else Some(ReinforcePick(g, old(gs.territories), old(gs.CurrentPlayer().value.id), mine, rng(k)))
    ensures (gs.View(), k') == Placed(old(gs.View()), g, rng, k)
    ensures Complete(gs.territories)
    ensures old(Garrisoned(gs.territories) && gs.CurrentPlayer().value.armiesToDeploy >= 0) ==> Garrisoned(gs.territories)
    ensures old(gs.KeysListed()) ==>
      gs.KeysListed() &&
      TotalArmies(gs.order, gs.territories) + gs.players[gs.currentPlayerIndex].armiesToDeploy ==
      old(TotalArmies(gs.order, gs.territories) + gs.players[gs.currentPlayerIndex].armiesToDeploy)
  {
    ghost var s0 := gs.View();
    var player := gs.CurrentPlayer().value;
    var myTerritories := OwnedIn(gs.order, gs.territories, player.id);
    if |myTerritories| == 0 {
      assert (gs.View(), k) == Placed(s0, g, rng, k);
      return None, k;
    }
    var borderTerritories := Borders(g, gs.territories, player.id, myTerritories);
    var t;
    if |borderTerritories| > 0 {
      t := borderTerritories[Rand.Index(rng(k), |borderTerritories|)];
      k' := k + 1;
    } else {
      t := myTerritories[0];
      k' := k;
    }
    assert t == ReinforcePick(g, s0.territories, player.id, myTerritories, rng(k));
    PlacePool(gs, t);
    assert (gs.View(), k') == Placed(s0, g, rng, k);
    placed := Some(t);
  }

  /** The store and the next draw after the AI's placement from store `s` at
      draw `k`: the current player's whole pool goes onto the territory
      `ReinforcePick` names, drawing only when it has a border territory, and
      nothing is placed when it holds none. */
  ghost function Placed(s: Snapshot, g: Graph, rng: Rand.Stream, k: nat): (r: (Snapshot, nat))
    requires Rand.Unit(rng) && 0 <= s.currentPlayerIndex < |s.players| && Complete(s.territories)
    ensures r.0 == s.(territories := r.0.territories, players := r.0.players) && r.1 >= k
    ensures |r.0.players| == |s.players| && forall j :: 0 <= j < |s.players| ==> r.0.players[j].id == s.players[j].id
    ensures forall t :: t in s.territories <==> t in r.0.territories
    ensures forall t :: t in s.territories ==> r.0.territories[t].ownerId == s.territories[t].ownerId
  {
    var i := s.currentPlayerIndex;
    var me := s.players[i];
    var m := s.territories;
    var mine := OwnedIn(s.order, m, me.id);
    if mine == [] then (s, k)
    else
      (Pooled(s, ReinforcePick(g, m, me.id, mine, rng(k))), if Borders(g, m, me.id, mine) != [] then k + 1 else k)
  }

  /** Store `s` after the current player's whole pool went onto `t`. */
  function Pooled(s: Snapshot, t: Tid): Snapshot
    requires 0 <= s.currentPlayerIndex < |s.players| && t in s.territories
  {
    var i := s.currentPlayerIndex;
    var me := s.players[i];
    var m := s.territories;
    s.(territories := m[t := m[t].(armies := m[t].armies + me.armiesToDeploy)],
       players := s.players[i := me.(armiesToDeploy := 0)])
  }

  /** Moving the pool onto `t` keeps the armies on the map plus the pool. */
  method PlacePool(gs: GameState, t: Tid)
    requires gs.CurrentPlayer().Some? && t in gs.territories
    modifies gs
    ensures gs.View() == Pooled(old(gs.View()), t)
    ensures old(Complete(gs.territories)) ==> Complete(gs.territories)
    ensures old(Garrisoned(gs.territories) && gs.CurrentPlayer().value.armiesToDeploy >= 0) ==> Garrisoned(gs.territories)
    ensures old(gs.KeysListed()) ==>
      gs.KeysListed() &&
      TotalArmies(gs.order, gs.territories) + gs.players[gs.currentPlayerIndex].armiesToDeploy ==
      old(TotalArmies(gs.order, gs.territories) + gs.players[gs.currentPlayerIndex].armiesToDeploy)
  {
    PooledKeeps(gs.View(), t);
    var i := gs.currentPlayerIndex;
    var player := gs.players[i];
    var h := gs.territories[t];
    ghost var s0 := gs.View();
    gs.territories, gs.players := gs.territories[t := h.(armies := h.armies + player.armiesToDeploy)], gs.players[i := player.(armiesToDeploy := 0)];
    assert gs.View() == Pooled(s0, t);
  }

  /** Moving the pool keeps every record, keeps every record garrisoned when
      the pool is not negative, and keeps the armies on the map plus the pool. */
  lemma PooledKeeps(s: Snapshot, t: Tid)
    requires 0 <= s.currentPlayerIndex < |s.players| && t in s.territories
    ensures var s' := Pooled(s, t);
      && (Complete(s.territories) ==> Complete(s'.territories))
      && (Garrisoned(s.territories) && s.players[s.currentPlayerIndex].armiesToDeploy >= 0 ==> Garrisoned(s'.territories))
      && (NoDup(s.order) && (forall u :: u in s.territories <==> u in s.order) ==>
            (forall u :: u in s'.territories <==> u in s'.order) &&
            TotalArmies(s'.order, s'.territories) + s'.players[s.currentPlayerIndex].armiesToDeploy ==
            TotalArmies(s.order, s.territories) + s.players[s.currentPlayerIndex].armiesToDeploy)
  {
    var me := s.players[s.currentPlayerIndex];
    var h := s.territories[t];
    if NoDup(s.order) && (forall u :: u in s.territories <==> u in s.order) {
      UpdateTotals(s.order, s.territories, t, h.(armies := h.armies + me.armiesToDeploy), me.id);
    }
  }

  // -------------------------------------------------------------- executeAIAttacks

  /** The pairs `(s, a)` for the neighbours `a` in `adj` held by another player. */
  function TargetsFrom(m: map<Tid, Holding>, p: int, s: Tid, adj: seq<Tid>): (r: seq<(Tid, Tid)>)
    requires Complete(m)
    ensures forall x :: x in r <==> x.0 == s && x.1 in adj && m[x.1].ownerId != p
  {
    if adj == [] then []
    else
      var last := adj[|adj| - 1];
      TargetsFrom(m, p, s, adj[..|adj| - 1]) + (if m[last].ownerId != p then [(s, last)] else [])
  }

  /** `possibleAttacks`: for each key in order that `p` holds with an army to
      spare, its neighbours held by others, in adjacency order. */
  function AttackPairs(g: Graph, m: map<Tid, Holding>, p: int, keys: seq<Tid>): (r: seq<(Tid, Tid)>)
    requires Complete(m)
  {
    if keys == [] then []
    else
      var last := keys[|keys| - 1];
      AttackPairs(g, m, p, keys[..|keys| - 1]) + (if CanSpare(m, last, p) then TargetsFrom(m, p, last, g(last)) else [])
  }

  /** An attack the AI may make: from a territory it holds with an army to
      spare into a neighbour held by someone else. */
  predicate LegalAttack(g: Graph, m: map<Tid, Holding>, p: int, x: (Tid, Tid))
    requires Complete(m)
  {
    CanSpare(m, x.0, p) && x.1 in g(x.0) && m[x.1].ownerId != p
  }

  /** The candidates are exactly the legal attacks from the listed keys. */
  lemma {:induction false} AttackPairsExact(g: Graph, m: map<Tid, Holding>, p: int, keys: seq<Tid>)
    requires Complete(m)
    ensures forall x: (Tid, Tid) :: x in AttackPairs(g, m, p, keys) <==> x.0 in keys && LegalAttack(g, m, p, x)
    decreases |keys|
  {
    if keys != [] {
      AttackPairsExact(g, m, p, keys[..|keys| - 1]);
      assert keys == keys[..|keys| - 1] + [keys[|keys| - 1]];
    }
  }

  /** `goodAttacks`: the candidates whose source outnumbers the target. */
  function Outnumbering(m: map<Tid, Holding>, xs: seq<(Tid, Tid)>): (r: seq<(Tid, Tid)>)
    requires Complete(m)
    ensures forall x :: x in r <==> x in xs && m[x.0].armies > m[x.1].armies
  {
    if xs == [] then []
    else
      var last := xs[|xs| - 1];
      Outnumbering(m, xs[..|xs| - 1]) + (if m[last.0].armies > m[last.1].armies then [last] else [])
  }

  /** The position of the first pair whose source holds the most armies: the
      head after the stable sort by source armies, largest first. */
  function Strongest(m: map<Tid, Holding>, xs: seq<(Tid, Tid)>): (i: nat)
    requires Complete(m) && xs != []
    ensures i < |xs|
    decreases |xs|
  {
    if |xs| == 1 then 0
    else
      var i := Strongest(m, xs[..|xs| - 1]);
      if m[xs[|xs| - 1].0].armies > m[xs[i].0].armies then |xs| - 1 else i
  }

  /** The strongest position holds a pair with the most source armies, and
      no earlier pair has as many. */
  lemma {:induction false} StrongestIsFirstMax(m: map<Tid, Holding>, xs: seq<(Tid, Tid)>)
    requires Complete(m) && xs != []
    ensures var i := Strongest(m, xs);
      && (forall j :: 0 <= j < |xs| ==> m[xs[j].0].armies <= m[xs[i].0].armies)
      && (forall j :: 0 <= j < i ==> m[xs[j].0].armies < m[xs[i].0].armies)
    decreases |xs|
  {
    if |xs| > 1 {
      StrongestIsFirstMax(m, xs[..|xs| - 1]);
    }
  }

  /** The attack the AI picks, if it has a good one. */
  function ChosenAttack(g: Graph, m: map<Tid, Holding>, p: int, keys: seq<Tid>): Option<(Tid, Tid)>
    requires Complete(m)
  {
    var good := Outnumbering(m, AttackPairs(g, m, p, keys));
    if good == [] then None else Some(good[Strongest(m, good)])
  }

  /** The chosen attack is legal, outnumbers its target, and no good attack
      starts from a stronger territory; there is none exactly when no legal
      attack from the keys outnumbers its target. */
  lemma ChosenAttackIsBest(g: Graph, m: map<Tid, Holding>, p: int, keys: seq<Tid>)
    requires Complete(m)
    ensures var c := ChosenAttack(g, m, p, keys);
      c.None? <==> Unprovoked(g, m, p, keys)
    ensures var c := ChosenAttack(g, m, p, keys);
      c.Some? ==>
        c.value.0 in keys && LegalAttack(g, m, p, c.value) && m[c.value.0].armies > m[c.value.1].armies &&
        forall x: (Tid, Tid) :: x.0 in keys && LegalAttack(g, m, p, x) && m[x.0].armies > m[x.1].armies ==>
          m[x.0].armies <= m[c.value.0].armies
  {
    AttackPairsExact(g, m, p, keys);
    var good := Outnumbering(m, AttackPairs(g, m, p, keys));
    if good != [] {
      var i := Strongest(m, good);
      StrongestIsFirstMax(m, good);
      forall x: (Tid, Tid) | x.0 in keys && LegalAttack(g, m, p, x) && m[x.0].armies > m[x.1].armies
        ensures m[x.0].armies <= m[good[i].0].armies
      {
        assert x in good;
        var j :| 0 <= j < |good| && good[j] == x;
      }
    } else {
      forall x: (Tid, Tid) | x.0 in keys && LegalAttack(g, m, p, x)
        ensures m[x.0].armies <= m[x.1].armies
      {
        assert x in AttackPairs(g, m, p, keys);
      }
    }
  }

  /** No legal attack from the listed keys outnumbers its target. */
  ghost predicate Unprovoked(g: Graph, m: map<Tid, Holding>, p: int, keys: seq<Tid>)
    requires Complete(m)
  {
    forall x: (Tid, Tid) :: x.0 in keys && LegalAttack(g, m, p, x) ==> m[x.0].armies <= m[x.1].armies
  }

  /** The loops that build `possibleAttacks`. */
  method CollectAttacks(g: Graph, m: map<Tid, Holding>, p: int, keys: seq<Tid>) returns (attacks: seq<(Tid, Tid)>)
    requires Complete(m)
    ensures attacks == AttackPairs(g, m, p, keys)
  {
    attacks := [];
    var i := 0;
    while i < |keys|
      invariant 0 <= i <= |keys|
      invariant attacks == AttackPairs(g, m, p, keys[..i])
    {
      var t := keys[i];
      var found: seq<(Tid, Tid)> := [];
      if m[t].ownerId == p && m[t].armies > 1 {
        found := CollectTargets(m, p, t, g(t));
      }
      AttackPairsStep(g, m, p, keys, i);
      attacks := attacks + found;
      i := i + 1;
    }
    assert keys[..i] == keys;
  }

  lemma AttackPairsStep(g: Graph, m: map<Tid, Holding>, p: int, keys: seq<Tid>, i: nat)
    requires Complete(m) && i < |keys|
    ensures AttackPairs(g, m, p, keys[..i + 1]) ==
      AttackPairs(g, m, p, keys[..i]) + (if CanSpare(m, keys[i], p) then TargetsFrom(m, p, keys[i], g(keys[i])) else [])
  {
    assert keys[..i + 1][..i] == keys[..i];
  }

  /** The `forEach` over one territory's neighbours. */
  method CollectTargets(m: map<Tid, Holding>, p: int, t: Tid, adj: seq<Tid>) returns (found: seq<(Tid, Tid)>)
    requires Complete(m)
    ensures found == TargetsFrom(m, p, t, adj)
  {
    found := [];
    var j := 0;
    while j < |adj|
      invariant 0 <= j <= |adj|
      invariant found == TargetsFrom(m, p, t, adj[..j])
    {
      assert adj[..j + 1][..j] == adj[..j];
      if m[adj[j]].ownerId != p {
        found := found + [(t, adj[j])];
      }
      j := j + 1;
    }
    assert adj[..j] == adj;
  }

  /** The armies that move in after an AI conquest: `max(1, dice − losses)`. */
  function AiMove(dice: int, attackerLosses: int): int {
    Max(1, dice - attackerLosses)
  }

  /** One AI battle on the two records, with the sorted rolls `a` and `d`. */
  function AiFight(src: Holding, tgt: Holding, p: int, a: seq<int>, d: seq<int>): Exchange {
    var n := Min(|a|, |d|);
    var dl := AttackerWins(a, d, n);
    var s1 := src.(armies := src.armies - (n - dl));
    if tgt.armies - dl <= 0 then
      var move := AiMove(|a|, n - dl);
      Exchange(s1.(armies := s1.armies - move), Holding(p, move), n - dl, dl, true)
    else
      Exchange(s1, tgt.(armies := tgt.armies - dl), n - dl, dl, false)
  }

  /** With `min(3, armies − 1)` attacker dice and `min(2, armies)` defender
      dice, at least one army is lost per battle, the losses sum to the
      smaller dice count, both records keep an army, a conquest hands the
      target to the attacker, and the armies on the two records fall by
      exactly the losses. */
  lemma AiFightFacts(src: Holding, tgt: Holding, p: int, a: seq<int>, d: seq<int>)
    requires src.armies > 1 && tgt.armies >= 1
    requires |a| == Min(3, src.armies - 1) && |d| == Min(2, tgt.armies)
    ensures var x := AiFight(src, tgt, p, a, d);
      x.attackerLosses >= 0 && x.defenderLosses >= 0 &&
      x.attackerLosses + x.defenderLosses == Min(|a|, |d|) >= 1
    ensures var x := AiFight(src, tgt, p, a, d);
      x.source.armies >= 1 && x.target.armies >= 1 && x.source.ownerId == src.ownerId
    ensures var x := AiFight(src, tgt, p, a, d);
      x.source.armies + x.target.armies == src.armies + tgt.armies - x.attackerLosses - x.defenderLosses
    ensures var x := AiFight(src, tgt, p, a, d);
      (x.conquered <==> tgt.armies <= x.defenderLosses) &&
      (x.conquered ==> x.target.ownerId == p) && (!x.conquered ==> x.target.ownerId == tgt.ownerId)
  {
    TiesToDefender(a, d, Min(|a|, |d|));
  }

  /** The records not held by `p`. */
  function Enemies(m: map<Tid, Holding>, p: int): set<Tid> {
    set t | t in m && m[t].ownerId != p
  }

  lemma {:induction false} TotalNonNegative(keys: seq<Tid>, m: map<Tid, Holding>)
    requires forall t :: t in keys ==> t in m && m[t].armies >= 1
    ensures TotalArmies(keys, m) >= |keys|
    decreases |keys|
  {
    if keys != [] {
      TotalNonNegative(keys[..|keys| - 1], m);
    }
  }

  /** The sorted rolls of the AI's battle from `s` into `t`: the attacker's
      `min(3, armies − 1)` dice from position `k` of the stream, then the
      defender's `min(2, armies)`. */
  function AiRolls(m: map<Tid, Holding>, s: Tid, t: Tid, rng: Rand.Stream, k: nat): (r: (seq<int>, seq<int>))
    requires Rand.Unit(rng) && s in m && t in m
    ensures |r.0| == Max(Min(3, m[s].armies - 1), 0) && |r.1| == Max(Min(2, m[t].armies), 0)
  {
    var attackerDice := Min(3, m[s].armies - 1);
    (SortDesc(RollDice(attackerDice, rng, k)), SortDesc(RollDice(Min(2, m[t].armies), rng, k + Max(attackerDice, 0))))
  }

  /** The records after the AI's battle from `s` into `t`. */
  function AiBattle(m: map<Tid, Holding>, p: int, s: Tid, t: Tid, rng: Rand.Stream, k: nat): map<Tid, Holding>
    requires Rand.Unit(rng) && s in m && t in m
  {
    var rolls := AiRolls(m, s, t, rng, k);
    var x := AiFight(m[s], m[t], p, rolls.0, rolls.1);
    m[s := x.source][t := x.target]
  }

  /** The battle of one AI attack, on the records. Every record keeps an army,
      the attacker loses nothing it held, and either the target changes hands
      or the armies on the map fall. */
  method Battle(keys: seq<Tid>, m: map<Tid, Holding>, p: int, s: Tid, t: Tid, rng: Rand.Stream, k: nat)
    returns (m': map<Tid, Holding>, k': nat)
    requires Rand.Unit(rng) && NoDup(keys) && (forall u :: u in m <==> u in keys)
    requires Complete(m) && Garrisoned(m) && CanSpare(m, s, p) && m[t].ownerId != p
    ensures m' == AiBattle(m, p, s, t, rng, k)
    ensures k' == k + Min(3, m[s].armies - 1) + Min(2, m[t].armies)
    ensures (forall u :: u in m' <==> u in keys) && Complete(m') && Garrisoned(m')
    ensures forall u :: Owns(m, u, p) ==> Owns(m', u, p)
    ensures Enemies(m', p) < Enemies(m, p) ||
      (Enemies(m', p) == Enemies(m, p) && TotalArmies(keys, m') < TotalArmies(keys, m))
  {
    var rolls := AiRolls(m, s, t, rng, k);
    k' := k + |rolls.0| + |rolls.1|;
    var s1, t1 := Resolve(m[s], m[t], p, rolls.0, rolls.1);
    m' := m[s := s1][t := t1];
    BattleFacts(keys, m, p, s, t, rng, k);
  }

  /** What a battle does to the records, as `Battle` promises it. */
  lemma BattleFacts(keys: seq<Tid>, m: map<Tid, Holding>, p: int, s: Tid, t: Tid, rng: Rand.Stream, k: nat)
    requires Rand.Unit(rng) && NoDup(keys) && (forall u :: u in m <==> u in keys)
    requires Complete(m) && Garrisoned(m) && CanSpare(m, s, p) && m[t].ownerId != p
    ensures var m' := AiBattle(m, p, s, t, rng, k);
      (forall u :: u in m' <==> u in keys) && Complete(m') && Garrisoned(m') &&
      (forall u :: Owns(m, u, p) ==> Owns(m', u, p))
    ensures var m' := AiBattle(m, p, s, t, rng, k);
      Enemies(m', p) < Enemies(m, p) ||
      (Enemies(m', p) == Enemies(m, p) && TotalArmies(keys, m') < TotalArmies(keys, m))
  {
    var rolls := AiRolls(m, s, t, rng, k);
    AiFightFacts(m[s], m[t], p, rolls.0, rolls.1);
    var x := AiFight(m[s], m[t], p, rolls.0, rolls.1);
    ApplyBattle(keys, m, p, s, t, x.source, x.target);
  }

  /** The losses and the conquest move of one AI battle, on the two records. */
  method Resolve(src: Holding, tgt: Holding, p: int, a: seq<int>, d: seq<int>) returns (s1: Holding, t1: Holding)
    ensures s1 == AiFight(src, tgt, p, a, d).source && t1 == AiFight(src, tgt, p, a, d).target
  {
    var attackerLosses, defenderLosses := CompareRolls(a, d);
    s1 := src.(armies := src.armies - attackerLosses);
    t1 := tgt.(armies := tgt.armies - defenderLosses);
    if t1.armies <= 0 {
      var armiesToMove := Max(1, |a| - attackerLosses);
      t1 := Holding(p, armiesToMove);
      s1 := s1.(armies := s1.armies - armiesToMove);
    }
  }

  /** One pass of `executeAIAttacks` on the records: the chosen attack,
      unless there is none or the draw passes 0.8, in which case the phase
      ends. A battle keeps every record garrisoned and the attacker's
      holdings its own, and conquers a territory or costs armies. */
  method AttackStep(g: Graph, keys: seq<Tid>, m: map<Tid, Holding>, p: int, rng: Rand.Stream, k: nat)
    returns (attack: Option<(Tid, Tid)>, done: bool, m': map<Tid, Holding>, k': nat)
    requires Rand.Unit(rng) && NoDup(keys) && Sound(keys, m)
    ensures attack == ChosenAttack(g, m, p, keys)
    ensures done <==> attack.None? || rng(k) > 0.8
    ensures done ==> m' == m && k' == (if attack.None? then k else k + 1)
    ensures !done ==>
      m' == AiBattle(m, p, attack.value.0, attack.value.1, rng, k + 1) &&
      k' == k + 1 + Min(3, m[attack.value.0].armies - 1) + Min(2, m[attack.value.1].armies) > k + 1
    ensures Sound(keys, m')
    ensures forall u :: Owns(m, u, p) ==> Owns(m', u, p)
    ensures !done ==>
      Enemies(m', p) < Enemies(m, p) ||
      (Enemies(m', p) == Enemies(m, p) && TotalArmies(keys, m') < TotalArmies(keys, m))
    ensures done ==> (m', k') == Rounds(g, keys, m, p, rng, k)
    ensures !done ==> Rounds(g, keys, m', p, rng, k') == Rounds(g, keys, m, p, rng, k)
  {
    attack := ChooseAttack(g, m, p, keys);
    if attack.None? {
      RoundsStops(g, keys, m, p, rng, k);
      return attack, true, m, k;
    }
    if rng(k) > 0.8 {
      RoundsStops(g, keys, m, p, rng, k);
      return attack, true, m, k + 1;
    }
    m', k' := Battle(keys, m, p, attack.value.0, attack.value.1, rng, k + 1);
    RoundsStep(g, keys, m, p, rng, k, attack.value.0, attack.value.1, m', k');
    done := false;
  }

  /** The candidate list, its good part and the pick of one pass of
      `executeAIAttacks`; a pick is a legal attack from a listed key. */
  method ChooseAttack(g: Graph, m: map<Tid, Holding>, p: int, keys: seq<Tid>) returns (attack: Option<(Tid, Tid)>)
    requires Complete(m)
    ensures attack == ChosenAttack(g, m, p, keys)
    ensures attack.Some? ==> attack.value.0 in keys && LegalAttack(g, m, p, attack.value)
  {
    var possibleAttacks := CollectAttacks(g, m, p, keys);
    var goodAttacks := Outnumbering(m, possibleAttacks);
    if |goodAttacks| == 0 {
      return None;
    }
    AttackPairsExact(g, m, p, keys);
    attack := Some(goodAttacks[Strongest(m, goodAttacks)]);
    assert attack.value in possibleAttacks;
  }

  /** Writing a battle's records back: keys, garrisons and the attacker's
      holdings are kept; a conquest removes the target from the enemies, and
      otherwise the army total falls by the losses. */
  lemma ApplyBattle(keys: seq<Tid>, m: map<Tid, Holding>, p: int, s: Tid, t: Tid, s1: Holding, t1: Holding)
    requires NoDup(keys) && forall u :: u in m <==> u in keys
    requires Complete(m) && Garrisoned(m) && s != t
    requires m[s].ownerId == p && m[t].ownerId != p && s1.ownerId == p
    requires s1.armies >= 1 && t1.armies >= 1
    requires t1.ownerId == p || (t1.ownerId == m[t].ownerId && s1.armies + t1.armies < m[s].armies + m[t].armies)
    ensures var m' := m[s := s1][t := t1];
      (forall u :: u in m' <==> u in keys) && Complete(m') && Garrisoned(m') && (forall u :: Owns(m, u, p) ==> Owns(m', u, p))
    ensures var m' := m[s := s1][t := t1];
      t1.ownerId == p ==> Enemies(m', p) < Enemies(m, p)
    ensures var m' := m[s := s1][t := t1];
      t1.ownerId != p ==> Enemies(m', p) == Enemies(m, p) && TotalArmies(keys, m') < TotalArmies(keys, m)
  {
    var m' := m[s := s1][t := t1];
    if t1.ownerId == p {
      assert t in Enemies(m, p) && t !in Enemies(m', p);
      assert Enemies(m', p) <= Enemies(m, p);
    } else {
      assert Enemies(m', p) == Enemies(m, p);
      UpdateTotals(keys, m, s, s1, p);
      UpdateTotals(keys, m[s := s1], t, t1, p);
    }
  }

  /** The records and the next draw at the end of `executeAIAttacks`'s loop, run
      from `m` at draw `k`: the loop stops when no good attack is left (no draw)
      or the draw passes 0.8, and otherwise fights the chosen attack with the
      draws after it and goes on. */
  ghost function Rounds(g: Graph, keys: seq<Tid>, m: map<Tid, Holding>, p: int, rng: Rand.Stream, k: nat)
    : (r: (map<Tid, Holding>, nat))
    requires Rand.Unit(rng) && NoDup(keys) && Sound(keys, m)
    decreases Enemies(m, p), TotalArmies(keys, m), 1
  {
    match ChosenAttack(g, m, p, keys)
    case None => (m, k)
    case Some(a) =>
      if rng(k) > 0.8 then (m, k + 1)
      else
        ChosenAttackLegal(g, m, p, keys);
        Fights(g, keys, m, p, rng, a.0, a.1, k + 1)
  }

  /** The rest of a pass of `Rounds` once `p` attacks `t` from `s` with the draws
      from `k`: the battle, then the loop goes on. */
  ghost function Fights(g: Graph, keys: seq<Tid>, m: map<Tid, Holding>, p: int, rng: Rand.Stream, s: Tid, t: Tid, k: nat)
    : (r: (map<Tid, Holding>, nat))
    requires Rand.Unit(rng) && NoDup(keys) && Sound(keys, m)
    requires CanSpare(m, s, p) && m[t].ownerId != p
    decreases Enemies(m, p), TotalArmies(keys, m), 0
  {
    Rounds(g, keys, AfterBattle(keys, m, p, s, t, rng, k), p, rng, k + Min(3, m[s].armies - 1) + Min(2, m[t].armies))
  }

  /** The records after the AI's battle from `s` into `t`, with what `BattleFacts`
      proves of them: sound, the attacker's holdings kept, and a territory won or
      armies lost. */
  ghost function AfterBattle(keys: seq<Tid>, m: map<Tid, Holding>, p: int, s: Tid, t: Tid, rng: Rand.Stream, k: nat)
    : (m': map<Tid, Holding>)
    requires Rand.Unit(rng) && NoDup(keys) && Sound(keys, m)
    requires CanSpare(m, s, p) && m[t].ownerId != p
    ensures m' == AiBattle(m, p, s, t, rng, k)
    ensures Sound(keys, m') && forall u :: Owns(m, u, p) ==> Owns(m', u, p)
    ensures Enemies(m', p) < Enemies(m, p) ||
      (Enemies(m', p) == Enemies(m, p) && 0 <= TotalArmies(keys, m') < TotalArmies(keys, m))
  {
    TotalNonNegative(keys, m);
    BattleFacts(keys, m, p, s, t, rng, k);
    TotalNonNegative(keys, AiBattle(m, p, s, t, rng, k));
    AiBattle(m, p, s, t, rng, k)
  }

  /** `Fights` is the loop run on from the records after the battle. */
  lemma FightsUnfold(g: Graph, keys: seq<Tid>, m: map<Tid, Holding>, p: int, rng: Rand.Stream, s: Tid, t: Tid, k: nat)
    requires Rand.Unit(rng) && NoDup(keys) && Sound(keys, m)
    requires CanSpare(m, s, p) && m[t].ownerId != p
    ensures Fights(g, keys, m, p, rng, s, t, k) == Rounds(g, keys, AfterBattle(keys, m, p, s, t, rng, k), p, rng, k + Min(3, m[s].armies - 1) + Min(2, m[t].armies))
  {
  }

  /** One pass of `Rounds` that fights: the chosen attack is legal, and the
      rest of the loop runs from the records `m'` after the battle with the
      draws `k'` after it. */
  lemma RoundsStep(g: Graph, keys: seq<Tid>, m: map<Tid, Holding>, p: int, rng: Rand.Stream, k: nat, s: Tid, t: Tid,
                   m': map<Tid, Holding>, k': nat)
    requires Rand.Unit(rng) && NoDup(keys) && Sound(keys, m)
    requires ChosenAttack(g, m, p, keys) == Some((s, t)) && rng(k) <= 0.8
    requires m' == AiBattle(m, p, s, t, rng, k + 1) && k' == k + 1 + Min(3, m[s].armies - 1) + Min(2, m[t].armies)
    ensures CanSpare(m, s, p) && m[t].ownerId != p && Sound(keys, m')
    ensures Rounds(g, keys, m, p, rng, k) == Rounds(g, keys, m', p, rng, k')
  {
    ChosenAttackLegal(g, m, p, keys);
    RoundsFights(g, keys, m, p, rng, k, s, t);
    FightsUnfold(g, keys, m, p, rng, s, t, k + 1);
  }

  /** A pass whose draw stays at or below 0.8 fights the chosen attack. */
  lemma RoundsFights(g: Graph, keys: seq<Tid>, m: map<Tid, Holding>, p: int, rng: Rand.Stream, k: nat, s: Tid, t: Tid)
    requires Rand.Unit(rng) && NoDup(keys) && Sound(keys, m)
    requires ChosenAttack(g, m, p, keys) == Some((s, t)) && rng(k) <= 0.8
    requires CanSpare(m, s, p) && m[t].ownerId != p
    ensures Rounds(g, keys, m, p, rng, k) == Fights(g, keys, m, p, rng, s, t, k + 1)
  {
  }

  /** The chosen attack, if any, starts from a territory of `p` with an army to
      spare and targets one held by someone else. */
  lemma ChosenAttackLegal(g: Graph, m: map<Tid, Holding>, p: int, keys: seq<Tid>)
    requires Complete(m)
    ensures var c := ChosenAttack(g, m, p, keys);
      c.Some? ==> CanSpare(m, c.value.0, p) && m[c.value.1].ownerId != p
  {
    ChosenAttackIsBest(g, m, p, keys);
  }

  /** A pass with no good attack, or whose draw passes 0.8, ends the loop:
      the records are unchanged and the draw is used only in the second case. */
  lemma RoundsStops(g: Graph, keys: seq<Tid>, m: map<Tid, Holding>, p: int, rng: Rand.Stream, k: nat)
    requires Rand.Unit(rng) && NoDup(keys) && Sound(keys, m)
    requires ChosenAttack(g, m, p, keys).None? || rng(k) > 0.8
    ensures Rounds(g, keys, m, p, rng, k) == (m, if ChosenAttack(g, m, p, keys).None? then k else k + 1)
  {
  }

  /** `executeAIAttacks`: attack while a good attack remains and the draw
      stays at or below 0.8; the records and the next draw end as `Rounds`
      says. Each battle conquers a territory or costs armies, so the phase
      ends. Territories the AI held stay its own and every record keeps an
      army; when the phase ends no good attack is left or the last draw passed
      0.8. */
  method AttackRounds(g: Graph, keys: seq<Tid>, m0: map<Tid, Holding>, p: int, rng: Rand.Stream, k0: nat)
    returns (m: map<Tid, Holding>, k: nat)
    requires Rand.Unit(rng) && NoDup(keys) && Sound(keys, m0)
    ensures (m, k) == Rounds(g, keys, m0, p, rng, k0)
    ensures Sound(keys, m)
    ensures forall t :: Owns(m0, t, p) ==> Owns(m, t, p)
    ensures k >= k0 && (ChosenAttack(g, m, p, keys).None? || (k > k0 && rng(k - 1) > 0.8))
  {
    m, k := m0, k0;
    ghost var r := Rounds(g, keys, m0, p, rng, k0);
    while true
      invariant RoundsLeft(g, keys, m0, p, rng, k0, r, m, k)
      decreases Enemies(m, p), TotalArmies(keys, m)
    {
      TotalNonNegative(keys, m);
      var done, m', k' := Round(g, keys, m, p, rng, k, m0, k0, r);
      if done {
        return m, k';
      }
      m, k := m', k';
    }
  }

  /** The state of `AttackRounds`'s loop: the records are sound, the AI still
      holds what it held at the start, the draws have moved on from `k0`, and
      the rest of the loop from here ends as `r`. */
  ghost predicate RoundsLeft(g: Graph, keys: seq<Tid>, m0: map<Tid, Holding>, p: int, rng: Rand.Stream, k0: nat,
                             r: (map<Tid, Holding>, nat), m: map<Tid, Holding>, k: nat)
  {
    && Rand.Unit(rng) && NoDup(keys) && Sound(keys, m)
    && Rounds(g, keys, m, p, rng, k) == r
    && (forall t :: Owns(m0, t, p) ==> Owns(m, t, p))
    && k >= k0
  }

  /** One pass of `AttackRounds`'s loop: either the loop ends here, with the
      records and draw `r` names, or it goes on from a state nearer the end. */
  method Round(g: Graph, keys: seq<Tid>, m: map<Tid, Holding>, p: int, rng: Rand.Stream, k: nat,
               ghost m0: map<Tid, Holding>, ghost k0: nat, ghost r: (map<Tid, Holding>, nat))
    returns (done: bool, m': map<Tid, Holding>, k': nat)
    requires RoundsLeft(g, keys, m0, p, rng, k0, r, m, k)
    ensures done ==>
      && r == (m, k') && Sound(keys, m) && (forall t :: Owns(m0, t, p) ==> Owns(m, t, p))
      && k' >= k0 && (ChosenAttack(g, m, p, keys).None? || (k' > k0 && rng(k' - 1) > 0.8))
    ensures !done ==> RoundsLeft(g, keys, m0, p, rng, k0, r, m', k')
    ensures !done ==>
      Enemies(m', p) < Enemies(m, p) ||
      (Enemies(m', p) == Enemies(m, p) && TotalArmies(keys, m') < TotalArmies(keys, m))
  {
    var attack;
    attack, done, m', k' := AttackStep(g, keys, m, p, rng, k);
  }

  /** The attack phase on the game state: the rounds run on the current
      player's behalf and only the territory records change. */
  method ExecuteAIAttacks(gs: GameState, g: Graph, rng: Rand.Stream, k0: nat) returns (k: nat)
    requires Rand.Unit(rng) && gs.CurrentPlayer().Some? && Complete(gs.territories) && Garrisoned(gs.territories)
    requires gs.KeysListed()
    modifies gs
    ensures Complete(gs.territories) && Garrisoned(gs.territories) && gs.KeysListed()
    ensures gs.View() == old(gs.View()).(territories := gs.territories)
    ensures var me := old(gs.CurrentPlayer().value.id);
      forall t :: Owns(old(gs.territories), t, me) ==> Owns(gs.territories, t, me)
    ensures var me := old(gs.CurrentPlayer().value.id);
      k >= k0 && (ChosenAttack(g, gs.territories, me, gs.order).None? || (k > k0 && rng(k - 1) > 0.8))
    ensures (gs.territories, k) == Rounds(g, old(gs.order), old(gs.territories), old(gs.CurrentPlayer().value.id), rng, k0)
  {
    var me := gs.CurrentPlayer().value.id;
    var m;
    m, k := AttackRounds(g, gs.order, gs.territories, me, rng, k0);
    gs.SetTerritories(m, gs.order);
  }

  // -------------------------------------------------------------- executeAIFortify

  /** The moves `(s, d)` for the destinations `d` among `dests` other than
      `s` that border another player. */
  function DestinationsFrom(g: Graph, m: map<Tid, Holding>, p: int, s: Tid, dests: seq<Tid>): (r: seq<(Tid, Tid)>)
    requires Complete(m)
    ensures forall x :: x in r <==> x.0 == s && x.1 in dests && x.1 != s && Exposed(g, m, x.1, p)
  {
    if dests == [] then []
    else
      var last := dests[|dests| - 1];
      DestinationsFrom(g, m, p, s, dests[..|dests| - 1]) + (if last != s && Exposed(g, m, last, p) then [(s, last)] else [])
  }

  /** `possibleMoves`: for each source among `srcs` with an army to spare and
      no enemy neighbour, the moves to the exposed territories of `mine`. */
  function FortifyMoves(g: Graph, m: map<Tid, Holding>, p: int, srcs: seq<Tid>, mine: seq<Tid>): (r: seq<(Tid, Tid)>)
    requires Complete(m)
  {
    if srcs == [] then []
    else
      var last := srcs[|srcs| - 1];
      FortifyMoves(g, m, p, srcs[..|srcs| - 1], mine) +
        (if m[last].armies > 1 && !Exposed(g, m, last, p) then DestinationsFrom(g, m, p, last, mine) else [])
  }

  /** A move the AI may make: from a territory it holds with an army to spare
      and no enemy neighbour, to another territory it holds that has one. */
  predicate LegalFortify(g: Graph, m: map<Tid, Holding>, p: int, x: (Tid, Tid))
    requires Complete(m)
  {
    CanSpare(m, x.0, p) && !Exposed(g, m, x.0, p) && Owns(m, x.1, p) && x.1 != x.0 && Exposed(g, m, x.1, p)
  }

  /** The candidates are exactly the legal moves between listed keys. */
  lemma {:induction false} FortifyMovesExact(g: Graph, m: map<Tid, Holding>, p: int, srcs: seq<Tid>, mine: seq<Tid>)
    requires Complete(m)
    ensures forall x: (Tid, Tid) :: x in FortifyMoves(g, m, p, srcs, mine) <==>
      x.0 in srcs && x.1 in mine && m[x.0].armies > 1 && !Exposed(g, m, x.0, p) && x.1 != x.0 && Exposed(g, m, x.1, p)
    decreases |srcs|
  {
    if srcs != [] {
      FortifyMovesExact(g, m, p, srcs[..|srcs| - 1], mine);
      assert srcs == srcs[..|srcs| - 1] + [srcs[|srcs| - 1]];
    }
  }

  /** The move the AI picks, if it has one: the first with the most armies to
      move, the head after the stable sort by `armies − 1`, largest first. */
  function ChosenFortify(g: Graph, m: map<Tid, Holding>, p: int, keys: seq<Tid>): Option<(Tid, Tid)>
    requires Complete(m)
  {
    var mine := OwnedIn(keys, m, p);
    var moves := FortifyMoves(g, m, p, mine, mine);
    if moves == [] then None else Some(moves[Strongest(m, moves)])
  }

  /** There is no move exactly when no legal move joins two listed keys; the
      chosen move is legal and moves at least as many armies as any legal
      move between listed keys. */
  lemma ChosenFortifyIsBest(g: Graph, m: map<Tid, Holding>, p: int, keys: seq<Tid>)
    requires Complete(m)
    ensures var c := ChosenFortify(g, m, p, keys);
      c.None? <==> forall x: (Tid, Tid) :: x.0 in keys && x.1 in keys ==> !LegalFortify(g, m, p, x)
    ensures var c := ChosenFortify(g, m, p, keys);
      c.Some? ==>
        c.value.0 in keys && c.value.1 in keys && LegalFortify(g, m, p, c.value) &&
        forall x: (Tid, Tid) :: x.0 in keys && x.1 in keys && LegalFortify(g, m, p, x) ==>
          m[x.0].armies - 1 <= m[c.value.0].armies - 1
  {
    var mine := OwnedIn(keys, m, p);
    FortifyMovesExact(g, m, p, mine, mine);
    var moves := FortifyMoves(g, m, p, mine, mine);
    if moves != [] {
      var i := Strongest(m, moves);
      StrongestIsFirstMax(m, moves);
      assert moves[i] in moves;
      forall x: (Tid, Tid) | x.0 in keys && x.1 in keys && LegalFortify(g, m, p, x)
        ensures m[x.0].armies <= m[moves[i].0].armies
      {
        assert x in moves;
        var j :| 0 <= j < |moves| && moves[j] == x;
      }
    } else {
      forall x: (Tid, Tid) | x.0 in keys && x.1 in keys
        ensures !LegalFortify(g, m, p, x)
      {
        assert x !in moves;
      }
    }
  }

  /** The nested `forEach` that builds `possibleMoves`. */
  method CollectFortifyMoves(g: Graph, m: map<Tid, Holding>, p: int, mine: seq<Tid>) returns (moves: seq<(Tid, Tid)>)
    requires Complete(m)
    ensures moves == FortifyMoves(g, m, p, mine, mine)
  {
    moves := [];
    var i := 0;
    while i < |mine|
      invariant 0 <= i <= |mine|
      invariant moves == FortifyMoves(g, m, p, mine[..i], mine)
    {
      var t := mine[i];
      var found: seq<(Tid, Tid)> := [];
      if m[t].armies > 1 && !Exposed(g, m, t, p) {
        found := CollectDestinations(g, m, p, t, mine);
      }
      assert mine[..i + 1][..i] == mine[..i];
      moves := moves + found;
      i := i + 1;
    }
    assert mine[..i] == mine;
  }

  /** The inner `forEach` over the destinations. */
  method CollectDestinations(g: Graph, m: map<Tid, Holding>, p: int, s: Tid, dests: seq<Tid>) returns (found: seq<(Tid, Tid)>)
    requires Complete(m)
    ensures found == DestinationsFrom(g, m, p, s, dests)
  {
    found := [];
    var j := 0;
    while j < |dests|
      invariant 0 <= j <= |dests|
      invariant found == DestinationsFrom(g, m, p, s, dests[..j])
    {
      assert dests[..j + 1][..j] == dests[..j];
      if s != dests[j] && Exposed(g, m, dests[j], p) {
        found := found + [(s, dests[j])];
      }
      j := j + 1;
    }
    assert dests[..j] == dests;
  }

  /** The pick of `executeAIFortify` on the records. */
  method ChooseFortify(g: Graph, m: map<Tid, Holding>, p: int, keys: seq<Tid>) returns (move: Option<(Tid, Tid)>)
    requires Complete(m)
    ensures move == ChosenFortify(g, m, p, keys)
  {
    var mine := OwnedIn(keys, m, p);
    var possibleMoves := CollectFortifyMoves(g, m, p, mine);
    if |possibleMoves| == 0 {
      return None;
    }
    move := Some(possibleMoves[Strongest(m, possibleMoves)]);
  }

  /** `executeAIFortify`: the chosen move, if any, carries all but one army
      of its source to its destination. No owner changes, every record keeps
      an army, and the armies of every player stay the same. */
  method ExecuteAIFortify(gs: GameState, g: Graph) returns (move: Option<(Tid, Tid)>)
    requires gs.CurrentPlayer().Some? && Complete(gs.territories) && Garrisoned(gs.territories)
    requires gs.KeysListed()
    modifies gs
    ensures move == old(ChosenFortify(g, gs.territories, gs.CurrentPlayer().value.id, gs.order))
    ensures gs.View() == old(gs.View()).(territories := gs.territories)
    ensures gs.territories == Fortified(g, old(gs.territories), old(gs.CurrentPlayer().value.id), gs.order)
    ensures Complete(gs.territories) && Garrisoned(gs.territories) && gs.KeysListed()
    ensures forall t :: t in gs.territories ==> gs.territories[t].ownerId == old(gs.territories)[t].ownerId
  {
    var player := gs.CurrentPlayer().value;
    var m := gs.territories;
    move := ChooseFortify(g, m, player.id, gs.order);
    FortifyFacts(g, m, player.id, gs.order);
    if move.Some? {
      gs.SetTerritories(Fortified(g, m, player.id, gs.order), gs.order);
    }
  }

  /** The records after the AI's fortification: all but one army of the chosen
      source moved to the chosen destination, or nothing changed. */
  function Fortified(g: Graph, m: map<Tid, Holding>, p: int, keys: seq<Tid>): map<Tid, Holding>
    requires Complete(m)
  {
    match ChosenFortify(g, m, p, keys)
    case None => m
    case Some(move) => Transfer(m, move.0, move.1, m[move.0].armies - 1)
  }

  /** What the AI's fortification does to the records, as `ExecuteAIFortify` promises it. */
  lemma FortifyFacts(g: Graph, m: map<Tid, Holding>, p: int, keys: seq<Tid>)
    requires NoDup(keys) && (forall u :: u in m <==> u in keys)
    requires Complete(m) && Garrisoned(m)
    ensures var m' := Fortified(g, m, p, keys);
      (forall u :: u in m' <==> u in keys) && Complete(m') && Garrisoned(m') &&
      (forall u :: u in m' ==> m'[u].ownerId == m[u].ownerId)
    ensures TotalArmies(keys, Fortified(g, m, p, keys)) == TotalArmies(keys, m)
    ensures forall q :: PlayerArmies(keys, Fortified(g, m, p, keys), q) == PlayerArmies(keys, m, q)
  {
    var move := ChosenFortify(g, m, p, keys);
    if move.Some? {
      ChosenFortifyIsBest(g, m, p, keys);
      MoveKeepsAll(keys, m, move.value.0, move.value.1);
    }
  }

  /** Moving all but one army between two territories of one owner keeps the
      keys, every owner, a garrison on every record, the army total and the
      armies of every player. */
  lemma MoveKeepsAll(keys: seq<Tid>, m: map<Tid, Holding>, s: Tid, t: Tid)
    requires NoDup(keys) && (forall u :: u in m <==> u in keys)
    requires Complete(m) && Garrisoned(m) && s != t && m[s].ownerId == m[t].ownerId
    ensures var m' := Transfer(m, s, t, m[s].armies - 1);
      (forall u :: u in m' <==> u in keys) && Complete(m') && Garrisoned(m') &&
      (forall u :: u in m' ==> m'[u].ownerId == m[u].ownerId)
    ensures TotalArmies(keys, Transfer(m, s, t, m[s].armies - 1)) == TotalArmies(keys, m)
    ensures forall q :: PlayerArmies(keys, Transfer(m, s, t, m[s].armies - 1), q) == PlayerArmies(keys, m, q)
  {
    TransferConserves(keys, m, s, t, m[s].armies - 1, m[s].ownerId);
    forall q | true
      ensures PlayerArmies(keys, Transfer(m, s, t, m[s].armies - 1), q) == PlayerArmies(keys, m, q)
    {
      TransferConserves(keys, m, s, t, m[s].armies - 1, q);
    }
  }

  // -------------------------------------------------------------- executeAITurn

  /** What holds between the phases of the AI's turn: the store is whole and
      garrisoned, `me` at index `idx` of `n` players is still the current
      player, and it still holds every territory it held in `m0`. */
  ghost predicate AiSteady(gs: GameState, me: int, idx: int, n: int, m0: map<Tid, Holding>)
    reads gs
  {
    gs.KeysListed() && Complete(gs.territories) && Garrisoned(gs.territories) &&
    gs.currentPlayerIndex == idx && |gs.players| == n && 0 <= idx < n && gs.players[idx].id == me &&
    forall t :: Owns(m0, t, me) ==> Owns(gs.territories, t, me)
  }

  /** `changePhase('REINFORCE')` and the AI's placement. */
  method AiReinforcePhase(gs: GameState, g: Graph, rng: Rand.Stream, k0: nat, ghost me: int, ghost m0: map<Tid, Holding>)
    returns (k: nat)
    requires Rand.Unit(rng) && AiSteady(gs, me, gs.currentPlayerIndex, |gs.players|, m0)
    requires gs.players[gs.currentPlayerIndex].armiesToDeploy >= 0
    modifies gs
    ensures (gs.View(), k) == Placed(old(gs.View()).(gamePhase := Reinforce, selectedTerritory := None), g, rng, k0)
    ensures AiSteady(gs, me, old(gs.currentPlayerIndex), old(|gs.players|), m0) && k >= k0
  {
    gs.SetGamePhase(Reinforce);
    var placed;
    placed, k := ExecuteAIReinforce(gs, g, rng, k0);
  }

  /** `changePhase('ATTACK')` and the AI's battles: only the phase, the
      selection and the records change, as `Rounds` says. */
  method AiAttackPhase(gs: GameState, g: Graph, rng: Rand.Stream, k0: nat, ghost me: int, ghost m0: map<Tid, Holding>)
    returns (k: nat)
    requires Rand.Unit(rng) && AiSteady(gs, me, gs.currentPlayerIndex, |gs.players|, m0)
    modifies gs
    ensures var r := Rounds(g, old(gs.order), old(gs.territories), me, rng, k0);
      gs.View() == old(gs.View()).(gamePhase := Attack, selectedTerritory := None, territories := r.0) && k == r.1
    ensures AiSteady(gs, me, old(gs.currentPlayerIndex), old(|gs.players|), m0) && k >= k0
  {
    gs.SetGamePhase(Attack);
    k := ExecuteAIAttacks(gs, g, rng, k0);
  }

  /** `changePhase('FORTIFY')` and the AI's move: only the phase, the
      selection and the records change, as `Fortified` says. */
  method AiFortifyPhase(gs: GameState, g: Graph, ghost me: int, ghost m0: map<Tid, Holding>)
    requires AiSteady(gs, me, gs.currentPlayerIndex, |gs.players|, m0)
    modifies gs
    ensures gs.View() == old(gs.View()).(gamePhase := Fortify, selectedTerritory := None,
      territories := Fortified(g, old(gs.territories), me, old(gs.order)))
    ensures AiSteady(gs, me, old(gs.currentPlayerIndex), old(|gs.players|), m0)
  {
    gs.SetGamePhase(Fortify);
    var move := ExecuteAIFortify(gs, g);
  }

  /** `executeAITurn`: the AI's three phases, then `endTurn`. The placement
      gives store `s1` and draw `k1`, the battles run from `s1`'s records to
      `m2` as `Rounds` says, and the fortifying move gives the final records.
      The AI keeps every territory it held, and the turn passes on as
      `endTurn` says. */
  method ExecuteAITurn(gs: GameState, g: Graph, rng: Rand.Stream, k0: nat)
    returns (won: bool, aiTurnDue: bool, k: nat, ghost s1: Snapshot, ghost k1: nat, ghost m2: map<Tid, Holding>,
             ghost skipped: nat)
    requires Rand.Unit(rng) && gs.CurrentPlayer().Some? && gs.KeysListed()
    requires Complete(gs.territories) && Garrisoned(gs.territories) && gs.CurrentPlayer().value.armiesToDeploy >= 0
    requires HasTerritory(gs.territories, gs.CurrentPlayer().value.id)
    modifies gs
    ensures (s1, k1) == Placed(old(gs.View()).(gamePhase := Reinforce, selectedTerritory := None), g, rng, k0)
    ensures Sound(s1.order, s1.territories) && NoDup(s1.order) && |s1.players| == old(|gs.players|)
    ensures var me := old(gs.CurrentPlayer().value.id);
      && (m2, k) == Rounds(g, s1.order, s1.territories, me, rng, k1)
      && Sound(s1.order, m2)
      && gs.territories == Fortified(g, m2, me, old(gs.order))
    ensures k >= k0 && gs.KeysListed() && Complete(gs.territories) && Garrisoned(gs.territories)
    ensures var me := old(gs.CurrentPlayer().value.id);
      forall t :: Owns(old(gs.territories), t, me) ==> Owns(gs.territories, t, me)
    ensures gs.order == old(gs.order) && gs.deck == old(gs.deck) && gs.discardPile == old(gs.discardPile)
    ensures gs.aiBattleSpeed == old(gs.aiBattleSpeed) && gs.isBlitzing == old(gs.isBlitzing)
    ensures gs.attackContext == old(gs.attackContext) && gs.revealedTerritories == old(gs.revealedTerritories)
    ensures |gs.players| == old(|gs.players|) && 0 <= gs.currentPlayerIndex < |gs.players|
    ensures var first := NextIndex(old(gs.currentPlayerIndex), |gs.players|);
      gs.currentPlayerIndex == Rotate(first, |gs.players|, skipped) &&
      forall j :: 0 <= j < skipped ==> !HasTerritory(gs.territories, s1.players[Rotate(first, |gs.players|, j)].id)
    ensures gs.fortify == ClearedFortify && gs.selectedTerritory == None && gs.modifiedTerritories == {}
    ensures won ==> CheckForWinner(gs) && gs.players == s1.players && gs.gamePhase == Fortify
    ensures !won ==>
      var i := gs.currentPlayerIndex;
      HasTerritory(gs.territories, gs.players[i].id) &&
      gs.players[i].armiesToDeploy == Reinforcements(gs.order, gs.territories, gs.players[i].id) &&
      aiTurnDue == gs.players[i].isAI && (!aiTurnDue ==> gs.gamePhase == Reinforce)
    ensures !won ==>
      var i := gs.currentPlayerIndex;
      gs.players == s1.players[i := s1.players[i].(armiesToDeploy := Reinforcements(gs.order, gs.territories, gs.players[i].id))] &&
      gs.gamePhase == (if aiTurnDue then Fortify else Reinforce)
  {
    ghost var me := gs.CurrentPlayer().value.id;
    ghost var t0 :| t0 in gs.territories && gs.territories[t0].ownerId == me;
    k, s1, k1, m2 := AiPhases(gs, g, rng, k0);
    assert Owns(gs.territories, t0, me);
    assert HasTerritory(gs.territories, gs.players[gs.currentPlayerIndex].id);
    won, aiTurnDue, skipped := EndTurn(gs);
  }

  /** The three phases of `executeAITurn` before `endTurn`: the placement gives
      store `s1` and draw `k1`, the battles give records `m2` and draw `k`,
      and the fortifying move gives the final records; besides, only the
      phase changes. */
  method AiPhases(gs: GameState, g: Graph, rng: Rand.Stream, k0: nat)
    returns (k: nat, ghost s1: Snapshot, ghost k1: nat, ghost m2: map<Tid, Holding>)
    requires Rand.Unit(rng) && gs.CurrentPlayer().Some? && gs.KeysListed()
    requires Complete(gs.territories) && Garrisoned(gs.territories) && gs.CurrentPlayer().value.armiesToDeploy >= 0
    modifies gs
    ensures (s1, k1) == Placed(old(gs.View()).(gamePhase := Reinforce, selectedTerritory := None), g, rng, k0)
    ensures Sound(s1.order, s1.territories) && NoDup(s1.order) && |s1.players| == old(|gs.players|)
    ensures var me := old(gs.CurrentPlayer().value.id);
      && (m2, k) == Rounds(g, s1.order, s1.territories, me, rng, k1)
      && Sound(s1.order, m2)
      && gs.View() == s1.(gamePhase := Fortify, territories := Fortified(g, m2, me, s1.order))
    ensures k >= k0 && gs.KeysListed() && Complete(gs.territories) && Garrisoned(gs.territories)
    ensures var me := old(gs.CurrentPlayer().value.id);
      forall t :: Owns(old(gs.territories), t, me) ==> Owns(gs.territories, t, me)
    ensures gs.CurrentPlayer().Some? && gs.CurrentPlayer().value.id == old(gs.CurrentPlayer().value.id)
  {
    ghost var me := gs.CurrentPlayer().value.id;
    ghost var m0 := gs.territories;
    var placedDraw := AiReinforcePhase(gs, g, rng, k0, me, m0);
    s1, k1 := gs.View(), placedDraw;
    k := AiAttackPhase(gs, g, rng, placedDraw, me, m0);
    m2 := gs.territories;
    AiFortifyPhase(gs, g, me, m0);
  }
}
