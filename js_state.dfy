// The shared game store of the dice-and-cards generation (js/state.js): one
// mutable object that every other module reads and updates through these
// setters.
//
// The store is the class `GameState`. Territory records are keyed by the
// territory ids of the classic map; `order` keeps the insertion order of the
// keys, which is the order `Object.keys` and `for ... in` visit them in. Names,
// colours and log text of players are presentation and are left out.
module JsState {
  import opened Util
  import opened Constants
  import Cards

  datatype Phase = Setup | CardPlayRound | Reinforce | Attack | Fortify

  datatype Player = Player(id: int, isAI: bool, armiesToDeploy: int)

  /** One territory's record in the store: its owner and its army count. */
  datatype Holding = Holding(ownerId: int, armies: int)

  datatype FortifyRecord = FortifyRecord(hasFortified: bool, source: Option<Tid>, target: Option<Tid>)

  const ClearedFortify := FortifyRecord(false, None, None)

  datatype AttackContext = AttackContext(sourceId: Tid, targetId: Tid)

  /** The argument of `addToDiscardPile`: one card, or an array of cards. */
  datatype Discard = OneCard(card: Cards.Card) | SeveralCards(cards: seq<Cards.Card>)

  /** A single card is wrapped into a one-element list. */
  function AsList(d: Discard): (cs: seq<Cards.Card>)
    ensures d.OneCard? ==> cs == [d.card]
    ensures d.SeveralCards? ==> cs == d.cards
  {
    match d
    case OneCard(c) => [c]
    case SeveralCards(cs) => cs
  }

  /** Every field of the store, as one value. */
  datatype Snapshot = Snapshot(
    players: seq<Player>,
    territories: map<Tid, Holding>,
    order: seq<Tid>,
    currentPlayerIndex: int,
    gamePhase: Phase,
    deck: seq<Cards.Card>,
    discardPile: seq<Cards.Card>,
    selectedTerritory: Option<Tid>,
    fortify: FortifyRecord,
    aiBattleSpeed: int,
    isBlitzing: bool,
    attackContext: Option<AttackContext>,
    revealedTerritories: set<Tid>,
    modifiedTerritories: set<Tid>)

  /** The position after `i` in a rotation of `n` players. */
  function NextIndex(i: int, n: int): (j: int)
    requires 0 <= i && n > 0
    ensures 0 <= j < n
  {
    (i + 1) % n
  }

  /** The position reached from `i` after `steps` calls of `nextPlayer`. */
  function Rotate(i: int, n: int, steps: nat): (j: int)
    requires 0 <= i && n > 0
    ensures 0 <= j && (i < n ==> j < n)
    decreases steps
  {
    if steps == 0 then i else NextIndex(Rotate(i, n, steps - 1), n)
  }

  /** Rotating `steps` times lands `steps` places further on, modulo `n`. */
  lemma {:induction false} RotateIsOffset(i: int, n: int, steps: nat)
    requires 0 <= i < n
    ensures Rotate(i, n, steps) == (i + steps) % n
    decreases steps
  {
    if steps > 0 {
      var a: nat := i + (steps - 1);
      RotateIsOffset(i, n, steps - 1);
      var r := Rotate(i, n, steps - 1);
      assert r == a % n;
      assert Rotate(i, n, steps) == NextIndex(r, n);
      ModStep(a, n);
      assert a + 1 == i + steps;
    }
  }

  /** Adding one before or after reducing modulo `n` gives the same residue. */
  lemma ModStep(a: nat, n: int)
    requires n > 0
    ensures ((a % n) + 1) % n == (a + 1) % n
  {
    var q, r := a / n, a % n;
    if r + 1 < n {
      ModUnique(a + 1, n, q, r + 1);
      ModUnique(r + 1, n, 0, r + 1);
    } else {
      ModUnique(a + 1, n, q + 1, 0);
      ModUnique(r + 1, n, 1, 0);
    }
  }

  /** The remainder is determined by any quotient-remainder decomposition. */
  lemma ModUnique(x: int, n: int, q: int, r: int)
    requires n > 0 && 0 <= r < n && x == q * n + r
    ensures x % n == r && x / n == q
  {
    var q', r' := x / n, x % n;
    assert x == q' * n + r';
    var d := q - q';
    assert d * n == r' - r by {
      assert q * n - q' * n == (q - q') * n;
    }
    if d >= 1 {
      assert d * n == (d - 1) * n + n;
      MulNonNegative(d - 1, n);
    } else if d <= -1 {
      assert -d * n == (-d - 1) * n + n;
      MulNonNegative(-d - 1, n);
    }
  }

  lemma MulNonNegative(a: int, b: int)
    requires a >= 0 && b >= 0
    ensures a * b >= 0
  {
  }

  /** Every player's turn comes up within `n` rotations, and `n` rotations
      return to the starting player. */
  lemma RotationVisitsAll(i: int, n: int, p: int)
    requires 0 <= i < n && 0 <= p < n
    ensures Rotate(i, n, n) == i
    ensures Rotate(i, n, (p - i) % n) == p
  {
    RotateIsOffset(i, n, n);
    ModUnique(i + n, n, 1, i);
    var steps := (p - i) % n;
    RotateIsOffset(i, n, steps);
    if p >= i {
      ModUnique(p - i, n, 0, p - i);
      ModUnique(i + steps, n, 0, p);
    } else {
      ModUnique(p - i, n, -1, p - i + n);
      ModUnique(i + steps, n, 1, p);
    }
  }

  /** The first player whose id is `id`: `players.find(p => p.id === id)`. */
  function FindPlayer(players: seq<Player>, id: int): (r: Option<nat>)
    ensures r.Some? ==> r.value < |players| && players[r.value].id == id
    ensures r.Some? ==> forall j :: 0 <= j < r.value ==> players[j].id != id
    ensures r.None? <==> forall j :: 0 <= j < |players| ==> players[j].id != id
  {
    if players == [] then None
    else if players[0].id == id then Some(0)
    else
      match FindPlayer(players[1..], id)
      case None => None
      case Some(j) => Some(j + 1)
  }

  /** Taking the top card off a deck: `deck.pop()`, or nothing from an empty deck. */
  function Draw(deck: seq<Cards.Card>): (r: (Option<Cards.Card>, seq<Cards.Card>))
    ensures r.0.None? <==> deck == []
    ensures r.0.None? ==> r.1 == deck
    ensures r.0.Some? ==> deck == r.1 + [r.0.value]
  {
    if deck == [] then (None, deck)
    else (Some(deck[|deck| - 1]), deck[..|deck| - 1])
  }

  function Bag(c: Option<Cards.Card>): multiset<Cards.Card> {
    if c.Some? then multiset{c.value} else multiset{}
  }

  /** Drawing loses no card and makes none: the deck before is the deck after
      plus the card drawn. */
  lemma DrawConserves(deck: seq<Cards.Card>)
    ensures multiset(deck) == multiset(Draw(deck).1) + Bag(Draw(deck).0)
    ensures |deck| == |Draw(deck).1| + |Bag(Draw(deck).0)|
  {
    var (c, rest) := Draw(deck);
    if c.Some? {
      assert deck == rest + [c.value];
    }
  }

  /** Drawing a card and discarding it keeps the cards of deck and pile together. */
  lemma DrawThenDiscard(deck: seq<Cards.Card>, pile: seq<Cards.Card>)
    requires deck != []
    ensures multiset(deck) + multiset(pile) ==
      multiset(Draw(deck).1) + multiset(pile + AsList(OneCard(Draw(deck).0.value)))
  {
    DrawConserves(deck);
  }

  /** The store as `initGameState` leaves it. */
  function Initial(): Snapshot {
    Snapshot([], map[], [], 0, Setup, [], [], None, ClearedFortify, 1500, false, None, {}, {})
  }

  class GameState {
    var players: seq<Player>
    var territories: map<Tid, Holding>
    var order: seq<Tid>
    var currentPlayerIndex: int
    var gamePhase: Phase
    var deck: seq<Cards.Card>
    var discardPile: seq<Cards.Card>
    var selectedTerritory: Option<Tid>
    var fortify: FortifyRecord
    var aiBattleSpeed: int
    var isBlitzing: bool
    var attackContext: Option<AttackContext>
    var revealedTerritories: set<Tid>
    var modifiedTerritories: set<Tid>

    function View(): Snapshot
      reads this
    {
      Snapshot(players, territories, order, currentPlayerIndex, gamePhase, deck, discardPile,
        selectedTerritory, fortify, aiBattleSpeed, isBlitzing, attackContext,
        revealedTerritories, modifiedTerritories)
    }

    /** The key order lists every territory record exactly once. */
    ghost predicate KeysListed()
      reads this
    {
      NoDup(order) && forall t :: t in territories <==> t in order
    }

    constructor ()
      ensures View() == Initial()
    {
      players, territories, order := [], map[], [];
      currentPlayerIndex, gamePhase := 0, Setup;
      deck, discardPile := [], [];
      selectedTerritory, fortify := None, ClearedFortify;
      aiBattleSpeed, isBlitzing, attackContext := 1500, false, None;
      revealedTerritories, modifiedTerritories := {}, {};
    }

    /** `initGameState`: no players, no territories, the first player's turn in
        the setup phase, empty deck and pile, nothing selected. */
    method InitGameState()
      modifies this
      ensures View() == Initial()
    {
      players, territories, order := [], map[], [];
      currentPlayerIndex, gamePhase := 0, Setup;
      deck, discardPile := [], [];
      selectedTerritory, fortify := None, ClearedFortify;
      aiBattleSpeed, isBlitzing, attackContext := 1500, false, None;
      revealedTerritories, modifiedTerritories := {}, {};
    }

    /** `getCurrentPlayer`: `undefined` when the index is out of range. */
    function CurrentPlayer(): Option<Player>
      reads this
    {
      if 0 <= currentPlayerIndex < |players| then Some(players[currentPlayerIndex]) else None
    }

    /** `getPlayerById`. */
    function PlayerById(id: int): (r: Option<Player>)
      reads this
      ensures r.Some? ==> r.value in players && r.value.id == id
      ensures r.None? <==> forall p :: p in players ==> p.id != id
    {
      match FindPlayer(players, id)
      case None => None
      case Some(i) => Some(players[i])
    }

    method SetPlayers(ps: seq<Player>)
      modifies this
      ensures View() == old(View()).(players := ps)
    {
      players := ps;
    }

    /** `setTerritories`, with the key order of the record object. */
    method SetTerritories(ts: map<Tid, Holding>, keys: seq<Tid>)
      modifies this
      ensures View() == old(View()).(territories := ts, order := keys)
    {
      territories, order := ts, keys;
    }

    /** `setGamePhase`: a phase change always drops the selection. */
    method SetGamePhase(phase: Phase)
      modifies this
      ensures View() == old(View()).(gamePhase := phase, selectedTerritory := None)
    {
      gamePhase := phase;
      selectedTerritory := None;
    }

    /** `nextPlayer`: the turn passes round the table, and the selection, the
        fortify record and the set of modified territories are cleared. */
    method NextPlayer()
      requires 0 <= currentPlayerIndex && |players| > 0
      modifies this
      ensures View() == old(View()).(currentPlayerIndex := NextIndex(old(currentPlayerIndex), old(|players|)),
        selectedTerritory := None, fortify := ClearedFortify, modifiedTerritories := {})
      ensures 0 <= currentPlayerIndex < |players|
    {
      currentPlayerIndex := (currentPlayerIndex + 1) % |players|;
      selectedTerritory := None;
      fortify := ClearedFortify;
      modifiedTerritories := {};
    }

    method SetSelectedTerritory(t: Option<Tid>)
      modifies this
      ensures View() == old(View()).(selectedTerritory := t)
    {
      selectedTerritory := t;
    }

    method SetFortifySource(t: Option<Tid>)
      modifies this
      ensures View() == old(View()).(fortify := old(fortify).(source := t))
    {
      fortify := fortify.(source := t);
    }

    method SetFortifyTarget(t: Option<Tid>)
      modifies this
      ensures View() == old(View()).(fortify := old(fortify).(target := t))
    {
      fortify := fortify.(target := t);
    }

    method SetFortified()
      modifies this
      ensures View() == old(View()).(fortify := old(fortify).(hasFortified := true))
    {
      fortify := fortify.(hasFortified := true);
    }

    method ClearFortify()
      modifies this
      ensures View() == old(View()).(fortify := ClearedFortify)
    {
      fortify := ClearedFortify;
    }

    method SetAttackContext(source: Tid, target: Tid)
      modifies this
      ensures View() == old(View()).(attackContext := Some(AttackContext(source, target)))
    {
      attackContext := Some(AttackContext(source, target));
    }

    method SetBlitzing(status: bool)
      modifies this
      ensures View() == old(View()).(isBlitzing := status)
    {
      isBlitzing := status;
    }

    /** `setDeck`: a new deck, and the discard pile starts empty. */
    method SetDeck(d: seq<Cards.Card>)
      modifies this
      ensures View() == old(View()).(deck := d, discardPile := [])
    {
      deck := d;
      discardPile := [];
    }

    /** `drawCard`: `null` and no change on an empty deck, otherwise the last
        card comes off the deck. */
    method DrawCard() returns (card: Option<Cards.Card>)
      modifies this
      ensures (card, deck) == Draw(old(deck))
      ensures View() == old(View()).(deck := deck)
    {
      if |deck| == 0 {
        return None;
      }
      card := Some(deck[|deck| - 1]);
      deck := deck[..|deck| - 1];
    }

    /** `addToDiscardPile`: the cards go on top of the pile in the order given. */
    method AddToDiscardPile(cards: Discard)
      modifies this
      ensures View() == old(View()).(discardPile := old(discardPile) + AsList(cards))
    {
      var list := match cards case OneCard(c) => [c] case SeveralCards(cs) => cs;
      discardPile := discardPile + list;
    }
  }
}
