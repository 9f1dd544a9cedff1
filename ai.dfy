// The AI decision engine of the TypeScript generation (src/core/ai.ts): map
// analysis, greedy deployment, scored attack selection and fortification.
//
// Scores that the source computes with fractional factors (`* 1.3`, `/ 1.5`,
// `bonus / 10`) are `real`s. Every `Math.random()` call is a draw from an
// explicit stream `rng`, counted from `k0`.
module Ai {
  import opened Util
  import opened Logic
  import Rand

  datatype Difficulty = Easy | Medium | Hard | Unrecognised

  /** `continentData`: continent keys with their data, in ascending key order. */
  type ContinentTable = seq<(int, Continent)>

  datatype ContinentStatus = ContinentStatus(ownedCount: int, totalCount: int, isOwned: bool)

  datatype Analysis = Analysis(
    owned: seq<Territory>,
    borders: seq<Territory>,
    internal: seq<Territory>,
    threats: map<int, int>,
    status: seq<ContinentStatus>,
    chokepoints: seq<int>)

  // ---------------------------------------------------------------------
  // Map analysis: specification

  /** `nid` names a territory that exists and belongs to someone else. */
  predicate EnemyAt(board: seq<Territory>, p: int, nid: int) {
    Lookup(board, nid).Some? && Lookup(board, nid).value.owner != p
  }

  /** At least one neighbour of `t` is an existing enemy territory. */
  predicate IsBorder(board: seq<Territory>, p: int, t: Territory) {
    exists k :: 0 <= k < |t.neighbors| && EnemyAt(board, p, t.neighbors[k])
  }

  /** The owned entries are those of `scan` the player owns. */
  lemma {:induction false} OwnedMembers(scan: seq<Territory>, p: int)
    ensures forall t :: t in Owned(scan, p) <==> t in scan && t.owner == p
  {
    if scan != [] {
      OwnedMembers(scan[..|scan| - 1], p);
      assert scan == scan[..|scan| - 1] + [scan[|scan| - 1]];
    }
  }

  /** The borders are the owned entries of `scan` with an enemy neighbour. */
  lemma {:induction false} BordersMembers(scan: seq<Territory>, board: seq<Territory>, p: int)
    ensures forall t :: t in Borders(scan, board, p) <==> t in scan && t.owner == p && IsBorder(board, p, t)
  {
    if scan != [] {
      BordersMembers(scan[..|scan| - 1], board, p);
      assert scan == scan[..|scan| - 1] + [scan[|scan| - 1]];
    }
  }

  /** The internal territories are the owned entries of `scan` without an enemy neighbour. */
  lemma {:induction false} InternalMembers(scan: seq<Territory>, board: seq<Territory>, p: int)
    ensures forall t :: t in Internal(scan, board, p) <==> t in scan && t.owner == p && !IsBorder(board, p, t)
  {
    if scan != [] {
      InternalMembers(scan[..|scan| - 1], board, p);
      assert scan == scan[..|scan| - 1] + [scan[|scan| - 1]];
    }
  }

  /** The threats are keyed by the ids of the owned borders of `scan`. */
  lemma {:induction false} ThreatsKeys(scan: seq<Territory>, board: seq<Territory>, p: int)
    ensures forall id :: id in Threats(scan, board, p) <==>
              exists t :: t in scan && t.owner == p && IsBorder(board, p, t) && t.id == id
  {
    if scan != [] {
      ThreatsKeys(scan[..|scan| - 1], board, p);
      assert scan == scan[..|scan| - 1] + [scan[|scan| - 1]];
    }
  }

  /** The troops on the existing enemy territories among `nbrs`. */
  function Threat(board: seq<Territory>, p: int, nbrs: seq<int>): int {
    if nbrs == [] then 0
    else
      var nid := nbrs[|nbrs| - 1];
      Threat(board, p, nbrs[..|nbrs| - 1]) + (if EnemyAt(board, p, nid) then Lookup(board, nid).value.troops else 0)
  }

  /** The entries of `scan` the player owns, in order. */
  function Owned(scan: seq<Territory>, p: int): seq<Territory> {
    if scan == [] then []
    else Owned(scan[..|scan| - 1], p) + (if scan[|scan| - 1].owner == p then [scan[|scan| - 1]] else [])
  }

  /** The owned entries of `scan` with an enemy neighbour, in order. */
  function Borders(scan: seq<Territory>, board: seq<Territory>, p: int): seq<Territory> {
    if scan == [] then []
    else
      var t := scan[|scan| - 1];
      Borders(scan[..|scan| - 1], board, p) + (if t.owner == p && IsBorder(board, p, t) then [t] else [])
  }

  /** The owned entries of `scan` without an enemy neighbour, in order. */
  function Internal(scan: seq<Territory>, board: seq<Territory>, p: int): seq<Territory> {
    if scan == [] then []
    else
      var t := scan[|scan| - 1];
      Internal(scan[..|scan| - 1], board, p) + (if t.owner == p && !IsBorder(board, p, t) then [t] else [])
  }

  /** The threat of every owned border of `scan`, by id. */
  function Threats(scan: seq<Territory>, board: seq<Territory>, p: int): map<int, int> {
    if scan == [] then map[]
    else
      var t := scan[|scan| - 1];
      var m := Threats(scan[..|scan| - 1], board, p);
      if t.owner == p && IsBorder(board, p, t) then m[t.id := Threat(board, p, t.neighbors)] else m
  }

  /** How many entries of `scan` the player owns among the ids `tids`. */
  function OwnedCount(scan: seq<Territory>, p: int, tids: seq<int>): nat {
    if scan == [] then 0
    else OwnedCount(scan[..|scan| - 1], p, tids) + (if scan[|scan| - 1].id in tids && scan[|scan| - 1].owner == p then 1 else 0)
  }

  function Status(board: seq<Territory>, p: int, tids: seq<int>): ContinentStatus {
    var owned := OwnedCount(board, p, tids);
    ContinentStatus(owned, |tids|, owned == |tids|)
  }

  /** A continent the player holds, or holds but for one territory. */
  predicate NearlyOwned(s: ContinentStatus) {
    s.ownedCount >= s.totalCount - 1
  }

  /** The listed ids that are owned borders, in list order (`borders.includes(terr)`). */
  function ChokeOf(board: seq<Territory>, p: int, tids: seq<int>): seq<int> {
    if tids == [] then []
    else
      var tid := tids[|tids| - 1];
      var terr := Lookup(board, tid);
      ChokeOf(board, p, tids[..|tids| - 1]) +
        (if terr.Some? && terr.value.owner == p && terr.value in Borders(board, board, p) then [tid] else [])
  }

  function Chokepoints(board: seq<Territory>, p: int, cs: ContinentTable): seq<int> {
    if cs == [] then []
    else
      var tids := cs[|cs| - 1].1.territories;
      Chokepoints(board, p, cs[..|cs| - 1]) + (if NearlyOwned(Status(board, p, tids)) then ChokeOf(board, p, tids) else [])
  }

  /** What `analyzeMap` computes. */
  function Analyze(p: int, board: seq<Territory>, cs: ContinentTable): Analysis {
    Analysis(
      Owned(board, p),
      Borders(board, board, p),
      Internal(board, board, p),
      Threats(board, board, p),
      seq(|cs|, j requires 0 <= j < |cs| => Status(board, p, cs[j].1.territories)),
      Chokepoints(board, p, cs))
  }

  // ---------------------------------------------------------------------
  // Map analysis: properties

  /** Borders and internal territories split the owned ones. */
  lemma {:induction false} BordersInternalPartition(scan: seq<Territory>, board: seq<Territory>, p: int)
    ensures multiset(Owned(scan, p)) == multiset(Borders(scan, board, p)) + multiset(Internal(scan, board, p))
    ensures |Owned(scan, p)| == |Borders(scan, board, p)| + |Internal(scan, board, p)|
  {
    if scan != [] {
      BordersInternalPartition(scan[..|scan| - 1], board, p);
    }
  }

  /** In a valid board the threat recorded for a border is the troop sum of its enemy neighbours,
      and territories that are not owned borders have no entry. */
  lemma {:induction false} ThreatsExact(scan: seq<Territory>, board: seq<Territory>, p: int, t: Territory)
    requires ValidBoard(scan)
    requires t in scan
    ensures t.owner == p && IsBorder(board, p, t) ==>
              t.id in Threats(scan, board, p) && Threats(scan, board, p)[t.id] == Threat(board, p, t.neighbors)
    ensures !(t.owner == p && IsBorder(board, p, t)) ==> t.id !in Threats(scan, board, p)
    decreases |scan|, 1
  {
    if t == scan[|scan| - 1] {
      ThreatsOfLast(scan, board, p);
    } else {
      ThreatsOfEarlier(scan, board, p, t);
    }
  }

  /** `ThreatsExact` for the last territory scanned: no earlier one shares its id. */
  lemma ThreatsOfLast(scan: seq<Territory>, board: seq<Territory>, p: int)
    requires ValidBoard(scan) && scan != []
    ensures var t := scan[|scan| - 1];
      t.owner == p && IsBorder(board, p, t) ==>
        t.id in Threats(scan, board, p) && Threats(scan, board, p)[t.id] == Threat(board, p, t.neighbors)
    ensures var t := scan[|scan| - 1];
      !(t.owner == p && IsBorder(board, p, t)) ==> t.id !in Threats(scan, board, p)
  {
    ValidInit(scan);
    ThreatsKeys(scan[..|scan| - 1], board, p);
  }

  /** `ThreatsExact` for a territory scanned before the last one, from the shorter scan. */
  lemma {:induction false} ThreatsOfEarlier(scan: seq<Territory>, board: seq<Territory>, p: int, t: Territory)
    requires ValidBoard(scan) && t in scan && t != scan[|scan| - 1]
    ensures t.owner == p && IsBorder(board, p, t) ==>
              t.id in Threats(scan, board, p) && Threats(scan, board, p)[t.id] == Threat(board, p, t.neighbors)
    ensures !(t.owner == p && IsBorder(board, p, t)) ==> t.id !in Threats(scan, board, p)
    decreases |scan|, 0
  {
    var init := scan[..|scan| - 1];
    var last := scan[|scan| - 1];
    ValidInit(scan);
    assert t in init by {
      var i :| 0 <= i < |scan| && scan[i] == t;
      assert i < |scan| - 1;
      assert init[i] == t;
    }
    ThreatsExact(init, board, p, t);
  }

  /** Every chokepoint is an owned border listed in a continent held but for at most one. */
  lemma {:induction false} ChokepointsAreHeldBorders(board: seq<Territory>, p: int, cs: ContinentTable, c: int)
    requires c in Chokepoints(board, p, cs)
    ensures Lookup(board, c).Some? && Lookup(board, c).value.owner == p && IsBorder(board, p, Lookup(board, c).value)
    ensures exists j :: 0 <= j < |cs| && c in cs[j].1.territories && NearlyOwned(Status(board, p, cs[j].1.territories))
  {
    var init := cs[..|cs| - 1];
    var tids := cs[|cs| - 1].1.territories;
    if c in Chokepoints(board, p, init) {
      ChokepointsAreHeldBorders(board, p, init, c);
      var j :| 0 <= j < |init| && c in init[j].1.territories && NearlyOwned(Status(board, p, init[j].1.territories));
      assert cs[j] == init[j];
    } else {
      assert NearlyOwned(Status(board, p, tids)) && c in ChokeOf(board, p, tids);
      ChokeOfIsHeldBorder(board, p, tids, c);
      BordersMembers(board, board, p);
      assert cs[|cs| - 1].1.territories == tids;
    }
  }

  lemma {:induction false} ChokeOfIsHeldBorder(board: seq<Territory>, p: int, tids: seq<int>, c: int)
    requires c in ChokeOf(board, p, tids)
    ensures c in tids && Lookup(board, c).Some? && Lookup(board, c).value.owner == p
    ensures Lookup(board, c).value in Borders(board, board, p)
  {
    var init := tids[..|tids| - 1];
    if c in ChokeOf(board, p, init) {
      ChokeOfIsHeldBorder(board, p, init, c);
      assert forall x :: x in init ==> x in tids;
    }
  }

  // ---------------------------------------------------------------------
  // Map analysis: the method

  /** `analyzeMap`: one pass over the territories that counts continent ownership and
      splits the owned territories into borders (with their threat) and internal ones,
      then a pass over the continents that marks chokepoints. */
  method AnalyzeMap(p: int, board: seq<Territory>, cs: ContinentTable) returns (a: Analysis)
    ensures a == Analyze(p, board, cs)
  {
    var owned, borders, internal, threats, counts := ScanTerritories(p, board, cs);
    var status, chokepoints := MarkContinents(p, board, cs, counts, borders);
    a := Analysis(owned, borders, internal, threats, status, chokepoints);
  }

  /** The `Object.values(territories).forEach` pass of `analyzeMap`. */
  method ScanTerritories(p: int, board: seq<Territory>, cs: ContinentTable)
    returns (owned: seq<Territory>, borders: seq<Territory>, internal: seq<Territory>, threats: map<int, int>, counts: seq<nat>)
    ensures owned == Owned(board, p)
    ensures borders == Borders(board, board, p)
    ensures internal == Internal(board, board, p)
    ensures threats == Threats(board, board, p)
    ensures |counts| == |cs|
    ensures forall j :: 0 <= j < |cs| ==> counts[j] == OwnedCount(board, p, cs[j].1.territories)
  {
    owned, borders, internal, threats := [], [], [], map[];
    counts := seq(|cs|, j => 0);
    var i := 0;
    while i < |board|
      invariant 0 <= i <= |board| && |counts| == |cs|
      invariant owned == Owned(board[..i], p)
      invariant borders == Borders(board[..i], board, p)
      invariant internal == Internal(board[..i], board, p)
      invariant threats == Threats(board[..i], board, p)
      invariant forall j :: 0 <= j < |cs| ==> counts[j] == OwnedCount(board[..i], p, cs[j].1.territories)
    {
      var t := board[i];
      assert board[..i + 1][..i] == board[..i] && board[..i + 1][i] == t;
      counts := CountContinents(p, board[..i + 1], cs, counts);
      if t.owner == p {
        owned := owned + [t];
        var isBorder, threat := ScanNeighbours(board, p, t);
        if isBorder {
          borders := borders + [t];
          threats := threats[t.id := threat];
        } else {
          internal := internal + [t];
        }
      }
      i := i + 1;
    }
    assert board[..i] == board;
  }

  /** The `Object.entries(continentData).forEach` step for the last territory of `scan`. */
  method CountContinents(p: int, scan: seq<Territory>, cs: ContinentTable, counts0: seq<nat>) returns (counts: seq<nat>)
    requires scan != [] && |counts0| == |cs|
    requires forall c :: 0 <= c < |cs| ==> counts0[c] == OwnedCount(scan[..|scan| - 1], p, cs[c].1.territories)
    ensures |counts| == |cs|
    ensures forall c :: 0 <= c < |cs| ==> counts[c] == OwnedCount(scan, p, cs[c].1.territories)
  {
    var t := scan[|scan| - 1];
    counts := counts0;
    var j := 0;
    while j < |cs|
      invariant 0 <= j <= |cs| && |counts| == |cs|
      invariant forall c :: 0 <= c < j ==> counts[c] == OwnedCount(scan, p, cs[c].1.territories)
      invariant forall c :: j <= c < |cs| ==> counts[c] == counts0[c]
    {
      if t.id in cs[j].1.territories && t.owner == p {
        counts := counts[j := counts[j] + 1];
      }
      j := j + 1;
    }
  }

  /** The `Object.keys(continentStatus).forEach` pass of `analyzeMap`. */
  method MarkContinents(p: int, board: seq<Territory>, cs: ContinentTable, counts: seq<nat>, borders: seq<Territory>)
    returns (status: seq<ContinentStatus>, chokepoints: seq<int>)
    requires |counts| == |cs|
    requires forall j :: 0 <= j < |cs| ==> counts[j] == OwnedCount(board, p, cs[j].1.territories)
    requires borders == Borders(board, board, p)
    ensures status == seq(|cs|, j requires 0 <= j < |cs| => Status(board, p, cs[j].1.territories))
    ensures chokepoints == Chokepoints(board, p, cs)
  {
    status := seq(|cs|, j requires 0 <= j < |cs| => ContinentStatus(counts[j], |cs[j].1.territories|, false));
    chokepoints := [];
    var k := 0;
    while k < |cs|
      invariant 0 <= k <= |cs| && |status| == |cs|
      invariant forall j :: 0 <= j < k ==> status[j] == Status(board, p, cs[j].1.territories)
      invariant forall j :: k <= j < |cs| ==> status[j] == ContinentStatus(counts[j], |cs[j].1.territories|, false)
      invariant chokepoints == Chokepoints(board, p, cs[..k])
    {
      var s := status[k];
      status := status[k := s.(isOwned := s.ownedCount == s.totalCount)];
      assert cs[..k + 1][..k] == cs[..k] && cs[..k + 1][k] == cs[k];
      if status[k].ownedCount >= status[k].totalCount - 1 {
        var found := ChokeScan(p, board, cs[k].1.territories, borders);
        chokepoints := chokepoints + found;
      }
      k := k + 1;
    }
    assert cs[..k] == cs;
  }

  /** The `contTerritories.forEach` of a continent held but for at most one territory. */
  method ChokeScan(p: int, board: seq<Territory>, tids: seq<int>, borders: seq<Territory>) returns (found: seq<int>)
    requires borders == Borders(board, board, p)
    ensures found == ChokeOf(board, p, tids)
  {
    found := [];
    var m := 0;
    while m < |tids|
      invariant 0 <= m <= |tids|
      invariant found == ChokeOf(board, p, tids[..m])
    {
      assert tids[..m + 1][..m] == tids[..m];
      var terr := Lookup(board, tids[m]);
      if terr.Some? && terr.value.owner == p && terr.value in borders {
        found := found + [tids[m]];
      }
      m := m + 1;
    }
    assert tids[..m] == tids;
  }

  /** The `t.neighbors.forEach` of `analyzeMap`: whether an enemy neighbour exists and
      the sum of enemy-neighbour troops. */
  method ScanNeighbours(board: seq<Territory>, p: int, t: Territory) returns (isBorder: bool, threat: int)
    ensures isBorder == IsBorder(board, p, t)
    ensures threat == Threat(board, p, t.neighbors)
  {
    isBorder := false;
    threat := 0;
    var k := 0;
    while k < |t.neighbors|
      invariant 0 <= k <= |t.neighbors|
      invariant isBorder <==> exists m :: 0 <= m < k && EnemyAt(board, p, t.neighbors[m])
      invariant threat == Threat(board, p, t.neighbors[..k])
    {
      assert t.neighbors[..k + 1][..k] == t.neighbors[..k];
      var neighbor := Lookup(board, t.neighbors[k]);
      if neighbor.Some? && neighbor.value.owner != p {
        isBorder := true;
        threat := threat + neighbor.value.troops;
      }
      k := k + 1;
    }
    assert t.neighbors[..k] == t.neighbors;
  }

  // ---------------------------------------------------------------------
  // Deployment: specification

  /** `territoryInfo`: the continent of each territory id that has an entry. */
  type TerritoryInfo = map<int, int>

  /** Scanning `vals` left to right and keeping an eligible value only when it beats the
      best so far strictly, starting from `floor`: the best value and its index, or
      (`floor`, -1) when no eligible value beats `floor`. */
  function FirstMax(vals: seq<real>, ok: seq<bool>, floor: real): (r: (real, int))
    requires |ok| == |vals|
    ensures -1 <= r.1 < |vals|
  {
    if vals == [] then (floor, -1)
    else
      var n := |vals| - 1;
      var prev := FirstMax(vals[..n], ok[..n], floor);
      if ok[n] && vals[n] > prev.0 then (vals[n], n) else prev
  }

  /** The scan finds the first eligible maximum: nothing eligible exceeds it, nothing
      eligible before it equals it, and it is -1 only when nothing eligible beats `floor`. */
  lemma {:induction false} FirstMaxIsFirstBest(vals: seq<real>, ok: seq<bool>, floor: real)
    requires |ok| == |vals|
    ensures var r := FirstMax(vals, ok, floor);
            && r.0 >= floor
            && (r.1 == -1 ==> r.0 == floor)
            && (r.1 >= 0 ==> ok[r.1] && r.0 == vals[r.1] && r.0 > floor)
            && (forall i :: 0 <= i < |vals| && ok[i] ==> vals[i] <= r.0)
            && (r.1 >= 0 ==> forall i :: 0 <= i < r.1 && ok[i] ==> vals[i] < r.0)
  {
    if vals != [] {
      var n := |vals| - 1;
      FirstMaxIsFirstBest(vals[..n], ok[..n], floor);
    }
  }

  /** `ownedCount / totalCount`; a continent with no territories is always owned and skipped. */
  function Pct(s: ContinentStatus): real {
    if s.totalCount == 0 then 0.0 else (s.ownedCount as real) / (s.totalCount as real)
  }

  /** The continent weight of the target-continent loop and whether the continent competes. */
  function TargetWeight(diff: Difficulty, s: ContinentStatus, bonus: int): real {
    if diff == Medium then Pct(s) else Pct(s) + (bonus as real) / 10.0
  }

  predicate TargetEligible(diff: Difficulty, s: ContinentStatus) {
    !s.isOwned && s.totalCount != 0 && (if diff == Medium then Pct(s) > 0.4 else Pct(s) > 0.0)
  }

  /** MEDIUM aims at the unowned continent it holds the largest share of (over 40%); HARD at the
      one with the best share plus a tenth of its bonus among those it has a foothold in.
      Ties go to the lowest key. */
  function TargetContinent(diff: Difficulty, status: seq<ContinentStatus>, cs: ContinentTable): (r: Option<int>)
    requires |status| == |cs|
  {
    var best := FirstMax(seq(|cs|, j requires 0 <= j < |cs| => TargetWeight(diff, status[j], cs[j].1.bonus)),
                         seq(|cs|, j requires 0 <= j < |cs| => TargetEligible(diff, status[j])),
                         if diff == Medium then 0.0 else -1.0);
    if best.1 == -1 then None else Some(cs[best.1].0)
  }

  /** `analysis.threats[id] || 0`. */
  function ThreatOf(threats: map<int, int>, id: int): int {
    if id in threats then threats[id] else 0
  }

  /** `territoryInfo[id]?.continent`. */
  function ContinentOfId(info: TerritoryInfo, id: int): Option<int> {
    if id in info then Some(info[id]) else None
  }

  /** Every neighbour id of `t` names an existing territory. */
  predicate NeighboursExist(board: seq<Territory>, t: Territory) {
    forall k :: 0 <= k < |t.neighbors| ==> HasId(board, t.neighbors[k])
  }

  /** Some neighbour is an enemy territory inside continent `c`. */
  predicate HasEnemyIn(board: seq<Territory>, p: int, info: TerritoryInfo, c: int, t: Territory) {
    exists k :: 0 <= k < |t.neighbors| && EnemyAt(board, p, t.neighbors[k]) && ContinentOfId(info, t.neighbors[k]) == Some(c)
  }

  /** The static deployment score of an owned territory: chokepoints first, then the
      target continent, then general border defence. */
  function DeployScore(diff: Difficulty, a: Analysis, board: seq<Territory>, p: int, info: TerritoryInfo,
                       target: Option<int>, t: Territory): (s: real)
    ensures s >= 0.0
  {
    var threat := ThreatOf(a.threats, t.id);
    var inTarget := target.Some? && ContinentOfId(info, t.id) == target;
    var hasEnemy := inTarget && HasEnemyIn(board, p, info, target.value, t);
    var choke := t.id in a.chokepoints;
    var border := t in a.borders;
    var excess := if threat > t.troops then threat - t.troops else 0;
    if diff == Medium then
      (if choke then 200.0 + (if (t.troops as real) < (threat as real) * 1.3 then 50.0 else 0.0) else 0.0) +
      (if inTarget then 40.0 + (if hasEnemy then 50.0 else 0.0) else 0.0) +
      (if border then 15.0 + (excess as real) else 0.0)
    else
      (if choke then 500.0 + (if (t.troops as real) < (threat as real) * 1.5 then 200.0 else 0.0) else 0.0) +
      (if inTarget then 100.0 + (if hasEnemy then 150.0 else 0.0) else 0.0) +
      (if border then 20.0 + (2 * excess) as real else 0.0)
  }

  /** The score of a territory holding `current` troops after this turn's earlier units:
      MEDIUM divides by 1.5 above 1.5·threat + 3 and HARD by 2 above 2·threat + 5. */
  function DynScore(diff: Difficulty, score: real, current: int, threat: int): (d: real)
    ensures score >= 0.0 ==> 0.0 <= d <= score
  {
    if diff == Medium then
      if (current as real) > (threat as real) * 1.5 + 3.0 && threat > 0 then score / 1.5 else score
    else
      if current > threat * 2 + 5 && threat > 0 then score / 2.0 else score
  }

  function DynScores(diff: Difficulty, owned: seq<Territory>, scores: seq<real>, threats: seq<int>, added: seq<int>): (d: seq<real>)
    requires |scores| == |owned| && |threats| == |owned| && |added| == |owned|
    ensures |d| == |owned|
  {
    seq(|owned|, i requires 0 <= i < |owned| => DynScore(diff, scores[i], owned[i].troops + added[i], threats[i]))
  }

  function GreedyFloor(diff: Difficulty): real {
    if diff == Medium then -1.0 else -9999.0
  }

  /** The territory that receives the next unit: the first with a score above the
      floor that no earlier one matches, or the first owned one when none beats the floor. */
  function GreedyPick(diff: Difficulty, owned: seq<Territory>, scores: seq<real>, threats: seq<int>, added: seq<int>): (i: nat)
    requires |owned| > 0
    requires |scores| == |owned| && |threats| == |owned| && |added| == |owned|
    ensures i < |owned|
  {
    var best := FirstMax(DynScores(diff, owned, scores, threats, added), seq(|owned|, _ => true), GreedyFloor(diff));
    if best.1 == -1 then 0 else best.1
  }

  /** Each unit goes to a territory whose dynamic score is the highest; among equals, to
      the earliest in `owned` order. (Scores are never negative, so the fallback to the
      first owned territory is never taken.) */
  lemma {:induction false} GreedyPickIsBest(diff: Difficulty, owned: seq<Territory>, scores: seq<real>, threats: seq<int>, added: seq<int>)
    requires |owned| > 0
    requires |scores| == |owned| && |threats| == |owned| && |added| == |owned|
    requires forall j :: 0 <= j < |scores| ==> scores[j] >= 0.0
    ensures var i := GreedyPick(diff, owned, scores, threats, added);
            var d := DynScores(diff, owned, scores, threats, added);
            (forall j :: 0 <= j < |owned| ==> d[j] <= d[i]) && (forall j :: 0 <= j < i ==> d[j] < d[i])
  {
    var d := DynScores(diff, owned, scores, threats, added);
    var all := seq(|owned|, _ => true);
    FirstMaxIsFirstBest(d, all, GreedyFloor(diff));
    assert d[0] >= 0.0 > GreedyFloor(diff);
    assert FirstMax(d, all, GreedyFloor(diff)).1 != -1;
  }

  /** `n` greedy units, one at a time. */
  function Greedy(diff: Difficulty, owned: seq<Territory>, scores: seq<real>, threats: seq<int>, added: seq<int>, n: nat): (r: seq<int>)
    requires |owned| > 0
    requires |scores| == |owned| && |threats| == |owned| && |added| == |owned|
    ensures |r| == |owned|
    decreases n
  {
    if n == 0 then added
    else
      var i := GreedyPick(diff, owned, scores, threats, added);
      Greedy(diff, owned, scores, threats, added[i := added[i] + 1], n - 1)
  }

  /** Greedy placement adds exactly `n` units and takes none away. */
  lemma {:induction false} GreedyAddsN(diff: Difficulty, owned: seq<Territory>, scores: seq<real>, threats: seq<int>, added: seq<int>, n: nat)
    requires |owned| > 0
    requires |scores| == |owned| && |threats| == |owned| && |added| == |owned|
    requires forall j :: 0 <= j < |scores| ==> scores[j] >= 0.0
    ensures var r := Greedy(diff, owned, scores, threats, added, n);
            Sum(r) == Sum(added) + n && forall j :: 0 <= j < |owned| ==> r[j] >= added[j]
    decreases n
  {
    if n > 0 {
      var i := GreedyPick(diff, owned, scores, threats, added);
      SumIncrement(added, i);
      GreedyAddsN(diff, owned, scores, threats, added[i := added[i] + 1], n - 1);
    }
  }

  /** One unit of the greedy loop. */
  lemma GreedyStep(diff: Difficulty, owned: seq<Territory>, scores: seq<real>, threats: seq<int>, added: seq<int>, n: nat)
    requires |owned| > 0 && n > 0
    requires |scores| == |owned| && |threats| == |owned| && |added| == |owned|
    ensures var i := GreedyPick(diff, owned, scores, threats, added);
            Greedy(diff, owned, scores, threats, added, n) == Greedy(diff, owned, scores, threats, added[i := added[i] + 1], n - 1)
  {
  }

  /** EASY: `n` units, each on `owned[floor(random · |owned|)]`. */
  function EasySpread(owned: seq<Territory>, rng: Rand.Stream, k: nat, added: seq<int>, n: nat): (r: seq<int>)
    requires |owned| > 0 && |added| == |owned|
    requires Rand.Unit(rng)
    ensures |r| == |owned|
    decreases n
  {
    if n == 0 then added
    else
      var i := Rand.Index(rng(k), |owned|);
      EasySpread(owned, rng, k + 1, added[i := added[i] + 1], n - 1)
  }

  /** Random placement adds exactly `n` units and takes none away. */
  lemma {:induction false} EasySpreadAddsN(owned: seq<Territory>, rng: Rand.Stream, k: nat, added: seq<int>, n: nat)
    requires |owned| > 0 && |added| == |owned|
    requires Rand.Unit(rng)
    ensures var r := EasySpread(owned, rng, k, added, n);
            Sum(r) == Sum(added) + n && forall j :: 0 <= j < |owned| ==> r[j] >= added[j]
    decreases n
  {
    if n > 0 {
      var i := Rand.Index(rng(k), |owned|);
      SumIncrement(added, i);
      EasySpreadAddsN(owned, rng, k + 1, added[i := added[i] + 1], n - 1);
    }
  }

  lemma {:induction false} SumIncrement(s: seq<int>, i: nat)
    requires i < |s|
    ensures Sum(s[i := s[i] + 1]) == Sum(s) + 1
  {
    var n := |s| - 1;
    if i < n {
      assert s[i := s[i] + 1][..n] == s[..n][i := s[i] + 1];
      SumIncrement(s[..n], i);
    } else {
      assert s[i := s[i] + 1][..n] == s[..n];
    }
  }

  /** The deployment record: `(id, amount)` for every owned territory that received
      units, in ascending id order (the order of the record's keys). */
  function Deployments(owned: seq<Territory>, added: seq<int>): seq<(int, int)>
    requires |added| == |owned|
  {
    if owned == [] then []
    else
      var n := |owned| - 1;
      Deployments(owned[..n], added[..n]) + (if added[n] > 0 then [(owned[n].id, added[n])] else [])
  }

  function SumAmounts(d: seq<(int, int)>): int {
    if d == [] then 0 else SumAmounts(d[..|d| - 1]) + d[|d| - 1].1
  }

  /** The record holds every unit, and only positive amounts for owned ids. */
  lemma {:induction false} DeploymentsFacts(owned: seq<Territory>, added: seq<int>)
    requires |added| == |owned|
    requires forall j :: 0 <= j < |added| ==> added[j] >= 0
    ensures SumAmounts(Deployments(owned, added)) == Sum(added)
    ensures forall e :: e in Deployments(owned, added) ==> e.1 > 0 && exists t :: t in owned && t.id == e.0
  {
    if owned != [] {
      var n := |owned| - 1;
      DeploymentsFacts(owned[..n], added[..n]);
      var d := Deployments(owned, added);
      var prev := Deployments(owned[..n], added[..n]);
      if added[n] > 0 {
        assert d[..|d| - 1] == prev;
      } else {
        assert d == prev;
      }
      forall e | e in d ensures e.1 > 0 && exists t :: t in owned && t.id == e.0 {
        if e in prev {
          var t :| t in owned[..n] && t.id == e.0;
          assert t in owned;
        } else {
          assert owned[n] in owned;
        }
      }
    }
  }

  function Zeros(n: nat): (z: seq<int>)
    ensures |z| == n && Sum(z) == 0 && forall j :: 0 <= j < n ==> z[j] == 0
  {
    if n == 0 then [] else Zeros(n - 1) + [0]
  }

  /** The static scores of the owned territories, in `owned` order. */
  function Scores(diff: Difficulty, a: Analysis, board: seq<Territory>, p: int, info: TerritoryInfo, target: Option<int>): (s: seq<real>)
    ensures |s| == |a.owned|
    ensures forall j :: 0 <= j < |s| ==> s[j] >= 0.0
  {
    seq(|a.owned|, i requires 0 <= i < |a.owned| => DeployScore(diff, a, board, p, info, target, a.owned[i]))
  }

  function OwnedThreats(a: Analysis): (t: seq<int>)
    ensures |t| == |a.owned|
  {
    seq(|a.owned|, i requires 0 <= i < |a.owned| => ThreatOf(a.threats, a.owned[i].id))
  }

  /** What `getDeployments` computes; `n` is the number of units (`reinforcements` when positive). */
  function DeploySpec(p: int, diff: Difficulty, n: nat, board: seq<Territory>, cs: ContinentTable, info: TerritoryInfo,
                      rng: Rand.Stream, k0: nat): (d: seq<(int, int)>)
    requires Rand.Unit(rng)
  {
    var a := Analyze(p, board, cs);
    if a.owned == [] || diff == Unrecognised then []
    else if diff == Easy then Deployments(a.owned, EasySpread(a.owned, rng, k0, Zeros(|a.owned|), n))
    else
      var target := TargetContinent(diff, a.status, cs);
      Deployments(a.owned, Greedy(diff, a.owned, Scores(diff, a, board, p, info, target), OwnedThreats(a), Zeros(|a.owned|), n))
  }

  /** Every unit is placed, on a territory of the player's: the amounts sum to the
      reinforcements and every key is an owned id. Nothing is placed for a player with
      no territories or an unrecognised difficulty. */
  lemma {:induction false} DeploymentsConserve(p: int, diff: Difficulty, n: nat, board: seq<Territory>, cs: ContinentTable,
                                               info: TerritoryInfo, rng: Rand.Stream, k0: nat)
    requires Rand.Unit(rng)
    ensures var d := DeploySpec(p, diff, n, board, cs, info, rng, k0);
            && ((Owned(board, p) == [] || diff == Unrecognised) ==> d == [])
            && ((Owned(board, p) != [] && diff != Unrecognised) ==> SumAmounts(d) == n)
            && (forall e :: e in d ==> e.1 > 0 && exists t :: t in board && t.owner == p && t.id == e.0)
  {
    var a := Analyze(p, board, cs);
    OwnedMembers(board, p);
    if a.owned != [] && diff != Unrecognised {
      var added;
      if diff == Easy {
        added := EasySpread(a.owned, rng, k0, Zeros(|a.owned|), n);
        EasySpreadAddsN(a.owned, rng, k0, Zeros(|a.owned|), n);
      } else {
        var target := TargetContinent(diff, a.status, cs);
        var scores := Scores(diff, a, board, p, info, target);
        added := Greedy(diff, a.owned, scores, OwnedThreats(a), Zeros(|a.owned|), n);
        GreedyAddsN(diff, a.owned, scores, OwnedThreats(a), Zeros(|a.owned|), n);
      }
      DeploymentsFacts(a.owned, added);
    }
  }

  // ---------------------------------------------------------------------
  // Deployment: the method

  /** `getDeployments`: the units of `reinforcements` placed one at a time, at random
      (EASY) or greedily by dynamic score (MEDIUM, HARD). `k` counts the random draws used. */
  method GetDeployments(p: int, diff: Difficulty, reinforcements: int, board: seq<Territory>, cs: ContinentTable,
                        info: TerritoryInfo, rng: Rand.Stream, k0: nat) returns (deps: seq<(int, int)>, k: nat)
    requires Rand.Unit(rng)
    requires diff == Medium || diff == Hard ==> forall t :: t in board && t.owner == p ==> NeighboursExist(board, t)
    ensures deps == DeploySpec(p, diff, Max(0, reinforcements), board, cs, info, rng, k0)
    ensures k == if diff == Easy && Owned(board, p) != [] then k0 + Max(0, reinforcements) else k0
  {
    var a := AnalyzeMap(p, board, cs);
    var n: nat := Max(0, reinforcements);
    DeploySpecCases(p, diff, n, board, cs, info, rng, k0, a);
    deps, k := [], k0;
    if |a.owned| > 0 {
      if diff == Easy {
        var added;
        added, k := EasyDeploy(a.owned, n, rng, k0);
        deps := Deployments(a.owned, added);
      } else if diff == Medium || diff == Hard {
        var target := PickTargetContinent(diff, a.status, cs);
        var scores := ScoreOwned(diff, a, board, p, info, target);
        var added := GreedyDeploy(diff, a.owned, scores, OwnedThreats(a), n);
        deps := Deployments(a.owned, added);
      }
    }
  }

  /** `DeploySpec` read off a computed analysis, case by case. */
  lemma DeploySpecCases(p: int, diff: Difficulty, n: nat, board: seq<Territory>, cs: ContinentTable, info: TerritoryInfo,
                        rng: Rand.Stream, k0: nat, a: Analysis)
    requires Rand.Unit(rng) && a == Analyze(p, board, cs)
    ensures Owned(board, p) == a.owned
    ensures var d := DeploySpec(p, diff, n, board, cs, info, rng, k0);
            && (a.owned == [] || diff == Unrecognised ==> d == [])
            && (a.owned != [] && diff == Easy ==> d == Deployments(a.owned, EasySpread(a.owned, rng, k0, Zeros(|a.owned|), n)))
            && (a.owned != [] && (diff == Medium || diff == Hard) ==>
                  d == Deployments(a.owned, Greedy(diff, a.owned, Scores(diff, a, board, p, info, TargetContinent(diff, a.status, cs)),
                                                   OwnedThreats(a), Zeros(|a.owned|), n)))
  { }

  /** The EASY loop: each unit goes to a random owned territory. */
  method EasyDeploy(owned: seq<Territory>, n: nat, rng: Rand.Stream, k0: nat) returns (added: seq<int>, k: nat)
    requires |owned| > 0 && Rand.Unit(rng)
    ensures added == EasySpread(owned, rng, k0, Zeros(|owned|), n)
    ensures k == k0 + n
  {
    added := Zeros(|owned|);
    k := k0;
    ghost var spec := EasySpread(owned, rng, k, added, n);
    var remaining := n;
    while remaining > 0
      invariant |added| == |owned| && k == k0 + (n - remaining)
      invariant spec == EasySpread(owned, rng, k, added, remaining)
    {
      var i := Rand.Index(rng(k), |owned|);
      added := added[i := added[i] + 1];
      remaining := remaining - 1;
      k := k + 1;
    }
  }

  /** The target-continent loop over the continent statuses, in key order. */
  method PickTargetContinent(diff: Difficulty, status: seq<ContinentStatus>, cs: ContinentTable) returns (target: Option<int>)
    requires diff == Medium || diff == Hard
    requires |status| == |cs|
    ensures target == TargetContinent(diff, status, cs)
  {
    ghost var vals := seq(|cs|, j requires 0 <= j < |cs| => TargetWeight(diff, status[j], cs[j].1.bonus));
    ghost var ok := seq(|cs|, j requires 0 <= j < |cs| => TargetEligible(diff, status[j]));
    var floor: real := if diff == Medium then 0.0 else -1.0;
    var maxScore := floor;
    var best := -1;
    var j := 0;
    while j < |cs|
      invariant 0 <= j <= |cs|
      invariant (maxScore, best) == FirstMax(vals[..j], ok[..j], floor)
    {
      assert vals[..j + 1][..j] == vals[..j] && ok[..j + 1][..j] == ok[..j];
      var s := status[j];
      if !s.isOwned && s.totalCount != 0 {
        var pct := (s.ownedCount as real) / (s.totalCount as real);
        var score := if diff == Medium then pct else pct + (cs[j].1.bonus as real) / 10.0;
        var threshold := if diff == Medium then 0.4 else 0.0;
        if score > maxScore && pct > threshold {
          maxScore := score;
          best := j;
        }
      }
      j := j + 1;
    }
    assert vals[..j] == vals && ok[..j] == ok;
    target := if best == -1 then None else Some(cs[best].0);
  }

  /** The `analysis.owned.forEach` loop that fills `scores`. */
  method ScoreOwned(diff: Difficulty, a: Analysis, board: seq<Territory>, p: int, info: TerritoryInfo, target: Option<int>)
    returns (scores: seq<real>)
    ensures scores == Scores(diff, a, board, p, info, target)
  {
    scores := [];
    var i := 0;
    while i < |a.owned|
      invariant 0 <= i <= |a.owned| && |scores| == i
      invariant forall j :: 0 <= j < i ==> scores[j] == DeployScore(diff, a, board, p, info, target, a.owned[j])
    {
      scores := scores + [DeployScore(diff, a, board, p, info, target, a.owned[i])];
      i := i + 1;
    }
  }

  /** The greedy `while (remaining > 0)` loop of MEDIUM and HARD. */
  method GreedyDeploy(diff: Difficulty, owned: seq<Territory>, scores: seq<real>, threats: seq<int>, n: nat) returns (added: seq<int>)
    requires |owned| > 0
    requires |scores| == |owned| && |threats| == |owned|
    requires forall j :: 0 <= j < |scores| ==> scores[j] >= 0.0
    ensures added == Greedy(diff, owned, scores, threats, Zeros(|owned|), n)
  {
    added := Zeros(|owned|);
    ghost var spec := Greedy(diff, owned, scores, threats, added, n);
    var remaining := n;
    while remaining > 0
      invariant |added| == |owned|
      invariant spec == Greedy(diff, owned, scores, threats, added, remaining)
    {
      added := GreedyUnit(diff, owned, scores, threats, added, remaining, spec);
      remaining := remaining - 1;
    }
  }

  /** One pass of the greedy loop body: the unit goes to the pick, and what is
      left of the greedy run from the new state is the same run `spec`. */
  method GreedyUnit(diff: Difficulty, owned: seq<Territory>, scores: seq<real>, threats: seq<int>, added: seq<int>, remaining: nat,
                    ghost spec: seq<int>)
    returns (next: seq<int>)
    requires |owned| > 0 && remaining > 0
    requires |scores| == |owned| && |threats| == |owned| && |added| == |owned|
    requires forall j :: 0 <= j < |scores| ==> scores[j] >= 0.0
    requires spec == Greedy(diff, owned, scores, threats, added, remaining)
    ensures |next| == |owned|
    ensures spec == Greedy(diff, owned, scores, threats, next, remaining - 1)
  {
    var i := PickUnit(diff, owned, scores, threats, added);
    GreedyStep(diff, owned, scores, threats, added, remaining);
    next := added[i := added[i] + 1];
  }

  /** One pass of the `for (const t of analysis.owned)` pick, with the owned[0] fallback. */
  method PickUnit(diff: Difficulty, owned: seq<Territory>, scores: seq<real>, threats: seq<int>, added: seq<int>) returns (i: nat)
    requires |owned| > 0
    requires |scores| == |owned| && |threats| == |owned| && |added| == |owned|
    requires forall j :: 0 <= j < |scores| ==> scores[j] >= 0.0
    ensures i == GreedyPick(diff, owned, scores, threats, added)
  {
    ghost var d := DynScores(diff, owned, scores, threats, added);
    ghost var all := seq(|owned|, _ => true);
    var floor := GreedyFloor(diff);
    var best := -1;
    var maxScore := floor;
    var j := 0;
    while j < |owned|
      invariant 0 <= j <= |owned|
      invariant (maxScore, best) == FirstMax(d[..j], all[..j], floor)
    {
      assert d[..j + 1][..j] == d[..j] && all[..j + 1][..j] == all[..j];
      var current := owned[j].troops + added[j];
      var dynScore := DynScore(diff, scores[j], current, threats[j]);
      assert d[j] == dynScore && all[j];
      if dynScore > maxScore {
        maxScore := dynScore;
        best := j;
      }
      j := j + 1;
    }
    assert d[..j] == d && all[..j] == all;
    i := if best != -1 then best else 0;
  }

  // ---------------------------------------------------------------------
  // Attack choice: specification

  /** A scored attack: an owned source, an adjacent enemy target and its score. */
  datatype Candidate = Candidate(source: Territory, target: Territory, score: real)

  /** `myTerritories`: the player's territories with more than one troop, in key order. */
  function Attackers(board: seq<Territory>, p: int): (r: seq<Territory>)
    ensures forall t :: t in r <==> t in board && t.owner == p && t.troops > 1
  {
    if board == [] then []
    else
      var t := board[|board| - 1];
      Attackers(board[..|board| - 1], p) + (if t.owner == p && t.troops > 1 then [t] else [])
  }

  /** What reading one neighbour `nid` of source `s` needs: the territory itself and, for
      MEDIUM and HARD when it is an enemy's, the continents of both ends. */
  predicate PairReadable(diff: Difficulty, p: int, board: seq<Territory>, info: TerritoryInfo, s: Territory, nid: int) {
    && HasId(board, nid)
    && ((diff == Medium || diff == Hard) && EnemyAt(board, p, nid) ==> nid in info && s.id in info)
  }

  /** `j` indexes a neighbour of `s` that `s` may attack: `s` is the player's, has more
      than one troop, and the neighbour is an existing enemy territory. */
  predicate AttackPair(board: seq<Territory>, p: int, s: Territory, j: int) {
    s in board && s.owner == p && s.troops > 1 && 0 <= j < |s.neighbors| && EnemyAt(board, p, s.neighbors[j])
  }

  /** Every neighbour of every attacker can be read. */
  predicate AttackReadable(diff: Difficulty, p: int, board: seq<Territory>, info: TerritoryInfo) {
    forall s, k :: s in board && s.owner == p && s.troops > 1 && 0 <= k < |s.neighbors| ==>
      PairReadable(diff, p, board, info, s, s.neighbors[k])
  }

  /** The territories of continent `c` on the board and how many of them `o` owns:
      (owned by `o`, size). Territories without an info entry belong to no continent. */
  function Tally(board: seq<Territory>, info: TerritoryInfo, c: int, o: int): (r: (nat, nat))
    ensures r.0 <= r.1 <= |board|
  {
    if board == [] then (0, 0)
    else
      var t := board[|board| - 1];
      var prev := Tally(board[..|board| - 1], info, c, o);
      if ContinentOfId(info, t.id) == Some(c) then (prev.0 + (if t.owner == o then 1 else 0), prev.1 + 1)
      else prev
  }

  /** The MEDIUM or HARD score of attacking `t` from `s`, given the target owner's
      holding in the target's continent (`count` of `size`) and whether both lie in
      the same continent. */
  function ScoreFrom(diff: Difficulty, s: Territory, t: Territory, count: nat, size: nat, sameContinent: bool): int {
    var hasBonus := count == size;
    var nearBonus := count + 1 >= size;
    if diff == Medium then
      var score := (if s.troops > t.troops then 15 else 0)
                 + (if 10 * s.troops >= 13 * t.troops then 30 else 0)
                 - (if s.troops < t.troops then 100 else 0)
                 + (if hasBonus then 100 else if nearBonus then 40 else 0)
                 + (if sameContinent then 30 else 0)
                 + (if t.troops == 1 && s.troops > 2 then 10 else 0);
      if s.troops <= t.troops && !hasBonus then -500 else score
    else
      var score := (if s.troops > t.troops then 20 else 0)
                 + (if 2 * s.troops >= 3 * t.troops then 40 else 0)
                 - (if s.troops < t.troops then 200 else 0)
                 + (if hasBonus then 300 + (if t.owner == 0 then 200 else 0) else if nearBonus then 100 else 0)
                 + (if sameContinent then 50 else 0)
                 + (if s.troops > 8 && s.troops > 2 * t.troops then 60 else 0)
                 + (if t.troops == 1 then 15 else 0);
      if s.troops <= t.troops + 1 && !hasBonus then -1000 else score
  }

  /** The MEDIUM or HARD score of the pair, reading the continents from `info`. */
  function BattleScore(diff: Difficulty, board: seq<Territory>, info: TerritoryInfo, s: Territory, t: Territory): int
    requires s.id in info && t.id in info
  {
    var tally := Tally(board, info, info[t.id], t.owner);
    ScoreFrom(diff, s, t, tally.0, tally.1, info[s.id] == info[t.id])
  }

  /** One neighbour `nid` of `s` added to the candidates found so far (`prev`, with
      its next unused draw): EASY scores an enemy neighbour with a fresh draw times ten
      (when `s` has more than one troop), MEDIUM and HARD use `BattleScore`, any other
      difficulty scores 0; only a positive score is kept. */
  function PairStep(diff: Difficulty, p: int, board: seq<Territory>, info: TerritoryInfo, rng: Rand.Stream,
                    s: Territory, nid: int, prev: (seq<Candidate>, nat)): (r: (seq<Candidate>, nat))
    requires Rand.Unit(rng)
    requires PairReadable(diff, p, board, info, s, nid)
    ensures prev.1 <= r.1
  {
    var t := Lookup(board, nid).value;
    if t.owner == p then prev
    else
      var draws := diff == Easy && s.troops > 1;
      var score := if draws then Rand.Scale(rng(prev.1), 10)
                   else if diff == Medium || diff == Hard then BattleScore(diff, board, info, s, t) as real
                   else 0.0;
      var next := if draws then prev.1 + 1 else prev.1;
      if score > 0.0 then (prev.0 + [Candidate(s, t, score)], next) else (prev.0, next)
  }

  /** The candidates found among the neighbours `nbrs` of `s`, in order, and the next unused draw. */
  function Pairs(diff: Difficulty, p: int, board: seq<Territory>, info: TerritoryInfo, rng: Rand.Stream,
                 s: Territory, nbrs: seq<int>, k: nat): (r: (seq<Candidate>, nat))
    requires Rand.Unit(rng)
    requires forall j :: 0 <= j < |nbrs| ==> PairReadable(diff, p, board, info, s, nbrs[j])
    ensures k <= r.1
  {
    if nbrs == [] then ([], k)
    else PairStep(diff, p, board, info, rng, s, nbrs[|nbrs| - 1], Pairs(diff, p, board, info, rng, s, nbrs[..|nbrs| - 1], k))
  }

  /** The candidates of all sources `srcs`, in order, and the next unused draw. */
  function Candidates(diff: Difficulty, p: int, board: seq<Territory>, info: TerritoryInfo, rng: Rand.Stream,
                      srcs: seq<Territory>, k: nat): (r: (seq<Candidate>, nat))
    requires Rand.Unit(rng)
    requires forall s, j :: s in srcs && 0 <= j < |s.neighbors| ==> PairReadable(diff, p, board, info, s, s.neighbors[j])
    ensures k <= r.1
  {
    if srcs == [] then ([], k)
    else
      var s := srcs[|srcs| - 1];
      var prev := Candidates(diff, p, board, info, rng, srcs[..|srcs| - 1], k);
      var more := Pairs(diff, p, board, info, rng, s, s.neighbors, prev.1);
      (prev.0 + more.0, more.1)
  }

  /** Inserts `c` before the first entry with a lower score: after every entry
      scoring at least as much, so that equal scores keep their order. */
  function InsertDesc(sorted: seq<Candidate>, c: Candidate): (r: seq<Candidate>)
    ensures multiset(r) == multiset(sorted) + multiset{c}
    ensures |r| == |sorted| + 1
  {
    if sorted == [] then [c]
    else if sorted[0].score < c.score then [c] + sorted
    else
      assert sorted == [sorted[0]] + sorted[1..];
      [sorted[0]] + InsertDesc(sorted[1..], c)
  }

  /** `candidates.sort((a, b) => b.score - a.score)`: a stable sort by descending score. */
  function SortDesc(cs: seq<Candidate>): (r: seq<Candidate>)
    ensures |r| == |cs|
  {
    if cs == [] then [] else InsertDesc(SortDesc(cs[..|cs| - 1]), cs[|cs| - 1])
  }

  predicate Descending(s: seq<Candidate>) {
    forall i, j :: 0 <= i < j < |s| ==> s[i].score >= s[j].score
  }

  /** What `getNextAttack` returns, (source id, target id) or none, and the next unused draw. */
  function NextAttack(p: int, diff: Difficulty, board: seq<Territory>, info: TerritoryInfo, rng: Rand.Stream, k0: nat)
    : (r: (Option<(int, int)>, nat))
    requires Rand.Unit(rng)
    requires AttackReadable(diff, p, board, info)
  {
    var srcs := Attackers(board, p);
    if srcs == [] then (None, k0)
    else
      var found := Candidates(diff, p, board, info, rng, srcs, k0);
      if found.0 == [] then (None, found.1)
      else Pick(diff, SortDesc(found.0), rng, found.1)
  }

  /** The pick among the sorted candidates: any of them under EASY, one of the
      first three under MEDIUM (one draw each), the first otherwise. */
  function Pick(diff: Difficulty, sorted: seq<Candidate>, rng: Rand.Stream, k: nat): (r: (Option<(int, int)>, nat))
    requires Rand.Unit(rng) && sorted != []
  {
    var n := |sorted|;
    if diff == Easy then
      var c := sorted[Rand.Index(rng(k), n)];
      (Some((c.source.id, c.target.id)), k + 1)
    else if diff == Medium then
      var c := sorted[Rand.Index(rng(k), Min(n, 3))];
      (Some((c.source.id, c.target.id)), k + 1)
    else
      (Some((sorted[0].source.id, sorted[0].target.id)), k)
  }

  /** The score the pair (`s`, `nid`) gets under MEDIUM or HARD (0 where it cannot be read). */
  function PairScore(diff: Difficulty, board: seq<Territory>, info: TerritoryInfo, s: Territory, nid: int): int {
    if s.id in info && nid in info && HasId(board, nid) then BattleScore(diff, board, info, s, Lookup(board, nid).value) else 0
  }

  // ---------------------------------------------------------------------
  // Attack choice: properties

  lemma {:induction false} SortDescPermutes(cs: seq<Candidate>)
    ensures multiset(SortDesc(cs)) == multiset(cs)
  {
    if cs != [] {
      var n := |cs| - 1;
      SortDescPermutes(cs[..n]);
      assert cs == cs[..n] + [cs[n]];
    }
  }

  /** Inserting keeps a descending sequence descending; the new head is `c` exactly
      when it beats the old head strictly. */
  lemma {:induction false} InsertDescKeepsOrder(sorted: seq<Candidate>, c: Candidate)
    requires Descending(sorted)
    ensures Descending(InsertDesc(sorted, c))
    ensures InsertDesc(sorted, c)[0] == if sorted == [] || sorted[0].score < c.score then c else sorted[0]
  {
    if sorted != [] {
      var tail := sorted[1..];
      HeadBounds(sorted);
      if sorted[0].score < c.score {
        ConsDescending(c, sorted);
      } else {
        var rest := InsertDesc(tail, c);
        InsertDescKeepsOrder(tail, c);
        forall x | x in rest ensures sorted[0].score >= x.score {
          assert x in multiset(rest);
          assert x == c || x in multiset(tail);
        }
        ConsDescending(sorted[0], rest);
      }
    }
  }

  /** The head of a descending sequence scores at least as much as every entry. */
  lemma HeadBounds(s: seq<Candidate>)
    requires Descending(s) && s != []
    ensures forall y :: y in s ==> y.score <= s[0].score
    ensures Descending(s[1..])
  {
    forall y | y in s ensures y.score <= s[0].score {
      var k :| 0 <= k < |s| && s[k] == y;
      if k > 0 {
        assert s[0].score >= s[k].score;
      }
    }
    forall i, j | 0 <= i < j < |s| - 1 ensures s[1..][i].score >= s[1..][j].score {
      assert s[1..][i] == s[i + 1] && s[1..][j] == s[j + 1];
    }
  }

  /** An entry scoring at least as much as a descending sequence can go in front of it. */
  lemma ConsDescending(x: Candidate, s: seq<Candidate>)
    requires Descending(s) && forall y :: y in s ==> x.score >= y.score
    ensures Descending([x] + s)
  {
    var r := [x] + s;
    forall i, j | 0 <= i < j < |r| ensures r[i].score >= r[j].score {
      assert r[j] == s[j - 1];
      if i > 0 {
        assert r[i] == s[i - 1];
      } else {
        assert s[j - 1] in s;
      }
    }
  }

  lemma {:induction false} SortDescDescending(cs: seq<Candidate>)
    ensures Descending(SortDesc(cs))
  {
    if cs != [] {
      var n := |cs| - 1;
      SortDescDescending(cs[..n]);
      InsertDescKeepsOrder(SortDesc(cs[..n]), cs[n]);
    }
  }

  /** The head of the sorted candidates is the first candidate with the highest score:
      it sits at index `i`, nothing scores more, and everything before it scores less. */
  lemma {:induction false} SortHead(cs: seq<Candidate>) returns (i: nat)
    requires cs != []
    ensures i < |cs| && cs[i] == SortDesc(cs)[0]
    ensures forall c :: c in cs ==> c.score <= cs[i].score
    ensures forall j :: 0 <= j < i ==> cs[j].score < cs[i].score
  {
    var n := |cs| - 1;
    var x := cs[n];
    var pre := cs[..n];
    var prev := SortDesc(pre);
    assert SortDesc(cs) == InsertDesc(prev, x);
    SortDescDescending(pre);
    InsertDescKeepsOrder(prev, x);
    if n == 0 {
      assert prev == [];
      i := 0;
      ScoresBelow(cs, cs[i].score);
    } else {
      var i0 := SortHead(pre);
      assert cs[i0] == pre[i0] == prev[0];
      i := if prev[0].score < x.score then n else i0;
      assert cs[i] == SortDesc(cs)[0] && cs[i].score >= x.score && cs[i].score >= pre[i0].score;
      ScoresBelow(cs, cs[i].score);
      forall j | 0 <= j < i ensures cs[j].score < cs[i].score {
        assert cs[j] == pre[j];
      }
    }
  }

  /** A bound on every score of a non-empty sequence, from its front and its last entry. */
  lemma ScoresBelow(cs: seq<Candidate>, bound: real)
    requires cs != []
    requires forall c :: c in cs[..|cs| - 1] ==> c.score <= bound
    requires cs[|cs| - 1].score <= bound
    ensures forall c :: c in cs ==> c.score <= bound
  {
    assert cs == cs[..|cs| - 1] + [cs[|cs| - 1]];
  }

  /** What a candidate found among `nbrs` is: a pair from `s` to an existing enemy
      neighbour with a positive score; under MEDIUM and HARD the score is `BattleScore`,
      and every enemy neighbour whose `BattleScore` is positive is found. */
  lemma {:induction false} PairsMembers(diff: Difficulty, p: int, board: seq<Territory>, info: TerritoryInfo, rng: Rand.Stream,
                                        s: Territory, nbrs: seq<int>, k: nat)
    requires Rand.Unit(rng)
    requires forall j :: 0 <= j < |nbrs| ==> PairReadable(diff, p, board, info, s, nbrs[j])
    ensures var found := Pairs(diff, p, board, info, rng, s, nbrs, k).0;
            && (forall c :: c in found ==>
                  && c.source == s && c.target.id in nbrs && Lookup(board, c.target.id) == Some(c.target)
                  && c.target.owner != p && c.score > 0.0)
            && (diff == Medium || diff == Hard ==> forall c :: c in found ==>
                  c.score == PairScore(diff, board, info, s, c.target.id) as real)
            && (diff == Medium || diff == Hard ==> forall j :: 0 <= j < |nbrs| && EnemyAt(board, p, nbrs[j]) && PairScore(diff, board, info, s, nbrs[j]) > 0 ==>
                  Candidate(s, Lookup(board, nbrs[j]).value, PairScore(diff, board, info, s, nbrs[j]) as real) in found)
            && (diff == Unrecognised ==> found == [])
  {
    PairsSound(diff, p, board, info, rng, s, nbrs, k);
    PairsComplete(diff, p, board, info, rng, s, nbrs, k);
  }

  /** The first half of `PairsMembers`: what is found. */
  lemma {:induction false} PairsSound(diff: Difficulty, p: int, board: seq<Territory>, info: TerritoryInfo, rng: Rand.Stream,
                                      s: Territory, nbrs: seq<int>, k: nat)
    requires Rand.Unit(rng)
    requires forall j :: 0 <= j < |nbrs| ==> PairReadable(diff, p, board, info, s, nbrs[j])
    ensures var found := Pairs(diff, p, board, info, rng, s, nbrs, k).0;
            && (forall c :: c in found ==>
                  && c.source == s && c.target.id in nbrs && Lookup(board, c.target.id) == Some(c.target)
                  && c.target.owner != p && c.score > 0.0)
            && (diff == Medium || diff == Hard ==> forall c :: c in found ==>
                  c.score == PairScore(diff, board, info, s, c.target.id) as real)
            && (diff == Unrecognised ==> found == [])
  {
    if nbrs != [] {
      var n := |nbrs| - 1;
      PairsSound(diff, p, board, info, rng, s, nbrs[..n], k);
      PairStepSound(diff, p, board, info, rng, s, nbrs[n], Pairs(diff, p, board, info, rng, s, nbrs[..n], k));
      assert forall x :: x in nbrs[..n] ==> x in nbrs;
    }
  }

  /** One step of `Pairs` keeps what was found and adds at most a positive candidate for `nid`. */
  lemma PairStepSound(diff: Difficulty, p: int, board: seq<Territory>, info: TerritoryInfo, rng: Rand.Stream,
                      s: Territory, nid: int, prev: (seq<Candidate>, nat))
    requires Rand.Unit(rng)
    requires PairReadable(diff, p, board, info, s, nid)
    ensures var r := PairStep(diff, p, board, info, rng, s, nid, prev).0;
            && (forall c :: c in r ==> (c in prev.0 ||
                  (&& c.source == s && c.target.id == nid && Lookup(board, c.target.id) == Some(c.target)
                   && c.target.owner != p && c.score > 0.0
                   && (diff == Medium || diff == Hard ==> c.score == PairScore(diff, board, info, s, c.target.id) as real))))
            && (diff == Unrecognised ==> r == prev.0)
  { }

  /** The second half of `PairsMembers`: under MEDIUM and HARD nothing positive is missed. */
  lemma {:induction false} PairsComplete(diff: Difficulty, p: int, board: seq<Territory>, info: TerritoryInfo, rng: Rand.Stream,
                                         s: Territory, nbrs: seq<int>, k: nat)
    requires Rand.Unit(rng)
    requires forall j :: 0 <= j < |nbrs| ==> PairReadable(diff, p, board, info, s, nbrs[j])
    ensures var found := Pairs(diff, p, board, info, rng, s, nbrs, k).0;
            diff == Medium || diff == Hard ==> forall j :: 0 <= j < |nbrs| && EnemyAt(board, p, nbrs[j]) && PairScore(diff, board, info, s, nbrs[j]) > 0 ==>
              Candidate(s, Lookup(board, nbrs[j]).value, PairScore(diff, board, info, s, nbrs[j]) as real) in found
  {
    if nbrs != [] && (diff == Medium || diff == Hard) {
      var n := |nbrs| - 1;
      PairsComplete(diff, p, board, info, rng, s, nbrs[..n], k);
      var found := Pairs(diff, p, board, info, rng, s, nbrs, k).0;
      var prev := Pairs(diff, p, board, info, rng, s, nbrs[..n], k).0;
      assert forall c :: c in prev ==> c in found;
      forall j | 0 <= j < |nbrs| && EnemyAt(board, p, nbrs[j]) && PairScore(diff, board, info, s, nbrs[j]) > 0
        ensures Candidate(s, Lookup(board, nbrs[j]).value, PairScore(diff, board, info, s, nbrs[j]) as real) in found
      {
        if j < n {
          assert nbrs[..n][j] == nbrs[j];
        }
      }
    }
  }

  /** `PairsMembers` lifted to every source in `srcs`. */
  lemma {:induction false} CandidatesMembers(diff: Difficulty, p: int, board: seq<Territory>, info: TerritoryInfo, rng: Rand.Stream,
                                             srcs: seq<Territory>, k: nat)
    requires Rand.Unit(rng)
    requires forall s, j :: s in srcs && 0 <= j < |s.neighbors| ==> PairReadable(diff, p, board, info, s, s.neighbors[j])
    ensures var found := Candidates(diff, p, board, info, rng, srcs, k).0;
            && (forall c :: c in found ==>
                  && c.source in srcs && c.target.id in c.source.neighbors && Lookup(board, c.target.id) == Some(c.target)
                  && c.target.owner != p && c.score > 0.0)
            && (diff == Medium || diff == Hard ==> forall c :: c in found ==>
                  c.score == PairScore(diff, board, info, c.source, c.target.id) as real)
            && (diff == Medium || diff == Hard ==> forall s, j ::
                  s in srcs && 0 <= j < |s.neighbors| && EnemyAt(board, p, s.neighbors[j]) && PairScore(diff, board, info, s, s.neighbors[j]) > 0 ==>
                  Candidate(s, Lookup(board, s.neighbors[j]).value, PairScore(diff, board, info, s, s.neighbors[j]) as real) in found)
            && (diff == Unrecognised ==> found == [])
  {
    if srcs != [] {
      var n := |srcs| - 1;
      var s := srcs[n];
      var prev := Candidates(diff, p, board, info, rng, srcs[..n], k);
      CandidatesMembers(diff, p, board, info, rng, srcs[..n], k);
      PairsMembers(diff, p, board, info, rng, s, s.neighbors, prev.1);
      assert srcs == srcs[..n] + [s];
    }
  }

  /** Whatever the difficulty, a chosen attack starts from a territory of the player's
      with more than one troop and targets an existing adjacent enemy territory, so it
      is a valid move on a well-formed board. */
  lemma {:induction false} AttackIsLegal(p: int, diff: Difficulty, board: seq<Territory>, info: TerritoryInfo, rng: Rand.Stream, k0: nat)
    requires Rand.Unit(rng)
    requires AttackReadable(diff, p, board, info)
    ensures var r := NextAttack(p, diff, board, info, rng, k0).0;
            r.Some? ==>
              && (exists s :: s in board && s.owner == p && s.troops > 1 && s.id == r.value.0 && r.value.1 in s.neighbors)
              && EnemyAt(board, p, r.value.1)
              && (ValidBoard(board) ==> IsValidMove(r.value.0, r.value.1, board))
    ensures diff == Unrecognised ==> NextAttack(p, diff, board, info, rng, k0).0 == None
  {
    var srcs := Attackers(board, p);
    CandidatesMembers(diff, p, board, info, rng, srcs, k0);
    if NextAttack(p, diff, board, info, rng, k0).0.Some? {
      var c := ChosenCandidate(p, diff, board, info, rng, k0);
      assert c.source in srcs;
      if ValidBoard(board) {
        var r := NextAttack(p, diff, board, info, rng, k0).0.value;
        IsValidMoveMeans(r.0, r.1, board);
      }
    }
  }

  /** Whatever the difficulty picks is one of the candidates. */
  lemma ChosenCandidate(p: int, diff: Difficulty, board: seq<Territory>, info: TerritoryInfo, rng: Rand.Stream, k0: nat)
    returns (c: Candidate)
    requires Rand.Unit(rng)
    requires AttackReadable(diff, p, board, info)
    requires NextAttack(p, diff, board, info, rng, k0).0.Some?
    ensures c in Candidates(diff, p, board, info, rng, Attackers(board, p), k0).0
    ensures NextAttack(p, diff, board, info, rng, k0).0 == Some((c.source.id, c.target.id))
  {
    var found := Candidates(diff, p, board, info, rng, Attackers(board, p), k0);
    var sorted := SortDesc(found.0);
    SortDescPermutes(found.0);
    var idx := if diff == Easy then Rand.Index(rng(found.1), |sorted|)
               else if diff == Medium then Rand.Index(rng(found.1), Min(|sorted|, 3))
               else 0;
    c := sorted[idx];
    assert c in multiset(found.0);
  }

  /** HARD attacks with the best-scoring pair: no pair of one of the player's territories
      (more than one troop) and an adjacent enemy scores more, and HARD does not attack
      exactly when no such pair scores above 0. */
  lemma {:induction false} HardAttackIsBest(p: int, board: seq<Territory>, info: TerritoryInfo, rng: Rand.Stream, k0: nat)
    requires Rand.Unit(rng)
    requires AttackReadable(Hard, p, board, info)
    ensures var r := NextAttack(p, Hard, board, info, rng, k0).0;
            && (r.None? <==> forall s, j :: AttackPair(board, p, s, j) ==> PairScore(Hard, board, info, s, s.neighbors[j]) <= 0)
            && (r.Some? ==> exists s, j ::
                  && AttackPair(board, p, s, j) && s.id == r.value.0 && s.neighbors[j] == r.value.1
                  && forall s', j' :: AttackPair(board, p, s', j') ==>
                       PairScore(Hard, board, info, s', s'.neighbors[j']) <= PairScore(Hard, board, info, s, s.neighbors[j]))
  {
    var srcs := Attackers(board, p);
    var found := Candidates(Hard, p, board, info, rng, srcs, k0);
    CandidatesMembers(Hard, p, board, info, rng, srcs, k0);
    if found.0 != [] {
      var best := SortHead(found.0);
      var h := SortDesc(found.0)[0];
      var j0 :| 0 <= j0 < |h.source.neighbors| && h.source.neighbors[j0] == h.target.id;
      assert AttackPair(board, p, h.source, j0);
      forall s', j | AttackPair(board, p, s', j)
        ensures PairScore(Hard, board, info, s', s'.neighbors[j]) <= PairScore(Hard, board, info, h.source, h.target.id)
      {
        if PairScore(Hard, board, info, s', s'.neighbors[j]) > 0 {
          assert s' in srcs;
          assert Candidate(s', Lookup(board, s'.neighbors[j]).value, PairScore(Hard, board, info, s', s'.neighbors[j]) as real) in found.0;
        }
      }
    }
  }

  /** The HARD safety rule: a positive score needs a margin of more than one troop,
      unless the target's owner holds its whole continent; MEDIUM needs any margin. */
  lemma AttackSafety(diff: Difficulty, s: Territory, t: Territory, count: nat, size: nat, sameContinent: bool)
    requires ScoreFrom(diff, s, t, count, size, sameContinent) > 0
    ensures diff == Medium ==> s.troops > t.troops || count == size
    ensures diff != Medium ==> s.troops > t.troops + 1 || count == size
  { }

  // ---------------------------------------------------------------------
  // Attack choice: the method

  /** `getNextAttack`: scores every (source, enemy neighbour) pair, sorts the positive
      ones by descending score and picks one by difficulty. `k` is the next unused draw. */
  method GetNextAttack(p: int, diff: Difficulty, board: seq<Territory>, info: TerritoryInfo, rng: Rand.Stream, k0: nat)
    returns (move: Option<(int, int)>, k: nat)
    requires Rand.Unit(rng)
    requires AttackReadable(diff, p, board, info)
    ensures (move, k) == NextAttack(p, diff, board, info, rng, k0)
  {
    var srcs := Attackers(board, p);
    if |srcs| == 0 {
      return None, k0;
    }
    AttackersReadable(p, diff, board, info);
    var candidates;
    candidates, k := CollectCandidates(p, diff, board, info, rng, srcs, k0);
    if |candidates| == 0 {
      return None, k;
    }
    move, k := PickAttack(diff, SortDesc(candidates), rng, k);
  }

  /** The `if` chain at the end of `getNextAttack`. */
  method PickAttack(diff: Difficulty, sorted: seq<Candidate>, rng: Rand.Stream, k0: nat) returns (move: Option<(int, int)>, k: nat)
    requires Rand.Unit(rng) && sorted != []
    ensures (move, k) == Pick(diff, sorted, rng, k0)
  {
    var c := sorted[0];
    k := k0;
    if diff == Easy {
      c := sorted[Rand.Index(rng(k), |sorted|)];
      k := k + 1;
    } else if diff == Medium {
      c := sorted[Rand.Index(rng(k), Min(|sorted|, 3))];
      k := k + 1;
    }
    move := Some((c.source.id, c.target.id));
  }

  /** Every pair from a territory that can attack can be scored. */
  lemma AttackersReadable(p: int, diff: Difficulty, board: seq<Territory>, info: TerritoryInfo)
    requires AttackReadable(diff, p, board, info)
    ensures forall s, j :: s in Attackers(board, p) && 0 <= j < |s.neighbors| ==> PairReadable(diff, p, board, info, s, s.neighbors[j])
  {
  }

  /** The outer `forEach` over the sources. */
  method CollectCandidates(p: int, diff: Difficulty, board: seq<Territory>, info: TerritoryInfo, rng: Rand.Stream,
                           srcs: seq<Territory>, k0: nat)
    returns (candidates: seq<Candidate>, k: nat)
    requires Rand.Unit(rng)
    requires forall s, j :: s in srcs && 0 <= j < |s.neighbors| ==> PairReadable(diff, p, board, info, s, s.neighbors[j])
    ensures (candidates, k) == Candidates(diff, p, board, info, rng, srcs, k0)
  {
    candidates := [];
    k := k0;
    var i := 0;
    while i < |srcs|
      invariant 0 <= i <= |srcs|
      invariant (candidates, k) == Candidates(diff, p, board, info, rng, srcs[..i], k0)
    {
      assert srcs[..i + 1][..i] == srcs[..i];
      var more;
      more, k := ScoreTargets(diff, p, board, info, rng, srcs[i], k);
      candidates := candidates + more;
      i := i + 1;
    }
    assert srcs[..i] == srcs;
  }

  /** The inner `forEach` over the neighbours of one source. */
  method ScoreTargets(diff: Difficulty, p: int, board: seq<Territory>, info: TerritoryInfo, rng: Rand.Stream, s: Territory, k0: nat)
    returns (found: seq<Candidate>, k: nat)
    requires Rand.Unit(rng)
    requires forall j :: 0 <= j < |s.neighbors| ==> PairReadable(diff, p, board, info, s, s.neighbors[j])
    ensures (found, k) == Pairs(diff, p, board, info, rng, s, s.neighbors, k0)
  {
    found := [];
    k := k0;
    var j := 0;
    while j < |s.neighbors|
      invariant 0 <= j <= |s.neighbors|
      invariant (found, k) == Pairs(diff, p, board, info, rng, s, s.neighbors[..j], k0)
    {
      PairsSnoc(diff, p, board, info, rng, s, s.neighbors, j, k0);
      found, k := ScorePair(diff, p, board, info, rng, s, s.neighbors[j], found, k);
      j := j + 1;
    }
    assert s.neighbors[..j] == s.neighbors;
  }

  /** `Pairs` over one more neighbour is one more `PairStep`. */
  lemma PairsSnoc(diff: Difficulty, p: int, board: seq<Territory>, info: TerritoryInfo, rng: Rand.Stream,
                  s: Territory, nbrs: seq<int>, j: nat, k0: nat)
    requires Rand.Unit(rng) && j < |nbrs|
    requires forall i :: 0 <= i < |nbrs| ==> PairReadable(diff, p, board, info, s, nbrs[i])
    ensures Pairs(diff, p, board, info, rng, s, nbrs[..j + 1], k0)
            == PairStep(diff, p, board, info, rng, s, nbrs[j], Pairs(diff, p, board, info, rng, s, nbrs[..j], k0))
  {
    assert nbrs[..j + 1][..j] == nbrs[..j];
  }

  /** The body of the inner `forEach`: one neighbour scored and, if positive, pushed. */
  method ScorePair(diff: Difficulty, p: int, board: seq<Territory>, info: TerritoryInfo, rng: Rand.Stream, s: Territory, nid: int,
                   found0: seq<Candidate>, k0: nat) returns (found: seq<Candidate>, k: nat)
    requires Rand.Unit(rng)
    requires PairReadable(diff, p, board, info, s, nid)
    ensures (found, k) == PairStep(diff, p, board, info, rng, s, nid, (found0, k0))
  {
    found, k := found0, k0;
    var t := Lookup(board, nid).value;
    if t.owner != p {
      var score: real := 0.0;
      if diff == Easy {
        if s.troops > 1 {
          score := Rand.Scale(rng(k), 10);
          k := k + 1;
        }
      } else if diff == Medium || diff == Hard {
        var count, size := TallyContinent(board, info, info[t.id], t.owner);
        score := ScoreFrom(diff, s, t, count, size, info[s.id] == info[t.id]) as real;
      }
      if score > 0.0 {
        found := found + [Candidate(s, t, score)];
      }
    }
  }

  /** The `forEach` that counts the target continent's size and its owner's share. */
  method TallyContinent(board: seq<Territory>, info: TerritoryInfo, c: int, o: int) returns (count: nat, size: nat)
    ensures (count, size) == Tally(board, info, c, o)
  {
    count, size := 0, 0;
    var i := 0;
    while i < |board|
      invariant 0 <= i <= |board|
      invariant (count, size) == Tally(board[..i], info, c, o)
    {
      assert board[..i + 1][..i] == board[..i];
      var t := board[i];
      if t.id in info && info[t.id] == c {
        size := size + 1;
        if t.owner == o {
          count := count + 1;
        }
      }
      i := i + 1;
    }
    assert board[..i] == board;
  }

  // ---------------------------------------------------------------------
  // Fortification: specification

  /** A considered fortification and its score. */
  datatype FortMove = FortMove(sourceId: int, targetId: int, amount: int, score: int)

  /** The score of moving from `s` to the owned neighbour `t`: the rise in threat
      times 5 (MEDIUM) or 10 (otherwise), plus 30 or 50 when an internal territory
      feeds a border. */
  function FortScore(diff: Difficulty, a: Analysis, s: Territory, t: Territory): int {
    var targetThreat := ThreatOf(a.threats, t.id);
    var sourceThreat := ThreatOf(a.threats, s.id);
    var perThreat := if diff == Medium then 5 else 10;
    var evacuate := if diff == Medium then 30 else 50;
    (if targetThreat > sourceThreat then (targetThreat - sourceThreat) * perThreat else 0)
      + (if s in a.internal && t in a.borders then evacuate else 0)
  }

  /** The move considered from `s` to its neighbour `nid`: one when the player owns it. */
  function TargetMove(diff: Difficulty, p: int, a: Analysis, board: seq<Territory>, s: Territory, nid: int): (r: seq<FortMove>)
    requires HasId(board, nid)
  {
    if Lookup(board, nid).value.owner == p then [MoveTo(diff, a, board, s, nid)] else []
  }

  /** Moving all but one troop of `s` to its neighbour `nid`, with its score. */
  function MoveTo(diff: Difficulty, a: Analysis, board: seq<Territory>, s: Territory, nid: int): FortMove
    requires HasId(board, nid)
  {
    FortMove(s.id, nid, s.troops - 1, FortScore(diff, a, s, Lookup(board, nid).value))
  }

  /** `j` indexes a neighbour of `s` that exists and belongs to the player. */
  predicate OwnedTarget(board: seq<Territory>, p: int, s: Territory, j: int) {
    0 <= j < |s.neighbors| && Lookup(board, s.neighbors[j]).Some? && Lookup(board, s.neighbors[j]).value.owner == p
  }

  /** The moves considered from `s` to the neighbours `nbrs` the player owns, in order. */
  function TargetMoves(diff: Difficulty, p: int, a: Analysis, board: seq<Territory>, s: Territory, nbrs: seq<int>): (r: seq<FortMove>)
    requires forall j :: 0 <= j < |nbrs| ==> HasId(board, nbrs[j])
  {
    if nbrs == [] then []
    else
      assert HasId(board, nbrs[|nbrs| - 1]);
      TargetMoves(diff, p, a, board, s, nbrs[..|nbrs| - 1]) + TargetMove(diff, p, a, board, s, nbrs[|nbrs| - 1])
  }

  /** The moves considered from the source `s`: none unless it has more than one troop. */
  function SourceMoves(diff: Difficulty, p: int, a: Analysis, board: seq<Territory>, s: Territory): (r: seq<FortMove>)
    requires s.troops > 1 ==> NeighboursExist(board, s)
  {
    if s.troops <= 1 then [] else TargetMoves(diff, p, a, board, s, s.neighbors)
  }

  /** The moves considered from every source, in order. */
  function FortMoves(diff: Difficulty, p: int, a: Analysis, board: seq<Territory>, srcs: seq<Territory>): (r: seq<FortMove>)
    requires forall s :: s in srcs && s.troops > 1 ==> NeighboursExist(board, s)
  {
    if srcs == [] then []
    else
      var s := srcs[|srcs| - 1];
      assert s in srcs && forall x :: x in srcs[..|srcs| - 1] ==> x in srcs;
      FortMoves(diff, p, a, board, srcs[..|srcs| - 1]) + SourceMoves(diff, p, a, board, s)
  }

  /** `m` moves all but one troop of `s` to an existing territory of the player's,
      scored by `FortScore`. */
  predicate MoveFrom(diff: Difficulty, p: int, a: Analysis, board: seq<Territory>, s: Territory, m: FortMove) {
    && m.sourceId == s.id && m.amount == s.troops - 1
    && Lookup(board, m.targetId).Some? && Lookup(board, m.targetId).value.owner == p
    && m.score == FortScore(diff, a, s, Lookup(board, m.targetId).value)
  }

  /** The running best: a move replaces it when its score is positive and beats the
      best so far strictly, and there is at least one troop to move. */
  function FortStep(best: Option<FortMove>, m: FortMove): Option<FortMove> {
    if m.score > 0 && (best.None? || m.score > best.value.score) && m.amount > 0 then Some(m) else best
  }

  function BestMove(ms: seq<FortMove>): Option<FortMove> {
    if ms == [] then None else FortStep(BestMove(ms[..|ms| - 1]), ms[|ms| - 1])
  }

  /** What `getFortification` settles on, with its score: nothing for EASY, otherwise
      the best move over the internal territories followed by the borders. */
  function Fortify(p: int, diff: Difficulty, board: seq<Territory>): Option<FortMove>
    requires FortifyReadable(p, diff, board)
  {
    if diff == Easy then None
    else
      var a := Analyze(p, board, []);
      SourcesReadable(p, board, a);
      BestMove(FortMoves(diff, p, a, board, a.internal + a.borders))
  }

  /** Outside EASY, every neighbour of a territory of the player's with more than one
      troop can be read. */
  predicate FortifyReadable(p: int, diff: Difficulty, board: seq<Territory>) {
    diff != Easy ==> forall s :: s in board && s.owner == p && s.troops > 1 ==> NeighboursExist(board, s)
  }

  /** The sources, internal territories followed by borders, are the player's territories. */
  lemma SourcesReadable(p: int, board: seq<Territory>, a: Analysis)
    requires a == Analyze(p, board, [])
    ensures forall s :: s in a.internal + a.borders <==> s in board && s.owner == p
  {
    BordersMembers(board, board, p);
    InternalMembers(board, board, p);
  }

  /** `j` indexes a neighbour of `s` that could receive its troops: `s` is the player's
      with more than one troop and the neighbour is an existing territory of the player's. */
  predicate FortPair(board: seq<Territory>, p: int, s: Territory, j: int) {
    s in board && s.owner == p && s.troops > 1 && OwnedTarget(board, p, s, j)
  }

  // ---------------------------------------------------------------------
  // Fortification: properties

  /** The running best is the first move with the highest positive score among those
      with troops to move, and there is none exactly when no such move scores above 0. */
  lemma {:induction false} BestMoveIsFirstBest(ms: seq<FortMove>)
    ensures var b := BestMove(ms);
            && (b.None? <==> forall m :: m in ms && m.amount > 0 ==> m.score <= 0)
            && (b.Some? ==> b.value in ms && b.value.score > 0 && b.value.amount > 0)
            && (b.Some? ==> forall m :: m in ms && m.amount > 0 ==> m.score <= b.value.score)
  {
    if ms != [] {
      var n := |ms| - 1;
      BestMoveIsFirstBest(ms[..n]);
      assert ms == ms[..n] + [ms[n]];
    }
  }

  lemma {:induction false} BestMoveAppend(ms: seq<FortMove>, m: FortMove)
    ensures BestMove(ms + [m]) == FortStep(BestMove(ms), m)
  {
    assert (ms + [m])[..|ms|] == ms;
  }

  /** The moves considered from `s`: each goes to an owned neighbour and moves all but
      one troop; every owned neighbour is considered. */
  lemma {:induction false} TargetMovesMembers(diff: Difficulty, p: int, a: Analysis, board: seq<Territory>, s: Territory, nbrs: seq<int>)
    requires forall j :: 0 <= j < |nbrs| ==> HasId(board, nbrs[j])
    ensures var ms := TargetMoves(diff, p, a, board, s, nbrs);
            && (forall m :: m in ms ==> m.targetId in nbrs && MoveFrom(diff, p, a, board, s, m))
            && (forall j :: 0 <= j < |nbrs| && Lookup(board, nbrs[j]).value.owner == p ==> MoveTo(diff, a, board, s, nbrs[j]) in ms)
  {
    if nbrs != [] {
      var n := |nbrs| - 1;
      TargetMovesMembers(diff, p, a, board, s, nbrs[..n]);
      assert nbrs == nbrs[..n] + [nbrs[n]];
      var prev := TargetMoves(diff, p, a, board, s, nbrs[..n]);
      forall j | 0 <= j < |nbrs| && Lookup(board, nbrs[j]).value.owner == p
        ensures MoveTo(diff, a, board, s, nbrs[j]) in TargetMoves(diff, p, a, board, s, nbrs)
      {
        if j < n {
          assert nbrs[..n][j] == nbrs[j];
        }
      }
    }
  }

  /** Every move considered comes from one of the sources with more than one troop. */
  lemma {:induction false} FortMovesSound(diff: Difficulty, p: int, a: Analysis, board: seq<Territory>, srcs: seq<Territory>)
    requires forall s :: s in srcs && s.troops > 1 ==> NeighboursExist(board, s)
    ensures forall m :: m in FortMoves(diff, p, a, board, srcs) ==>
              exists s :: s in srcs && s.troops > 1 && m.targetId in s.neighbors && MoveFrom(diff, p, a, board, s, m)
  {
    if srcs != [] {
      var n := |srcs| - 1;
      var s := srcs[n];
      var pre := srcs[..n];
      assert srcs == pre + [s];
      assert forall x :: x in pre ==> x in srcs;
      FortMovesSound(diff, p, a, board, pre);
      var prevMs := FortMoves(diff, p, a, board, pre);
      var more := SourceMoves(diff, p, a, board, s);
      assert FortMoves(diff, p, a, board, srcs) == prevMs + more;
      if s.troops > 1 {
        TargetMovesMembers(diff, p, a, board, s, s.neighbors);
      }
      forall m: FortMove | m in prevMs + more
        ensures exists x :: x in srcs && x.troops > 1 && m.targetId in x.neighbors && MoveFrom(diff, p, a, board, x, m)
      {
        if m in more {
          assert s in srcs;
        }
      }
    }
  }

  /** Every move from a source with more than one troop to an owned neighbour is considered. */
  lemma {:induction false} FortMovesComplete(diff: Difficulty, p: int, a: Analysis, board: seq<Territory>, srcs: seq<Territory>)
    requires forall s :: s in srcs && s.troops > 1 ==> NeighboursExist(board, s)
    ensures forall s, j :: s in srcs && s.troops > 1 && OwnedTarget(board, p, s, j) ==>
              MoveTo(diff, a, board, s, s.neighbors[j]) in FortMoves(diff, p, a, board, srcs)
  {
    if srcs != [] {
      var n := |srcs| - 1;
      var s := srcs[n];
      var pre := srcs[..n];
      assert srcs == pre + [s];
      assert forall x :: x in pre ==> x in srcs;
      FortMovesComplete(diff, p, a, board, pre);
      var prevMs := FortMoves(diff, p, a, board, pre);
      var more := SourceMoves(diff, p, a, board, s);
      assert FortMoves(diff, p, a, board, srcs) == prevMs + more;
      if s.troops > 1 {
        TargetMovesMembers(diff, p, a, board, s, s.neighbors);
      }
      forall x, j | x in srcs && x.troops > 1 && OwnedTarget(board, p, x, j)
        ensures MoveTo(diff, a, board, x, x.neighbors[j]) in prevMs + more
      {
        var m := MoveTo(diff, a, board, x, x.neighbors[j]);
        if x == s {
          assert m in more;
        } else {
          assert x in pre;
          assert m in prevMs;
        }
      }
    }
  }


  /** EASY never fortifies. Otherwise a fortification moves all but one troop from a
      territory of the player's to an adjacent one of theirs, no such move scores more,
      and there is none exactly when no such move scores above 0. */
  lemma {:induction false} FortifyIsBest(p: int, diff: Difficulty, board: seq<Territory>)
    requires FortifyReadable(p, diff, board)
    ensures diff == Easy ==> Fortify(p, diff, board) == None
    ensures var f := Fortify(p, diff, board);
            var a := Analyze(p, board, []);
            diff != Easy ==>
              && (f.Some? ==> exists s :: s in board && s.owner == p && s.troops > 1 &&
                                          f.value.targetId in s.neighbors && MoveFrom(diff, p, a, board, s, f.value))
              && (f.Some? ==> forall s, j :: FortPair(board, p, s, j) ==>
                                FortScore(diff, a, s, Lookup(board, s.neighbors[j]).value) <= f.value.score)
              && (f.None? <==> forall s, j :: FortPair(board, p, s, j) ==> FortScore(diff, a, s, Lookup(board, s.neighbors[j]).value) <= 0)
  {
    if diff != Easy {
      var a := Analyze(p, board, []);
      SourcesReadable(p, board, a);
      var ms := FortMoves(diff, p, a, board, a.internal + a.borders);
      FortifyCandidates(p, diff, board);
      BestMoveIsFirstBest(ms);
    }
  }

  /** The moves `getFortification` weighs are exactly those of all but one troop from a
      territory of the player's to an adjacent one of theirs. */
  lemma FortifyCandidates(p: int, diff: Difficulty, board: seq<Territory>)
    requires diff != Easy && FortifyReadable(p, diff, board)
    ensures var a := Analyze(p, board, []);
            (SourcesReadable(p, board, a);
             var ms := FortMoves(diff, p, a, board, a.internal + a.borders);
             && (forall s, j :: FortPair(board, p, s, j) ==> MoveTo(diff, a, board, s, s.neighbors[j]) in ms)
             && (forall m :: m in ms ==>
                   && m.amount > 0
                   && exists s :: s in board && s.owner == p && s.troops > 1 &&
                                  m.targetId in s.neighbors && MoveFrom(diff, p, a, board, s, m)))
  {
    var a := Analyze(p, board, []);
    SourcesReadable(p, board, a);
    var srcs := a.internal + a.borders;
    var ms := FortMoves(diff, p, a, board, srcs);
    FortMovesSound(diff, p, a, board, srcs);
    FortMovesComplete(diff, p, a, board, srcs);
    forall s, j | FortPair(board, p, s, j)
      ensures MoveTo(diff, a, board, s, s.neighbors[j]) in ms
    {
      assert s in srcs;
    }
    forall m | m in ms
      ensures m.amount > 0 && (exists s :: s in board && s.owner == p && s.troops > 1 &&
                                m.targetId in s.neighbors && MoveFrom(diff, p, a, board, s, m))
    {
      var s :| s in srcs && s.troops > 1 && m.targetId in s.neighbors && MoveFrom(diff, p, a, board, s, m);
    }
  }

  // ---------------------------------------------------------------------
  // Fortification: the method

  /** `getFortification`: the best move of all but one troop between two adjacent
      territories of the player's, as (source id, target id, amount), or none. */
  method GetFortification(p: int, diff: Difficulty, board: seq<Territory>) returns (move: Option<(int, int, int)>)
    requires FortifyReadable(p, diff, board)
    ensures var f := Fortify(p, diff, board);
            move == if f.None? then None else Some((f.value.sourceId, f.value.targetId, f.value.amount))
  {
    if diff == Easy {
      return None;
    }
    var a := AnalyzeMap(p, board, []);
    SourcesReadable(p, board, a);
    var best := BestFortification(diff, p, a, board, a.internal + a.borders);
    if best.None? {
      return None;
    }
    return Some((best.value.sourceId, best.value.targetId, best.value.amount));
  }

  /** The outer loop over the sources, keeping the running best. */
  method BestFortification(diff: Difficulty, p: int, a: Analysis, board: seq<Territory>, sources: seq<Territory>)
    returns (best: Option<FortMove>)
    requires forall s :: s in sources && s.troops > 1 ==> NeighboursExist(board, s)
    ensures best == BestMove(FortMoves(diff, p, a, board, sources))
  {
    best := None;
    var i := 0;
    while i < |sources|
      invariant 0 <= i <= |sources|
      invariant best == BestMove(FortMoves(diff, p, a, board, sources[..i]))
    {
      FortMovesStep(diff, p, a, board, sources, i);
      best := FortifySource(diff, p, a, board, sources[i], FortMoves(diff, p, a, board, sources[..i]), best);
      i := i + 1;
    }
    assert sources[..i] == sources;
  }

  lemma FortMovesStep(diff: Difficulty, p: int, a: Analysis, board: seq<Territory>, srcs: seq<Territory>, i: nat)
    requires forall s :: s in srcs && s.troops > 1 ==> NeighboursExist(board, s)
    requires i < |srcs|
    ensures forall s :: s in srcs[..i + 1] ==> s in srcs
    ensures srcs[i].troops > 1 ==> NeighboursExist(board, srcs[i])
    ensures FortMoves(diff, p, a, board, srcs[..i + 1]) == FortMoves(diff, p, a, board, srcs[..i]) + SourceMoves(diff, p, a, board, srcs[i])
  {
    assert srcs[..i + 1][..i] == srcs[..i] && srcs[..i + 1][i] == srcs[i];
    assert srcs[i] in srcs;
  }

  /** The body of the outer loop: a source with at most one troop is skipped. */
  method FortifySource(diff: Difficulty, p: int, a: Analysis, board: seq<Territory>, s: Territory,
                       ghost prior: seq<FortMove>, best0: Option<FortMove>) returns (best: Option<FortMove>)
    requires s.troops > 1 ==> NeighboursExist(board, s)
    requires best0 == BestMove(prior)
    ensures best == BestMove(prior + SourceMoves(diff, p, a, board, s))
  {
    if s.troops <= 1 {
      assert prior + SourceMoves(diff, p, a, board, s) == prior;
      return best0;
    }
    best := FortifyFrom(diff, p, a, board, s, prior, best0);
  }

  /** The inner loop over the neighbours of one source, continuing the running best
      of the moves considered before (`prior`). */
  method FortifyFrom(diff: Difficulty, p: int, a: Analysis, board: seq<Territory>, s: Territory,
                     ghost prior: seq<FortMove>, best0: Option<FortMove>) returns (best: Option<FortMove>)
    requires NeighboursExist(board, s)
    requires best0 == BestMove(prior)
    ensures best == BestMove(prior + TargetMoves(diff, p, a, board, s, s.neighbors))
  {
    best := best0;
    var j := 0;
    assert prior + TargetMoves(diff, p, a, board, s, s.neighbors[..0]) == prior;
    while j < |s.neighbors|
      invariant 0 <= j <= |s.neighbors|
      invariant best == BestMove(prior + TargetMoves(diff, p, a, board, s, s.neighbors[..j]))
    {
      ghost var before := prior + TargetMoves(diff, p, a, board, s, s.neighbors[..j]);
      TargetMovesStep(diff, p, a, board, s, prior, j);
      best := ConsiderTarget(diff, p, a, board, s, s.neighbors[j], before, best);
      j := j + 1;
    }
    assert s.neighbors[..j] == s.neighbors;
  }

  lemma TargetMovesStep(diff: Difficulty, p: int, a: Analysis, board: seq<Territory>, s: Territory, prior: seq<FortMove>, j: nat)
    requires NeighboursExist(board, s) && j < |s.neighbors|
    ensures HasId(board, s.neighbors[j])
    ensures prior + TargetMoves(diff, p, a, board, s, s.neighbors[..j + 1])
         == prior + TargetMoves(diff, p, a, board, s, s.neighbors[..j]) + TargetMove(diff, p, a, board, s, s.neighbors[j])
  {
    assert s.neighbors[..j + 1][..j] == s.neighbors[..j] && s.neighbors[..j + 1][j] == s.neighbors[j];
  }

  /** One step of the inner loop: the owned neighbour `nid` replaces the running best
      when it scores above 0 and beats it strictly. */
  method ConsiderTarget(diff: Difficulty, p: int, a: Analysis, board: seq<Territory>, s: Territory, nid: int,
                        ghost before: seq<FortMove>, best0: Option<FortMove>) returns (best: Option<FortMove>)
    requires HasId(board, nid)
    requires best0 == BestMove(before)
    ensures best == BestMove(before + TargetMove(diff, p, a, board, s, nid))
  {
    best := best0;
    var t := Lookup(board, nid).value;
    if t.owner == p {
      var score := FortScore(diff, a, s, t);
      BestMoveAppend(before, FortMove(s.id, t.id, s.troops - 1, score));
      if score > 0 && (best.None? || score > best.value.score) {
        var amount := s.troops - 1;
        if amount > 0 {
          best := Some(FortMove(s.id, t.id, amount, score));
        }
      }
    } else {
      assert before + TargetMove(diff, p, a, board, s, nid) == before;
    }
  }
}
