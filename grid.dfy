// The grid-scan adjacency construction shared by `generateAdjacencyMap`
// (src/core/logic.ts) and `calculateAdjacency` (src/main.js). Both walk the
// layout row by row, look at the four orthogonal neighbours of every land cell
// and link two different land ids in both directions; they differ only in the
// order in which they try the four directions, which decides the insertion
// order of the neighbour sets. The direction list is therefore a parameter.
module Grid {
  import opened Util

  /** `layout[y]?.[x]`, with a missing row or column read as water (0). */
  function Cell(layout: seq<seq<int>>, y: int, x: int): int {
    if 0 <= y < |layout| && 0 <= x < |layout[y]| then layout[y][x] else 0
  }

  predicate InGrid(rows: int, cols: int, y: int, x: int) {
    0 <= y < rows && 0 <= x < cols
  }

  /** A step to one of the four orthogonal neighbours, as (dy, dx). */
  predicate UnitStep(d: (int, int)) {
    d == (0, 1) || d == (1, 0) || d == (0, -1) || d == (-1, 0)
  }

  /** The direction list contains the four orthogonal steps and nothing else. */
  predicate FourDirections(dirs: seq<(int, int)>) {
    && (forall k :: 0 <= k < |dirs| ==> UnitStep(dirs[k]))
    && (0, 1) in dirs && (1, 0) in dirs && (0, -1) in dirs && (-1, 0) in dirs
  }

  /** A row with no land among its first `cols` cells. */
  predicate DryRow(row: seq<int>, cols: int) {
    forall x :: 0 <= x < cols && x < |row| ==> row[x] == 0
  }

  /** `layout[ny][nx]` never reads past the last row: when `rows` exceeds the
      layout's length, the layout's last row holds no land within `cols`
      (otherwise the scan looks below it, into an undefined row, and throws). */
  predicate RowsReadable(layout: seq<seq<int>>, rows: int, cols: int) {
    rows <= |layout| || |layout| == 0 || DryRow(layout[|layout| - 1], cols)
  }

  /** Id `a` is land somewhere in the scanned region. */
  ghost predicate Land(layout: seq<seq<int>>, rows: int, cols: int, a: int) {
    a != 0 && exists y, x :: InGrid(rows, cols, y, x) && Cell(layout, y, x) == a
  }

  /** Ids `a` and `b` occupy two orthogonally adjacent cells of the grid. */
  ghost predicate Touching(layout: seq<seq<int>>, rows: int, cols: int, a: int, b: int) {
    exists y, x, y2, x2 ::
      && InGrid(rows, cols, y, x) && InGrid(rows, cols, y2, x2)
      && UnitStep((y2 - y, x2 - x))
      && Cell(layout, y, x) == a && Cell(layout, y2, x2) == b
  }

  predicate Edge(adj: map<int, seq<int>>, a: int, b: int) {
    a in adj && b in adj[a]
  }

  /** What the scan guarantees at every step: keys are land ids, neighbour
      sets have no repeats, links are symmetric, never loop back to their own
      territory and only join territories whose cells touch. */
  ghost predicate Sound(adj: map<int, seq<int>>, layout: seq<seq<int>>, rows: int, cols: int) {
    && (forall a :: a in adj ==> Land(layout, rows, cols, a) && NoDup(adj[a]))
    && (forall a, b :: Edge(adj, a, b) ==> Edge(adj, b, a) && a != b)
    && (forall a, b :: Edge(adj, a, b) ==> Touching(layout, rows, cols, a, b))
  }

  /** Every land cell's id is a key, and every two touching cells of different
      territories are linked. */
  ghost predicate Complete(adj: map<int, seq<int>>, layout: seq<seq<int>>, rows: int, cols: int) {
    && (forall y, x :: InGrid(rows, cols, y, x) && Cell(layout, y, x) != 0 ==> Cell(layout, y, x) in adj)
    && (forall y, x, y2, x2 ::
          (InGrid(rows, cols, y, x) && InGrid(rows, cols, y2, x2) && UnitStep((y2 - y, x2 - x)) &&
           Cell(layout, y, x) != 0 && Cell(layout, y2, x2) != 0 && Cell(layout, y, x) != Cell(layout, y2, x2))
          ==> Edge(adj, Cell(layout, y, x), Cell(layout, y2, x2)))
  }

  /** Adds the link a-b in both directions (`adjacency[a].add(b)` and the back-link). */
  function Link(adj: map<int, seq<int>>, a: int, b: int): (r: map<int, seq<int>>)
    ensures r.Keys == adj.Keys + {a, b}
    ensures forall u, v :: Edge(r, u, v) <==> Edge(adj, u, v) || (u == a && v == b) || (u == b && v == a)
    ensures (forall u :: u in adj ==> NoDup(adj[u])) ==> forall u :: u in r ==> NoDup(r[u])
  {
    var fwd := adj[a := AddUnique(if a in adj then adj[a] else [], b)];
    fwd[b := AddUnique(if b in fwd then fwd[b] else [], a)]
  }

  /** Linking two touching cells of different territories keeps the scan sound. */
  lemma {:induction false} LinkSound(adj: map<int, seq<int>>, layout: seq<seq<int>>, rows: int, cols: int,
                                     y: int, x: int, ny: int, nx: int)
    requires Sound(adj, layout, rows, cols)
    requires InGrid(rows, cols, y, x) && InGrid(rows, cols, ny, nx) && UnitStep((ny - y, nx - x))
    requires Cell(layout, y, x) != 0 && Cell(layout, ny, nx) != 0 && Cell(layout, y, x) != Cell(layout, ny, nx)
    ensures Sound(Link(adj, Cell(layout, y, x), Cell(layout, ny, nx)), layout, rows, cols)
  {
    var a, b := Cell(layout, y, x), Cell(layout, ny, nx);
    assert Land(layout, rows, cols, a);
    assert Land(layout, rows, cols, b);
    assert Touching(layout, rows, cols, a, b);
    assert UnitStep((y - ny, x - nx));
    assert Touching(layout, rows, cols, b, a);
  }

  /** Registering a land id with no neighbours yet keeps the scan sound. */
  lemma {:induction false} RegisterSound(adj: map<int, seq<int>>, layout: seq<seq<int>>, rows: int, cols: int, y: int, x: int)
    requires Sound(adj, layout, rows, cols)
    requires InGrid(rows, cols, y, x) && Cell(layout, y, x) != 0 && Cell(layout, y, x) !in adj
    ensures Sound(adj[Cell(layout, y, x) := []], layout, rows, cols)
    ensures Grows(adj, adj[Cell(layout, y, x) := []])
  {
    var adj' := adj[Cell(layout, y, x) := []];
    assert Land(layout, rows, cols, Cell(layout, y, x));
    assert forall a, b :: Edge(adj', a, b) <==> Edge(adj, a, b);
  }

  /** Cell (y', x') comes before cell (y, x) in row-major scan order. */
  predicate Before(y': int, x': int, y: int, x: int) {
    y' < y || (y' == y && x' < x)
  }

  /** The cell (y, x) has been linked to its land neighbours in the directions dirs[..k]. */
  ghost predicate LinkedUpTo(adj: map<int, seq<int>>, layout: seq<seq<int>>, rows: int, cols: int,
                             dirs: seq<(int, int)>, y: int, x: int, k: int)
    requires 0 <= k <= |dirs|
  {
    forall j :: 0 <= j < k ==>
      (InGrid(rows, cols, y + dirs[j].0, x + dirs[j].1) &&
       Cell(layout, y + dirs[j].0, x + dirs[j].1) != 0 &&
       Cell(layout, y + dirs[j].0, x + dirs[j].1) != Cell(layout, y, x) && Cell(layout, y, x) != 0)
      ==> Edge(adj, Cell(layout, y, x), Cell(layout, y + dirs[j].0, x + dirs[j].1))
  }

  /** Trying direction `k` extends what has been linked from the directions before it. */
  lemma {:induction false} LinkedUpToStep(adj: map<int, seq<int>>, adj': map<int, seq<int>>, layout: seq<seq<int>>,
                                          rows: int, cols: int, dirs: seq<(int, int)>, y: int, x: int, k: int)
    requires 0 <= k < |dirs|
    requires LinkedUpTo(adj, layout, rows, cols, dirs, y, x, k)
    requires Grows(adj, adj')
    requires (InGrid(rows, cols, y + dirs[k].0, x + dirs[k].1) &&
              Cell(layout, y + dirs[k].0, x + dirs[k].1) != 0 &&
              Cell(layout, y + dirs[k].0, x + dirs[k].1) != Cell(layout, y, x) && Cell(layout, y, x) != 0)
             ==> Edge(adj', Cell(layout, y, x), Cell(layout, y + dirs[k].0, x + dirs[k].1))
    ensures LinkedUpTo(adj', layout, rows, cols, dirs, y, x, k + 1)
  {
  }

  /** The scan has finished with cell (y, x). */
  ghost predicate CellDone(adj: map<int, seq<int>>, layout: seq<seq<int>>, rows: int, cols: int,
                           dirs: seq<(int, int)>, y: int, x: int)
  {
    (Cell(layout, y, x) != 0 ==> Cell(layout, y, x) in adj) && LinkedUpTo(adj, layout, rows, cols, dirs, y, x, |dirs|)
  }

  /** The scan has finished with every cell before (y, x). */
  ghost predicate DoneBefore(adj: map<int, seq<int>>, layout: seq<seq<int>>, rows: int, cols: int,
                             dirs: seq<(int, int)>, y: int, x: int)
  {
    forall y', x' :: 0 <= y' && 0 <= x' < cols && Before(y', x', y, x) ==> CellDone(adj, layout, rows, cols, dirs, y', x')
  }

  /** `adj` has every key and every link of `adj0`. */
  ghost predicate Grows(adj0: map<int, seq<int>>, adj: map<int, seq<int>>) {
    adj0.Keys <= adj.Keys && forall a, b :: Edge(adj0, a, b) ==> Edge(adj, a, b)
  }

  lemma {:induction false} DoneBeforeGrows(adj0: map<int, seq<int>>, adj: map<int, seq<int>>, layout: seq<seq<int>>,
                                           rows: int, cols: int, dirs: seq<(int, int)>, y: int, x: int)
    requires Grows(adj0, adj)
    requires DoneBefore(adj0, layout, rows, cols, dirs, y, x)
    ensures DoneBefore(adj, layout, rows, cols, dirs, y, x)
  {
    forall y', x' | 0 <= y' && 0 <= x' < cols && Before(y', x', y, x)
      ensures CellDone(adj, layout, rows, cols, dirs, y', x')
    {
      assert CellDone(adj0, layout, rows, cols, dirs, y', x');
    }
  }

  /** Scans the grid and returns, for every land id, the insertion-ordered set
      of its neighbours: sound and complete with respect to touching cells. */
  method ScanAdjacency(rows: int, cols: int, layout: seq<seq<int>>, dirs: seq<(int, int)>)
    returns (adj: map<int, seq<int>>)
    requires RowsReadable(layout, rows, cols)
    requires FourDirections(dirs)
    ensures Sound(adj, layout, rows, cols)
    ensures Complete(adj, layout, rows, cols)
  {
    adj := map[];
    var y := 0;
    while y < rows
      invariant Sound(adj, layout, rows, cols)
      invariant 0 <= y && (y <= rows || rows <= 0)
      invariant DoneBefore(adj, layout, rows, cols, dirs, y, 0)
    {
      adj := ScanRow(adj, rows, cols, layout, dirs, y);
      y := y + 1;
    }
    DoneAllComplete(adj, layout, rows, cols, dirs);
  }

  /** Once every cell has been scanned, every land id is a key and every two
      touching cells of different territories are linked. */
  lemma DoneAllComplete(adj: map<int, seq<int>>, layout: seq<seq<int>>, rows: int, cols: int, dirs: seq<(int, int)>)
    requires FourDirections(dirs)
    requires DoneBefore(adj, layout, rows, cols, dirs, if rows < 0 then 0 else rows, 0)
    ensures Complete(adj, layout, rows, cols)
  {
    forall y, x | InGrid(rows, cols, y, x) ensures CellDone(adj, layout, rows, cols, dirs, y, x) {
      assert Before(y, x, rows, 0);
    }
    forall y, x, y2, x2 |
      InGrid(rows, cols, y, x) && InGrid(rows, cols, y2, x2) && UnitStep((y2 - y, x2 - x)) &&
      Cell(layout, y, x) != 0 && Cell(layout, y2, x2) != 0 && Cell(layout, y, x) != Cell(layout, y2, x2)
      ensures Edge(adj, Cell(layout, y, x), Cell(layout, y2, x2))
    {
      var j :| 0 <= j < |dirs| && dirs[j] == (y2 - y, x2 - x);
      assert CellDone(adj, layout, rows, cols, dirs, y, x);
    }
  }

  /** One pass of the outer loop body: the cells of row `y`, left to right. */
  method ScanRow(adj0: map<int, seq<int>>, rows: int, cols: int, layout: seq<seq<int>>, dirs: seq<(int, int)>, y: int)
    returns (adj: map<int, seq<int>>)
    requires FourDirections(dirs)
    requires 0 <= y < rows
    requires Sound(adj0, layout, rows, cols)
    requires DoneBefore(adj0, layout, rows, cols, dirs, y, 0)
    ensures Sound(adj, layout, rows, cols)
    ensures DoneBefore(adj, layout, rows, cols, dirs, y + 1, 0)
  {
    adj := adj0;
    var x := 0;
    while x < cols
      invariant Sound(adj, layout, rows, cols)
      invariant 0 <= x && (x <= cols || cols <= 0)
      invariant DoneBefore(adj, layout, rows, cols, dirs, y, x)
    {
      var adj' := ScanCell(adj, rows, cols, layout, dirs, y, x);
      DoneBeforeGrows(adj, adj', layout, rows, cols, dirs, y, x);
      adj := adj';
      x := x + 1;
    }
    assert DoneBefore(adj, layout, rows, cols, dirs, y + 1, 0) by {
      forall y', x' | 0 <= y' && 0 <= x' < cols && Before(y', x', y + 1, 0)
        ensures CellDone(adj, layout, rows, cols, dirs, y', x')
      {
        assert Before(y', x', y, x);
      }
    }
  }

  /** One pass of the inner loop body: registers the land cell (y, x) and links
      it to each land neighbour of a different id, trying the directions in order. */
  method ScanCell(adj0: map<int, seq<int>>, rows: int, cols: int, layout: seq<seq<int>>, dirs: seq<(int, int)>, y: int, x: int)
    returns (adj: map<int, seq<int>>)
    requires FourDirections(dirs)
    requires InGrid(rows, cols, y, x)
    requires Sound(adj0, layout, rows, cols)
    ensures Sound(adj, layout, rows, cols)
    ensures Grows(adj0, adj)
    ensures CellDone(adj, layout, rows, cols, dirs, y, x)
  {
    adj := adj0;
    var cur := Cell(layout, y, x);
    if cur == 0 {
      return;
    }
    if cur !in adj {
      RegisterSound(adj, layout, rows, cols, y, x);
      adj := adj[cur := []];
    }
    var k := 0;
    while k < |dirs|
      invariant 0 <= k <= |dirs|
      invariant Sound(adj, layout, rows, cols)
      invariant cur in adj
      invariant LinkedUpTo(adj, layout, rows, cols, dirs, y, x, k)
      invariant Grows(adj0, adj)
    {
      var ny, nx := y + dirs[k].0, x + dirs[k].1;
      var adj' := adj;
      if InGrid(rows, cols, ny, nx) {
        var nb := Cell(layout, ny, nx);
        if nb != 0 && nb != cur {
          LinkSound(adj, layout, rows, cols, y, x, ny, nx);
          adj' := Link(adj, cur, nb);
        }
      }
      LinkedUpToStep(adj, adj', layout, rows, cols, dirs, y, x, k);
      adj := adj';
      k := k + 1;
    }
  }
}
