// The Minesweeper mini-game of the truck page: an 8 x 8 grid addressed by flat
// indices, ten distinct mines, and a recursive flood-fill that reveals cells.

module Minesweeper {

  const Size: int := 8
  const CellCount: int := 64
  const MineCount: int := 10

  /** What a cell displays: nothing, its neighbouring-mine count, or a bomb. */
  datatype Face = Blank | Count(n: nat) | Bomb

  // ---------------------------------------------------------------------
  // Neighbourhood of a cell
  // ---------------------------------------------------------------------

  predicate InGrid(r: int, c: int) { 0 <= r < Size && 0 <= c < Size }

  /** `j` is one of the cells touching `i`: another cell at most one row and one column away. */
  predicate Adjacent(i: int, j: int)
  {
    && 0 <= i < CellCount && 0 <= j < CellCount && i != j
    && -1 <= j / Size - i / Size <= 1
    && -1 <= j % Size - i % Size <= 1
  }

  /** The cell at offset (`r`, `c`) from (`row`, `col`), if the loop body would push it. */
  function Candidate(row: int, col: int, r: int, c: int): seq<int>
  {
    if (r == 0 && c == 0) || !InGrid(row + r, col + c) then [] else [(row + r) * Size + (col + c)]
  }

  predicate Position(r: int, c: int)
  {
    (-1 <= r <= 1 && -1 <= c <= 2) || (r == 2 && c == -1)
  }

  /** The cells pushed before the nested loops reach offset (`r`, `c`), in row-major order. */
  function Scanned(row: int, col: int, r: int, c: int): seq<int>
    requires Position(r, c)
    decreases r + 1, c + 1
  {
    if c > -1 then Scanned(row, col, r, c - 1) + Candidate(row, col, r, c - 1)
    else if r > -1 then Scanned(row, col, r - 1, 2)
    else []
  }

  lemma CellOf(row: int, col: int)
    requires InGrid(row, col)
    ensures (row * Size + col) / Size == row && (row * Size + col) % Size == col
  {
  }

  /** The cell an offset names, if it is pushed, touches the centre cell. */
  lemma CandidateAdjacent(row: int, col: int, r: int, c: int)
    requires InGrid(row, col) && -1 <= r <= 1 && -1 <= c <= 1
    ensures forall n :: n in Candidate(row, col, r, c) ==> Adjacent(row * Size + col, n)
  {
    if Candidate(row, col, r, c) != [] {
      CellOf(row, col);
      CellOf(row + r, col + c);
    }
  }

  lemma {:induction false} ScannedAdjacent(row: int, col: int, r: int, c: int)
    requires InGrid(row, col) && Position(r, c)
    ensures forall n :: n in Scanned(row, col, r, c) ==> Adjacent(row * Size + col, n)
  {
    if c > -1 {
      ScannedAdjacent(row, col, r, c - 1);
      CandidateAdjacent(row, col, r, c - 1);
    } else if r > -1 {
      ScannedAdjacent(row, col, r - 1, 2);
    }
  }

  lemma {:induction false} ScannedIncreasing(row: int, col: int, r: int, c: int)
    requires Position(r, c)
    ensures var s := Scanned(row, col, r, c);
      && (forall k :: 0 <= k < |s| ==> s[k] < (row + r) * Size + (col + c))
      && (forall i, j :: 0 <= i < j < |s| ==> s[i] < s[j])
  {
    if c > -1 {
      ScannedIncreasing(row, col, r, c - 1);
    } else if r > -1 {
      ScannedIncreasing(row, col, r - 1, 2);
    }
  }

  lemma {:induction false} ScannedSize(row: int, col: int, r: int, c: int)
    requires Position(r, c)
    ensures |Scanned(row, col, r, c)| <= (r + 1) * 3 + (c + 1) - (if r > 0 || (r == 0 && c > 0) then 1 else 0)
  {
    if c > -1 {
      ScannedSize(row, col, r, c - 1);
    } else if r > -1 {
      ScannedSize(row, col, r - 1, 2);
    }
  }

  lemma {:induction false} ScannedComplete(row: int, col: int, r: int, c: int, dr: int, dc: int)
    requires Position(r, c) && -1 <= dr <= 1 && -1 <= dc <= 1
    requires dr < r || (dr == r && dc < c)
    ensures forall x :: x in Candidate(row, col, dr, dc) ==> x in Scanned(row, col, r, c)
  {
    if c > -1 {
      if !(dr == r && dc == c - 1) {
        ScannedComplete(row, col, r, c - 1, dr, dc);
      }
    } else if r > -1 {
      ScannedComplete(row, col, r - 1, 2, dr, dc);
    }
  }

  /** The neighbours `getNeighbors(index)` returns, in the order it pushes them. */
  function Neighbors(index: int): (ns: seq<int>)
    requires 0 <= index < CellCount
    ensures forall n :: n in ns ==> Adjacent(index, n)
    ensures forall k :: 0 <= k < |ns| ==> Adjacent(index, ns[k])
  {
    ScannedAdjacent(index / Size, index % Size, 2, -1);
    CellOf(index / Size, index % Size);
    Scanned(index / Size, index % Size, 2, -1)
  }

  /** At most eight cells, each listed once, in increasing order. */
  lemma NeighborsShape(index: int)
    requires 0 <= index < CellCount
    ensures |Neighbors(index)| <= 8
    ensures forall i, j :: 0 <= i < j < |Neighbors(index)| ==> Neighbors(index)[i] < Neighbors(index)[j]
  {
    ScannedIncreasing(index / Size, index % Size, 2, -1);
    ScannedSize(index / Size, index % Size, 2, -1);
  }

  /** A cell is listed exactly when it touches `index`. */
  lemma NeighborsExact(index: int, j: int)
    requires 0 <= index < CellCount
    ensures j in Neighbors(index) <==> Adjacent(index, j)
  {
    if Adjacent(index, j) {
      var row, col := index / Size, index % Size;
      var dr, dc := j / Size - row, j % Size - col;
      assert j == (row + dr) * Size + (col + dc);
      assert Candidate(row, col, dr, dc) == [j];
      ScannedComplete(row, col, 2, -1, dr, dc);
    }
  }

  /** Being a neighbour is symmetric. */
  lemma NeighborsSymmetric(i: int, j: int)
    requires 0 <= i < CellCount && 0 <= j < CellCount
    ensures j in Neighbors(i) <==> i in Neighbors(j)
  {
    NeighborsExact(i, j);
    NeighborsExact(j, i);
  }

  /** `getNeighbors`: row and column bounds arithmetic in two nested loops. */
  method GetNeighbors(index: int) returns (neighbors: seq<int>)
    requires 0 <= index < CellCount
    ensures neighbors == Neighbors(index)
  {
    neighbors := [];
    var row := index / Size;
    var col := index % Size;
    for r := -1 to 2
      invariant neighbors == Scanned(row, col, r, -1)
    {
      for c := -1 to 2
        invariant neighbors == Scanned(row, col, r, c)
      {
        if r == 0 && c == 0 {
          continue;
        }
        var nr := row + r;
        var nc := col + c;
        if nr >= 0 && nr < Size && nc >= 0 && nc < Size {
          neighbors := neighbors + [nr * Size + nc];
        }
      }
    }
  }

  // ---------------------------------------------------------------------
  // Mines
  // ---------------------------------------------------------------------

  /** How many of the cells in `ns` hold a mine, counted with repetition as `ns` lists them. */
  function CountMines(ns: seq<int>, mines: seq<int>): (n: nat)
    ensures n <= |ns|
    ensures n == 0 <==> forall k :: 0 <= k < |ns| ==> ns[k] !in mines
  {
    if ns == [] then 0
    else CountMines(ns[..|ns| - 1], mines) + (if ns[|ns| - 1] in mines then 1 else 0)
  }

  function MinesAround(index: int, mines: seq<int>): nat
    requires 0 <= index < CellCount
  {
    CountMines(Neighbors(index), mines)
  }

  /** What a revealed cell shows. */
  function Label(index: int, mines: seq<int>): Face
    requires 0 <= index < CellCount
  {
    if index in mines then Bomb
    else if MinesAround(index, mines) > 0 then Count(MinesAround(index, mines))
    else Blank
  }

  /** Every neighbour of `j` is revealed in `revealed`. */
  ghost predicate Closed(revealed: seq<bool>, j: int)
    requires 0 <= j < CellCount
  {
    forall n :: n in Neighbors(j) ==> 0 <= n < |revealed| && revealed[n]
  }

  /** The cells with no mine on or around them: a flood reaching one carries on to its neighbours. */
  ghost function BlankCells(mines: seq<int>): set<int>
  {
    set p | 0 <= p < CellCount && p !in mines && MinesAround(p, mines) == 0
  }

  /**
   * `flood` lists cells in the order a flood from `root` reveals them, and `parent[i]` says
   * how `flood[i]` was reached: from `root` itself (a negative entry), or from the earlier
   * cell `flood[parent[i]]`, one of the `blanks`, which it touches.
   */
  ghost predicate FloodFrom(root: int, flood: seq<int>, parent: seq<int>, blanks: set<int>)
  {
    && |parent| == |flood|
    && forall i {:trigger parent[i]} :: 0 <= i < |flood| ==>
        if parent[i] < 0 then Adjacent(root, flood[i])
        else parent[i] < i && flood[parent[i]] in blanks && Adjacent(flood[parent[i]], flood[i])
  }

  /** Every cell after the first touches an earlier one, `flood[parent[i]]`, that is one of the `blanks`. */
  ghost predicate FloodOrder(flood: seq<int>, parent: seq<int>, blanks: set<int>)
  {
    && |parent| == |flood|
    && forall i {:trigger parent[i]} :: 0 < i < |flood| ==>
        0 <= parent[i] < i && flood[parent[i]] in blanks && Adjacent(flood[parent[i]], flood[i])
  }

  /**
   * `flood` names exactly the cells that are revealed in `now` but were hidden in `start`, and
   * no cell revealed in `start` is hidden in `now`.
   */
  ghost predicate Opened(start: seq<bool>, now: seq<bool>, flood: seq<int>)
  {
    && |start| == CellCount && |now| == CellCount
    && (forall j :: 0 <= j < CellCount && start[j] ==> now[j])
    && (forall k :: 0 <= k < |flood| ==> 0 <= flood[k] < CellCount)
    && (forall j :: 0 <= j < CellCount ==> (j in flood <==> now[j] && !start[j]))
  }

  lemma OpenedJoin(start: seq<bool>, mid: seq<bool>, now: seq<bool>, prior: seq<int>, next: seq<int>)
    requires Opened(start, mid, prior) && Opened(mid, now, next)
    ensures Opened(start, now, prior + next)
  {
    forall j | 0 <= j < CellCount
      ensures j in prior + next <==> now[j] && !start[j]
    {
      assert j in prior + next <==> j in prior || j in next;
    }
  }

  lemma OpenedLead(start: seq<bool>, index: int, now: seq<bool>, rest: seq<int>)
    requires |start| == CellCount && 0 <= index < CellCount && !start[index]
    requires Opened(start[index := true], now, rest)
    ensures Opened(start, now, [index] + rest)
  {
    forall j | 0 <= j < CellCount
      ensures j in [index] + rest <==> now[j] && !start[j]
    {
      assert j in [index] + rest <==> j == index || j in rest;
    }
  }

  /** The parents of `[root] + rest`, given those of `rest` relative to `root`. */
  function LedBy(parent: seq<int>): seq<int>
  {
    [-1] + seq(|parent|, k requires 0 <= k < |parent| => if parent[k] < 0 then 0 else parent[k] + 1)
  }

  /** The parents of `prior + next`, where `next` starts next to the root and is itself in flood order. */
  function Continued(prior: seq<int>, next: seq<int>): seq<int>
  {
    prior + seq(|next|, k requires 0 <= k < |next| => if k == 0 then -1 else next[k] + |prior|)
  }

  /** A flood from a blank cell, led by that cell, is in flood order. */
  lemma FloodPrepend(root: int, rest: seq<int>, parent: seq<int>, blanks: set<int>)
    requires root in blanks && FloodFrom(root, rest, parent, blanks)
    ensures FloodOrder([root] + rest, LedBy(parent), blanks)
  {
    var flood, led := [root] + rest, LedBy(parent);
    forall i | 0 < i < |flood|
      ensures 0 <= led[i] < i && flood[led[i]] in blanks && Adjacent(flood[led[i]], flood[i])
    {
      assert flood[i] == rest[i - 1];
      if parent[i - 1] >= 0 {
        assert flood[led[i]] == rest[parent[i - 1]];
      }
    }
  }

  /** A flood from a neighbour of `root` continues a flood from `root`. */
  lemma FloodAppend(root: int, prior: seq<int>, priorParent: seq<int>, next: seq<int>, nextParent: seq<int>, blanks: set<int>)
    requires FloodFrom(root, prior, priorParent, blanks) && FloodOrder(next, nextParent, blanks)
    requires next != [] ==> Adjacent(root, next[0])
    ensures FloodFrom(root, prior + next, Continued(priorParent, nextParent), blanks)
  {
    var flood, parent := prior + next, Continued(priorParent, nextParent);
    forall i | 0 <= i < |flood|
      ensures if parent[i] < 0 then Adjacent(root, flood[i])
        else parent[i] < i && flood[parent[i]] in blanks && Adjacent(flood[parent[i]], flood[i])
    {
      if i < |prior| {
        assert flood[i] == prior[i] && parent[i] == priorParent[i];
        if parent[i] >= 0 {
          assert flood[parent[i]] == prior[priorParent[i]];
        }
      } else {
        var t := i - |prior|;
        assert flood[i] == next[t];
        if t > 0 {
          assert flood[parent[i]] == next[nextParent[t]];
        }
      }
    }
  }

  function Elements(s: seq<int>): set<int> { set x | x in s }

  predicate Distinct(s: seq<int>)
  {
    forall i, j :: 0 <= i < j < |s| ==> s[i] != s[j]
  }

  /** The values of `s` in order of first occurrence, each once. */
  function Dedup(s: seq<int>): (d: seq<int>)
    ensures Distinct(d)
    ensures forall x :: x in d <==> x in s
  {
    if s == [] then []
    else
      var d := Dedup(s[..|s| - 1]);
      assert s == s[..|s| - 1] + [s[|s| - 1]];
      if s[|s| - 1] in d then d else d + [s[|s| - 1]]
  }

  /** The mines `generateMines` keeps: the first `MineCount` distinct draws. */
  function PlacedMines(draws: seq<int>): seq<int>
  {
    var d := Dedup(draws);
    if |d| <= MineCount then d else d[..MineCount]
  }

  lemma {:induction false} DedupPrefix(s: seq<int>, n: nat)
    requires n <= |s|
    ensures Dedup(s[..n]) <= Dedup(s)
    decreases |s| - n
  {
    if n < |s| {
      DedupPrefix(s, n + 1);
      assert s[..n + 1][..n] == s[..n];
    } else {
      assert s[..n] == s;
    }
  }

  lemma {:induction false} DistinctSize(d: seq<int>)
    requires Distinct(d)
    ensures |Elements(d)| == |d|
  {
    if d != [] {
      var init := d[..|d| - 1];
      DistinctSize(init);
      assert d == init + [d[|d| - 1]];
      assert Elements(d) == Elements(init) + {d[|d| - 1]};
    }
  }

  /** Deduplicating keeps one entry for each distinct drawn value. */
  lemma DedupSize(s: seq<int>)
    ensures |Dedup(s)| == |Elements(s)|
  {
    DistinctSize(Dedup(s));
    assert Elements(Dedup(s)) == Elements(s);
  }

  lemma ElementsSnoc(init: seq<int>, last: int)
    ensures Elements(init + [last]) == Elements(init) + {last}
  {
    assert forall x :: x in init + [last] <==> x in init || x == last;
  }

  lemma DistinctSnoc(init: seq<int>, last: int)
    requires Distinct(init + [last])
    ensures Distinct(init) && last !in Elements(init)
  {
    var s := init + [last];
    forall i, j | 0 <= i < j < |init| ensures init[i] != init[j] {
      assert s[i] == init[i] && s[j] == init[j];
    }
    forall k | 0 <= k < |init| ensures init[k] != last {
      assert s[k] == init[k] && s[|init|] == last;
    }
  }

  lemma MinesSnoc(init: seq<int>, last: int, mines: seq<int>)
    ensures Elements(init + [last]) * Elements(mines) ==
      (Elements(init) * Elements(mines)) + (if last in mines then {last} else {})
  {
    ElementsSnoc(init, last);
  }

  /** Over distinct cells, the count is the number of those cells that hold a mine. */
  lemma {:induction false} CountMinesIsIntersection(ns: seq<int>, mines: seq<int>)
    requires Distinct(ns)
    ensures CountMines(ns, mines) == |Elements(ns) * Elements(mines)|
  {
    if ns != [] {
      var init, last := ns[..|ns| - 1], ns[|ns| - 1];
      assert ns == init + [last];
      DistinctSnoc(init, last);
      CountMinesIsIntersection(init, mines);
      MinesSnoc(init, last, mines);
      var before := Elements(init) * Elements(mines);
      assert last !in before;
      assert |before + (if last in mines then {last} else {})| == |before| + (if last in mines then 1 else 0);
    }
  }

  /** A revealed number is how many of the cell's (at most eight) neighbours hold a mine. */
  lemma MinesAroundCounts(index: int, mines: seq<int>)
    requires 0 <= index < CellCount
    ensures MinesAround(index, mines) == |(set j | 0 <= j < CellCount && Adjacent(index, j)) * Elements(mines)|
    ensures MinesAround(index, mines) <= 8
  {
    NeighborsShape(index);
    var ns := Neighbors(index);
    CountMinesIsIntersection(ns, mines);
    forall j ensures j in Elements(ns) <==> (0 <= j < CellCount && Adjacent(index, j)) {
      NeighborsExact(index, j);
    }
    assert Elements(ns) == set j | 0 <= j < CellCount && Adjacent(index, j);
  }

  // ---------------------------------------------------------------------
  // The board
  // ---------------------------------------------------------------------

  /** The game's module-level state: `minePositions` and the 64 cells of `cells`. */
  class Board {
    var minePositions: seq<int>
    var revealed: seq<bool>
    var faces: seq<Face>
    var gameOverAlerts: nat

    /** Every cell shows its label once revealed and nothing before. */
    ghost predicate Valid()
      reads this
    {
      && |revealed| == CellCount && |faces| == CellCount
      && (forall k :: 0 <= k < |minePositions| ==> 0 <= minePositions[k] < CellCount)
      && (forall j {:trigger faces[j]} :: 0 <= j < CellCount ==>
            faces[j] == if revealed[j] then Label(j, minePositions) else Blank)
    }

    ghost function Unrevealed(): set<int>
      reads this
    {
      set j | 0 <= j < |revealed| && !revealed[j]
    }

    /** `initGame`: place the mines, then create 64 hidden cells. */
    constructor (draws: seq<int>)
      requires forall k :: 0 <= k < |draws| ==> 0 <= draws[k] < CellCount
      ensures Valid()
      ensures forall j :: 0 <= j < CellCount ==> !revealed[j]
      ensures minePositions == PlacedMines(draws)
      ensures gameOverAlerts == 0
    {
      revealed := [];
      faces := [];
      gameOverAlerts := 0;
      minePositions := [];
      new;
      GenerateMines(draws);
      var i := 0;
      while i < CellCount
        invariant 0 <= i <= CellCount
        invariant |revealed| == i && |faces| == i
        invariant forall j :: 0 <= j < i ==> !revealed[j] && faces[j] == Blank
        invariant minePositions == PlacedMines(draws) && gameOverAlerts == 0
        invariant forall k :: 0 <= k < |minePositions| ==> 0 <= minePositions[k] < CellCount
      {
        revealed := revealed + [false];
        faces := faces + [Blank];
        i := i + 1;
      }
    }

    /**
     * `generateMines`: keep drawing positions until `MineCount` distinct ones are held.
     * `draws` stands for the values `Math.floor(Math.random() * 64)` produces.
     */
    method GenerateMines(draws: seq<int>)
      requires forall k :: 0 <= k < |draws| ==> 0 <= draws[k] < CellCount
      modifies this`minePositions
      ensures minePositions == PlacedMines(draws)
      ensures Distinct(minePositions) && |minePositions| <= MineCount
      ensures forall k :: 0 <= k < |minePositions| ==> 0 <= minePositions[k] < CellCount
      ensures |Elements(draws)| >= MineCount ==> |minePositions| == MineCount
    {
      minePositions := [];
      var i := 0;
      while |minePositions| < MineCount && i < |draws|
        invariant 0 <= i <= |draws|
        invariant minePositions == Dedup(draws[..i])
        invariant |minePositions| <= MineCount
      {
        var pos := draws[i];
        assert draws[..i + 1] == draws[..i] + [pos];
        assert draws[..i + 1][..i] == draws[..i];
        if pos !in minePositions {
          minePositions := minePositions + [pos];
        }
        i := i + 1;
      }
      DedupPrefix(draws, i);
      DedupSize(draws);
      if i == |draws| {
        assert draws[..i] == draws;
      }
      forall k | 0 <= k < |minePositions|
        ensures 0 <= minePositions[k] < CellCount
      {
        assert minePositions[k] in draws;
      }
    }

    /** `reveal(index)`: the recursive flood-fill started by a click on a cell. */
    method Reveal(index: int) returns (ghost flood: seq<int>, ghost parent: seq<int>)
      requires Valid() && 0 <= index < CellCount
      modifies this
      decreases Unrevealed(), 0
      ensures Valid()
      ensures Opened(old(revealed), revealed, flood)
      ensures old(revealed[index]) ==> flood == []
      ensures !old(revealed[index]) ==> flood != [] && flood[0] == index
      ensures FloodOrder(flood, parent, BlankCells(minePositions))
      ensures minePositions == old(minePositions)
      ensures revealed[index]
      ensures Unrevealed() <= old(Unrevealed())
      ensures old(revealed[index]) ==>
        revealed == old(revealed) && faces == old(faces) && gameOverAlerts == old(gameOverAlerts)
      ensures !old(revealed[index]) && index in minePositions ==>
        revealed == old(revealed)[index := true] && gameOverAlerts == old(gameOverAlerts) + 1
      ensures !old(revealed[index]) && index !in minePositions && MinesAround(index, minePositions) > 0 ==>
        revealed == old(revealed)[index := true] && gameOverAlerts == old(gameOverAlerts)
      ensures index !in minePositions ==> gameOverAlerts == old(gameOverAlerts)
      ensures forall j :: 0 <= j < CellCount && revealed[j] && !old(revealed[j]) && j != index ==>
        j !in minePositions
      ensures forall j {:trigger Closed(revealed, j)} :: (0 <= j < CellCount && revealed[j] && !old(revealed[j]) &&
        j !in minePositions && MinesAround(j, minePositions) == 0) ==> Closed(revealed, j)
    {
      flood, parent := [], [];
      if revealed[index] {
        return;
      }
      revealed := revealed[index := true];
      flood, parent := [index], [-1];
      assert index in old(Unrevealed()) && index !in Unrevealed();
      if index in minePositions {
        faces := faces[index := Bomb];
        gameOverAlerts := gameOverAlerts + 1;
        return;
      }
      var ns := GetNeighbors(index);
      var count := CountMines(ns, minePositions);
      if count > 0 {
        faces := faces[index := Count(count)];
        return;
      }
      ghost var rest, restParent := RevealNeighbors(index, ns);
      assert index in BlankCells(minePositions);
      FloodPrepend(index, rest, restParent, BlankCells(minePositions));
      OpenedLead(old(revealed), index, revealed, rest);
      flood, parent := [index] + rest, LedBy(restParent);
      assert Closed(revealed, index);
    }

    /** `getNeighbors(index).forEach(reveal)`, for a cell with no mine around it. */
    method RevealNeighbors(index: int, ns: seq<int>) returns (ghost flood: seq<int>, ghost parent: seq<int>)
      requires Valid() && 0 <= index < CellCount && revealed[index]
      requires ns == Neighbors(index)
      requires forall k :: 0 <= k < |ns| ==> ns[k] !in minePositions
      modifies this
      decreases Unrevealed(), 2
      ensures Valid()
      ensures Opened(old(revealed), revealed, flood)
      ensures FloodFrom(index, flood, parent, BlankCells(minePositions))
      ensures minePositions == old(minePositions) && gameOverAlerts == old(gameOverAlerts)
      ensures Unrevealed() <= old(Unrevealed())
      ensures forall k :: 0 <= k < |ns| ==> revealed[ns[k]]
      ensures forall j :: 0 <= j < CellCount && revealed[j] && !old(revealed[j]) ==> j !in minePositions
      ensures forall j {:trigger Closed(revealed, j)} :: (0 <= j < CellCount && revealed[j] && !old(revealed[j]) &&
        MinesAround(j, minePositions) == 0) ==> Closed(revealed, j)
    {
      flood, parent := [], [];
      var k := 0;
      while k < |ns|
        invariant 0 <= k <= |ns|
        invariant Valid()
        invariant Opened(old(revealed), revealed, flood)
        invariant FloodFrom(index, flood, parent, BlankCells(minePositions))
        invariant minePositions == old(minePositions) && gameOverAlerts == old(gameOverAlerts)
        invariant Unrevealed() <= old(Unrevealed())
        invariant forall j :: 0 <= j < CellCount && revealed[j] && !old(revealed[j]) ==> j !in minePositions
        invariant forall j {:trigger Closed(revealed, j)} :: (0 <= j < CellCount && revealed[j] && !old(revealed[j]) &&
          MinesAround(j, minePositions) == 0) ==> Closed(revealed, j)
        invariant forall m :: 0 <= m < k ==> revealed[ns[m]]
      {
        flood, parent := RevealNext(index, ns, k, old(revealed), flood, parent);
        k := k + 1;
      }
    }

    /** One call of the `forEach`: reveal `ns[k]` and extend the flood begun at `start`. */
    method RevealNext(index: int, ns: seq<int>, k: int, ghost start: seq<bool>, ghost flood: seq<int>, ghost parent: seq<int>)
      returns (ghost flood': seq<int>, ghost parent': seq<int>)
      requires Valid() && 0 <= index < CellCount
      requires ns == Neighbors(index) && 0 <= k < |ns|
      requires forall m :: 0 <= m < |ns| ==> ns[m] !in minePositions
      requires Opened(start, revealed, flood)
      requires FloodFrom(index, flood, parent, BlankCells(minePositions))
      requires forall j :: 0 <= j < CellCount && revealed[j] && !start[j] ==> j !in minePositions
      requires forall j {:trigger Closed(revealed, j)} :: (0 <= j < CellCount && revealed[j] && !start[j] &&
        MinesAround(j, minePositions) == 0) ==> Closed(revealed, j)
      requires forall m :: 0 <= m < k ==> revealed[ns[m]]
      modifies this
      decreases Unrevealed(), 1
      ensures Valid()
      ensures Opened(start, revealed, flood')
      ensures FloodFrom(index, flood', parent', BlankCells(minePositions))
      ensures minePositions == old(minePositions) && gameOverAlerts == old(gameOverAlerts)
      ensures Unrevealed() <= old(Unrevealed())
      ensures forall j :: 0 <= j < CellCount && revealed[j] && !start[j] ==> j !in minePositions
      ensures forall j {:trigger Closed(revealed, j)} :: (0 <= j < CellCount && revealed[j] && !start[j] &&
        MinesAround(j, minePositions) == 0) ==> Closed(revealed, j)
      ensures forall m :: 0 <= m <= k ==> revealed[ns[m]]
    {
      ghost var before := revealed;
      ghost var next, nextParent := Reveal(ns[k]);
      FloodAppend(index, flood, parent, next, nextParent, BlankCells(minePositions));
      OpenedJoin(start, before, revealed, flood, next);
      flood', parent' := flood + next, Continued(parent, nextParent);
      forall j | 0 <= j < CellCount && before[j] && !start[j] && MinesAround(j, minePositions) == 0
        ensures Closed(revealed, j)
      {
        assert Closed(before, j);
      }
      forall m | 0 <= m <= k ensures revealed[ns[m]] {
        if m < k {
          assert before[ns[m]];
        }
      }
    }
  }
}
