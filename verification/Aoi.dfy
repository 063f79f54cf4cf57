/**
  The area-of-interest index: a two-dimensional map of grids, each a set of player ids.
 */
module Aoi {
  import opened Containers
  import opened Geometry
  import opened Visibility

  class Grid {
    ghost const cell: Cell
    var players: set<Pid>

    constructor (ghost cell: Cell)
      ensures this.cell == cell && players == {}
    {
      this.cell := cell;
      players := {};
    }

    method AddNewPlayer(pid: Pid)
      requires pid !in players
      modifies this
      ensures players == old(players) + {pid}
    {
      players := players + {pid};
    }

    method RemovePlayer(pid: Pid)
      requires pid in players
      modifies this
      ensures players == old(players) - {pid}
    {
      players := players - {pid};
    }

    method GetAllPlayers() returns (pids: seq<Pid>)
      ensures Enumerates(pids, players)
    {
      pids := Walk(players);
    }
  }

  /** Everybody in the given grids */
  ghost function Occupants(grids: set<Grid>): set<Pid>
    reads grids
  {
    set g, p | g in grids && p in g.players :: p
  }

  ghost function Prefix(grids: seq<Grid>, n: nat): set<Grid>
    requires n <= |grids|
  {
    set i | 0 <= i < n :: grids[i]
  }

  /** All the fields are constant; what changes is inside the grids. */
  class AoiManager {
    const layout: Layout
    const worldMap: seq<seq<Grid>>
    ghost const grids: set<Grid>

    /** The map has one of the grids at this row and column. */
    ghost predicate HasCell(row: int, col: int)
      requires |worldMap| == layout.countY
    {
      IsValid(layout, Cell(row, col)) ==>
        && |worldMap[row]| == layout.countX
        && worldMap[row][col] in grids && worldMap[row][col].cell == Cell(row, col)
    }

    /** A grid is on the map at its cell. */
    ghost predicate OnItsCell(g: Grid)
      requires |worldMap| == layout.countY
    {
      && IsValid(layout, g.cell)
      && |worldMap[g.cell.row]| == layout.countX
      && worldMap[g.cell.row][g.cell.col] == g
    }

    /** The grids are one object per cell of the map. */
    ghost predicate Valid() {
      && |worldMap| == layout.countY
      && (forall row, col :: HasCell(row, col))
      && (forall g {:trigger OnItsCell(g)} :: g in grids ==> OnItsCell(g))
    }

    constructor (worldLength: nat, worldWidth: nat, cellSize: Size)
      ensures Valid() && fresh(grids)
      ensures layout == Layout(cellSize, worldLength / cellSize, worldWidth / cellSize)
      ensures forall g :: g in grids ==> g.players == {}
    {
      var countX: nat := Trunc(worldLength, cellSize);
      var countY: nat := Trunc(worldWidth, cellSize);
      var rows: seq<seq<Grid>> := [];
      ghost var made: set<Grid> := {};
      for row := 0 to countY
        invariant |rows| == row
        invariant forall r :: 0 <= r < row ==> |rows[r]| == countX
        invariant forall r, c :: 0 <= r < row && 0 <= c < countX ==>
                    rows[r][c] in made && rows[r][c].cell == Cell(r, c)
        invariant forall g :: g in made ==>
                    fresh(g) && g.players == {} && 0 <= g.cell.row < row && 0 <= g.cell.col < countX
                    && rows[g.cell.row][g.cell.col] == g
      {
        var cols, here := MakeRow(row, countX);
        rows := rows + [cols];
        made := made + here;
      }
      layout := Layout(cellSize, countX, countY);
      worldMap := rows;
      grids := made;
      new;
      assert Valid() by {
        forall row, col
          ensures HasCell(row, col)
        {
        }
        forall g | g in grids
          ensures OnItsCell(g)
        {
        }
      }
    }

    static method MakeRow(ghost row: nat, countX: nat) returns (cols: seq<Grid>, ghost here: set<Grid>)
      ensures |cols| == countX && fresh(here)
      ensures forall c :: 0 <= c < countX ==> cols[c] in here && cols[c].cell == Cell(row, c)
      ensures forall g :: g in here ==>
                g.players == {} && g.cell.row == row && 0 <= g.cell.col < countX && cols[g.cell.col] == g
    {
      cols := [];
      here := {};
      for col := 0 to countX
        invariant |cols| == col && fresh(here)
        invariant forall c :: 0 <= c < col ==> cols[c] in here && cols[c].cell == Cell(row, c)
        invariant forall g :: g in here ==>
                    g.players == {} && g.cell.row == row && 0 <= g.cell.col < col && cols[g.cell.col] == g
      {
        var grid := new Grid(Cell(row, col));
        cols := cols + [grid];
        here := here + {grid};
      }
    }

    function GetGridByPosition(p: Position): (g: Grid)
      requires Valid() && OnMap(layout, p)
      ensures g in grids && g.cell == CellOf(layout, p)
    {
      var c := CellOf(layout, p);
      assert HasCell(c.row, c.col);
      worldMap[c.row][c.col]
    }

    /** The grids around a cell, itself included, by a scan over all grids */
    ghost function Around(center: Cell): set<Grid> {
      set g | g in grids && Adjacent(center, g.cell)
    }

    /** The at most nine grids around a position */
    method GetSudokuByPosition(pos: Position) returns (result: seq<Grid>)
      requires Valid()
      ensures Enumerates(result, Around(CellOf(layout, pos)))
    {
      var center := CellOf(layout, pos);
      result := [];
      assert Passed(center, -1, -1) == {};
      for x := -1 to 2
        invariant Enumerates(result, Passed(center, x, -1))
      {
        for y := -1 to 2
          invariant Enumerates(result, Passed(center, x, y))
        {
          var row, col := center.row + x, center.col + y;
          PassedNext(center, x, y);
          assert HasCell(row, col);
          if IsValid(layout, Cell(row, col)) {
            EnumeratesNext(result, Passed(center, x, y), worldMap[row][col]);
            result := result + [worldMap[row][col]];
          }
        }
        assert Passed(center, x, 2) == Passed(center, x + 1, -1);
      }
      assert Passed(center, 2, -1) == Around(center);
    }

    /** The grids around the center that the two loops have passed before offset (x, y) */
    ghost function Passed(center: Cell, x: int, y: int): set<Grid> {
      set g | g in Around(center) && (g.cell.row < center.row + x || (g.cell.row == center.row + x && g.cell.col < center.col + y))
    }

    lemma PassedNext(center: Cell, x: int, y: int)
      requires Valid() && -1 <= x <= 1 && -1 <= y <= 1
      ensures var c := Cell(center.row + x, center.col + y);
              assert HasCell(c.row, c.col);
              if IsValid(layout, c) then
                && worldMap[c.row][c.col] !in Passed(center, x, y)
                && Passed(center, x, y + 1) == Passed(center, x, y) + {worldMap[c.row][c.col]}
              else Passed(center, x, y + 1) == Passed(center, x, y)
    {
      var c := Cell(center.row + x, center.col + y);
      assert HasCell(c.row, c.col);
      forall g | g in grids
        ensures IsValid(layout, g.cell) && (g.cell == c ==> worldMap[c.row][c.col] == g)
      {
        assert OnItsCell(g);
      }
    }

    method GetSurroundingPlayersByPid(pos: Position) returns (result: seq<Pid>)
      requires Valid()
      requires forall g, h :: g in grids && h in grids && g != h ==> g.players !! h.players
      ensures Enumerates(result, Occupants(Around(CellOf(layout, pos))))
    {
      var around := GetSudokuByPosition(pos);
      result := [];
      for i := 0 to |around|
        invariant Enumerates(result, Occupants(Prefix(around, i)))
      {
        var pids := around[i].GetAllPlayers();
        NextGrid(around, i, result, pids);
        result := result + pids;
      }
      assert Prefix(around, |around|) == Around(CellOf(layout, pos));
    }
  }

  lemma NextGrid(around: seq<Grid>, i: nat, result: seq<Pid>, pids: seq<Pid>)
    requires i < |around| && Distinct(around)
    requires forall g, h :: g in around && h in around && g != h ==> g.players !! h.players
    requires Enumerates(result, Occupants(Prefix(around, i))) && Enumerates(pids, around[i].players)
    ensures Enumerates(result + pids, Occupants(Prefix(around, i + 1)))
  {
    assert Prefix(around, i + 1) == Prefix(around, i) + {around[i]};
    forall p
      ensures p in Occupants(Prefix(around, i + 1)) <==> p in Occupants(Prefix(around, i)) || p in around[i].players
    {
    }
    assert Occupants(Prefix(around, i + 1)) == Occupants(Prefix(around, i)) + around[i].players;
    EnumeratesBoth(result, Occupants(Prefix(around, i)), pids, around[i].players);
  }

  lemma EnumeratesBoth<T>(a: seq<T>, s: set<T>, b: seq<T>, t: set<T>)
    requires Enumerates(a, s) && Enumerates(b, t) && s !! t
    ensures Enumerates(a + b, s + t)
  {
    forall i, j | 0 <= i < j < |a + b|
      ensures (a + b)[i] != (a + b)[j]
    {
      if i < |a| && |a| <= j {
        assert a[i] in a && b[j - |a|] in b;
      }
    }
  }
}
