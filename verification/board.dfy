/** Cells of the width x height grid (a Mesa `MultiGrid` without wrap-around)
    and their 4-connected neighbourhood. */
module Board {
  import opened Util

  datatype Pos = Pos(x: int, y: int)

  predicate InBounds(p: Pos, width: int, height: int)
  {
    0 <= p.x < width && 0 <= p.y < height
  }

  /** The cell holding the tall pillar: `(width // 2, height // 2)`. */
  function Centre(width: nat, height: nat): Pos
  {
    Pos(width / 2, height / 2)
  }

  /** A board of pillar heights stored column by column, `board[x][y]`,
      with `width` columns of `height` cells. */
  predicate Shaped(board: seq<seq<int>>, width: int, height: int)
  {
    |board| == width && forall x :: 0 <= x < |board| ==> |board[x]| == height
  }

  /** The board after the pillar at `c` grew by one level
      (`pillars[x][y].height += 1`): that cell rises by one, every other
      cell keeps its height and the board keeps its shape. */
  function Raise(board: seq<seq<int>>, c: Pos): (r: seq<seq<int>>)
    requires 0 <= c.x < |board| && 0 <= c.y < |board[c.x]|
    ensures |r| == |board| && forall x :: 0 <= x < |r| ==> |r[x]| == |board[x]|
    ensures forall x, y {:trigger r[x][y]} :: 0 <= x < |r| && 0 <= y < |r[x]| ==>
              r[x][y] == board[x][y] + (if Pos(x, y) == c then 1 else 0)
  {
    board[c.x := board[c.x][c.y := board[c.x][c.y] + 1]]
  }

  /** No cell occurs twice in `at`: distinct agents stand on distinct cells. */
  predicate NoRepeats(at: seq<Pos>)
  {
    at == [] || (at[0] !in at[1..] && NoRepeats(at[1..]))
  }

  /** `NoRepeats` is pairwise distinctness. */
  lemma {:induction false} NoRepeatsPairwise(at: seq<Pos>)
    ensures NoRepeats(at) <==> forall i, j :: 0 <= i < j < |at| ==> at[i] != at[j]
  {
    if at != [] {
      var rest := at[1..];
      NoRepeatsPairwise(rest);
      if NoRepeats(at) {
        forall i, j | 0 <= i < j < |at| ensures at[i] != at[j] {
          if i == 0 {
            assert at[j] == rest[j - 1];
          } else {
            assert at[i] == rest[i - 1] && at[j] == rest[j - 1];
          }
        }
      }
      if forall i, j :: 0 <= i < j < |at| ==> at[i] != at[j] {
        forall i, j | 0 <= i < j < |rest| ensures rest[i] != rest[j] {
          assert rest[i] == at[i + 1] && rest[j] == at[j + 1];
        }
        forall k | 0 <= k < |rest| ensures rest[k] != at[0] {
          assert rest[k] == at[k + 1];
        }
      }
    }
  }

  /** Moving one agent to a cell nobody occupies keeps the cells distinct. */
  lemma NoRepeatsMove(at: seq<Pos>, k: nat, c: Pos)
    requires NoRepeats(at) && k < |at| && c !in at
    ensures NoRepeats(at[k := c])
  {
    var at' := at[k := c];
    NoRepeatsPairwise(at);
    NoRepeatsPairwise(at');
    forall i, j | 0 <= i < j < |at'| ensures at'[i] != at'[j] {
      if i == k {
        assert at[j] in at;
      } else if j == k {
        assert at[i] in at;
      }
    }
  }

  /** Two cells sharing an edge (no diagonals). */
  predicate Adjacent(p: Pos, q: Pos)
  {
    Diff(p.x, q.x) + Diff(p.y, q.y) == 1
  }

  /** `get_neighborhood(p, moore=False, include_center=False)` on a
      non-toroidal grid: the on-board cells sharing an edge with `p`. Their
      order is immaterial to the game, which only ever picks among them
      with `random.choice`. */
  function Neighbours(p: Pos, width: int, height: int): (cells: seq<Pos>)
    ensures forall c :: c in cells <==> InBounds(c, width, height) && Adjacent(p, c)
    ensures forall i, j :: 0 <= i < j < |cells| ==> cells[i] != cells[j]
    ensures |cells| <= 4
  {
    var west, north, south, east := Pos(p.x - 1, p.y), Pos(p.x, p.y - 1), Pos(p.x, p.y + 1), Pos(p.x + 1, p.y);
    (if InBounds(west, width, height) then [west] else [])
    + (if InBounds(north, width, height) then [north] else [])
    + (if InBounds(south, width, height) then [south] else [])
    + (if InBounds(east, width, height) then [east] else [])
  }

  /** The agent's own cell is never one of its neighbours, and neighbourhood
      is symmetric. */
  lemma NeighbourhoodSymmetric(p: Pos, q: Pos, width: int, height: int)
    requires InBounds(p, width, height)
    ensures p !in Neighbours(p, width, height)
    ensures q in Neighbours(p, width, height) ==> p in Neighbours(q, width, height)
  {
    assert !Adjacent(p, p);
    if q in Neighbours(p, width, height) {
      assert Diff(q.x, p.x) == Diff(p.x, q.x) && Diff(q.y, p.y) == Diff(p.y, q.y);
    }
  }
}
