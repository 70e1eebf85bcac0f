/** The cache of walkable tiles that surrounds a creature, and how it is shifted with every step. */
module WalkCache {

  /** How far the cache reaches to each side, and its width and height. */
  const REACH := 11

  const SIZE := 23

  datatype Position = Position(x: int, y: int, z: int)

  /** What a tile at given coordinates of the creature's floor answers: whether the creature may enter. */
  type Floor = (int, int) -> bool

  /** The tile that row `r` and column `c` stand for around `p`. */
  function X(p: Position, c: int): int
  {
    p.x + c - REACH
  }

  function Y(p: Position, r: int): int
  {
    p.y + r - REACH
  }

  function Distance(a: int, b: int): nat
  {
    if a < b then b - a else a - b
  }

  class Creature {
    /** Whether the creature keeps a cache at all. */
    const useCacheMap: bool
    const localMapCache: array2<bool>
    var position: Position

    ghost predicate Valid()
    {
      localMapCache.Length0 == SIZE && localMapCache.Length1 == SIZE
    }

    constructor (p: Position, useCacheMap: bool)
      ensures Valid() && fresh(localMapCache) && position == p && this.useCacheMap == useCacheMap
    {
      this.useCacheMap := useCacheMap;
      localMapCache := new bool[SIZE, SIZE]((r, c) => false);
      position := p;
    }

    /** Every cell shows what its tile answers, but for that of the tile at `own`. */
    ghost predicate Shows(p: Position, open: Floor, own: Position)
      requires Valid()
      reads localMapCache
    {
      forall r, c {:trigger localMapCache[r, c]} ::
        0 <= r < SIZE && 0 <= c < SIZE && !(X(p, c) == own.x && Y(p, r) == own.y) ==>
          localMapCache[r, c] == open(X(p, c), Y(p, r))
    }

    /** Sets the cell at an offset from the creature, if it is in reach. */
    method UpdateTileCache(walkable: bool, dx: int, dy: int)
      requires Valid()
      modifies localMapCache
      ensures forall r, c {:trigger localMapCache[r, c]} :: 0 <= r < SIZE && 0 <= c < SIZE ==>
        localMapCache[r, c] == if r == REACH + dy && c == REACH + dx then walkable else old(localMapCache[r, c])
    {
      if -REACH <= dx <= REACH && -REACH <= dy <= REACH {
        localMapCache[REACH + dy, REACH + dx] := walkable;
      }
    }

    method UpdateMapCache(open: Floor)
      requires Valid()
      modifies localMapCache
      ensures forall r, c {:trigger localMapCache[r, c]} :: 0 <= r < SIZE && 0 <= c < SIZE ==>
        localMapCache[r, c] == open(X(position, c), Y(position, r))
    {
      var y := -REACH;
      while y <= REACH
        invariant -REACH <= y <= REACH + 1
        invariant forall r, c {:trigger localMapCache[r, c]} :: 0 <= r < REACH + y && 0 <= c < SIZE ==>
          localMapCache[r, c] == open(X(position, c), Y(position, r))
      {
        UpdateRow(open, y);
        y := y + 1;
      }
    }

    /** The row `y` below the creature, or above it. */
    method UpdateRow(open: Floor, y: int)
      requires Valid() && -REACH <= y <= REACH
      modifies localMapCache
      ensures forall r, c {:trigger localMapCache[r, c]} :: 0 <= r < SIZE && 0 <= c < SIZE && r == REACH + y ==>
        localMapCache[r, c] == open(X(position, c), Y(position, r))
      ensures forall r, c {:trigger localMapCache[r, c]} :: 0 <= r < SIZE && 0 <= c < SIZE && r != REACH + y ==>
        localMapCache[r, c] == old(localMapCache[r, c])
    {
      var x := -REACH;
      while x <= REACH
        invariant -REACH <= x <= REACH + 1
        invariant forall r, c {:trigger localMapCache[r, c]} ::
          0 <= r < SIZE && 0 <= c < REACH + x && r == REACH + y ==>
            localMapCache[r, c] == open(X(position, c), Y(position, r))
        invariant forall r, c {:trigger localMapCache[r, c]} :: 0 <= r < SIZE && 0 <= c < SIZE && r != REACH + y ==>
          localMapCache[r, c] == old(localMapCache[r, c])
      {
        UpdateTileCache(open(position.x + x, position.y + y), x, y);
        x := x + 1;
      }
    }

    /** The column `x` right of the creature, or left of it. */
    method UpdateColumn(open: Floor, x: int)
      requires Valid() && -REACH <= x <= REACH
      modifies localMapCache
      ensures forall r, c {:trigger localMapCache[r, c]} :: 0 <= r < SIZE && 0 <= c < SIZE && c == REACH + x ==>
        localMapCache[r, c] == open(X(position, c), Y(position, r))
      ensures forall r, c {:trigger localMapCache[r, c]} :: 0 <= r < SIZE && 0 <= c < SIZE && c != REACH + x ==>
        localMapCache[r, c] == old(localMapCache[r, c])
    {
      var y := -REACH;
      while y <= REACH
        invariant -REACH <= y <= REACH + 1
        invariant forall r, c {:trigger localMapCache[r, c]} ::
          0 <= r < REACH + y && 0 <= c < SIZE && c == REACH + x ==>
            localMapCache[r, c] == open(X(position, c), Y(position, r))
        invariant forall r, c {:trigger localMapCache[r, c]} :: 0 <= r < SIZE && 0 <= c < SIZE && c != REACH + x ==>
          localMapCache[r, c] == old(localMapCache[r, c])
      {
        UpdateTileCache(open(position.x + x, position.y + y), x, y);
        y := y + 1;
      }
    }

    method CopyRow(to: int, from: int)
      requires Valid() && 0 <= to < SIZE && 0 <= from < SIZE && to != from
      modifies localMapCache
      ensures forall r, c {:trigger localMapCache[r, c]} :: 0 <= r < SIZE && 0 <= c < SIZE ==>
        localMapCache[r, c] == old(localMapCache[if r == to then from else r, c])
    {
      var x := 0;
      while x < SIZE
        invariant 0 <= x <= SIZE
        invariant forall r, c {:trigger localMapCache[r, c]} :: 0 <= r < SIZE && 0 <= c < SIZE ==>
          localMapCache[r, c] == old(localMapCache[if r == to && c < x then from else r, c])
      {
        localMapCache[to, x] := localMapCache[from, x];
        x := x + 1;
      }
    }

    ghost function Rows(): (rows: seq<seq<bool>>)
      requires Valid()
      reads localMapCache
      ensures |rows| == SIZE && forall r :: 0 <= r < SIZE ==> |rows[r]| == SIZE
      ensures forall r, c :: 0 <= r < SIZE && 0 <= c < SIZE ==> rows[r][c] == localMapCache[r, c]
    {
      seq(SIZE, r requires 0 <= r < SIZE reads localMapCache =>
        seq(SIZE, c requires 0 <= c < SIZE reads localMapCache => localMapCache[r, c]))
    }

    /** Row `r` shows what `row` says. */
    ghost predicate RowIs(r: int, row: seq<bool>)
      requires Valid() && 0 <= r < SIZE
      reads localMapCache
    {
      |row| == SIZE && forall c {:trigger localMapCache[r, c]} :: 0 <= c < SIZE ==> localMapCache[r, c] == row[c]
    }

    /** Copies a row, of which and of all others it is known what they show. */
    method CopyKnown(to: int, from: int, ghost rows: seq<seq<bool>>) returns (ghost rows': seq<seq<bool>>)
      requires Valid() && 0 <= to < SIZE && 0 <= from < SIZE && to != from && |rows| == SIZE
      requires forall r {:trigger rows[r]} :: 0 <= r < SIZE ==> RowIs(r, rows[r])
      modifies localMapCache
      ensures rows' == rows[to := rows[from]]
      ensures forall r {:trigger rows'[r]} :: 0 <= r < SIZE ==> RowIs(r, rows'[r])
    {
      rows' := rows[to := rows[from]];
      CopyRow(to, from);
      forall r | 0 <= r < SIZE ensures RowIs(r, rows'[r]) {
        assert old(RowIs(if r == to then from else r, rows[if r == to then from else r]));
      }
    }

    /** Every row moves down by one. */
    method ShiftSouth()
      requires Valid()
      modifies localMapCache
      ensures forall r, c {:trigger localMapCache[r, c]} :: 0 < r < SIZE && 0 <= c < SIZE ==>
        localMapCache[r, c] == old(localMapCache[r - 1, c])
    {
      hide RowIs;
      ghost var rows, now := Rows(), Rows();
      AllRows();
      for y := SIZE - 1 downto 0
        invariant |now| == SIZE && forall r {:trigger now[r]} :: 0 <= r < SIZE ==> RowIs(r, now[r])
        invariant now[..y + 1] == rows[..y + 1] && now[y + 1..] == rows[y..SIZE - 1]
      {
        now := CopyKnown(y + 1, y, now);
      }
      Shown(now);
      assert forall r :: 0 < r < SIZE ==> now[r] == now[1..][r - 1] == rows[..SIZE - 1][r - 1];
    }

    lemma {:induction false} AllRows()
      requires Valid()
      ensures forall r {:trigger Rows()[r]} :: 0 <= r < SIZE ==> RowIs(r, Rows()[r])
    {
    }

    lemma {:induction false} Shown(now: seq<seq<bool>>)
      requires Valid() && |now| == SIZE && forall r {:trigger now[r]} :: 0 <= r < SIZE ==> RowIs(r, now[r])
      ensures forall r {:trigger now[r]} :: 0 <= r < SIZE ==> |now[r]| == SIZE
      ensures forall r, c {:trigger localMapCache[r, c]} :: 0 <= r < SIZE && 0 <= c < SIZE ==>
        localMapCache[r, c] == now[r][c]
    {
      forall r, c | 0 <= r < SIZE && 0 <= c < SIZE ensures |now[r]| == SIZE && localMapCache[r, c] == now[r][c] {
        assert RowIs(r, now[r]);
      }
    }

    /** Every row moves up by one. */
    method ShiftNorth()
      requires Valid()
      modifies localMapCache
      ensures forall r, c {:trigger localMapCache[r, c]} :: 0 <= r < SIZE - 1 && 0 <= c < SIZE ==>
        localMapCache[r, c] == old(localMapCache[r + 1, c])
    {
      hide RowIs;
      ghost var rows, now := Rows(), Rows();
      AllRows();
      var y := 0;
      while y <= SIZE - 2
        invariant 0 <= y <= SIZE - 1
        invariant |now| == SIZE && forall r {:trigger now[r]} :: 0 <= r < SIZE ==> RowIs(r, now[r])
        invariant now[..y] == rows[1..y + 1] && now[y..] == rows[y..]
      {
        now := CopyKnown(y, y + 1, now);
        y := y + 1;
      }
      Shown(now);
      assert forall r :: 0 <= r < SIZE - 1 ==> now[r] == now[..y][r] == rows[1..][r];
    }

    /** In the rows from `starty` to `endy`, every cell moves left by one. */
    method ShiftWest(starty: int, endy: int)
      requires Valid() && 0 <= starty && endy < SIZE
      modifies localMapCache
      ensures forall r, c {:trigger localMapCache[r, c]} :: 0 <= r < SIZE && 0 <= c < SIZE - 1 ==>
        localMapCache[r, c] == old(localMapCache[r, if starty <= r <= endy then c + 1 else c])
    {
      var y := starty;
      while y <= endy
        invariant starty <= y
        invariant forall r, c {:trigger localMapCache[r, c]} :: 0 <= r < SIZE && 0 <= c < SIZE - 1 ==>
          localMapCache[r, c] == old(localMapCache[r, if starty <= r < y && r <= endy then c + 1 else c])
        invariant forall r, c {:trigger localMapCache[r, c]} :: 0 <= r < SIZE && 0 <= c < SIZE && c == SIZE - 1 ==>
          localMapCache[r, c] == old(localMapCache[r, c])
      {
        ShiftRowWest(y);
        y := y + 1;
      }
    }

    method ShiftRowWest(y: int)
      requires Valid() && 0 <= y < SIZE
      modifies localMapCache
      ensures forall r, c {:trigger localMapCache[r, c]} :: 0 <= r < SIZE && 0 <= c < SIZE ==>
        localMapCache[r, c] == old(localMapCache[r, if r == y && c < SIZE - 1 then c + 1 else c])
    {
      var x := 0;
      while x <= SIZE - 2
        invariant 0 <= x <= SIZE - 1
        invariant forall r, c {:trigger localMapCache[r, c]} :: 0 <= r < SIZE && 0 <= c < SIZE ==>
          localMapCache[r, c] == old(localMapCache[r, if r == y && c < x then c + 1 else c])
      {
        localMapCache[y, x] := localMapCache[y, x + 1];
        x := x + 1;
      }
    }

    /** In the rows from `starty` to `endy`, every cell moves right by one. */
    method ShiftEast(starty: int, endy: int)
      requires Valid() && 0 <= starty && endy < SIZE
      modifies localMapCache
      ensures forall r, c {:trigger localMapCache[r, c]} :: 0 <= r < SIZE && 0 < c < SIZE ==>
        localMapCache[r, c] == old(localMapCache[r, if starty <= r <= endy then c - 1 else c])
    {
      var y := starty;
      while y <= endy
        invariant starty <= y
        invariant forall r, c {:trigger localMapCache[r, c]} :: 0 <= r < SIZE && 0 < c < SIZE ==>
          localMapCache[r, c] == old(localMapCache[r, if starty <= r < y && r <= endy then c - 1 else c])
        invariant forall r, c {:trigger localMapCache[r, c]} :: 0 <= r < SIZE && 0 <= c < SIZE && c == 0 ==>
          localMapCache[r, c] == old(localMapCache[r, c])
      {
        ShiftRowEast(y);
        y := y + 1;
      }
    }

    method ShiftRowEast(y: int)
      requires Valid() && 0 <= y < SIZE
      modifies localMapCache
      ensures forall r, c {:trigger localMapCache[r, c]} :: 0 <= r < SIZE && 0 <= c < SIZE ==>
        localMapCache[r, c] == old(localMapCache[r, if r == y && c > 0 then c - 1 else c])
    {
      var x := SIZE - 2;
      while x >= 0
        invariant -1 <= x <= SIZE - 2
        invariant forall r, c {:trigger localMapCache[r, c]} :: 0 <= r < SIZE && 0 <= c < SIZE ==>
          localMapCache[r, c] == old(localMapCache[r, if r == y && c > x + 1 then c - 1 else c])
      {
        localMapCache[y, x + 1] := localMapCache[y, x];
        x := x - 1;
      }
    }

    /** The rows, after a step from `oldPos`. */
    method MoveRows(oldPos: Position, open: Floor)
      requires Valid() && -1 <= position.y - oldPos.y <= 1
      modifies localMapCache
      ensures forall r, c {:trigger localMapCache[r, c]} :: 0 <= r < SIZE && 0 <= c < SIZE ==>
        if 0 <= r + position.y - oldPos.y < SIZE
        then localMapCache[r, c] == old(localMapCache[r + position.y - oldPos.y, c])
        else localMapCache[r, c] == open(X(position, c), Y(position, r))
    {
      if oldPos.y > position.y {
        ShiftSouth();
        UpdateRow(open, -REACH);
      } else if oldPos.y < position.y {
        ShiftNorth();
        UpdateRow(open, REACH);
      }
    }

    /** The columns, after a step from `oldPos`. After a step to another row, the first row is spared: it has
        been read anew when the step went north. */
    method MoveColumns(oldPos: Position, open: Floor)
      requires Valid() && -1 <= position.x - oldPos.x <= 1 && -1 <= position.y - oldPos.y <= 1
      modifies localMapCache
      ensures forall r, c {:trigger localMapCache[r, c]} :: 0 <= r < SIZE && 0 <= c < SIZE ==>
        if 0 <= c + position.x - oldPos.x < SIZE then
          localMapCache[r, c]
          == old(localMapCache[r, if r > 0 || oldPos.y == position.y then c + position.x - oldPos.x else c])
        else localMapCache[r, c] == open(X(position, c), Y(position, r))
    {
      if oldPos.x != position.x {
        var starty, endy := 0, SIZE - 1;
        var dy := Distance(oldPos.y, position.y);
        if dy < 0 {
          endy := endy + dy;
        } else if dy > 0 {
          starty := dy;
        }
        if oldPos.x < position.x {
          MoveWest(starty, endy, open);
        } else {
          MoveEast(starty, endy, open);
        }
      }
    }

    method MoveWest(starty: int, endy: int, open: Floor)
      requires Valid() && 0 <= starty && endy == SIZE - 1
      modifies localMapCache
      ensures forall r, c {:trigger localMapCache[r, c]} :: 0 <= r < SIZE && 0 <= c < SIZE ==>
        if c < SIZE - 1 then localMapCache[r, c] == old(localMapCache[r, if starty <= r then c + 1 else c])
        else localMapCache[r, c] == open(X(position, c), Y(position, r))
    {
      ShiftWest(starty, endy);
      UpdateColumn(open, REACH);
    }

    method MoveEast(starty: int, endy: int, open: Floor)
      requires Valid() && 0 <= starty && endy == SIZE - 1
      modifies localMapCache
      ensures forall r, c {:trigger localMapCache[r, c]} :: 0 <= r < SIZE && 0 <= c < SIZE ==>
        if c > 0 then localMapCache[r, c] == old(localMapCache[r, if starty <= r then c - 1 else c])
        else localMapCache[r, c] == open(X(position, c), Y(position, r))
    {
      ShiftEast(starty, endy);
      UpdateColumn(open, -REACH);
    }

    /** The creature has come from `oldPos`. `was` is what the tiles answered before, which differs at most
        where the creature was and where it is. After a step the cache shows again what the tiles answer,
        unless the step went south-east or south-west: then it does exactly when the first and the last row
        look the same shifted by one. */
    method OnOwnMove(oldPos: Position, open: Floor, teleport: bool, ghost was: Floor)
      requires Valid() && Shows(oldPos, was, oldPos)
      requires !teleport && oldPos.z == position.z ==> Step(oldPos, position)
      requires forall x, y :: was(x, y) != open(x, y) ==>
        (x == oldPos.x && y == oldPos.y) || (x == position.x && y == position.y)
      modifies localMapCache
      ensures teleport || oldPos.z != position.z || !SouthernDiagonal(oldPos, position) ==>
        Shows(position, open, position)
      ensures !teleport && oldPos.z == position.z && SouthernDiagonal(oldPos, position) ==>
        (Shows(position, open, position) <==> EdgesAlike(position, open, position.x - oldPos.x))
    {
      if teleport || oldPos.z != position.z {
        UpdateMapCache(open);
        return;
      }
      ghost var full := Completed(was, oldPos, localMapCache[REACH, REACH]);
      CompletedShows(oldPos, was);
      OneStep(oldPos, open, full);
      Decided(oldPos, open, full);
      hide Shows, SteppedCell, Step, SouthernDiagonal, EdgesAlike, DifferAt, AllRight, Completed;
      if SouthernDiagonal(oldPos, position) {
        EdgesDecide(full, open, oldPos, position);
      } else {
        StepRight(full, open, oldPos, position);
      }
    }

    lemma {:induction false} CompletedShows(oldPos: Position, was: Floor)
      requires Valid() && Shows(oldPos, was, oldPos)
      ensures forall r, c {:trigger localMapCache[r, c]} :: 0 <= r < SIZE && 0 <= c < SIZE ==>
        localMapCache[r, c] == Completed(was, oldPos, localMapCache[REACH, REACH])(X(oldPos, c), Y(oldPos, r))
    {
    }

    /** The cache is right if every cell is. */
    lemma {:induction false} Decided(oldPos: Position, open: Floor, full: Floor)
      requires Valid()
      requires forall r, c {:trigger localMapCache[r, c]} :: 0 <= r < SIZE && 0 <= c < SIZE ==>
        localMapCache[r, c] == SteppedCell(full, open, oldPos, position, r, c)
      ensures Shows(position, open, position) <==> AllRight(full, open, oldPos, position)
    {
      if AllRight(full, open, oldPos, position) {
        forall r, c | 0 <= r < SIZE && 0 <= c < SIZE && !(X(position, c) == position.x && Y(position, r) == position.y)
          ensures localMapCache[r, c] == open(X(position, c), Y(position, r))
        {
          assert SteppedCell(full, open, oldPos, position, r, c) == open(X(position, c), Y(position, r));
        }
      }
      if Shows(position, open, position) {
        forall r, c | 0 <= r < SIZE && 0 <= c < SIZE && !(X(position, c) == position.x && Y(position, r) == position.y)
          ensures SteppedCell(full, open, oldPos, position, r, c) == open(X(position, c), Y(position, r))
        {
          assert localMapCache[r, c] == open(X(position, c), Y(position, r));
        }
      }
    }

    method OneStep(oldPos: Position, open: Floor, ghost was: Floor)
      requires Valid() && Step(oldPos, position)
      requires forall r, c {:trigger localMapCache[r, c]} :: 0 <= r < SIZE && 0 <= c < SIZE ==>
        localMapCache[r, c] == was(X(oldPos, c), Y(oldPos, r))
      modifies localMapCache
      ensures forall r, c {:trigger localMapCache[r, c]} :: 0 <= r < SIZE && 0 <= c < SIZE ==>
        localMapCache[r, c] == SteppedCell(was, open, oldPos, position, r, c)
    {
      MoveRows(oldPos, open);
      assert forall r, c {:trigger localMapCache[r, c]} :: 0 <= r < SIZE && 0 <= c < SIZE ==>
        localMapCache[r, c] == RowsCell(was, open, oldPos, position, r, c);
      MoveColumns(oldPos, open);
      assert forall r, c {:trigger localMapCache[r, c]} :: 0 <= r < SIZE && 0 <= c < SIZE ==>
        localMapCache[r, c] == MovedCell(was, open, oldPos, position, r, c);
      UpdateTileCache(open(oldPos.x, oldPos.y), oldPos.x - position.x, oldPos.y - position.y);
    }

    /** Another creature has moved: its old and its new tile are looked at again. */
    method OnOtherMove(oldPos: Position, newPos: Position, open: Floor, ghost was: Floor)
      requires Valid() && Shows(position, was, position)
      requires forall x, y :: was(x, y) != open(x, y) ==>
        (oldPos.z == position.z && x == oldPos.x && y == oldPos.y)
        || (newPos.z == position.z && x == newPos.x && y == newPos.y)
      modifies localMapCache
      ensures Shows(position, open, position)
    {
      if newPos.z == position.z {
        UpdateTileCache(open(newPos.x, newPos.y), newPos.x - position.x, newPos.y - position.y);
      }
      if oldPos.z == position.z {
        UpdateTileCache(open(oldPos.x, oldPos.y), oldPos.x - position.x, oldPos.y - position.y);
      }
    }

    /** 1 if the creature may go to `pos`, 0 if not, and 2 if there is no cache or it does not reach that far. */
    method GetWalkCache(pos: Position, ghost open: Floor) returns (r: int)
      requires Valid() && (useCacheMap ==> Shows(position, open, position))
      ensures r == if !useCacheMap then 2
                   else if pos.z != position.z then 0
                   else if pos == position then 1
                   else if Distance(pos.x, position.x) > REACH || Distance(pos.y, position.y) > REACH then 2
                   else if open(pos.x, pos.y) then 1 else 0
    {
      if !useCacheMap {
        return 2;
      }
      if position.z != pos.z {
        return 0;
      }
      if pos == position {
        return 1;
      }
      var dx, dy := pos.x - position.x, pos.y - position.y;
      if -REACH <= dx <= REACH {
        if -REACH <= dy <= REACH {
          return if localMapCache[REACH + dy, REACH + dx] then 1 else 0;
        }
      }
      return 2;
    }
  }

  /** What a cell shows once the rows have been moved, ... */
  function RowsCell(was: Floor, open: Floor, a: Position, b: Position, r: int, c: int): bool
  {
    if 0 <= r + b.y - a.y < SIZE then was(X(a, c), Y(a, r + b.y - a.y)) else open(X(b, c), Y(b, r))
  }

  /** ... then the columns, ... */
  function MovedCell(was: Floor, open: Floor, a: Position, b: Position, r: int, c: int): bool
  {
    if 0 <= c + b.x - a.x < SIZE then RowsCell(was, open, a, b, r, if r > 0 || a.y == b.y then c + b.x - a.x else c)
    else open(X(b, c), Y(b, r))
  }

  /** ... and last the tile that was left has been looked at. */
  function SteppedCell(was: Floor, open: Floor, a: Position, b: Position, r: int, c: int): bool
  {
    if r == REACH + a.y - b.y && c == REACH + a.x - b.x then open(a.x, a.y) else MovedCell(was, open, a, b, r, c)
  }

  ghost predicate DifferAt(was: Floor, open: Floor, a: Position, b: Position)
  {
    forall x, y :: was(x, y) != open(x, y) ==> (x == a.x && y == a.y) || (x == b.x && y == b.y)
  }

  lemma {:induction false} CellRight(was: Floor, open: Floor, a: Position, b: Position, r: int, c: int)
    requires Step(a, b) && DifferAt(was, open, a, b) && 0 <= r < SIZE && 0 <= c < SIZE
    requires !(X(b, c) == b.x && Y(b, r) == b.y)
    requires !SouthernDiagonal(a, b) || 0 < r < SIZE - 1 || !(0 <= c + b.x - a.x < SIZE)
    ensures SteppedCell(was, open, a, b, r, c) == open(X(b, c), Y(b, r))
  {
  }

  /** In the first and the last row, a southern diagonal leaves the answers of other tiles. */
  lemma {:induction false} EdgeCells(was: Floor, open: Floor, a: Position, b: Position, c: int)
    requires Step(a, b) && DifferAt(was, open, a, b) && SouthernDiagonal(a, b) && 0 <= c < SIZE
    requires 0 <= c + b.x - a.x < SIZE
    ensures SteppedCell(was, open, a, b, 0, c) == open(X(b, c) - (b.x - a.x), Y(b, 0))
    ensures SteppedCell(was, open, a, b, SIZE - 1, c) == open(X(b, c) + (b.x - a.x), Y(b, SIZE - 1))
  {
  }

  /** The answers before the step, with what the cell of the creature's own tile happened to show. */
  function Completed(was: Floor, a: Position, here: bool): Floor
  {
    (x, y) => if x == a.x && y == a.y then here else was(x, y)
  }

  ghost predicate AllRight(was: Floor, open: Floor, a: Position, b: Position)
  {
    forall r, c :: 0 <= r < SIZE && 0 <= c < SIZE && !(X(b, c) == b.x && Y(b, r) == b.y) ==>
      SteppedCell(was, open, a, b, r, c) == open(X(b, c), Y(b, r))
  }

  lemma {:induction false} StepRight(was: Floor, open: Floor, a: Position, b: Position)
    requires Step(a, b) && DifferAt(was, open, a, b) && !SouthernDiagonal(a, b)
    ensures AllRight(was, open, a, b)
  {
    forall r, c | 0 <= r < SIZE && 0 <= c < SIZE && !(X(b, c) == b.x && Y(b, r) == b.y)
      ensures SteppedCell(was, open, a, b, r, c) == open(X(b, c), Y(b, r))
    {
      CellRight(was, open, a, b, r, c);
    }
  }

  lemma {:induction false} EdgesDecide(was: Floor, open: Floor, a: Position, b: Position)
    requires Step(a, b) && DifferAt(was, open, a, b) && SouthernDiagonal(a, b)
    ensures AllRight(was, open, a, b) <==> EdgesAlike(b, open, b.x - a.x)
  {
    if EdgesAlike(b, open, b.x - a.x) {
      forall r, c | 0 <= r < SIZE && 0 <= c < SIZE && !(X(b, c) == b.x && Y(b, r) == b.y)
        ensures SteppedCell(was, open, a, b, r, c) == open(X(b, c), Y(b, r))
      {
        if 0 < r < SIZE - 1 || !(0 <= c + b.x - a.x < SIZE) {
          CellRight(was, open, a, b, r, c);
        } else {
          EdgeCells(was, open, a, b, c);
          assert EdgeAlike(b, open, b.x - a.x, c);
        }
      }
    }
    if AllRight(was, open, a, b) {
      var dx := b.x - a.x;
      forall c | 0 <= c < SIZE && 0 <= c + dx < SIZE ensures EdgeAlike(b, open, dx, c) {
        EdgeCells(was, open, a, b, c);
        assert SteppedCell(was, open, a, b, 0, c) == open(X(b, c), Y(b, 0));
        assert SteppedCell(was, open, a, b, SIZE - 1, c) == open(X(b, c), Y(b, SIZE - 1));
      }
    }
  }

  /** One step on the same floor. */
  predicate Step(a: Position, b: Position)
  {
    a.z == b.z && a != b && -1 <= b.x - a.x <= 1 && -1 <= b.y - a.y <= 1
  }

  predicate SouthernDiagonal(a: Position, b: Position)
  {
    b.y > a.y && b.x != a.x
  }

  /** The first row answers as it does one tile back, and the last as it does one tile on, but for the
      column that is new. */
  ghost predicate EdgesAlike(p: Position, open: Floor, dx: int)
  {
    forall c :: 0 <= c < SIZE && 0 <= c + dx < SIZE ==> EdgeAlike(p, open, dx, c)
  }

  predicate EdgeAlike(p: Position, open: Floor, dx: int, c: int)
  {
    && open(X(p, c), Y(p, 0)) == open(X(p, c) - dx, Y(p, 0))
    && open(X(p, c), Y(p, SIZE - 1)) == open(X(p, c) + dx, Y(p, SIZE - 1))
  }

  /** A step south-east with one closed tile far to the north after which the cache is wrong. */
  method SouthEastGoesWrong() returns (creature: Creature, open: Floor)
    ensures creature.Valid() && !creature.Shows(creature.position, open, creature.position)
  {
    open := (x, y) => !(x == 1000 && y == 990);
    var oldPos := Position(1000, 1000, 7);
    creature := new Creature(oldPos, true);
    creature.UpdateMapCache(open);
    creature.position := Position(1001, 1001, 7);
    assert !EdgeAlike(creature.position, open, 1, 10);
    creature.OnOwnMove(oldPos, open, false, open);
  }
}
