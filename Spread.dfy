/**
 * The spread-pattern resolver lifted out of `AFPDevCharacter::FireWeapon`:
 * which cells of the flat pattern fire, in which order, and the target offset
 * each one is aimed at, up to (not including) the normalisation of the
 * direction and the spawn itself.
 */
module Spread {
  import opened Mechanic

  /**
   * The target point of one cell relative to the spawn location, as the
   * coefficients of the shooter's Forward, Up and Right unit vectors.
   */
  datatype Offset = Offset(forward: real, up: real, right: real)

  /** One projectile spawned: the pattern index of its cell and where it is aimed. */
  datatype Spawn = Spawn(cell: nat, target: Offset)

  /** C++ integer `i % w` for a non-negative `i`: the remainder takes the sign of `i`. */
  function Column(i: nat, w: int): (c: nat)
    requires w != 0
    ensures c < if w > 0 then w else -w
  {
    if w > 0 then i % w else i % -w
  }

  /** C++ integer `i / w` for a non-negative `i`: the quotient is truncated toward zero. */
  function Row(i: nat, w: int): (r: int)
    requires w != 0
    ensures r * w + Column(i, w) == i
    ensures w > 0 ==> r >= 0
  {
    if w > 0 then i / w else -(i / -w)
  }

  /** A pattern can be mapped to the grid unless a true cell would be divided by a zero width. */
  predicate CanDraw(pattern: seq<bool>, width: int)
  {
    width != 0 || forall i | 0 <= i < |pattern| :: !pattern[i]
  }

  /**
   * The offset for cell `i` of a grid `width` cells wide and `height` rows
   * high, with square cells of side `cellDim`, at `depth` in front of the
   * shooter. The grid is shifted by half its size so that it is centred on
   * the aim line, and each cell is aimed at its own centre.
   */
  function CellOffset(i: nat, width: int, height: int, cellDim: real, depth: real): (o: Offset)
    requires width != 0
    ensures o.forward == depth
    ensures o.right == (Column(i, width) as real + 0.5 - width as real / 2.0) * cellDim
    ensures o.up == (Row(i, width) as real + 0.5 - height as real / 2.0) * cellDim
  {
    var x := Column(i, width) as real - width as real / 2.0;
    var y := Row(i, width) as real - height as real / 2.0;
    Offset(depth, y * cellDim + 0.5 * cellDim, x * cellDim + 0.5 * cellDim)
  }

  /** The spawns of a whole pattern: one per true cell, in index order. */
  function PatternSpawns(pattern: seq<bool>, width: int, height: int, cellDim: real, depth: real): seq<Spawn>
    requires CanDraw(pattern, width)
    decreases |pattern|
  {
    if |pattern| == 0 then []
    else
      var last := |pattern| - 1;
      PatternSpawns(pattern[..last], width, height, cellDim, depth) +
      (if pattern[last] then [Spawn(last, CellOffset(last, width, height, cellDim, depth))] else [])
  }

  /** The loop over the pattern cells: walks the pattern with a counter and logs each true cell. */
  method SpawnPattern(pattern: seq<bool>, width: int, height: int, cellDim: real, depth: real)
    returns (spawns: seq<Spawn>)
    requires CanDraw(pattern, width)
    ensures spawns == PatternSpawns(pattern, width, height, cellDim, depth)
  {
    spawns := [];
    var i := 0;
    while i < |pattern|
      invariant 0 <= i <= |pattern|
      invariant spawns == PatternSpawns(pattern[..i], width, height, cellDim, depth)
    {
      assert pattern[..i + 1][..i] == pattern[..i];
      if pattern[i] {
        spawns := spawns + [Spawn(i, CellOffset(i, width, height, cellDim, depth))];
      }
      i := i + 1;
    }
    assert pattern[..i] == pattern;
  }

  /** Distinct cells land on distinct grid positions. */
  lemma GridInjective(i: nat, j: nat, w: int)
    requires w != 0
    requires Column(i, w) == Column(j, w) && Row(i, w) == Row(j, w)
    ensures i == j
  {
    assert i == Row(i, w) * w + Column(i, w);
    assert j == Row(j, w) * w + Column(j, w);
  }

  /** One spawn for every true cell: the count is the number of trues in the pattern. */
  lemma {:induction false} SpawnCount(pattern: seq<bool>, width: int, height: int, cellDim: real, depth: real)
    requires CanDraw(pattern, width)
    ensures |PatternSpawns(pattern, width, height, cellDim, depth)| == multiset(pattern)[true]
  {
    if |pattern| > 0 {
      var last := |pattern| - 1;
      assert pattern == pattern[..last] + [pattern[last]];
      SpawnCount(pattern[..last], width, height, cellDim, depth);
    }
  }

  /** Every spawn is a true cell of the pattern, aimed at that cell's offset. */
  predicate AllActive(s: seq<Spawn>, pattern: seq<bool>, width: int, height: int, cellDim: real, depth: real)
  {
    forall k | 0 <= k < |s| ::
      s[k].cell < |pattern| && pattern[s[k].cell] && width != 0 &&
      s[k].target == CellOffset(s[k].cell, width, height, cellDim, depth)
  }

  /** The spawns are in strictly ascending cell order. */
  predicate Ascending(s: seq<Spawn>)
  {
    forall k, l | 0 <= k < l < |s| :: s[k].cell < s[l].cell
  }

  /** Every true cell of the pattern is spawned. */
  predicate Covers(s: seq<Spawn>, pattern: seq<bool>)
  {
    forall i | 0 <= i < |pattern| && pattern[i] :: exists k :: 0 <= k < |s| && s[k].cell == i
  }

  /** Every spawn is a true cell, aimed at that cell's own offset. */
  lemma {:induction false} SpawnsAreActive(pattern: seq<bool>, width: int, height: int, cellDim: real, depth: real)
    requires CanDraw(pattern, width)
    ensures AllActive(PatternSpawns(pattern, width, height, cellDim, depth), pattern, width, height, cellDim, depth)
  {
    if |pattern| > 0 {
      var last := |pattern| - 1;
      var front := pattern[..last];
      SpawnsAreActive(front, width, height, cellDim, depth);
      var p := PatternSpawns(front, width, height, cellDim, depth);
      var s := PatternSpawns(pattern, width, height, cellDim, depth);
      assert s == p + (if pattern[last] then [Spawn(last, CellOffset(last, width, height, cellDim, depth))] else []);
      forall k | 0 <= k < |s|
        ensures s[k].cell < |pattern| && pattern[s[k].cell] && width != 0
        ensures s[k].target == CellOffset(s[k].cell, width, height, cellDim, depth)
      {
        if k < |p| {
          assert s[k] == p[k];
          assert p[k].cell < |front| && front[p[k].cell];
        }
      }
    }
  }

  /** The spawns come in strictly ascending cell order, which is the loop's index order. */
  lemma {:induction false} SpawnsAscending(pattern: seq<bool>, width: int, height: int, cellDim: real, depth: real)
    requires CanDraw(pattern, width)
    ensures Ascending(PatternSpawns(pattern, width, height, cellDim, depth))
  {
    if |pattern| > 0 {
      var last := |pattern| - 1;
      var front := pattern[..last];
      SpawnsAscending(front, width, height, cellDim, depth);
      SpawnsAreActive(front, width, height, cellDim, depth);
      var p := PatternSpawns(front, width, height, cellDim, depth);
      var s := PatternSpawns(pattern, width, height, cellDim, depth);
      assert s == p + (if pattern[last] then [Spawn(last, CellOffset(last, width, height, cellDim, depth))] else []);
      forall k, l | 0 <= k < l < |s|
        ensures s[k].cell < s[l].cell
      {
        if l < |p| {
          assert s[k] == p[k] && s[l] == p[l];
        } else {
          assert s[k] == p[k] && p[k].cell < |front|;
        }
      }
    }
  }

  /** No true cell is skipped. */
  lemma {:induction false} SpawnsCoverActive(pattern: seq<bool>, width: int, height: int, cellDim: real, depth: real)
    requires CanDraw(pattern, width)
    ensures Covers(PatternSpawns(pattern, width, height, cellDim, depth), pattern)
  {
    if |pattern| > 0 {
      var last := |pattern| - 1;
      var front := pattern[..last];
      SpawnsCoverActive(front, width, height, cellDim, depth);
      var p := PatternSpawns(front, width, height, cellDim, depth);
      var s := PatternSpawns(pattern, width, height, cellDim, depth);
      assert s == p + (if pattern[last] then [Spawn(last, CellOffset(last, width, height, cellDim, depth))] else []);
      forall i | 0 <= i < |pattern| && pattern[i]
        ensures exists k :: 0 <= k < |s| && s[k].cell == i
      {
        if i < last {
          assert front[i];
          var k :| 0 <= k < |p| && p[k].cell == i;
          assert s[k] == p[k];
        } else {
          assert s[|s| - 1].cell == i;
        }
      }
    }
  }

  /**
   * For a positive width the grid is centred on the aim line: two cells of
   * one row whose columns mirror each other are aimed at opposite right
   * offsets, and two cells of one column whose rows mirror each other are
   * aimed at opposite up offsets. A negative width is not centred: the
   * columns stay non-negative while the shift by half the width changes sign.
   */
  lemma OffsetCentred(i: nat, j: nat, width: int, height: int, cellDim: real, depth: real)
    requires width > 0
    ensures Column(i, width) + Column(j, width) == width - 1 ==>
      CellOffset(i, width, height, cellDim, depth).right + CellOffset(j, width, height, cellDim, depth).right == 0.0
    ensures Row(i, width) + Row(j, width) == height - 1 ==>
      CellOffset(i, width, height, cellDim, depth).up + CellOffset(j, width, height, cellDim, depth).up == 0.0
  {
    var xi := Column(i, width) as real - width as real / 2.0;
    var xj := Column(j, width) as real - width as real / 2.0;
    var yi := Row(i, width) as real - height as real / 2.0;
    var yj := Row(j, width) as real - height as real / 2.0;
    if Column(i, width) + Column(j, width) == width - 1 {
      assert xi + xj == -1.0;
      assert xi * cellDim + xj * cellDim == (xi + xj) * cellDim;
    }
    if Row(i, width) + Row(j, width) == height - 1 {
      assert yi + yj == -1.0;
      assert yi * cellDim + yj * cellDim == (yi + yj) * cellDim;
    }
  }

  /** With width -2 the first row's two cells are both aimed to the right of the aim line. */
  lemma NegativeWidthOffCentre()
    ensures CellOffset(0, -2, 1, 1.0, 0.0).right + CellOffset(1, -2, 1, 1.0, 0.0).right == 4.0
  {
    assert Column(0, -2) == 0 && Column(1, -2) == 1;
  }

  /**
   * The default pattern (three cells, the centre one active) fires one
   * projectile, straight ahead horizontally; for a non-zero cell size it is
   * centred vertically exactly when the grid is one row high.
   */
  lemma DefaultPatternSpawns(height: int, cellDim: real, depth: real)
    ensures CanDraw(DefaultPattern(), DefaultWidth)
    ensures PatternSpawns(DefaultPattern(), DefaultWidth, height, cellDim, depth)
      == [Spawn(1, Offset(depth, (1.0 - height as real) * cellDim / 2.0, 0.0))]
    ensures cellDim != 0.0 ==> ((1.0 - height as real) * cellDim / 2.0 == 0.0 <==> height == 1)
  {
    var p := DefaultPattern();
    assert p[0] == false && p[2] == false;
    assert p == [false, true, false];
    var o := CellOffset(1, 3, height, cellDim, depth);
    assert p[..2] == [false, true] && p[..2][..1] == [false] && [false][..0] == [];
    assert PatternSpawns([], 3, height, cellDim, depth) == [];
    assert PatternSpawns([false], 3, height, cellDim, depth) == [];
    assert PatternSpawns([false, true], 3, height, cellDim, depth) == [Spawn(1, o)];
    assert PatternSpawns(p, 3, height, cellDim, depth) == [Spawn(1, o)];
    assert Column(1, 3) == 1 && Row(1, 3) == 0;
    assert o.up == (0.5 - height as real / 2.0) * cellDim == (1.0 - height as real) * cellDim / 2.0;
    assert o.right == (1.0 + 0.5 - 1.5) * cellDim == 0.0;
    assert o == Offset(depth, (1.0 - height as real) * cellDim / 2.0, 0.0);
    if cellDim != 0.0 && (1.0 - height as real) * cellDim / 2.0 == 0.0 {
      var x := 1.0 - height as real;
      assert x * cellDim == 0.0;
      assert x == x * cellDim / cellDim;
      assert x == 0.0 / cellDim == 0.0;
    }
  }
}
