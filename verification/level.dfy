/** The fixed level of the prototype (main.py:39-47, 55-65): a ground row of
    2049 blocks and 100 columns of 10 blocks, every block a 32 x 32 square
    placed by its centre. */
module Level {
  import opened Geometry
  import opened Controls

  /** Side of a square block (main.py:40). */
  const BlockSize: int := 32
  /** Ground row block indices run from GroundFirst to GroundLast inclusive
      (main.py:59). */
  const GroundFirst: int := -1024
  const GroundLast: int := 1024
  const GroundCount: int := GroundLast - GroundFirst + 1
  /** Column layout (main.py:61-63). */
  const ColumnCount: int := 100
  const ColumnHeight: int := 10
  const ColumnSpacing: int := 1000
  const BlockCount: int := GroundCount + ColumnCount * ColumnHeight

  /** `Block(pos).rect` (main.py:42-47). */
  function BlockAt(cx: int, cy: int): (r: Rect)
    ensures r.w == BlockSize && r.h == BlockSize
    ensures r.CenterX() == cx && r.CenterY() == cy
  {
    Centered(BlockSize, BlockSize, cx, cy)
  }

  /** The k-th ground block (main.py:60). */
  function GroundBlock(k: int): Rect
  {
    BlockAt((k + GroundFirst) * BlockSize, HEIGHT)
  }

  /** Block j of column i (main.py:63). The column's vertical coordinate is
      written with WIDTH in the source; WIDTH equals HEIGHT. */
  function ColumnBlock(i: int, j: int): Rect
  {
    BlockAt(i * ColumnSpacing, WIDTH - j * BlockSize)
  }

  /** The obstacle list in insertion order: the ground row, then the columns
      one after another, bottom block first. */
  function LevelRects(): (r: seq<Rect>)
    ensures |r| == BlockCount
  {
    seq(BlockCount, k requires 0 <= k < BlockCount =>
      if k < GroundCount then GroundBlock(k)
      else ColumnBlock((k - GroundCount) / ColumnHeight, (k - GroundCount) % ColumnHeight))
  }

  /** A block's rectangle, coordinate by coordinate. */
  lemma BlockAtCorner(cx: int, cy: int)
    ensures BlockAt(cx, cy) == Rect(cx - BlockSize / 2, cy - BlockSize / 2, BlockSize, BlockSize)
  {
  }

  /** Division facts for the column index arithmetic. */
  lemma ColumnIndex(i: int, j: int)
    requires 0 <= j < ColumnHeight
    ensures (ColumnHeight * i + j) / ColumnHeight == i
    ensures (ColumnHeight * i + j) % ColumnHeight == j
  {
  }

  /** The level-building loops of main.py:59-65, block by block. */
  method BuildLevel() returns (blocks: seq<Rect>)
    ensures blocks == LevelRects()
  {
    blocks := [];
    var i := GroundFirst;
    while i < GroundLast + 1
      invariant GroundFirst <= i <= GroundLast + 1
      invariant |blocks| == i - GroundFirst
      invariant forall k :: 0 <= k < |blocks| ==> blocks[k] == GroundBlock(k)
    {
      blocks := blocks + [BlockAt(i * BlockSize, HEIGHT)];
      i := i + 1;
    }
    i := 0;
    while i < ColumnCount
      invariant 0 <= i <= ColumnCount
      invariant |blocks| == GroundCount + ColumnHeight * i
      invariant forall k :: 0 <= k < GroundCount ==> blocks[k] == GroundBlock(k)
      invariant forall k :: GroundCount <= k < |blocks| ==>
                  blocks[k] == ColumnBlock((k - GroundCount) / ColumnHeight, (k - GroundCount) % ColumnHeight)
    {
      var j := 0;
      while j < ColumnHeight
        invariant 0 <= j <= ColumnHeight
        invariant |blocks| == GroundCount + ColumnHeight * i + j
        invariant forall k :: 0 <= k < GroundCount ==> blocks[k] == GroundBlock(k)
        invariant forall k :: GroundCount <= k < |blocks| ==>
                    blocks[k] == ColumnBlock((k - GroundCount) / ColumnHeight, (k - GroundCount) % ColumnHeight)
      {
        ColumnIndex(i, j);
        blocks := blocks + [BlockAt(i * ColumnSpacing, WIDTH - j * BlockSize)];
        j := j + 1;
      }
      i := i + 1;
    }
    assert |blocks| == BlockCount;
    forall k | 0 <= k < BlockCount ensures blocks[k] == LevelRects()[k] {
    }
  }

  /** 3049 obstacles, all 32 x 32 squares. */
  lemma LevelShape()
    ensures |LevelRects()| == 3049
    ensures forall k :: 0 <= k < |LevelRects()| ==>
              LevelRects()[k].w == BlockSize && LevelRects()[k].h == BlockSize
  {
    forall k | 0 <= k < |LevelRects()|
      ensures LevelRects()[k].w == BlockSize && LevelRects()[k].h == BlockSize
    {
      if k >= GroundCount {
        var c := ColumnBlock((k - GroundCount) / ColumnHeight, (k - GroundCount) % ColumnHeight);
        assert LevelRects()[k] == c;
      }
    }
  }

  /** The ground row is one gap-free strip: every ground block's top is 16 px
      above the bottom of the screen, and each one starts where the previous
      one ends. */
  lemma GroundRow()
    ensures forall k :: 0 <= k < GroundCount ==> LevelRects()[k].Top() == HEIGHT - BlockSize / 2
    ensures forall k :: 0 <= k < GroundCount - 1 ==> LevelRects()[k].Right() == LevelRects()[k + 1].Left()
    ensures LevelRects()[0].Left() == -32784 && LevelRects()[GroundCount - 1].Right() == 32784
  {
  }

  /** Block j of column i in the obstacle list, coordinate by coordinate. */
  lemma ColumnRect(i: int, j: int)
    requires 0 <= i < ColumnCount && 0 <= j < ColumnHeight
    ensures LevelRects()[GroundCount + ColumnHeight * i + j]
              == Rect(i * ColumnSpacing - BlockSize / 2, HEIGHT - BlockSize / 2 - j * BlockSize, BlockSize, BlockSize)
  {
    ColumnIndex(i, j);
    assert LevelRects()[GroundCount + ColumnHeight * i + j] == ColumnBlock(i, j);
    BlockAtCorner(i * ColumnSpacing, WIDTH - j * BlockSize);
  }

  /** Each column is a gap-free stack: block j + 1 sits on block j, and all
      of a column's blocks share one x. */
  lemma ColumnStack(i: int, j: int)
    requires 0 <= i < ColumnCount && 0 <= j < ColumnHeight - 1
    ensures var lower := LevelRects()[GroundCount + ColumnHeight * i + j];
            var upper := LevelRects()[GroundCount + ColumnHeight * i + j + 1];
            && upper.Bottom() == lower.Top()
            && upper.x == lower.x
            && upper.x == i * ColumnSpacing - BlockSize / 2
  {
    ColumnRect(i, j);
    ColumnRect(i, j + 1);
  }

  /** The base block of every fourth column up to column 32 (column 4m,
      m <= 8) lies exactly on ground block 1024 + 125m, since
      4m * 1000 == (125m) * 32: the level holds pairs of coinciding
      obstacles. */
  lemma BaseBlockCoincides(m: int)
    requires 0 <= m <= 8
    ensures LevelRects()[GroundCount + ColumnHeight * (4 * m)] == LevelRects()[-GroundFirst + 125 * m]
  {
    ColumnIndex(4 * m, 0);
    assert LevelRects()[GroundCount + ColumnHeight * (4 * m)] == ColumnBlock(4 * m, 0);
    assert LevelRects()[-GroundFirst + 125 * m] == GroundBlock(-GroundFirst + 125 * m);
    BlockAtCorner(4 * m * ColumnSpacing, WIDTH);
    BlockAtCorner(125 * m * BlockSize, HEIGHT);
  }

  /** The player of the level, centred at (500, HEIGHT - 50), starts 2 px
      above the ground row's top (main.py:57). */
  lemma StartAboveGround()
    ensures NewPlayer(500, HEIGHT - 50).rect.Bottom() == LevelRects()[0].Top() - 2
  {
  }
}
