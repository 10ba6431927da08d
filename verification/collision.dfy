/** Collision resolution of the player against the blocks it overlaps
    (main.py:78-86). Which blocks overlap is decided by the sprite library's
    broad phase; the resolver takes that answer as an ordered sequence of
    block rectangles and corrects the player against each in turn. */
module Collision {
  import opened Geometry
  import opened Controls

  /** Correction against one block (main.py:82-86): first the player's top is
      pushed down to the block's bottom, then its bottom is pulled up to the
      block's top, landing it. */
  function ResolveOne(p: Player, b: Rect): (r: Player)
    ensures r.rect.x == p.rect.x && r.rect.w == p.rect.w && r.rect.h == p.rect.h
    ensures r.isGround <== p.isGround
  {
    var p1 := if p.rect.Top() < b.Bottom() then Player(p.rect.WithTop(b.Bottom()), p.isGround) else p;
    if p1.rect.Bottom() > b.Top() then Player(p1.rect.WithBottom(b.Top()), true) else p1
  }

  /** The loop over the colliding blocks, in order (main.py:81). */
  function ResolveAll(p: Player, blocks: seq<Rect>): (r: Player)
    ensures r.rect.x == p.rect.x && r.rect.w == p.rect.w && r.rect.h == p.rect.h
    ensures |blocks| == 0 ==> r == p
    decreases |blocks|
  {
    if |blocks| == 0 then p else ResolveAll(ResolveOne(p, blocks[0]), blocks[1..])
  }

  /** The whole resolution step: the ground flag is cleared and then set again
      by the corrections (main.py:78-86). */
  function Resolve(p: Player, collisions: seq<Rect>): (r: Player)
    ensures r.rect.x == p.rect.x && r.rect.w == p.rect.w && r.rect.h == p.rect.h
    ensures |collisions| == 0 ==> r.rect == p.rect && !r.isGround
  {
    var cleared := Player(p.rect, false);
    if |collisions| > 0 then ResolveAll(cleared, collisions) else cleared
  }

  /** A player of positive height meeting a block of non-negative height ends
      flush on the block's top and grounded, wherever it started. */
  lemma LandsOnBlock(p: Player, b: Rect)
    requires p.rect.h > 0 && b.h >= 0
    ensures ResolveOne(p, b).rect.Bottom() == b.Top()
    ensures ResolveOne(p, b).rect.y == b.y - p.rect.h
    ensures ResolveOne(p, b).isGround
  {
  }

  predicate NonNegativeHeights(blocks: seq<Rect>)
  {
    forall i :: 0 <= i < |blocks| ==> blocks[i].h >= 0
  }

  /** After the loop the player rests on the last listed block and is
      grounded; every earlier correction is overwritten. */
  lemma {:induction false} ResolveAllLandsOnLast(p: Player, blocks: seq<Rect>)
    requires p.rect.h > 0 && |blocks| > 0 && NonNegativeHeights(blocks)
    ensures ResolveAll(p, blocks).rect.Bottom() == blocks[|blocks| - 1].Top()
    ensures ResolveAll(p, blocks).isGround
    decreases |blocks|
  {
    var p' := ResolveOne(p, blocks[0]);
    LandsOnBlock(p, blocks[0]);
    if |blocks| > 1 {
      assert NonNegativeHeights(blocks[1..]) by {
        forall i | 0 <= i < |blocks[1..]| ensures blocks[1..][i].h >= 0 {
          assert blocks[1..][i] == blocks[i + 1];
        }
      }
      ResolveAllLandsOnLast(p', blocks[1..]);
      assert blocks[1..][|blocks[1..]| - 1] == blocks[|blocks| - 1];
    } else {
      assert ResolveAll(p', blocks[1..]) == p';
    }
  }

  /** Grounded after resolution exactly when some block was listed, and then
      flush on the last one (main.py:78-86). */
  lemma GroundedIffCollided(p: Player, collisions: seq<Rect>)
    requires p.rect.h > 0 && NonNegativeHeights(collisions)
    ensures Resolve(p, collisions).isGround <==> |collisions| > 0
    ensures |collisions| > 0 ==>
              Resolve(p, collisions).rect.Bottom() == collisions[|collisions| - 1].Top()
  {
    if |collisions| > 0 {
      ResolveAllLandsOnLast(Player(p.rect, false), collisions);
    }
  }
}
