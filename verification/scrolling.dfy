/** Horizontal scrolling (main.py:89-96). Instead of letting the player walk
    across the screen, the player is put back at the screen's horizontal
    centre and every obstacle rectangle is shifted sideways. The shift is
    measured after the player has been re-centred, as the distance from the
    screen centre to the player's new left edge: half the player's width,
    whatever distance the player had actually strayed. */
module Scrolling {
  import opened Geometry
  import opened Controls

  const ScreenCenterX: int := WIDTH / 2

  datatype World = World(player: Player, obstacles: seq<Rect>)

  /** The x offset the scroll step applies to every obstacle, stated from the
      player's position before re-centring. */
  function ScrollOffset(p: Rect): int
  {
    if p.CenterX() > ScreenCenterX then -(p.w / 2)
    else if p.CenterX() < ScreenCenterX then p.w / 2
    else 0
  }

  /** The scroll step as written (main.py:89-96). */
  function Scroll(w: World): (r: World)
    ensures r.player.rect.CenterX() == ScreenCenterX
    ensures r.player.rect.y == w.player.rect.y
    ensures r.player.rect.w == w.player.rect.w && r.player.rect.h == w.player.rect.h
    ensures r.player.isGround == w.player.isGround
    ensures |r.obstacles| == |w.obstacles|
    ensures forall i :: 0 <= i < |r.obstacles| ==>
              && r.obstacles[i].x == w.obstacles[i].x + ScrollOffset(w.player.rect)
              && r.obstacles[i].y == w.obstacles[i].y
              && r.obstacles[i].w == w.obstacles[i].w
              && r.obstacles[i].h == w.obstacles[i].h
  {
    var p := w.player;
    if p.rect.CenterX() > ScreenCenterX then
      var moved := p.rect.WithCenterX(ScreenCenterX);
      var obstacles := seq(|w.obstacles|, i requires 0 <= i < |w.obstacles| =>
                             w.obstacles[i].ShiftX(-(ScreenCenterX - moved.x)));
      World(Player(moved, p.isGround), obstacles)
    else if p.rect.CenterX() < ScreenCenterX then
      var moved := p.rect.WithCenterX(ScreenCenterX);
      var obstacles := seq(|w.obstacles|, i requires 0 <= i < |w.obstacles| =>
                             w.obstacles[i].ShiftX(ScreenCenterX - moved.x));
      World(Player(moved, p.isGround), obstacles)
    else
      w
  }

  /** For the 64 px wide player the shift is -32 when it stood right of the
      centre, +32 when left of it, and 0 when it was already centred. */
  lemma ScrollOffsetOfPlayer(w: World)
    requires w.player.rect.w == PlayerSize
    ensures var c := w.player.rect.CenterX();
            var d := Scroll(w).obstacles;
            forall i :: 0 <= i < |d| ==>
              d[i].x - w.obstacles[i].x == (if c > ScreenCenterX then -32 else if c < ScreenCenterX then 32 else 0)
  {
  }

  /** Scrolling moves every obstacle by the same amount, so all horizontal
      gaps between obstacles and their vertical positions are kept. */
  lemma ScrollKeepsGaps(w: World, i: int, j: int)
    requires 0 <= i < |w.obstacles| && 0 <= j < |w.obstacles|
    ensures Scroll(w).obstacles[j].x - Scroll(w).obstacles[i].x == w.obstacles[j].x - w.obstacles[i].x
    ensures Scroll(w).obstacles[j].y - Scroll(w).obstacles[i].y == w.obstacles[j].y - w.obstacles[i].y
  {
  }

  /** The shift does not depend on how far the player strayed from the
      centre, only on the side: two worlds with the same obstacles whose
      players stand on the same side of the centre, with the same width,
      scroll to the same obstacles. */
  lemma ScrollIgnoresDistance(w1: World, w2: World)
    requires w1.obstacles == w2.obstacles
    requires w1.player.rect.w == w2.player.rect.w
    requires (w1.player.rect.CenterX() > ScreenCenterX) == (w2.player.rect.CenterX() > ScreenCenterX)
    requires (w1.player.rect.CenterX() < ScreenCenterX) == (w2.player.rect.CenterX() < ScreenCenterX)
    ensures Scroll(w1).obstacles == Scroll(w2).obstacles
  {
  }

  /** A player 3 px right of the centre (one tick of walking right) and an
      obstacle at x = 0: the obstacle moves 32 px left, not 3, so the
      player's position relative to the obstacle changes by 29 px. Moving
      the world by the negative of the player's displacement would have kept
      it. */
  lemma ScrollIsNotDisplacement()
    ensures var w := World(Player(Rect(483, 0, PlayerSize, PlayerSize), true), [Rect(0, 0, 32, 32)]);
            var r := Scroll(w);
            && r.obstacles[0].x == -32
            && (r.player.rect.x - r.obstacles[0].x) - (w.player.rect.x - w.obstacles[0].x) == 29
  {
    var w := World(Player(Rect(483, 0, PlayerSize, PlayerSize), true), [Rect(0, 0, 32, 32)]);
    assert w.player.rect.CenterX() == 515;
    assert ScrollOffset(w.player.rect) == -32;
    assert Scroll(w).player.rect.x == 480;
  }
}
