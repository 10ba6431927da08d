/** One simulation tick of the main loop (main.py:74-96) and runs of ticks:
    keyboard update, collision resolution, horizontal scroll. Drawing, event
    handling and frame pacing are not part of the model. */
module Frame {
  import opened Geometry
  import opened Controls
  import opened Collision
  import opened Scrolling
  import opened Level

  /** What the outside world supplies to one tick: the held keys and the
      blocks the sprite library reports as overlapping the player. */
  datatype TickInput = TickInput(pressed: set<Key>, collisions: seq<Rect>)

  /** The world at the start of the loop (main.py:55-65). */
  method InitialWorld() returns (w: World)
    ensures w.player == NewPlayer(500, HEIGHT - 50)
    ensures |w.obstacles| == BlockCount
    ensures w.obstacles == LevelRects()
  {
    var blocks := BuildLevel();
    w := World(NewPlayer(500, HEIGHT - 50), blocks);
  }

  /** One pass of the loop body (main.py:74-96): the key update, collision
      resolution, then the scroll. */
  function Tick(input: TickInput, w: World): (r: World)
    ensures r.player.rect.CenterX() == ScreenCenterX
    ensures r.player.rect.w == w.player.rect.w && r.player.rect.h == w.player.rect.h
    ensures |r.obstacles| == |w.obstacles|
    ensures forall i :: 0 <= i < |r.obstacles| ==>
              r.obstacles[i] == w.obstacles[i].ShiftX(ScrollOffset(Update(input.pressed, w.player).rect))
  {
    var moved := Update(input.pressed, w.player);
    var resolved := Resolve(moved, input.collisions);
    Scroll(World(resolved, w.obstacles))
  }

  /** The player's state after a tick: grounded exactly when some block was
      reported colliding, and then resting on the last one; with no
      collision, airborne at the height the key update gave. */
  lemma TickSpec(input: TickInput, w: World)
    ensures |input.collisions| == 0 ==>
              !Tick(input, w).player.isGround
              && Tick(input, w).player.rect.y == Update(input.pressed, w.player).rect.y
    ensures w.player.rect.h > 0 && NonNegativeHeights(input.collisions) ==>
              (Tick(input, w).player.isGround <==> |input.collisions| > 0)
    ensures w.player.rect.h > 0 && NonNegativeHeights(input.collisions) && |input.collisions| > 0 ==>
              Tick(input, w).player.rect.Bottom() == input.collisions[|input.collisions| - 1].Top()
  {
    var moved := Update(input.pressed, w.player);
    if w.player.rect.h > 0 && NonNegativeHeights(input.collisions) {
      GroundedIffCollided(moved, input.collisions);
    }
  }

  /** The scroll of one tick from a centred 64 px player, in terms of the
      held keys: the player's centre is carried to 512 + 3 * Direction. */
  function ScrollOf(pressed: set<Key>): int
  {
    var centred := Rect(ScreenCenterX - PlayerSize / 2, 0, PlayerSize, PlayerSize);
    ScrollOffset(centred.ShiftX(WalkStep * Direction(pressed)))
  }

  /** The world scrolls against the net walking direction: 32 px left when
      more right keys than left keys are held, 32 px right for the reverse,
      not at all otherwise. */
  lemma ScrollOfSign(pressed: set<Key>)
    ensures Direction(pressed) > 0 ==> ScrollOf(pressed) == -32
    ensures Direction(pressed) < 0 ==> ScrollOf(pressed) == 32
    ensures Direction(pressed) == 0 ==> ScrollOf(pressed) == 0
  {
  }

  predicate Centred(w: World)
  {
    w.player.rect.w == PlayerSize && w.player.rect.CenterX() == ScreenCenterX
  }

  /** A tick from a centred player keeps it centred and moves every obstacle
      by ScrollOf of the held keys. */
  lemma TickFromCentre(input: TickInput, w: World)
    requires Centred(w)
    ensures Centred(Tick(input, w))
    ensures forall i :: 0 <= i < |w.obstacles| ==>
              Tick(input, w).obstacles[i] == w.obstacles[i].ShiftX(ScrollOf(input.pressed))
  {
    UpdateSpec(input.pressed, w.player);
  }

  /** Ticks applied one after another. */
  function Run(inputs: seq<TickInput>, w: World): (r: World)
    ensures |r.obstacles| == |w.obstacles|
    ensures r.player.rect.w == w.player.rect.w && r.player.rect.h == w.player.rect.h
    ensures |inputs| > 0 ==> r.player.rect.CenterX() == ScreenCenterX
    decreases |inputs|
  {
    if |inputs| == 0 then w else Run(inputs[1..], Tick(inputs[0], w))
  }

  /** Total obstacle displacement over a run from a centred player. */
  function NetScroll(inputs: seq<TickInput>): int
  {
    if |inputs| == 0 then 0 else ScrollOf(inputs[0].pressed) + NetScroll(inputs[1..])
  }

  /** Over any run from a centred player, each obstacle ends displaced by the
      sum of the per-tick scrolls and is otherwise unchanged, so the obstacle
      field moves as one rigid strip. */
  lemma {:induction false} RunScroll(inputs: seq<TickInput>, w: World)
    requires Centred(w)
    ensures Centred(Run(inputs, w))
    ensures forall i :: 0 <= i < |w.obstacles| ==>
              Run(inputs, w).obstacles[i] == w.obstacles[i].ShiftX(NetScroll(inputs))
    decreases |inputs|
  {
    if |inputs| > 0 {
      var w' := Tick(inputs[0], w);
      TickFromCentre(inputs[0], w);
      RunScroll(inputs[1..], w');
    }
  }

  /** From the start of the level, the first tick re-centres the player and
      shifts the whole level 32 px to the right whatever keys are held: the
      player starts centred at x = 500 and one tick moves it at most 6 px,
      which leaves it left of the screen centre. */
  lemma FirstTick(input: TickInput)
    ensures var w := World(NewPlayer(500, HEIGHT - 50), LevelRects());
            var r := Tick(input, w);
            && Centred(r)
            && forall i :: 0 <= i < |r.obstacles| ==> r.obstacles[i].x == LevelRects()[i].x + 32
  {
    UpdateSpec(input.pressed, NewPlayer(500, HEIGHT - 50));
  }
}
