# Platformer prototype: tick model

A Dafny model of the simulation core of a small side-scrolling platformer
prototype (`main.py`). Underneath the drawing calls the program is a
deterministic, integer-only state machine over axis-aligned rectangles; each
tick it

1. moves the player by the held keys (3 px per held left/right key, a one-shot
   256 px jump while grounded, 5 px of gravity while airborne);
2. resolves the player against the blocks it overlaps, one after another,
   pushing its top below each block and then landing its bottom on the block's
   top, which sets the ground flag;
3. scrolls horizontally: puts the player back at the screen's horizontal
   centre (x centre 512) and shifts every obstacle sideways.

The level is a ground row of 2049 blocks and 100 columns of 10 blocks, every
block 32 x 32.

Modules, one per piece of the program:

- `Geometry` — `Rect(x, y, w, h)` with the attribute semantics of a pygame
  rectangle (`top`, `bottom`, `centerx`, setters that move but never resize).
- `Controls` — the six keys, the key table, `Player` and `Player.update`.
- `Collision` — the resolution loop.
- `Scrolling` — the re-centring and obstacle shift.
- `Level` — blocks and the level-building loops.
- `Frame` — one tick of the main loop and runs of ticks.

## Behaviour worth knowing

These are facts about `main.py` that the model keeps as written:

- There are no velocities or accelerations: keys and gravity displace the
  rectangle directly.
- The scroll does not move the world by the negative of the player's
  displacement. The shift is measured after re-centring, so it is always half
  the player's width (32 px) against the side the player strayed to.
  `Scrolling.ScrollIsNotDisplacement` exhibits a player 3 px right of centre
  whose world moves 32 px. `Scrolling.ScrollIgnoresDistance` states the general
  rule.
- There is no axis tie-break. Every listed block lands the player on its top,
  whatever the direction of approach, and sets the ground flag.
- Obstacles may coincide. The base block of every fourth column up to column 32
  is the same rectangle as a ground block (`Level.BaseBlockCoincides`).

## Model

| member | source | states |
|---|---|---|
| Geometry.Centered | main.py:19-22 | a rectangle placed by its centre has the given size and exactly the given centre |
| Controls.NewPlayer | main.py:17-25 | a new player is a 64 x 64 rectangle centred on the given point and starts airborne |
| Controls.ApplyTableHorizontal | main.py:28-30 | walking the key table moves the player horizontally by 3 times the sum of the held rows' directions |
| Controls.ApplyTableAirborne | main.py:28-34 | an airborne player is never moved vertically by the key table and stays airborne |
| Controls.ApplyTableNoJump | main.py:28-34 | a grounded player holding no upward key keeps its height and stays grounded |
| Controls.ApplyTableJump | main.py:28-34 | a grounded player holding any upward keys is lifted exactly once by 256 px and loses the ground flag, however many upward keys are held |
| Controls.ApplyTable | main.py:28-34 | walking the key table keeps the player's size and can clear the ground flag but never set it |
| Controls.Update | main.py:27-37 | an update keeps the player's size and can clear the ground flag but never set it |
| Controls.UpdateSpec | main.py:27-37 | x moves by 3 x (right keys held - left keys held), within [-6, 6]; the ground flag can only be cleared; airborne: y moves by exactly +5; grounded with UP or SPACE: y moves by -251 and the flag is cleared; grounded without them: y and flag unchanged; size kept |
| Collision.ResolveOne | main.py:82-86 | correcting against one block keeps x and size and never clears the ground flag |
| Collision.ResolveAll | main.py:81-86 | the loop over the colliding blocks keeps x and size; an empty list changes nothing |
| Collision.Resolve | main.py:78-86 | resolution keeps x and size; with no colliding block the rectangle is unchanged and the player is airborne |
| Collision.LandsOnBlock | main.py:82-86 | after the correction against one block of non-negative height, a positive-height player's bottom equals the block's top (y = block y - player height), wherever it started, and it is grounded |
| Collision.ResolveAllLandsOnLast | main.py:81-86 | after the loop a positive-height player rests flush on the top of the last listed block and is grounded |
| Collision.GroundedIffCollided | main.py:78-86 | after resolution the player is grounded exactly when the collision list is non-empty, and then its bottom equals the last block's top |
| Scrolling.Scroll | main.py:89-96 | after scrolling the player's x centre is WIDTH // 2, its y, size and flag are kept, and every obstacle moves by -w/2 if the player stood right of centre, +w/2 if left, 0 if centred, keeping y and size |
| Scrolling.ScrollOffsetOfPlayer | main.py:89-96 | for the 64 px player the obstacle offset is -32, +32 or 0 by the side the player stood on |
| Scrolling.ScrollKeepsGaps | main.py:91-96 | every horizontal and vertical gap between two obstacles is preserved by a scroll |
| Scrolling.ScrollIgnoresDistance | main.py:89-96 | the obstacle shift depends only on which side of centre the player stood, not how far |
| Scrolling.ScrollIsNotDisplacement | main.py:89-92 | a player 3 px right of centre moves the world 32 px, changing the player-obstacle offset by 29 px |
| Level.BlockAt | main.py:42-47 | a block is a 32 x 32 rectangle centred on its position |
| Level.BuildLevel | main.py:59-65 | the building loops produce exactly the ground row (blocks centred at (32i, 1024) for i in -1024..1024) followed by the columns (block j of column i centred at (1000i, 1024 - 32j)), in insertion order |
| Level.LevelShape | main.py:40-63 | the level holds 2049 + 100 x 10 = 3049 blocks, all 32 x 32 |
| Level.GroundRow | main.py:59-60 | every ground block's top is HEIGHT - 16, consecutive ground blocks abut with no gap, and the row spans x in [-32784, 32784) |
| Level.ColumnRect | main.py:61-63 | block j of column i in the obstacle list is the 32 x 32 rectangle at (1000i - 16, 1008 - 32j) |
| Level.ColumnStack | main.py:61-63 | within a column each block sits flush on the one below and all share x = 1000i - 16 |
| Level.BaseBlockCoincides | main.py:59-63 | the base block of column 4m (m <= 8) is the same rectangle as ground block 1024 + 125m |
| Level.StartAboveGround | main.py:57-60 | the starting player's bottom is 2 px above the ground row's top |
| Frame.InitialWorld | main.py:55-65 | the starting world is the new player at (500, HEIGHT - 50) and the built level |
| Frame.Tick | main.py:74-96 | after a tick the player is centred with its size kept, and every obstacle is shifted by the one offset the scroll step derives from where the key update left the player |
| Frame.TickSpec | main.py:76-86 | after a tick the player is grounded exactly when some block collided, resting on the last one; with no collision it is airborne at the height the key update gave |
| Frame.ScrollOfSign | main.py:28-30 | from a centred 64 px player a tick scrolls the world 32 px left when more right than left keys are held, 32 px right for the reverse, and not at all otherwise |
| Frame.TickFromCentre | main.py:76-96 | from a centred 64 px player a tick keeps it centred and shifts every obstacle by -32, +32 or 0 against the net walking direction |
| Frame.Run | main.py:69-96 | a run keeps the obstacle count and player size, and after at least one tick the player is centred |
| Frame.RunScroll | main.py:69-96 | over any run from a centred player every obstacle ends shifted by the sum of the per-tick scrolls, otherwise unchanged |
| Frame.FirstTick | main.py:57-96 | the first tick of the level shifts every block 32 px right whatever keys are held, and centres the player |

## Left out

- Display, surfaces, colour fills, drawing, `display.update`, the event loop
  and its QUIT handling, the frame clock, the unused tick counter and process
  exit: input/output and frame pacing with no effect on the geometry.
- Polling the keyboard: the held keys are a set of the six logical keys the
  player reacts to.
- The sprite library's overlap test: each tick's colliding blocks are an
  arbitrary ordered sequence of rectangles supplied with the keys
  (`Frame.TickInput`). Its edge-touching rule is not visible, so nothing is
  claimed about a resting player staying grounded across ticks.
- Integer width: pygame rectangles hold machine integers; the model's
  coordinates are unbounded, so wrap-around after very long runs is not
  modelled.
- Centre rounding: pygame's half-size rounding is not part of this model; the
  model rounds down, which agrees with truncation for the non-negative sizes
  the program uses.
- Sprite group iteration order is taken to be insertion order.
- Velocities, friction, projectiles, explosions, enemies and procedural
  generation do not occur in `main.py` and are not modelled.
