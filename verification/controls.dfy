/** The player body and its per-tick response to the keyboard
    (`Player` in main.py:7-37). */
module Controls {
  import opened Geometry

  /** The six keys the player reacts to. Holding a key is modelled as the key
      being a member of the pressed set. */
  datatype Key = LeftArrow | KeyA | RightArrow | KeyD | UpArrow | Space

  /** One row of the key table: a key and its unit direction. */
  datatype Move = Move(key: Key, dx: int, dy: int)

  /** The key table, in the order the update walks it (main.py:8-15). */
  const MoveTable: seq<Move> := [
    Move(LeftArrow, -1, 0),
    Move(KeyA, -1, 0),
    Move(RightArrow, 1, 0),
    Move(KeyD, 1, 0),
    Move(UpArrow, 0, -1),
    Move(Space, 0, -1)
  ]

  /** Pixels moved per tick per held horizontal key. */
  const WalkStep: int := 3
  /** Player constants set by the constructor (main.py:19, 23-24). */
  const PlayerSize: int := 64
  const GravityVel: int := 5
  const JumpPower: int := 256

  datatype Player = Player(rect: Rect, isGround: bool)

  /** A fresh player: a 64 x 64 rectangle centred on `pos`, airborne
      (main.py:17-25). */
  function NewPlayer(cx: int, cy: int): (p: Player)
    ensures p.rect.w == PlayerSize && p.rect.h == PlayerSize
    ensures p.rect.CenterX() == cx && p.rect.CenterY() == cy
    ensures !p.isGround
  {
    Player(Centered(PlayerSize, PlayerSize, cx, cy), false)
  }

  /** The effect of one table row on the player, when its key may be held
      (body of the loop at main.py:29-34). */
  function ApplyMove(m: Move, pressed: set<Key>, p: Player): Player
  {
    if m.key !in pressed then p
    else
      var x := p.rect.x + m.dx * WalkStep;
      if p.isGround then
        Player(Rect(x, p.rect.y + m.dy * JumpPower, p.rect.w, p.rect.h), !(m.dy < 0))
      else
        Player(Rect(x, p.rect.y, p.rect.w, p.rect.h), false)
  }

  /** Walks the table rows in order (the loop at main.py:28). */
  function ApplyTable(table: seq<Move>, pressed: set<Key>, p: Player): (q: Player)
    ensures q.rect.w == p.rect.w && q.rect.h == p.rect.h
    ensures q.isGround ==> p.isGround
  {
    if |table| == 0 then p
    else ApplyTable(table[1..], pressed, ApplyMove(table[0], pressed, p))
  }

  /** Sum of the horizontal directions of the held rows. */
  function HeldDx(table: seq<Move>, pressed: set<Key>): int
  {
    if |table| == 0 then 0
    else (if table[0].key in pressed then table[0].dx else 0) + HeldDx(table[1..], pressed)
  }

  /** Some held row points upwards. */
  predicate HoldsJump(table: seq<Move>, pressed: set<Key>)
  {
    exists i :: 0 <= i < |table| && table[i].key in pressed && table[i].dy < 0
  }

  /** Every row is either horizontal or points straight up by one unit, as in
      the key table. */
  predicate JumpRowsOnly(table: seq<Move>)
  {
    forall i :: 0 <= i < |table| ==> table[i].dy == 0 || table[i].dy == -1
  }

  lemma {:induction false} ApplyTableHorizontal(table: seq<Move>, pressed: set<Key>, p: Player)
    ensures ApplyTable(table, pressed, p).rect.x == p.rect.x + WalkStep * HeldDx(table, pressed)
    decreases |table|
  {
    if |table| > 0 {
      ApplyTableHorizontal(table[1..], pressed, ApplyMove(table[0], pressed, p));
    }
  }

  /** An airborne player is never moved vertically by the table and stays
      airborne. */
  lemma {:induction false} ApplyTableAirborne(table: seq<Move>, pressed: set<Key>, p: Player)
    requires !p.isGround
    ensures ApplyTable(table, pressed, p).rect.y == p.rect.y
    ensures !ApplyTable(table, pressed, p).isGround
    decreases |table|
  {
    if |table| > 0 {
      ApplyTableAirborne(table[1..], pressed, ApplyMove(table[0], pressed, p));
    }
  }

  /** A grounded player holding no upward row keeps its height and its
      contact with the ground. */
  lemma {:induction false} ApplyTableNoJump(table: seq<Move>, pressed: set<Key>, p: Player)
    requires p.isGround && JumpRowsOnly(table) && !HoldsJump(table, pressed)
    ensures ApplyTable(table, pressed, p).rect.y == p.rect.y
    ensures ApplyTable(table, pressed, p).isGround
    decreases |table|
  {
    if |table| > 0 {
      assert JumpRowsOnly(table[1..]) by {
        forall i | 0 <= i < |table[1..]| ensures table[1..][i].dy == 0 || table[1..][i].dy == -1 {
          assert table[1..][i] == table[i + 1];
        }
      }
      assert !HoldsJump(table[1..], pressed) by {
        forall i | 0 <= i < |table[1..]| && table[1..][i].key in pressed
          ensures table[1..][i].dy >= 0
        {
          assert table[1..][i] == table[i + 1];
        }
      }
      ApplyTableNoJump(table[1..], pressed, ApplyMove(table[0], pressed, p));
    }
  }

  /** A grounded player holding at least one upward row jumps exactly once:
      the first held upward row lifts it by JumpPower and clears the ground
      flag, so the later ones have no vertical effect. */
  lemma {:induction false} ApplyTableJump(table: seq<Move>, pressed: set<Key>, p: Player)
    requires p.isGround && JumpRowsOnly(table) && HoldsJump(table, pressed)
    ensures ApplyTable(table, pressed, p).rect.y == p.rect.y - JumpPower
    ensures !ApplyTable(table, pressed, p).isGround
    decreases |table|
  {
    var p' := ApplyMove(table[0], pressed, p);
    assert JumpRowsOnly(table[1..]) by {
      forall i | 0 <= i < |table[1..]| ensures table[1..][i].dy == 0 || table[1..][i].dy == -1 {
        assert table[1..][i] == table[i + 1];
      }
    }
    if table[0].key in pressed && table[0].dy < 0 {
      assert p'.rect.y == p.rect.y - JumpPower && !p'.isGround;
      ApplyTableAirborne(table[1..], pressed, p');
    } else {
      assert p'.rect.y == p.rect.y && p'.isGround;
      var i :| 0 <= i < |table| && table[i].key in pressed && table[i].dy < 0;
      assert i > 0;
      assert table[1..][i - 1] == table[i];
      ApplyTableJump(table[1..], pressed, p');
    }
  }

  /** Net horizontal direction of the held keys: right keys minus left keys. */
  function Direction(pressed: set<Key>): (d: int)
    ensures -2 <= d <= 2
  {
    (if RightArrow in pressed then 1 else 0) + (if KeyD in pressed then 1 else 0)
    - (if LeftArrow in pressed then 1 else 0) - (if KeyA in pressed then 1 else 0)
  }

  predicate JumpHeld(pressed: set<Key>)
  {
    UpArrow in pressed || Space in pressed
  }

  /** `Player.update` (main.py:27-37): the key table, then gravity while
      airborne. */
  function Update(pressed: set<Key>, p: Player): (r: Player)
    ensures r.rect.w == p.rect.w && r.rect.h == p.rect.h
    ensures r.isGround ==> p.isGround
  {
    var q := ApplyTable(MoveTable, pressed, p);
    if !q.isGround then Player(q.rect.(y := q.rect.y + GravityVel), false) else q
  }

  /** What one update does: x moves by 3 px per net held direction key, and
      vertically an airborne player falls 5 px, a grounded player holding a
      jump key jumps once (256 px up, then 5 px of gravity) and loses the
      ground, and a grounded player holding no jump key stays put and
      grounded. */
  lemma UpdateSpec(pressed: set<Key>, p: Player)
    ensures var r := Update(pressed, p);
            && r.rect.w == p.rect.w && r.rect.h == p.rect.h
            && r.rect.x == p.rect.x + WalkStep * Direction(pressed)
            && -6 <= r.rect.x - p.rect.x <= 6
            && (r.isGround ==> p.isGround)
            && (!p.isGround ==> r.rect.y == p.rect.y + GravityVel && !r.isGround)
            && (p.isGround && JumpHeld(pressed) ==>
                  r.rect.y == p.rect.y - JumpPower + GravityVel && !r.isGround)
            && (p.isGround && !JumpHeld(pressed) ==> r.rect.y == p.rect.y && r.isGround)
  {
    ApplyTableHorizontal(MoveTable, pressed, p);
    HeldDxMoveTable(pressed);
    assert JumpRowsOnly(MoveTable);
    if !p.isGround {
      ApplyTableAirborne(MoveTable, pressed, p);
    } else if JumpHeld(pressed) {
      assert HoldsJump(MoveTable, pressed) by {
        if UpArrow in pressed { assert MoveTable[4].key == UpArrow; }
        else { assert MoveTable[5].key == Space; }
      }
      ApplyTableJump(MoveTable, pressed, p);
    } else {
      assert !HoldsJump(MoveTable, pressed);
      ApplyTableNoJump(MoveTable, pressed, p);
    }
  }

  lemma HeldDxMoveTable(pressed: set<Key>)
    ensures HeldDx(MoveTable, pressed) == Direction(pressed)
  {
    var t := MoveTable;
    assert HeldDx(t[5..], pressed) == 0 by {
      assert t[5..][1..] == [];
    }
    assert HeldDx(t[4..], pressed) == 0 by { assert t[4..][1..] == t[5..]; }
    assert HeldDx(t[3..], pressed) == (if KeyD in pressed then 1 else 0) by { assert t[3..][1..] == t[4..]; }
    assert HeldDx(t[2..], pressed) == HeldDx(t[3..], pressed) + (if RightArrow in pressed then 1 else 0) by {
      assert t[2..][1..] == t[3..];
    }
    assert HeldDx(t[1..], pressed) == HeldDx(t[2..], pressed) - (if KeyA in pressed then 1 else 0) by {
      assert t[1..][1..] == t[2..];
    }
  }
}
