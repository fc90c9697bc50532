/** The two kinds of sprite of the game, Player and Enemy, each owning the
    rectangle it is drawn in and updating it in place once per frame, and the
    group collision test spritecollideany. */
module Sprites {

  import opened Geometry
  import opened Events

  /** Pixels the player moves per frame along each axis. */
  const PlayerStep: int := 5

  /** Horizontal displacement of a frame: right wins over left. */
  function StepX(keys: Keys): int {
    if keys.right then PlayerStep else if keys.left then -PlayerStep else 0
  }

  /** Vertical displacement of a frame: down wins over up. */
  function StepY(keys: Keys): int {
    if keys.down then PlayerStep else if keys.up then -PlayerStep else 0
  }

  /** The four key tests of Player.update, each overwriting the one before:
      the result is the precedence rule of StepX and StepY. */
  method KeyDisplacement(keys: Keys) returns (dx: int, dy: int)
    ensures dx == StepX(keys) && dy == StepY(keys)
  {
    dx, dy := 0, 0;
    if keys.up {
      dy := -PlayerStep;
    }
    if keys.down {
      dy := PlayerStep;
    }
    if keys.left {
      dx := -PlayerStep;
    }
    if keys.right {
      dx := PlayerStep;
    }
  }

  /** Holding left and right, and no vertical key, moves the player right. */
  lemma LeftAndRightMovesRight()
    ensures StepX(Keys(false, false, true, true)) == PlayerStep
    ensures StepY(Keys(false, false, true, true)) == 0
  {
  }

  class Player {
    var rect: Rect

    /** get_rect() of the player's image: its size, corner at the origin. */
    constructor (width: nat, height: nat)
      ensures rect == Rect(0, 0, width, height)
    {
      rect := Rect(0, 0, width, height);
    }

    /** Player.update: move by the keys' displacement, then pull each edge
        back onto the screen in the order left, right, top, bottom. */
    method Update(keys: Keys)
      requires FitsScreen(rect)
      modifies this
      ensures InScreen(rect)
      ensures rect.width == old(rect.width) && rect.height == old(rect.height)
      ensures rect == Clamped(old(rect).Move(StepX(keys), StepY(keys)))
      ensures InScreen(old(rect).Move(StepX(keys), StepY(keys))) ==>
                rect == old(rect).Move(StepX(keys), StepY(keys))
    {
      var dx, dy := KeyDisplacement(keys);
      rect := rect.Move(dx, dy);
      if rect.left < 0 {
        rect := rect.(left := 0);
      }
      if rect.Right() > ScreenWidth {
        rect := rect.WithRight(ScreenWidth);
      }
      if rect.top <= 0 {
        rect := rect.(top := 0);
      }
      if rect.Bottom() >= ScreenHeight {
        rect := rect.WithBottom(ScreenHeight);
      }
    }
  }

  class Enemy {
    var rect: Rect
    const speed: int

    /** Enemy.__init__ given the values its randint calls returned and the
        size of its image: the image is centred on the drawn point. */
    constructor (draw: SpawnDraw, width: nat, height: nat)
      requires ValidDraw(draw)
      ensures rect == CenteredAt(draw.centerX, draw.centerY, width, height)
      ensures speed == draw.speed && MinSpeed <= speed <= MaxSpeed
      ensures ScreenWidth + 20 <= rect.CenterX() <= ScreenWidth + 100
      ensures 0 <= rect.CenterY() <= ScreenHeight
      ensures rect.Right() > ScreenWidth
    {
      rect := CenteredAt(draw.centerX, draw.centerY, width, height);
      speed := draw.speed;
    }

    /** Enemy.update: move left by the speed; report whether the right edge
        is now left of the screen, the condition on which it kills itself. */
    method Update() returns (offScreen: bool)
      modifies this
      ensures rect == old(rect).Move(-speed, 0) == AfterUpdates(old(rect), speed, 1)
      ensures offScreen <==> rect.Right() < 0
    {
      rect := rect.Move(-speed, 0);
      offScreen := rect.Right() < 0;
    }
  }

  /** Where an enemy that starts at r is after k calls of Enemy.update. */
  function AfterUpdates(r: Rect, speed: int, k: nat): Rect
    decreases k
  {
    if k == 0 then r else AfterUpdates(r, speed, k - 1).Move(-speed, 0)
  }

  /** After k updates the enemy is k * speed further left, at the same height
      and with the same size. */
  lemma {:induction false} AfterUpdatesShiftsLeft(r: Rect, speed: int, k: nat)
    ensures AfterUpdates(r, speed, k) == r.(left := r.left - k * speed)
    decreases k
  {
    if k > 0 {
      AfterUpdatesShiftsLeft(r, speed, k - 1);
      assert (k - 1) * speed + speed == k * speed;
    }
  }

  /** None of the first k updates has removed the enemy. */
  predicate AliveAfter(r: Rect, speed: int, k: nat)
    decreases k
  {
    k == 0 || (AliveAfter(r, speed, k - 1) && AfterUpdates(r, speed, k).Right() >= 0)
  }

  /** For an enemy moving left that starts with its right edge on or past the
      screen's left edge, it survives k updates exactly when k * speed does not
      exceed that right edge, so it is never removed while its right edge is
      still at or past 0. */
  lemma {:induction false} AliveAfterIff(r: Rect, speed: int, k: nat)
    requires speed > 0 && r.Right() >= 0
    ensures AliveAfter(r, speed, k) <==> k * speed <= r.Right()
    decreases k
  {
    AfterUpdatesShiftsLeft(r, speed, k);
    if k > 0 {
      AliveAfterIff(r, speed, k - 1);
      assert (k - 1) * speed + speed == k * speed;
    }
  }

  /** The enemy is removed by update number Right / speed + 1 and by no
      earlier one: it is alive after every update before it and not after it. */
  lemma RemovedOnUpdate(r: Rect, speed: int)
    requires speed > 0 && r.Right() >= 0
    ensures var n := r.Right() / speed + 1;
      (forall k: nat :: k < n ==> AliveAfter(r, speed, k)) && !AliveAfter(r, speed, n)
  {
    var n := r.Right() / speed + 1;
    forall k: nat | k < n
      ensures AliveAfter(r, speed, k)
    {
      AliveAfterIff(r, speed, k);
      assert k * speed <= (n - 1) * speed;
    }
    AliveAfterIff(r, speed, n);
  }

  /** Some enemy of the group overlaps rectangle r. */
  ghost predicate CollidesWithAny(r: Rect, group: set<Enemy>)
    reads group
  {
    exists e :: e in group && Overlaps(r, e.rect)
  }

  /** pygame.sprite.spritecollideany: some enemy of the group that overlaps
      the sprite, or null when there is none. */
  method SpriteCollideAny(sprite: Player, group: set<Enemy>) returns (hit: Enemy?)
    ensures hit != null ==> hit in group && Overlaps(sprite.rect, hit.rect)
    ensures hit == null <==> !CollidesWithAny(sprite.rect, group)
  {
    var pending := group;
    hit := null;
    while pending != {}
      invariant pending <= group
      invariant forall e :: e in group - pending ==> !Overlaps(sprite.rect, e.rect)
      decreases |pending|
    {
      var e :| e in pending;
      if Overlaps(sprite.rect, e.rect) {
        return e;
      }
      pending := pending - {e};
    }
  }
}
