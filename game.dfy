/** The state and the loop of main(): the player, the two sprite groups
    all_sprites and enemies, the running flag, and the key snapshot last read
    inside the event loop. Each call of Frame is one pass of `while running`. */
module GameLoop {

  import opened Geometry
  import opened Events
  import opened Sprites

  datatype Option<T> = None | Some(value: T)

  /** How a frame ends: normally, or by reading pressed_keys before any event
      of the game has assigned it (Python's UnboundLocalError). */
  datatype FrameOutcome = Completed | KeysUnbound

  class Game {
    var running: bool
    const player: Player
    /** The sprite groups: enemies for update and collision, all_sprites for drawing. */
    var enemies: set<Enemy>
    var allSprites: set<object>
    /** pressed_keys of main(), unbound until the first event of the game is read. */
    var pressedKeys: Option<Keys>
    /** Size of the enemy image, the same for every enemy. */
    const enemyWidth: nat
    const enemyHeight: nat

    /** The invariants of the loop: the player fits the screen, every enemy is
        also in all_sprites, all_sprites holds nothing but the enemies and the
        player, the player is drawn while the game runs, and every enemy's
        speed is in range. */
    ghost predicate Valid()
      reads this, player
    {
      FitsScreen(player.rect) &&
      (forall e :: e in enemies ==> e in allSprites) &&
      (forall s :: s in allSprites ==> s == player || s in enemies) &&
      (running ==> player in allSprites) &&
      (forall e :: e in enemies ==> MinSpeed <= e.speed <= MaxSpeed)
    }

    /** The set-up of main() before the loop: a player at the origin in
        all_sprites, no enemies, running set. */
    constructor (playerWidth: nat, playerHeight: nat, enemyWidth: nat, enemyHeight: nat)
      requires playerWidth <= ScreenWidth && playerHeight <= ScreenHeight
      ensures Valid() && fresh(player)
      ensures player.rect == Rect(0, 0, playerWidth, playerHeight)
      ensures running && enemies == {} && allSprites == {player} && pressedKeys == None
      ensures this.enemyWidth == enemyWidth && this.enemyHeight == enemyHeight
    {
      running := true;
      player := new Player(playerWidth, playerHeight);
      enemies := {};
      allSprites := {player};
      pressedKeys := None;
      this.enemyWidth := enemyWidth;
      this.enemyHeight := enemyHeight;
    }

    /** The body of the `for event in pygame.event.get()` loop for one event:
        QUIT or Escape clears running, ADD_ENEMY creates one enemy (returned in
        born) and adds it to both groups, and pressed_keys is read afresh. */
    method HandleEvent(event: Event, keys: Keys) returns (ghost born: seq<Enemy>)
      requires Valid() && (event.AddEnemy? ==> ValidDraw(event.draw))
      modifies this`running, this`enemies, this`allSprites, this`pressedKeys
      ensures Valid()
      ensures running == (old(running) && !IsExit(event))
      ensures pressedKeys == Some(keys)
      ensures !event.AddEnemy? ==> born == [] && enemies == old(enemies) && allSprites == old(allSprites)
      ensures event.AddEnemy? ==>
                |born| == 1 && fresh(born[0]) && born[0] !in old(enemies) &&
                born[0].speed == event.draw.speed &&
                born[0].rect == CenteredAt(event.draw.centerX, event.draw.centerY, enemyWidth, enemyHeight) &&
                enemies == old(enemies) + {born[0]} && allSprites == old(allSprites) + {born[0]}
    {
      born := [];
      if event == Quit || (event.KeyDown? && event.key == Escape) {
        running := false;
      }
      if event.AddEnemy? {
        var e := new Enemy(event.draw, enemyWidth, enemyHeight);
        enemies := enemies + {e};
        allSprites := allSprites + {e};
        born := [e];
      }
      pressedKeys := Some(keys);
    }

    /** The `for event in pygame.event.get()` loop. held[i] is what
        key.get_pressed() returns while event i is handled. Each AddEnemy
        event creates exactly one new enemy, returned in born in event order,
        and adds it to both groups. */
    method PollEvents(events: seq<Event>, held: seq<Keys>) returns (ghost born: seq<Enemy>)
      requires Valid() && |held| == |events| && DrawsValid(events)
      modifies this`running, this`enemies, this`allSprites, this`pressedKeys
      ensures Valid()
      ensures running == (old(running) && !ExitRequested(events))
      ensures pressedKeys == if events == [] then old(pressedKeys) else Some(held[|held| - 1])
      ensures |born| == |SpawnDraws(events)|
      ensures forall j :: 0 <= j < |born| ==>
                fresh(born[j]) && born[j].speed == SpawnDraws(events)[j].speed &&
                born[j].rect == CenteredAt(SpawnDraws(events)[j].centerX, SpawnDraws(events)[j].centerY,
                                           enemyWidth, enemyHeight)
      ensures forall j, k :: 0 <= j < k < |born| ==> born[j] != born[k]
      ensures forall e :: e in enemies <==> e in old(enemies) || e in born
      ensures forall s :: s in allSprites <==> s in old(allSprites) || s in born
      ensures |enemies| == |old(enemies)| + |SpawnDraws(events)| == |old(enemies)| + AddEnemyCount(events)
    {
      var i := 0;
      born := [];
      while i < |events|
        invariant 0 <= i <= |events|
        invariant Valid()
        invariant running == (old(running) && !ExitRequested(events[..i]))
        invariant pressedKeys == if i == 0 then old(pressedKeys) else Some(held[i - 1])
        invariant |born| == |SpawnDraws(events[..i])|
        invariant forall j :: 0 <= j < |born| ==>
                    fresh(born[j]) && born[j].speed == SpawnDraws(events[..i])[j].speed &&
                    born[j].rect == CenteredAt(SpawnDraws(events[..i])[j].centerX,
                                               SpawnDraws(events[..i])[j].centerY, enemyWidth, enemyHeight)
        invariant forall j, k :: 0 <= j < k < |born| ==> born[j] != born[k]
        invariant forall e :: e in enemies <==> e in old(enemies) || e in born
        invariant forall s :: s in allSprites <==> s in old(allSprites) || s in born
        invariant |enemies| == |old(enemies)| + |born|
      {
        assert events[..i + 1][..i] == events[..i];
        ghost var before := born;
        ghost var drawsBefore := SpawnDraws(events[..i]);
        var one := HandleEvent(events[i], held[i]);
        born := born + one;
        assert SpawnDraws(events[..i + 1]) == drawsBefore + SpawnDraws([events[i]]);
        i := i + 1;
      }
      assert events[..|events|] == events;
      SpawnDrawsCount(events);
    }

    /** enemies.update(): every enemy moves left by its speed, and each one
        whose right edge is then left of the screen is killed, leaving both
        groups. Nothing else changes. */
    method UpdateEnemies()
      requires Valid()
      modifies this`enemies, this`allSprites, enemies
      ensures Valid()
      ensures forall e :: e in old(enemies) ==> e.rect == old(e.rect).Move(-e.speed, 0)
      ensures enemies == set e | e in old(enemies) && e.rect.Right() >= 0
      ensures forall s :: s in allSprites <==> s in old(allSprites) && (s in enemies || s !in old(enemies))
    {
      var pending := enemies;
      while pending != {}
        invariant pending <= old(enemies)
        invariant Valid()
        invariant forall e :: e in old(enemies) && e !in pending ==> e.rect == old(e.rect).Move(-e.speed, 0)
        invariant forall e :: e in pending ==> e.rect == old(e.rect)
        invariant enemies == set e | e in old(enemies) && (e in pending || e.rect.Right() >= 0)
        invariant forall s :: s in allSprites <==> s in old(allSprites) && (s in enemies || s !in old(enemies))
        decreases |pending|
      {
        var e :| e in pending;
        var offScreen := e.Update();
        if offScreen {
          enemies := enemies - {e};
          allSprites := allSprites - {e};
        }
        pending := pending - {e};
      }
    }

    /** One pass of `while running`: read the batch of events, update the
        player with the last key snapshot, update every enemy, and test the
        player against the enemies that remain. A hit kills the player and
        clears running; clearing running, here or by an event, does not cut
        the frame short. A batch with no events before any event of the game
        leaves pressed_keys unbound, and the frame fails before it changes
        anything. */
    method Frame(events: seq<Event>, held: seq<Keys>) returns (outcome: FrameOutcome, ghost born: seq<Enemy>)
      requires Valid() && running && |held| == |events| && DrawsValid(events)
      modifies this, player, enemies
      ensures Valid()
      ensures fresh(enemies - old(enemies))
      ensures outcome == KeysUnbound <==> events == [] && old(pressedKeys) == None
      ensures outcome == KeysUnbound ==> unchanged(this, player) && unchanged(enemies) && born == []
      ensures outcome == Completed ==>
                pressedKeys == if events == [] then old(pressedKeys) else Some(held[|held| - 1])
      ensures outcome == Completed ==>
                player.rect == Clamped(old(player.rect).Move(StepX(pressedKeys.value), StepY(pressedKeys.value)))
      ensures outcome == Completed ==> |born| == |SpawnDraws(events)|
      ensures outcome == Completed ==>
                forall j :: 0 <= j < |born| ==>
                  fresh(born[j]) && born[j].speed == SpawnDraws(events)[j].speed &&
                  born[j].rect == CenteredAt(SpawnDraws(events)[j].centerX, SpawnDraws(events)[j].centerY,
                                             enemyWidth, enemyHeight).Move(-born[j].speed, 0)
      ensures forall j, k :: 0 <= j < k < |born| ==> born[j] != born[k]
      ensures outcome == Completed ==>
                forall e :: e in old(enemies) ==> e.rect == old(e.rect).Move(-e.speed, 0)
      ensures outcome == Completed ==>
                forall e :: e in enemies <==> (e in old(enemies) || e in born) && e.rect.Right() >= 0
      ensures outcome == Completed ==>
                running == (!ExitRequested(events) && !CollidesWithAny(player.rect, enemies))
      ensures outcome == Completed ==>
                forall s :: s in allSprites <==>
                  s in enemies || (s == player && !CollidesWithAny(player.rect, enemies))
    {
      if events == [] && pressedKeys == None {
        outcome, born := KeysUnbound, [];
        return;
      }
      born := PollEvents(events, held);
      player.Update(pressedKeys.value);
      UpdateEnemies();
      var hit := SpriteCollideAny(player, enemies);
      if hit != null {
        allSprites := allSprites - {player};
        running := false;
      }
      outcome := Completed;
    }

    /** The `while running` loop over the batches of events of successive
        frames. It runs one frame per batch until running is false, stopping
        after the frame that cleared it, or until a frame fails; trace records
        running after each frame that completed, which is false after every
        frame whose batch asked to quit. Only the first frame can fail on
        unbound keys (any later one has a snapshot), and it fails exactly when
        its batch is empty and no snapshot was read before the loop. */
    method Run(batches: seq<seq<Event>>, held: seq<seq<Keys>>)
      returns (frames: nat, outcome: FrameOutcome, ghost trace: seq<bool>)
      requires Valid() && running && |held| == |batches|
      requires forall f :: 0 <= f < |batches| ==> |held[f]| == |batches[f]| && DrawsValid(batches[f])
      modifies this, player, enemies
      ensures Valid()
      ensures frames <= |batches| && |trace| == frames
      ensures forall f :: 0 <= f < frames - 1 ==> trace[f]
      ensures frames > 0 ==> trace[frames - 1] == running
      ensures forall f :: 0 <= f < frames ==> ExitRequested(batches[f]) ==> !trace[f]
      ensures outcome == Completed ==> frames == |batches| || (frames > 0 && !running)
      ensures outcome == KeysUnbound <==> old(pressedKeys) == None && |batches| > 0 && batches[0] == []
      ensures outcome == KeysUnbound ==> frames == 0 && running && unchanged(this, player) && unchanged(old(enemies))
    {
      frames, outcome, trace := 0, Completed, [];
      while running && outcome == Completed && frames < |batches|
        invariant frames <= |batches| && |trace| == frames
        invariant Valid()
        invariant fresh(enemies - old(enemies))
        invariant forall f :: 0 <= f < frames - 1 ==> trace[f]
        invariant forall f :: 0 <= f < frames ==> ExitRequested(batches[f]) ==> !trace[f]
        invariant frames > 0 ==> trace[frames - 1] == running
        invariant frames > 0 ==> pressedKeys != None && !(old(pressedKeys) == None && batches[0] == [])
        invariant frames == 0 ==> running && unchanged(this, player) && unchanged(old(enemies))
        invariant outcome == KeysUnbound ==>
                    frames == 0 && old(pressedKeys) == None && |batches| > 0 && batches[0] == []
        decreases |batches| - frames, if outcome == Completed then 1 else 0
      {
        var o;
        ghost var born;
        o, born := Frame(batches[frames], held[frames]);
        if o == Completed {
          trace := trace + [running];
          frames := frames + 1;
        } else {
          outcome := o;
        }
      }
    }
  }
}
