/** Two short games driven through the contracts of GameLoop alone, the way a
    caller of the model sees it. */
module Scenarios {

  import opened Geometry
  import opened Events
  import opened Sprites
  import opened GameLoop

  const NoKeys := Keys(false, false, false, false)

  /** A fresh game with a 75x25 player gets one ADD_ENEMY event in its first
      frame and no key is held: wherever the 20x10 enemy is drawn, it is still
      far right of the player after its first move, so all_sprites holds two
      sprites, enemies one, and the game runs on. */
  method OneSpawnFrame(draw: SpawnDraw) returns (drawn: nat, obstacles: nat, stillRunning: bool)
    requires ValidDraw(draw)
    ensures drawn == 2 && obstacles == 1 && stillRunning
  {
    var game := new Game(75, 25, 20, 10);
    var events := [AddEnemy(draw)];
    assert SpawnDraws(events) == [draw];
    var outcome;
    ghost var born;
    outcome, born := game.Frame(events, [NoKeys]);
    ghost var spawned := born[0];
    assert spawned.rect.left >= 790;
    assert game.player.rect == Rect(0, 0, 75, 25);
    assert game.enemies == {spawned};
    assert !CollidesWithAny(game.player.rect, game.enemies);
    assert game.allSprites == {spawned, game.player};
    drawn, obstacles, stillRunning := |game.allSprites|, |game.enemies|, game.running;
  }

  /** A QUIT event ends the game in the frame that reads it; the frame still
      completes and the player stays drawn, as nothing hit it. */
  method QuitEndsFrame() returns (completed: bool, stillRunning: bool, playerDrawn: bool)
    ensures completed && !stillRunning && playerDrawn
  {
    var game := new Game(75, 25, 20, 10);
    var events := [Quit];
    assert SpawnDraws(events) == [] && ExitRequested(events);
    var outcome;
    ghost var born;
    outcome, born := game.Frame(events, [NoKeys]);
    assert game.enemies == {};
    assert !CollidesWithAny(game.player.rect, game.enemies);
    completed := outcome == Completed;
    stillRunning, playerDrawn := game.running, game.player in game.allSprites;
  }

  /** The loop over two batches stops after the first, whose QUIT clears
      running, and never reads the second. */
  method QuitStopsRun() returns (frames: nat, completed: bool)
    ensures frames == 1 && completed
  {
    var game := new Game(75, 25, 20, 10);
    var batches := [[Quit], [OtherEvent]];
    assert ExitRequested(batches[0]) && batches[0] != [];
    var outcome;
    ghost var trace;
    frames, outcome, trace := game.Run(batches, [[NoKeys], [NoKeys]]);
    completed := outcome == Completed;
  }

  /** A first frame with no events fails before anything has happened. */
  method EmptyFirstBatchFails() returns (frames: nat, unbound: bool, stillRunning: bool)
    ensures frames == 0 && unbound && stillRunning
  {
    var game := new Game(75, 25, 20, 10);
    var outcome;
    ghost var trace;
    frames, outcome, trace := game.Run([[]], [[]]);
    unbound := outcome == KeysUnbound;
    stillRunning := game.running;
  }
}
