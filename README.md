# flying_cow: the game state of first_game.py

This project models the game-state logic of `first_game.py`, a small pygame
"avoid the obstacles" game, without pygame. The player is a rectangle that
the arrow keys move 5 pixels per frame and that is clamped to the 800x600
window. Enemies spawn beyond the right edge and move left at a random integer
speed. Each enemy removes itself from both sprite groups once its right edge
has passed the left edge of the window. The game ends when the window is
closed, when Escape is pressed, or when the player overlaps an enemy.

Modules:

- `Geometry` (geometry.dfy): integer rectangles in the style of pygame's
  `Rect`, the screen size, and the collision test. It also holds two
  reference definitions: `Clamped`, which pulls a rectangle into the screen,
  and `CenteredAt`, which is `get_rect(center = ...)`.
- `Events` (events.dfy): the key snapshot of `key.get_pressed()` and the
  events of one frame. It also holds the ranges of the three `random.randint`
  calls of `Enemy.__init__`.
- `Sprites` (sprites.dfy): the classes `Player` and `Enemy`, each updating its
  rectangle in place. It also holds `spritecollideany` and the lemmas about an
  enemy's whole lifetime.
- `GameLoop` (game.dfy): the class `Game`, holding the state of `main()`:
  - the `running` flag;
  - the groups `enemies` and `all_sprites`, as sets of objects;
  - `pressed_keys`, which is unbound until the first event of the game.

  `Frame` is one pass of `while running` and `Run` is the loop itself.
- `Scenarios` (scenarios.dfy): two frames driven through the contracts alone.

What is an input rather than computed:

- The random values drawn for a new enemy ride on the `AddEnemy` event that
  creates it. `ValidDraw` requires them to lie in the ranges of the
  `randint` calls.
- The result of each `key.get_pressed()` call is an input too: `held[i]` is
  the snapshot read while event `i` is handled.
- Image sizes are parameters of `Game`'s constructor, because the real sizes
  come from the image files. The class attributes `width` and `height` of
  `Player` and `Enemy` are never used by the program.
- The player's image must fit on the screen, which the clamping needs. The
  enemy's image may have any size.

Behaviour of the code that the model keeps:

- `pressed_keys` is assigned only inside the `for event` loop
  (first_game.py:332). A frame without events reuses the previous snapshot.
  If such a frame comes before any event of the game, reading the unbound
  variable fails; `Frame` returns `KeysUnbound` and changes nothing.
- Clearing `running` does not cut a frame short. The player update, the
  enemy updates and the collision test still run.
- A new enemy's random point is the centre of its rectangle, not its corner.
- The top and bottom clamps test `<= 0` and `>= SCREEN_HEIGHT`, the left and
  right clamps `< 0` and `> SCREEN_WIDTH`. This makes no difference to the result.

## Model

| member | source | states |
|---|---|---|
| Geometry.Clamped | first_game.py:253-261 | for a rectangle that fits the screen, the clamped rectangle lies inside 0..800 by 0..600, keeps its width and height, and equals the input when that is already inside |
| Geometry.ClampAxis | first_game.py:254-261 | one axis of the clamp: the corner ends in 0..limit-size and is unchanged when already there |
| Geometry.CenteredAt | first_game.py:145 | get_rect(center=(x, y)) round trip: reading back centerx and centery gives (x, y), and the size is the image's |
| Geometry.CollisionExamples | first_game.py:351 | a 75x25 player at the origin collides with a 20x10 enemy at x = 70 and not with one at x = 75, where the edges only touch |
| Events.ExitRequestedMeansSomeExit | first_game.py:317-322 | a batch asks to quit exactly when one of its events is QUIT or KEYDOWN of Escape |
| Events.SpawnDrawsAreEvents | first_game.py:325-329 | the spawn draws of a batch are exactly those of its ADD_ENEMY events |
| Events.SpawnDrawsCount | first_game.py:325-329 | a batch has exactly as many spawn draws as ADD_ENEMY events, counted independently from the front |
| Sprites.KeyDisplacement | first_game.py:238-247 | the four overwriting key tests give dx = +5 if right, else -5 if left, else 0, and dy = +5 if down, else -5 if up, else 0 |
| Sprites.LeftAndRightMovesRight | first_game.py:244-247 | holding left and right moves the player +5 along x and not at all along y |
| Sprites.Player.constructor | first_game.py:221 | the player starts with its image's size at the origin |
| Sprites.Player.Update | first_game.py:236-261 | from any position the new rectangle lies inside the screen with its size kept; it is the old one moved by the key displacement and clamped, and moved by exactly that displacement when the moved rectangle is already inside |
| Sprites.Enemy.constructor | first_game.py:130-148 | a new enemy has speed in [5, 20], centre x in [820, 900] and centre y in [0, 600], is centred on the drawn point, and has its right edge past the screen |
| Sprites.Enemy.Update | first_game.py:162-170 | x drops by exactly the speed, y and size stay, and it asks to be killed exactly when its right edge is then below 0 |
| Sprites.AfterUpdatesShiftsLeft | first_game.py:164 | after k updates an enemy is k times its speed further left, at the same height, with the same size |
| Sprites.AliveAfterIff | first_game.py:164-170 | a left-moving enemy survives k updates exactly when k times its speed does not exceed its starting right edge |
| Sprites.RemovedOnUpdate | first_game.py:167-170 | an enemy is removed by update number right / speed + 1 and by no earlier update |
| Sprites.SpriteCollideAny | first_game.py:351 | returns an enemy of the group that overlaps the player, and null exactly when none does |
| GameLoop.Game.constructor | first_game.py:287-294 | the game starts running (the global `running = True` of first_game.py:82), with the player at the origin alone in all_sprites, no enemies and no key snapshot |
| GameLoop.Game.HandleEvent | first_game.py:317-332 | QUIT or Escape clears running; ADD_ENEMY creates one fresh enemy from its draw and adds it to both groups; pressed_keys becomes the snapshot read |
| GameLoop.Game.PollEvents | first_game.py:314-332 | running ends false exactly when some event asked to quit; pressed_keys is the last snapshot read, or the old one after an empty batch; each ADD_ENEMY adds exactly one new enemy to both groups, so enemies grows by exactly the number of such events; enemies stays inside all_sprites |
| GameLoop.Game.UpdateEnemies | first_game.py:338 | every enemy moves left by its speed; the enemies left are exactly those whose right edge is not below 0; the killed ones leave all_sprites too and nothing else does |
| GameLoop.Game.Frame | first_game.py:308-359 | the whole frame: the new state in terms of the old; running ends false exactly when a quit event came or the player overlaps a remaining enemy; a hit removes the player from all_sprites; enemies stays inside all_sprites; an empty first batch fails with nothing changed |
| GameLoop.Game.Run | first_game.py:308-372 | every frame but the last leaves running true, and running is false after every frame whose batch asked to quit; the loop ends only when the batches run out or after a frame that cleared running; it fails on unbound keys exactly when the first batch is empty and no snapshot was read before, and then changes nothing |
| Scenarios.OneSpawnFrame | first_game.py:325-329 | one ADD_ENEMY event in the first frame gives two sprites in all_sprites and one in enemies, and the game runs on |
| Scenarios.QuitEndsFrame | first_game.py:317-322 | a QUIT event clears running in the frame that reads it; the frame completes and the player stays in all_sprites |
| Scenarios.QuitStopsRun | first_game.py:308-322 | given a batch with QUIT and then another batch, the loop runs one frame and completes |
| Scenarios.EmptyFirstBatchFails | first_game.py:332-334 | a loop whose first batch is empty fails on unbound keys before any frame completes, and the game still counts as running |

## Left out

- Asset checks and loading (`os.path.exists`, `pygame.image.load`, `convert_alpha`, `set_colorkey`): file I/O. Image sizes are parameters instead.
- Creating the display, blitting the background and the sprites, and `display.flip`: rendering through pygame. Because nothing is drawn, the insertion order of the sprite groups is not modelled; the groups are sets.
- The mixer, the background music, the collision sound and the shutdown, including `time.sleep(3)`: these are audio and timing calls to devices.
- `clock.tick` and the wall-clock ADD_ENEMY timer: the timer is seen only as AddEnemy events in a frame's batch.
- The `random` module: each spawn's values are inputs in the `randint` ranges.
- pygame's `colliderect`: `Geometry.Overlaps` is the assumed pygame semantics, strict intersection where touching edges do not collide. Zero-sized rectangles get no special treatment.
- `kill()`: `Enemy.Update` reports the kill condition, and the group update removes the enemy from both groups for it, in the same pass.
- Key codes other than the four arrows and Escape, and event kinds other than QUIT, KEYDOWN and ADD_ENEMY: they only matter by refreshing the key snapshot.
- pygame stores rectangle coordinates as C integers. The model uses unbounded integers, which agree with those for the small coordinates this game produces.
- `Run` stops when the given batches run out, because the input is finite.
- GameLoop.Game.Run: its trace records running after each frame but does not restate the collision part of each frame; those effects of a single frame are stated by `Frame`, and `Run` only ties the trace to the quit events of each batch.
