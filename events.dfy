/** What the game loop reads from pygame each frame: the queued events and the
    keyboard snapshot returned by key.get_pressed(). The random numbers drawn
    when an enemy is created travel with the timer event that creates it. */
module Events {

  import opened Geometry

  /** The four arrow keys of a get_pressed() snapshot, true while held. */
  datatype Keys = Keys(up: bool, down: bool, left: bool, right: bool)

  /** The key of a KEYDOWN event; only Escape matters to the loop. */
  datatype Key = Escape | Up | Down | Left | Right | OtherKey

  /** The values random.randint returns for one new enemy: its centre and speed. */
  datatype SpawnDraw = SpawnDraw(centerX: int, centerY: int, speed: int)

  /** One event of pygame.event.get(): the window being closed, a key press,
      the recurring ADD_ENEMY timer (carrying that enemy's draws), or anything else. */
  datatype Event = Quit | KeyDown(key: Key) | AddEnemy(draw: SpawnDraw) | OtherEvent

  /** The event sets running to false: QUIT, or KEYDOWN of the Escape key. */
  predicate IsExit(e: Event) {
    e == Quit || (e.KeyDown? && e.key == Escape)
  }

  /** Some event of the batch asks the game to end. Defined on the batch's
      last element so that it follows the order in which the loop reads it. */
  predicate ExitRequested(events: seq<Event>)
    decreases |events|
  {
    |events| > 0 && (ExitRequested(events[..|events| - 1]) || IsExit(events[|events| - 1]))
  }

  lemma {:induction false} ExitRequestedMeansSomeExit(events: seq<Event>)
    ensures ExitRequested(events) <==> exists i :: 0 <= i < |events| && IsExit(events[i])
    decreases |events|
  {
    if |events| > 0 {
      var init := events[..|events| - 1];
      ExitRequestedMeansSomeExit(init);
      if ExitRequested(init) {
        var i :| 0 <= i < |init| && IsExit(init[i]);
        assert events[i] == init[i];
      }
      if exists i :: 0 <= i < |events| && IsExit(events[i]) {
        var i :| 0 <= i < |events| && IsExit(events[i]);
        if i < |init| {
          assert init[i] == events[i];
        }
      }
    }
  }

  /** The draws of the batch's AddEnemy events, in the order they occur. */
  function SpawnDraws(events: seq<Event>): (ds: seq<SpawnDraw>)
    ensures |ds| <= |events|
    decreases |events|
  {
    if |events| == 0 then []
    else
      var init := SpawnDraws(events[..|events| - 1]);
      if events[|events| - 1].AddEnemy? then init + [events[|events| - 1].draw] else init
  }

  /** The draws of a batch are exactly those of its AddEnemy events. */
  lemma {:induction false} SpawnDrawsAreEvents(events: seq<Event>)
    ensures forall d :: d in SpawnDraws(events) <==> AddEnemy(d) in events
    decreases |events|
  {
    if |events| > 0 {
      var init := events[..|events| - 1];
      SpawnDrawsAreEvents(init);
      assert events == init + [events[|events| - 1]];
    }
  }

  /** Number of AddEnemy events of the batch, counted from its front. */
  function AddEnemyCount(events: seq<Event>): nat
    decreases |events|
  {
    if |events| == 0 then 0
    else (if events[0].AddEnemy? then 1 else 0) + AddEnemyCount(events[1..])
  }

  lemma {:induction false} AddEnemyCountAppend(events: seq<Event>, e: Event)
    ensures AddEnemyCount(events + [e]) == AddEnemyCount(events) + (if e.AddEnemy? then 1 else 0)
    decreases |events|
  {
    if |events| > 0 {
      assert (events + [e])[1..] == events[1..] + [e];
      AddEnemyCountAppend(events[1..], e);
    }
  }

  /** A batch has one spawn draw per AddEnemy event, so the loop creates
      exactly as many enemies as there are such events. */
  lemma {:induction false} SpawnDrawsCount(events: seq<Event>)
    ensures |SpawnDraws(events)| == AddEnemyCount(events)
    decreases |events|
  {
    if |events| > 0 {
      var init := events[..|events| - 1];
      SpawnDrawsCount(init);
      AddEnemyCountAppend(init, events[|events| - 1]);
      assert init + [events[|events| - 1]] == events;
    }
  }

  /** Range of an enemy's speed, in pixels per frame. */
  const MinSpeed: int := 5
  const MaxSpeed: int := 20

  /** The ranges of the three randint calls of Enemy.__init__: centre x in
      [ScreenWidth + 20, ScreenWidth + 100], centre y in [0, ScreenHeight],
      speed in [MinSpeed, MaxSpeed], all bounds included. */
  predicate ValidDraw(d: SpawnDraw) {
    ScreenWidth + 20 <= d.centerX <= ScreenWidth + 100 &&
    0 <= d.centerY <= ScreenHeight &&
    MinSpeed <= d.speed <= MaxSpeed
  }

  predicate DrawsValid(events: seq<Event>) {
    forall i :: 0 <= i < |events| && events[i].AddEnemy? ==> ValidDraw(events[i].draw)
  }
}
