/** Chests: a spawner that waits out a drawn interval after each opening, or
    otherwise waits until every registered chest is open, and then spawns one
    chest; an opener that opens a closed chest the trackee is close to; a
    demolisher that deregisters chests leaving the view. The `law`
    strategies are streams of drawn values; the values drawn reach the model
    as parameters. Time is whole milliseconds. */
module ChestSystem {
  import opened Base
  import opened Space

  /** A chest entity: fixed coordinates and the `isOpen` flag. */
  class Chest {
    const coordinates: Point
    var isOpen: bool

    /** `entityFactory.createChest(coordinates)`: a closed chest. */
    constructor (coordinates: Point)
      ensures this.coordinates == coordinates && !isOpen
    {
      this.coordinates := coordinates;
      isOpen := false;
    }
  }

  /** The chests register, a Set of chests in insertion order. */
  class ChestRegister {
    var chests: seq<Chest>

    ghost predicate Valid()
      reads this
    {
      Distinct(chests)
    }

    constructor ()
      ensures Valid() && chests == []
    {
      chests := [];
    }

    method Register(chest: Chest)
      requires Valid()
      modifies this
      ensures Valid() && chests == Inserted(old(chests), chest)
    {
      chests := Inserted(chests, chest);
    }

    method Deregister(chest: Chest)
      requires Valid()
      modifies this
      ensures Valid() && chests == Without(old(chests), chest)
    {
      chests := Without(chests, chest);
    }

    /** `asSequence(register).any(chest => !chest.isOpen)`. */
    method AnyClosed() returns (r: bool)
      ensures r <==> exists i :: 0 <= i < |chests| && !chests[i].isOpen
    {
      r := false;
      var i := 0;
      while i < |chests| && !r
        invariant 0 <= i <= |chests|
        invariant r <==> exists k :: 0 <= k < i && !chests[k].isOpen
      {
        r := !chests[i].isOpen;
        i := i + 1;
      }
    }
  }

  /** The spawner's own state: whether a spawning is scheduled, and the time
      left until it. */
  datatype Schedule = Schedule(hasSchedule: bool, spawnInterval: int)

  /** What one `spawnIfAppropriate` does to the schedule, given the elapsed
      time and whether some registered chest is still closed, and whether it
      spawns. */
  datatype Step = Step(next: Schedule, spawns: bool)

  function SpawnStep(s: Schedule, elapsed: int, anyClosed: bool): Step {
    if s.hasSchedule then
      var left := s.spawnInterval - elapsed;
      if left > 0 then Step(Schedule(true, left), false)
      else Step(Schedule(false, left), true)
    else if anyClosed then Step(s, false)
    else Step(s, true)
  }

  /** `scheduleNextSpawning()` with the interval the law draws. */
  function Scheduled(interval: int): (r: Schedule)
    ensures r.hasSchedule && r.spawnInterval == interval
  {
    Schedule(true, interval)
  }

  /** When a tick spawns: a scheduled spawner exactly when the interval has
      run out, whatever the chests; an unscheduled one exactly when no
      registered chest is closed (so also when there is none). A spawning
      always leaves the spawner unscheduled, and an unscheduled spawner
      keeps its state. */
  lemma SpawnStepCases(s: Schedule, elapsed: int, anyClosed: bool)
    ensures s.hasSchedule ==>
      (SpawnStep(s, elapsed, anyClosed).spawns <==> s.spawnInterval - elapsed <= 0)
      && SpawnStep(s, elapsed, anyClosed).next.spawnInterval == s.spawnInterval - elapsed
    ensures !s.hasSchedule ==>
      (SpawnStep(s, elapsed, anyClosed).spawns <==> !anyClosed)
      && SpawnStep(s, elapsed, anyClosed).next == s
    ensures SpawnStep(s, elapsed, anyClosed).spawns ==> !SpawnStep(s, elapsed, anyClosed).next.hasSchedule
    ensures !SpawnStep(s, elapsed, anyClosed).spawns ==> SpawnStep(s, elapsed, anyClosed).next.hasSchedule == s.hasSchedule
  {
  }

  /** The total of elapsed times. */
  function Sum(elapsed: seq<int>): int {
    if elapsed == [] then 0 else Sum(elapsed[..|elapsed| - 1]) + elapsed[|elapsed| - 1]
  }

  /** A run of ticks: the schedule after them, and which of them spawned. */
  datatype Run = Run(last: Schedule, spawned: seq<bool>)

  function Ticks(s: Schedule, elapsed: seq<int>, anyClosed: bool): (r: Run)
    ensures |r.spawned| == |elapsed|
  {
    if elapsed == [] then Run(s, [])
    else
      var before := Ticks(s, elapsed[..|elapsed| - 1], anyClosed);
      var step := SpawnStep(before.last, elapsed[|elapsed| - 1], anyClosed);
      Run(step.next, before.spawned + [step.spawns])
  }

  /** A scheduled spawner counts the interval down tick by tick: while the
      time elapsed in total stays below the drawn interval nothing spawns and
      the schedule holds the time left, whether chests are closed or not;
      the first tick that makes the total reach the interval spawns, and
      leaves the spawner unscheduled. */
  lemma {:induction false} CountdownSpawnsWhenDue(s: Schedule, elapsed: seq<int>, anyClosed: bool)
    requires s.hasSchedule
    requires forall k :: 0 <= k < |elapsed| ==> Sum(elapsed[..k]) < s.spawnInterval
    ensures elapsed != [] ==>
      Ticks(s, elapsed[..|elapsed| - 1], anyClosed).last == Schedule(true, s.spawnInterval - Sum(elapsed[..|elapsed| - 1]))
    ensures forall k :: 0 <= k < |elapsed| - 1 ==> !Ticks(s, elapsed, anyClosed).spawned[k]
    ensures elapsed != [] ==>
      (Ticks(s, elapsed, anyClosed).spawned[|elapsed| - 1] <==> Sum(elapsed) >= s.spawnInterval)
    ensures Sum(elapsed) < s.spawnInterval ==>
      Ticks(s, elapsed, anyClosed).last == Schedule(true, s.spawnInterval - Sum(elapsed))
    ensures elapsed != [] && Sum(elapsed) >= s.spawnInterval ==> !Ticks(s, elapsed, anyClosed).last.hasSchedule
  {
    if elapsed != [] {
      var prefix := elapsed[..|elapsed| - 1];
      assert forall k :: 0 <= k < |prefix| ==> prefix[..k] == elapsed[..k];
      CountdownSpawnsWhenDue(s, prefix, anyClosed);
      assert prefix == elapsed[..|elapsed| - 1];
      if prefix != [] {
        assert prefix[..|prefix| - 1] == elapsed[..|prefix| - 1];
        assert Sum(prefix) == Sum(elapsed[..|prefix|]);
      }
    }
  }

  /** The trackee: an entity whose coordinates move. */
  class Trackee {
    var coordinates: Point

    constructor (coordinates: Point)
      ensures this.coordinates == coordinates
    {
      this.coordinates := coordinates;
    }
  }

  /** The default radius within which the trackee can open a chest. */
  const ChestTouchableDistance: real := 40.0

  /** Whether `execute` opens a chest: it is closed and the trackee tries to
      open it. */
  predicate Opens(isOpen: bool, trackeeIsClose: bool) {
    !isOpen && trackeeIsClose
  }

  /** Opening is one-shot: a chest left open by one `execute` is not opened
      by the next, whatever the distance then. */
  lemma ExecuteOpensOnce(isOpen: bool, firstClose: bool, secondClose: bool)
    ensures Opens(isOpen, firstClose) ==> !Opens(isOpen || Opens(isOpen, firstClose), secondClose)
    ensures isOpen ==> !Opens(isOpen, firstClose)
    ensures !firstClose ==> !Opens(isOpen, firstClose)
  {
  }

  class ChestOpener {
    const trackee: Trackee
    const isClose: CloseTest
    const chestTouchableDistance: real

    constructor (trackee: Trackee, isClose: CloseTest, chestTouchableDistance: real)
      ensures this.trackee == trackee && this.isClose == isClose
      ensures this.chestTouchableDistance == chestTouchableDistance
    {
      this.trackee := trackee;
      this.isClose := isClose;
      this.chestTouchableDistance := chestTouchableDistance;
    }

    /** The constructor with the distance argument left out: it defaults
        to `ChestTouchableDistance`. */
    constructor WithDefaultDistance(trackee: Trackee, isClose: CloseTest)
      ensures this.trackee == trackee && this.isClose == isClose
      ensures this.chestTouchableDistance == ChestTouchableDistance
    {
      this.trackee := trackee;
      this.isClose := isClose;
      this.chestTouchableDistance := ChestTouchableDistance;
    }

    /** `execute(chest)`: true, with the chest marked open, exactly when the
        chest was closed and the trackee is close; otherwise false with the
        chest unchanged. The shaking animation, the buff and the
        notification follow asynchronously and are not part of this model. */
    method Execute(chest: Chest) returns (didOpen: bool)
      modifies chest
      ensures didOpen == Opens(old(chest.isOpen), isClose(chestTouchableDistance, trackee.coordinates, chest.coordinates))
      ensures chest.isOpen == (old(chest.isOpen) || didOpen)
    {
      if chest.isOpen {
        return false;
      }
      if !isClose(chestTouchableDistance, trackee.coordinates, chest.coordinates) {
        return false;
      }
      chest.isOpen := true;
      return true;
    }
  }

  class ChestSpawner {
    const chestsRegister: ChestRegister
    var hasSchedule: bool
    var spawnInterval: int

    function State(): Schedule
      reads this
    {
      Schedule(hasSchedule, spawnInterval)
    }

    /** A spawner built without a schedule schedules at once, with the first
        interval the law draws; one built with a schedule keeps the given
        interval. */
    constructor (chestsRegister: ChestRegister, hasSchedule: bool, spawnInterval: int, drawnInterval: int)
      ensures this.chestsRegister == chestsRegister
      ensures State() == if hasSchedule then Schedule(true, spawnInterval) else Scheduled(drawnInterval)
    {
      this.chestsRegister := chestsRegister;
      this.hasSchedule := true;
      this.spawnInterval := if hasSchedule then spawnInterval else drawnInterval;
    }

    /** `spawnIfAppropriate(time)` with the elapsed milliseconds and the
        location the law draws: the schedule steps as `SpawnStep` says, and a
        spawn registers one new closed chest at that location. */
    method SpawnIfAppropriate(elapsed: int, location: Point) returns (spawned: Option<Chest>)
      requires chestsRegister.Valid()
      modifies this, chestsRegister
      ensures chestsRegister.Valid()
      ensures var step := SpawnStep(old(State()), elapsed,
                                    exists i :: 0 <= i < |old(chestsRegister.chests)| && !old(chestsRegister.chests[i].isOpen));
        && State() == step.next
        && (step.spawns <==> spawned.Some?)
        && (spawned.None? ==> chestsRegister.chests == old(chestsRegister.chests))
        && (spawned.Some? ==>
              fresh(spawned.value) && !spawned.value.isOpen && spawned.value.coordinates == location
              && chestsRegister.chests == old(chestsRegister.chests) + [spawned.value])
    {
      if hasSchedule {
        spawnInterval := spawnInterval - elapsed;
        if spawnInterval > 0 {
          return None;
        }
        hasSchedule := false;
      } else {
        var anyClosed := chestsRegister.AnyClosed();
        if anyClosed {
          return None;
        }
      }
      var chest := SpawnAt(location);
      return Some(chest);
    }

    /** `scheduleNextSpawning()` with the interval the law draws. */
    method ScheduleNextSpawning(drawnInterval: int)
      modifies this
      ensures State() == Scheduled(drawnInterval)
    {
      spawnInterval := drawnInterval;
      hasSchedule := true;
    }

    method SpawnAt(coordinates: Point) returns (chest: Chest)
      requires chestsRegister.Valid()
      modifies chestsRegister
      ensures chestsRegister.Valid() && fresh(chest) && !chest.isOpen && chest.coordinates == coordinates
      ensures chestsRegister.chests == old(chestsRegister.chests) + [chest]
    {
      chest := new Chest(coordinates);
      chestsRegister.Register(chest);
    }
  }

  class ChestDemolisher {
    const chestsRegister: ChestRegister

    constructor (chestsRegister: ChestRegister)
      ensures this.chestsRegister == chestsRegister
    {
      this.chestsRegister := chestsRegister;
    }

    /** `demolish(chest)`: the chest leaves the register. */
    method Demolish(chest: Chest)
      requires chestsRegister.Valid()
      modifies chestsRegister
      ensures chestsRegister.Valid() && chestsRegister.chests == Without(old(chestsRegister.chests), chest)
    {
      chestsRegister.Deregister(chest);
    }
  }

  class ChestSystem {
    const chestOpener: ChestOpener
    const chestSpawner: ChestSpawner
    const chestDemolisher: ChestDemolisher

    constructor (chestOpener: ChestOpener, chestSpawner: ChestSpawner, chestDemolisher: ChestDemolisher)
      ensures this.chestOpener == chestOpener && this.chestSpawner == chestSpawner
      ensures this.chestDemolisher == chestDemolisher
    {
      this.chestOpener := chestOpener;
      this.chestSpawner := chestSpawner;
      this.chestDemolisher := chestDemolisher;
    }

    /** `tick(time)`: the spawner's step. */
    method Tick(elapsed: int, location: Point) returns (spawned: Option<Chest>)
      requires chestSpawner.chestsRegister.Valid()
      modifies chestSpawner, chestSpawner.chestsRegister
      ensures chestSpawner.chestsRegister.Valid()
      ensures var step := SpawnStep(old(chestSpawner.State()), elapsed,
                                    exists i :: 0 <= i < |old(chestSpawner.chestsRegister.chests)|
                                      && !old(chestSpawner.chestsRegister.chests[i].isOpen));
        && chestSpawner.State() == step.next
        && (step.spawns <==> spawned.Some?)
        && (spawned.None? ==> chestSpawner.chestsRegister.chests == old(chestSpawner.chestsRegister.chests))
        && (spawned.Some? ==>
              fresh(spawned.value) && !spawned.value.isOpen
              && chestSpawner.chestsRegister.chests == old(chestSpawner.chestsRegister.chests) + [spawned.value])
    {
      spawned := chestSpawner.SpawnIfAppropriate(elapsed, location);
    }

    /** `enter(chest)`: nothing. */
    method Enter(chest: Chest)
      ensures unchanged(this, chest)
    {
    }

    /** `update(chest)`: a chest this call opens schedules the next
        spawning; otherwise the spawner is untouched. */
    method Update(chest: Chest, drawnInterval: int)
      modifies chest, chestSpawner
      ensures var didOpen := Opens(old(chest.isOpen), chestOpener.isClose(chestOpener.chestTouchableDistance,
                                                                        chestOpener.trackee.coordinates, chest.coordinates));
        && chest.isOpen == (old(chest.isOpen) || didOpen)
        && chestSpawner.State() == if didOpen then Scheduled(drawnInterval) else old(chestSpawner.State())
    {
      var didOpen := chestOpener.Execute(chest);
      if didOpen {
        chestSpawner.ScheduleNextSpawning(drawnInterval);
      }
    }

    /** `exit(chest)`: the chest is demolished. */
    method Exit(chest: Chest)
      requires chestDemolisher.chestsRegister.Valid()
      modifies chestDemolisher.chestsRegister
      ensures chestDemolisher.chestsRegister.Valid()
      ensures chestDemolisher.chestsRegister.chests == Without(old(chestDemolisher.chestsRegister.chests), chest)
    {
      chestDemolisher.Demolish(chest);
    }

    /** `finish()`: nothing. */
    method Finish()
      ensures unchanged(this)
    {
    }
  }
}
