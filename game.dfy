/**
  * The game controller (farmer-game/Game.js): the state machine, the held-key
  * tracker, crop spawning and the per-frame update with its collision pass.
  */
module FarmGame {
  import opened Obstacle
  import opened Crops
  import Player

  const WIDTH: real := 900.0
  const HEIGHT: real := 540.0
  const TILE: real := 30.0
  const GAME_LEN: real := 60.0
  const GOAL: int := 15

  /** Where a reset puts the farmer: 17 left of the middle, 80 above the bottom edge. */
  const START_X: real := WIDTH / 2.0 - 17.0
  const START_Y: real := HEIGHT - 80.0

  /** The two scarecrows of every round. */
  const START_OBSTACLES: seq<Scarecrow> := [NewScarecrow(200.0, 220.0), NewScarecrow(650.0, 160.0)]

  datatype State = Menu | Playing | GameOver | Paused | Win

  /** `togglePause`: PAUSED resumes, every other state (MENU, GAMEOVER and WIN included) pauses. */
  function Toggled(s: State): (t: State)
    ensures t == Playing <==> s == Paused
    ensures t == Paused <==> s != Paused
  {
    if s == Paused then Playing else Paused
  }

  /** Pausing twice comes back exactly from PAUSED and PLAYING; from MENU, GAMEOVER or WIN it lands in PLAYING without a reset. */
  lemma ToggleTwice(s: State)
    ensures Toggled(Toggled(s)) == s <==> s in {Paused, Playing}
    ensures s !in {Paused, Playing} ==> Toggled(Toggled(s)) == Playing
  {
  }

  /** The pause key: the letter p in either case. */
  predicate IsPauseKey(key: string)
  {
    key == "p" || key == "P"
  }

  /** Seconds between spawns while `timeLeft` seconds remain: 0.8 at the start, towards 0.3 at the end. */
  function SpawnInterval(timeLeft: real): (s: real)
    ensures 0.0 < timeLeft <= GAME_LEN ==> 0.3 < s <= 0.8
    ensures timeLeft == GAME_LEN ==> s == 0.8
    ensures timeLeft < GAME_LEN ==> s < 0.8
  {
    var progress := 1.0 - timeLeft / GAME_LEN;
    0.8 - 0.5 * progress
  }

  /** Spawns speed up as the round runs out. */
  lemma SpawnIntervalShrinks(t1: real, t2: real)
    requires t1 <= t2
    ensures SpawnInterval(t1) <= SpawnInterval(t2)
    ensures t1 < t2 ==> SpawnInterval(t1) < SpawnInterval(t2)
  {
  }

  /** A whole multiple of the tile size in `[TILE, hi]`. */
  predicate OnGrid(v: real, hi: real)
  {
    TILE <= v <= hi && v == v.Floor as real && v.Floor % 30 == 0
  }

  /** What every crop on the field satisfies: it is live and worth a positive number of points. */
  predicate CropOk(c: Crop)
  {
    !c.dead && c.points > 0
  }

  /** The three draws of `Math.random()` a spawn uses, each in `[0, 1)`. */
  predicate UnitDraw(u: real)
  {
    0.0 <= u < 1.0
  }

  /**
    * The crop `spawnCrop` creates from its three random draws: a column and a
    * row of the grid inset one tile from each edge, and a crop type.
    */
  function SpawnedCrop(u1: real, u2: real, u3: real): Crop
    requires UnitDraw(u1) && UnitDraw(u2) && UnitDraw(u3)
  {
    var gx := (u1 * ((WIDTH - 2.0 * TILE) / TILE)).Floor as real * TILE + TILE;
    var gy := (u2 * ((HEIGHT - 2.0 * TILE) / TILE)).Floor as real * TILE + TILE;
    var t := CROP_TYPES[(u3 * |CROP_TYPES| as real).Floor];
    NewCrop(gx, gy, t)
  }

  /** A spawned crop sits on the grid, one tile in from every edge, and is one of the three crop types. */
  lemma SpawnedCropShape(u1: real, u2: real, u3: real)
    requires UnitDraw(u1) && UnitDraw(u2) && UnitDraw(u3)
    ensures var c := SpawnedCrop(u1, u2, u3);
            && OnGrid(c.x, 840.0) && OnGrid(c.y, 480.0)
            && (exists t :: t in CROP_TYPES && c == NewCrop(c.x, c.y, t))
            && CropOk(c)
  {
    var c := SpawnedCrop(u1, u2, u3);
    var k := (u3 * 3.0).Floor;
    assert c == NewCrop(c.x, c.y, CROP_TYPES[k]);
  }

  /** A source of `Math.random()` results: the i-th call of a frame returns `rand(i)`. */
  ghost predicate UnitDraws(rand: nat -> real)
  {
    forall i: nat :: UnitDraw(rand(i))
  }

  /** The first `k` crops spawned in a frame; spawn `i` uses draws `3i`, `3i+1` and `3i+2`. */
  function Spawns(rand: nat -> real, k: nat): (cs: seq<Crop>)
    requires UnitDraws(rand)
    ensures |cs| == k
  {
    if k == 0 then []
    else Spawns(rand, k - 1) + [SpawnedCrop(rand(3 * (k - 1)), rand(3 * (k - 1) + 1), rand(3 * (k - 1) + 2))]
  }

  /** The `i`-th crop of a frame is made from draws `3i`, `3i+1` and `3i+2`. */
  lemma {:induction false} SpawnsAt(rand: nat -> real, k: nat, i: nat)
    requires UnitDraws(rand) && i < k
    ensures Spawns(rand, k)[i] == SpawnedCrop(rand(3 * i), rand(3 * i + 1), rand(3 * i + 2))
  {
    if i < k - 1 {
      SpawnsAt(rand, k - 1, i);
    }
  }

  /** Everything a frame spawns satisfies the crop invariant. */
  lemma {:induction false} SpawnsOk(rand: nat -> real, k: nat)
    requires UnitDraws(rand)
    ensures forall c :: c in Spawns(rand, k) ==> CropOk(c)
  {
    if k > 0 {
      SpawnsOk(rand, k - 1);
      SpawnedCropShape(rand(3 * (k - 1)), rand(3 * (k - 1) + 1), rand(3 * (k - 1) + 2));
    }
  }

  /** The crops that overlap the player's rectangle, in field order. */
  function Overlapping(p: Rect, cs: seq<Crop>): (r: seq<Crop>)
    ensures |r| <= |cs|
  {
    if cs == [] then []
    else (if Aabb(p, cs[0].Box()) then [cs[0]] else []) + Overlapping(p, cs[1..])
  }

  /** A crop is collected exactly when it is on the field and overlaps the player. */
  lemma {:induction false} OverlappingMembers(p: Rect, cs: seq<Crop>)
    ensures forall c :: c in Overlapping(p, cs) <==> c in cs && Aabb(p, c.Box())
  {
    if cs != [] {
      OverlappingMembers(p, cs[1..]);
      assert forall c :: c in cs <==> c == cs[0] || c in cs[1..];
    }
  }

  /** The crops the collision pass leaves on the field: those that do not overlap the player. */
  function Remaining(p: Rect, cs: seq<Crop>): (r: seq<Crop>)
    ensures |r| <= |cs|
  {
    if cs == [] then []
    else (if Aabb(p, cs[0].Box()) then [] else [cs[0]]) + Remaining(p, cs[1..])
  }

  /** A crop stays on the field exactly when it was there and does not overlap the player. */
  lemma {:induction false} RemainingMembers(p: Rect, cs: seq<Crop>)
    ensures forall c :: c in Remaining(p, cs) <==> c in cs && !Aabb(p, c.Box())
  {
    if cs != [] {
      RemainingMembers(p, cs[1..]);
      assert forall c :: c in cs <==> c == cs[0] || c in cs[1..];
    }
  }

  /** The field with every crop that overlaps the player marked dead and the others as they were. */
  function MarkCollected(p: Rect, cs: seq<Crop>): seq<Crop>
  {
    seq(|cs|, i requires 0 <= i < |cs| => if Aabb(p, cs[i].Box()) then cs[i].(dead := true) else cs[i])
  }

  /** The live crops of a sequence, in order. */
  function Alive(cs: seq<Crop>): seq<Crop>
  {
    if cs == [] then []
    else (if cs[0].dead then [] else [cs[0]]) + Alive(cs[1..])
  }

  /** The points of `cs`, added up from first to last. */
  function SumPoints(cs: seq<Crop>): int
  {
    if cs == [] then 0 else SumPoints(cs[..|cs| - 1]) + cs[|cs| - 1].points
  }

  /** Marking the overlapping crops dead and sweeping the dead ones leaves exactly the non-overlapping ones. */
  lemma {:induction false} CollectThenSweep(p: Rect, cs: seq<Crop>)
    requires forall c :: c in cs ==> !c.dead
    ensures Alive(MarkCollected(p, cs)) == Remaining(p, cs)
  {
    if cs != [] {
      CollectThenSweep(p, cs[1..]);
      assert MarkCollected(p, cs) == [MarkCollected(p, cs)[0]] + MarkCollected(p, cs[1..]);
    }
  }

  /** Removal keeps the surviving crops in their original order. */
  lemma {:induction false} RemainingAppend(p: Rect, a: seq<Crop>, b: seq<Crop>)
    ensures Remaining(p, a + b) == Remaining(p, a) + Remaining(p, b)
  {
    if a == [] {
      assert a + b == b;
    } else {
      assert (a + b)[0] == a[0];
      assert (a + b)[1..] == a[1..] + b;
      RemainingAppend(p, a[1..], b);
    }
  }

  /** Every crop is either collected or left on the field, never both and never neither. */
  lemma {:induction false} CollisionPartition(p: Rect, cs: seq<Crop>)
    ensures multiset(Overlapping(p, cs)) + multiset(Remaining(p, cs)) == multiset(cs)
  {
    if cs != [] {
      var rest := cs[1..];
      CollisionPartition(p, rest);
      assert cs == [cs[0]] + rest;
      assert multiset(cs) == multiset{cs[0]} + multiset(rest);
      if Aabb(p, cs[0].Box()) {
        assert Overlapping(p, cs) == [cs[0]] + Overlapping(p, rest);
        assert Remaining(p, cs) == Remaining(p, rest);
      } else {
        assert Overlapping(p, cs) == Overlapping(p, rest);
        assert Remaining(p, cs) == [cs[0]] + Remaining(p, rest);
      }
    }
  }

  /**
    * What the collision pass relies on: the points it adds are not negative,
    * sweeping leaves exactly the non-overlapping crops (with or without a
    * marking step, which only runs when something was collected), and what is
    * left still satisfies the crop invariant.
    */
  lemma CollectionFacts(p: Rect, cs: seq<Crop>)
    requires forall c :: c in cs ==> CropOk(c)
    ensures SumPoints(Overlapping(p, cs)) >= 0
    ensures Alive(MarkCollected(p, cs)) == Remaining(p, cs)
    ensures |Overlapping(p, cs)| == 0 ==> Alive(cs) == Remaining(p, cs)
    ensures forall c :: c in Remaining(p, cs) ==> CropOk(c)
  {
    OverlappingMembers(p, cs);
    RemainingMembers(p, cs);
    SumPointsPositive(Overlapping(p, cs));
    CollectThenSweep(p, cs);
    if |Overlapping(p, cs)| == 0 {
      assert forall i :: 0 <= i < |cs| ==> !Aabb(p, cs[i].Box());
      assert MarkCollected(p, cs) == cs;
    }
  }

  /** Adding up one more crop of a sequence. */
  lemma SumPointsPrefix(cs: seq<Crop>, j: nat)
    requires j < |cs|
    ensures SumPoints(cs[..j + 1]) == SumPoints(cs[..j]) + cs[j].points
  {
    assert cs[..j + 1][..j] == cs[..j];
  }

  /** Crops of positive value add at least one point each: collecting never lowers the score. */
  lemma {:induction false} SumPointsPositive(cs: seq<Crop>)
    requires forall c :: c in cs ==> c.points > 0
    ensures SumPoints(cs) >= |cs|
  {
    if cs != [] {
      assert forall c :: c in cs[..|cs| - 1] ==> c in cs;
      SumPointsPositive(cs[..|cs| - 1]);
    }
  }

  /** The time `k` spawn intervals of `s` seconds take, as repeated addition. */
  function Intervals(k: nat, s: real): real
  {
    if k == 0 then 0.0 else Intervals(k - 1, s) + s
  }

  /** `k` intervals of `s` seconds are `k * s` seconds. */
  lemma {:induction false} IntervalsIsProduct(k: nat, s: real)
    ensures Intervals(k, s) == k as real * s
  {
    if k > 0 {
      IntervalsIsProduct(k - 1, s);
    }
  }

  /**
    * The spawn loop runs `floor(a / s)` times, where `a` is the accumulator
    * after adding the frame's `dt`: a loop that ends with less than one
    * interval left has spawned exactly that many crops.
    */
  lemma SpawnCountIsFloor(a: real, s: real, k: nat)
    requires s > 0.0 && 0.0 <= a - Intervals(k, s) < s
    ensures k == (a / s).Floor
  {
    IntervalsIsProduct(k, s);
    var n := k as real;
    var r := a - n * s;
    ProperFraction(r, s);
    assert (n + r / s) * s == a;
    assert a / s == n + r / s;
  }

  /** A remainder below the divisor is a proper fraction of it. */
  lemma ProperFraction(r: real, s: real)
    requires 0.0 <= r < s
    ensures 0.0 <= r / s < 1.0
  {
    var g := 1.0 - r / s;
    assert g * s == s - r;
    assert g == (s - r) / s;
  }

  /** The fields of a game other than `state`, to say what an operation leaves alone. */
  datatype World = World(timeLeft: real, spawnEvery: real, accumSpawn: real, score: int,
                         crops: seq<Crop>, obstacles: seq<Scarecrow>,
                         x: real, y: real, dx: int, dy: int)

  /** The held-key tracker; key presses of "p" or "P" also toggle pause. */
  class Input {
    const game: Game
    var keys: set<string>

    constructor (game: Game)
      ensures this.game == game && keys == {}
    {
      this.game := game;
      keys := {};
    }

    method KeyDown(key: string)
      requires game.Valid()
      modifies this`keys, game`state
      ensures game.Valid()
      ensures game.state == if IsPauseKey(key) then Toggled(old(game.state)) else old(game.state)
      ensures keys == old(keys) + {key}
    {
      if IsPauseKey(key) {
        game.TogglePause();
      }
      keys := keys + {key};
    }

    method KeyUp(key: string)
      modifies this`keys
      ensures keys == old(keys) - {key}
    {
      keys := keys - {key};
    }
  }

  class Game {
    var state: State
    const player: Player.Farmer
    var crops: seq<Crop>
    var obstacles: seq<Scarecrow>
    var timeLeft: real
    var spawnEvery: real
    var accumSpawn: real
    var score: int
    const goal: int
    var input: Input?
    /** The canvas size: the field the farmer is clamped to. */
    const fieldWidth: real
    const fieldHeight: real

    ghost predicate Valid()
      reads this
    {
      && input != null && input.game == this
      && player.width == 34.0 && player.height == 40.0 && player.speed == 160.0
      && goal == GOAL
      && 0.0 <= timeLeft <= GAME_LEN
      && 0.3 < spawnEvery <= 0.8
      && 0.0 <= accumSpawn < spawnEvery
      && score >= 0
      && forall c :: c in crops ==> CropOk(c)
    }

    ghost function Rest(): World
      reads this, player
    {
      World(timeLeft, spawnEvery, accumSpawn, score, crops, obstacles,
            player.x, player.y, player.dx, player.dy)
    }

    /** What `reset` establishes, apart from the state and the untouched spawn interval. */
    ghost predicate FreshRound()
      reads this, player
    {
      && crops == [] && obstacles == START_OBSTACLES
      && timeLeft == GAME_LEN && score == 0 && accumSpawn == 0.0
      && player.x == START_X && player.y == START_Y
    }

    constructor (canvasWidth: real, canvasHeight: real)
      ensures Valid() && fresh(player) && fresh(input)
      ensures state == Menu && crops == [] && obstacles == []
      ensures timeLeft == GAME_LEN && spawnEvery == 0.8 && accumSpawn == 0.0
      ensures score == 0 && goal == GOAL
      ensures player.x == START_X && player.y == START_Y
      ensures input.keys == {}
      ensures fieldWidth == canvasWidth && fieldHeight == canvasHeight
    {
      fieldWidth, fieldHeight := canvasWidth, canvasHeight;
      state := Menu;
      player := new Player.Farmer(START_X, START_Y);
      crops, obstacles := [], [];
      timeLeft, spawnEvery, accumSpawn := GAME_LEN, 0.8, 0.0;
      score, goal := 0, GOAL;
      input := null;
      new;
      input := new Input(this);
    }

    /** Starts a new round from MENU, GAMEOVER or WIN; resumes from PAUSED; does nothing while PLAYING. */
    method Start()
      requires Valid()
      modifies this, player
      ensures Valid() && input == old(input)
      ensures old(state) in {Menu, GameOver, Win} ==>
                state == Playing && FreshRound() && spawnEvery == old(spawnEvery)
                && player.dx == old(player.dx) && player.dy == old(player.dy)
      ensures old(state) in {Paused, Playing} ==> state == Playing && Rest() == old(Rest())
    {
      if state in {Menu, GameOver, Win} {
        Reset();
        state := Playing;
      } else if state == Paused {
        state := Playing;
      }
    }

    /** Back to MENU with a fresh round; the spawn interval keeps its last value. */
    method Reset()
      requires Valid()
      modifies this, player
      ensures Valid() && input == old(input)
      ensures state == Menu && FreshRound() && spawnEvery == old(spawnEvery)
      ensures player.dx == old(player.dx) && player.dy == old(player.dy)
    {
      state := Menu;
      player.SetPos(WIDTH / 2.0 - 17.0, HEIGHT - 80.0);
      crops := [];
      obstacles := [NewScarecrow(200.0, 220.0), NewScarecrow(650.0, 160.0)];
      timeLeft := GAME_LEN;
      score := 0;
      accumSpawn := 0.0;
    }

    method TogglePause()
      requires Valid()
      modifies this`state
      ensures Valid()
      ensures state == Toggled(old(state))
    {
      state := if state == Paused then Playing else Paused;
    }

    /** Appends the crop made from three random draws. */
    method SpawnCrop(u1: real, u2: real, u3: real)
      requires UnitDraw(u1) && UnitDraw(u2) && UnitDraw(u3)
      modifies this`crops
      ensures crops == old(crops) + [SpawnedCrop(u1, u2, u3)]
    {
      crops := crops + [SpawnedCrop(u1, u2, u3)];
    }

    /**
      * One frame of play, `dt` seconds long; `rand` answers the frame's calls of
      * `Math.random()` in order. `spawned` is how many crops the frame spawned.
      */
    method Update(dt: real, rand: nat -> real) returns (ghost spawned: nat)
      requires Valid() && dt >= 0.0 && UnitDraws(rand)
      modifies this`state, this`timeLeft, this`spawnEvery, this`accumSpawn, this`score, this`crops
      modifies player`x, player`y, player`dx, player`dy
      ensures Valid()
      // Outside PLAYING nothing changes.
      ensures old(state) != Playing ==> state == old(state) && Rest() == old(Rest())
      // The clock runs out: the round ends on the score so far and nothing else happens.
      ensures old(state) == Playing && Clamp(old(timeLeft) - dt, 0.0, GAME_LEN) == 0.0 ==>
                && state == (if old(score) >= goal then Win else GameOver)
                && Rest() == old(Rest()).(timeLeft := 0.0)
      // Otherwise: interval, movement, spawning and collection, in that order.
      ensures old(state) == Playing && Clamp(old(timeLeft) - dt, 0.0, GAME_LEN) > 0.0 ==>
                && timeLeft == old(timeLeft) - dt
                && spawnEvery == SpawnInterval(timeLeft)
                && player.dx == Player.AxisDir(Player.HoldsLeft(input.keys), Player.HoldsRight(input.keys))
                && player.dy == Player.AxisDir(Player.HoldsUp(input.keys), Player.HoldsDown(input.keys))
                && player.x == Player.Moved(old(player.x), player.dx, 160.0, dt, fieldWidth - 34.0)
                && player.y == Player.Moved(old(player.y), player.dy, 160.0, dt, fieldHeight - 40.0)
                && accumSpawn == old(accumSpawn) + dt - Intervals(spawned, spawnEvery)
                && (var all := old(crops) + Spawns(rand, spawned);
                    var collected := Overlapping(player.Box(), all);
                    && score == old(score) + SumPoints(collected)
                    && crops == Remaining(player.Box(), all)
                    && state == (if |collected| > 0 && score >= goal then Win else Playing))
    {
      spawned := 0;
      if state != Playing {
        return;
      }

      timeLeft := Clamp(timeLeft - dt, 0.0, GAME_LEN);
      if timeLeft <= 0.0 {
        state := if score >= goal then Win else GameOver;
        return;
      }

      spawned := Advance(dt, rand);
    }

    /** The part of a frame that runs while time remains: new interval, movement, spawning and collection. */
    method Advance(dt: real, rand: nat -> real) returns (ghost spawned: nat)
      requires Valid() && dt >= 0.0 && UnitDraws(rand) && 0.0 < timeLeft
      modifies this`state, this`spawnEvery, this`accumSpawn, this`score, this`crops
      modifies player`x, player`y, player`dx, player`dy
      ensures Valid()
      ensures spawnEvery == SpawnInterval(timeLeft)
      ensures player.dx == Player.AxisDir(Player.HoldsLeft(input.keys), Player.HoldsRight(input.keys))
      ensures player.dy == Player.AxisDir(Player.HoldsUp(input.keys), Player.HoldsDown(input.keys))
      ensures player.x == Player.Moved(old(player.x), player.dx, 160.0, dt, fieldWidth - 34.0)
      ensures player.y == Player.Moved(old(player.y), player.dy, 160.0, dt, fieldHeight - 40.0)
      ensures accumSpawn == old(accumSpawn) + dt - Intervals(spawned, spawnEvery)
      ensures var all := old(crops) + Spawns(rand, spawned);
              var collected := Overlapping(player.Box(), all);
              && score == old(score) + SumPoints(collected)
              && crops == Remaining(player.Box(), all)
              && state == (if |collected| > 0 && score >= goal then Win else old(state))
    {
      spawnEvery := SpawnInterval(timeLeft);

      player.HandleInput(input.keys);
      player.Update(dt, fieldWidth, fieldHeight);

      spawned := SpawnDue(dt, rand);
      SpawnsOk(rand, spawned);
      ghost var accum1, interval := accumSpawn, spawnEvery;
      Collect(dt);
      assert accumSpawn == accum1 && spawnEvery == interval;
    }

    /** The spawn step of a frame: add `dt` to the accumulator and spawn one crop per whole interval in it. */
    method SpawnDue(dt: real, rand: nat -> real) returns (ghost k: nat)
      requires 0.3 < spawnEvery && 0.0 <= accumSpawn && dt >= 0.0 && UnitDraws(rand)
      modifies this`crops, this`accumSpawn
      ensures 0.0 <= accumSpawn < spawnEvery
      ensures accumSpawn == old(accumSpawn) + dt - Intervals(k, spawnEvery)
      ensures crops == old(crops) + Spawns(rand, k)
    {
      ghost var a0, s := accumSpawn, spawnEvery;
      accumSpawn := accumSpawn + dt;
      var i: nat := 0;
      while accumSpawn >= spawnEvery
        invariant spawnEvery == s
        invariant accumSpawn >= 0.0
        invariant accumSpawn == a0 + dt - Intervals(i, s)
        invariant crops == old(crops) + Spawns(rand, i)
        decreases (accumSpawn / 0.3).Floor
      {
        accumSpawn := accumSpawn - spawnEvery;
        SpawnCrop(rand(3 * i), rand(3 * i + 1), rand(3 * i + 2));
        i := i + 1;
      }
      k := i;
    }

    /** The scoring half of the collection pass: add each collected crop's points, in order. */
    method AddPoints(collected: seq<Crop>)
      modifies this`score
      ensures score == old(score) + SumPoints(collected)
    {
      for j := 0 to |collected|
        invariant score == old(score) + SumPoints(collected[..j])
      {
        SumPointsPrefix(collected, j);
        score := score + collected[j].points;
      }
      assert collected[..|collected|] == collected;
    }

    /**
      * The collection step of a frame: score and mark every crop the farmer overlaps,
      * win on reaching the goal, then sweep the dead crops and run the survivors' hook.
      */
    method Collect(dt: real)
      requires score >= 0 && forall c :: c in crops ==> CropOk(c)
      modifies this`score, this`crops, this`state
      ensures score >= old(score)
      ensures forall c :: c in crops ==> CropOk(c)
      ensures var collected := Overlapping(player.Box(), old(crops));
              && score == old(score) + SumPoints(collected)
              && crops == Remaining(player.Box(), old(crops))
              && state == (if |collected| > 0 && score >= goal then Win else old(state))
    {
      var box := player.Box();
      var collected := Overlapping(box, crops);
      CollectionFacts(box, crops);
      if |collected| > 0 {
        AddPoints(collected);
        crops := MarkCollected(box, crops);
        if score >= goal {
          state := Win;
        }
      }
      var live := Alive(crops);
      crops := seq(|live|, k requires 0 <= k < |live| => live[k].Update(dt));
      assert crops == live;
    }
  }

  /** Starting from the menu gives a fresh round; a whole minute in one frame ends it without reaching the goal. */
  method TimeRunsOutScenario()
  {
    var g := new Game(WIDTH, HEIGHT);
    g.Start();
    assert g.state == Playing && g.score == 0 && g.timeLeft == 60.0;
    assert g.crops == [] && |g.obstacles| == 2;
    assert g.player.x == 433.0 && g.player.y == 460.0;
    var noRandom := (i: nat) => 0.0;
    ghost var k := g.Update(60.0, noRandom);
    assert g.state == GameOver && g.timeLeft == 0.0 && g.score == 0;
  }

  /** "p" in the menu pauses; Start then sets PLAYING without a reset, so no scarecrows are placed. */
  method PauseFromMenuScenario()
  {
    var g := new Game(WIDTH, HEIGHT);
    g.input.KeyDown("p");
    assert g.state == Paused && "p" in g.input.keys;
    g.Start();
    assert g.state == Playing && g.obstacles == [];
    g.input.KeyUp("p");
    assert g.input.keys == {};
  }

  /** After `reset` a frame changes nothing: there is no automatic start. */
  method ResetThenFrameScenario()
  {
    var g := new Game(WIDTH, HEIGHT);
    g.Reset();
    var noRandom := (i: nat) => 0.0;
    ghost var k := g.Update(0.0, noRandom);
    assert g.state == Menu && g.score == 0 && g.timeLeft == GAME_LEN;
  }
}
