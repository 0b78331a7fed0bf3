/** The player character (farmer-game/Farmer.js): keyboard direction, movement and clamping. */
module Player {
  import opened Obstacle

  predicate HoldsLeft(keys: set<string>) { "ArrowLeft" in keys || "a" in keys }
  predicate HoldsRight(keys: set<string>) { "ArrowRight" in keys || "d" in keys }
  predicate HoldsUp(keys: set<string>) { "ArrowUp" in keys || "w" in keys }
  predicate HoldsDown(keys: set<string>) { "ArrowDown" in keys || "s" in keys }

  /**
    * The direction along one axis when the key(s) for the negative and for the
    * positive direction are or are not held: opposing keys cancel.
    */
  function AxisDir(negative: bool, positive: bool): (d: int)
    ensures -1 <= d <= 1
    ensures d == -1 <==> negative && !positive
    ensures d == 1 <==> positive && !negative
  {
    (if positive then 1 else 0) - (if negative then 1 else 0)
  }

  /** One coordinate after a move of `d * speed * dt`, kept within `[0, limit]`. */
  function Moved(p: real, d: int, speed: real, dt: real, limit: real): (r: real)
    ensures limit >= 0.0 ==> 0.0 <= r <= limit
    ensures d == 0 && 0.0 <= p <= limit ==> r == p
  {
    Clamp(p + d as real * speed * dt, 0.0, limit)
  }

  class Farmer {
    var x: real
    var y: real
    const width: real
    const height: real
    const speed: real
    const color: string
    /** Direction of travel; undefined in the source until the first `handleInput`, 0 here. */
    var dx: int
    var dy: int

    function Box(): Rect
      reads this
    {
      Rect(x, y, width, height)
    }

    constructor (x0: real, y0: real)
      ensures x == x0 && y == y0
      ensures width == 34.0 && height == 40.0 && speed == 160.0
      ensures color == "#3b6ba5"
      ensures dx == 0 && dy == 0
    {
      x, y := x0, y0;
      width, height := 34.0, 40.0;
      speed := 160.0;
      color := "#3b6ba5";
      dx, dy := 0, 0;
    }

    /** Sets the direction from the held keys: arrows or WASD, opposing keys cancel. */
    method HandleInput(keys: set<string>)
      modifies this`dx, this`dy
      ensures dx == AxisDir(HoldsLeft(keys), HoldsRight(keys))
      ensures dy == AxisDir(HoldsUp(keys), HoldsDown(keys))
    {
      dx := 0;
      dy := 0;
      if "ArrowLeft" in keys || "a" in keys { dx := dx - 1; }
      if "ArrowRight" in keys || "d" in keys { dx := dx + 1; }
      if "ArrowUp" in keys || "w" in keys { dy := dy - 1; }
      if "ArrowDown" in keys || "s" in keys { dy := dy + 1; }
    }

    /** Moves by direction * speed * dt and clamps the sprite inside a field of the given size. */
    method Update(dt: real, fieldWidth: real, fieldHeight: real)
      modifies this`x, this`y
      ensures x == Moved(old(x), dx, speed, dt, fieldWidth - width)
      ensures y == Moved(old(y), dy, speed, dt, fieldHeight - height)
      ensures fieldWidth >= width ==> 0.0 <= x <= fieldWidth - width
      ensures fieldHeight >= height ==> 0.0 <= y <= fieldHeight - height
    {
      x := x + dx as real * speed * dt;
      y := y + dy as real * speed * dt;
      x := Max(0.0, Min(fieldWidth - width, x));
      y := Max(0.0, Min(fieldHeight - height, y));
    }

    /** Teleports the farmer; direction, size and speed stay as they were. */
    method SetPos(nx: real, ny: real)
      modifies this`x, this`y
      ensures x == nx && y == ny
      ensures dx == old(dx) && dy == old(dy)
    {
      x := nx;
      y := ny;
    }
  }

  /**
    * In terms of the keys: each component is -1, 0 or 1; it is -1 exactly when only
    * left (up) is held, 1 exactly when only right (down) is held, and opposing keys cancel.
    */
  lemma DirectionFromKeys(keys: set<string>)
    ensures AxisDir(HoldsLeft(keys), HoldsRight(keys)) in {-1, 0, 1}
    ensures AxisDir(HoldsUp(keys), HoldsDown(keys)) in {-1, 0, 1}
    ensures AxisDir(HoldsLeft(keys), HoldsRight(keys)) == -1
            <==> ("ArrowLeft" in keys || "a" in keys) && !("ArrowRight" in keys || "d" in keys)
    ensures AxisDir(HoldsUp(keys), HoldsDown(keys)) == -1
            <==> ("ArrowUp" in keys || "w" in keys) && !("ArrowDown" in keys || "s" in keys)
    ensures AxisDir(HoldsLeft(keys), HoldsRight(keys)) == 1
            <==> ("ArrowRight" in keys || "d" in keys) && !("ArrowLeft" in keys || "a" in keys)
    ensures AxisDir(HoldsUp(keys), HoldsDown(keys)) == 1
            <==> ("ArrowDown" in keys || "s" in keys) && !("ArrowUp" in keys || "w" in keys)
    ensures HoldsLeft(keys) && HoldsRight(keys) ==> AxisDir(HoldsLeft(keys), HoldsRight(keys)) == 0
    ensures HoldsUp(keys) && HoldsDown(keys) ==> AxisDir(HoldsUp(keys), HoldsDown(keys)) == 0
  {
  }
}
