/** Collectable crops and their types (farmer-game/Crop.js). */
module Crops {
  import opened Obstacle

  datatype CropType = CropType(name: string, points: int, color: string)

  /** The three kinds of crop a spawn chooses from. */
  const CROP_TYPES: seq<CropType> := [
    CropType("wheat", 1, "#c2a679"),
    CropType("pumpkin", 3, "#ff5722"),
    CropType("golden_apple", 5, "#ffd700")
  ]

  /** The type a crop gets when none is passed to its constructor. */
  const DEFAULT_TYPE: CropType := CropType("default", 1, "#4caf50")

  const CROP_SIZE: real := 24.0

  /** A crop on the field; `kind` is the source's `type` field (the type's name). */
  datatype Crop = Crop(x: real, y: real, width: real, height: real,
                       kind: string, points: int, color: string, dead: bool)
  {
    function Box(): Rect { Rect(x, y, width, height) }

    /** The per-frame hook: crops do not move or change. */
    function Update(dt: real): (c: Crop)
      ensures c == this
    {
      this
    }
  }

  /** A fresh live crop of the given type at the given position; the default type when none is given. */
  function NewCrop(x: real, y: real, t: CropType := DEFAULT_TYPE): (c: Crop)
    ensures c.x == x && c.y == y && c.width == 24.0 && c.height == 24.0
    ensures c.kind == t.name && c.points == t.points && c.color == t.color
    ensures !c.dead
  {
    Crop(x, y, CROP_SIZE, CROP_SIZE, t.name, t.points, t.color, false)
  }

  /** Every crop type, and the default, is worth a positive number of points. */
  lemma CropTypesTable()
    ensures |CROP_TYPES| == 3
    ensures CROP_TYPES[0].points == 1 && CROP_TYPES[1].points == 3 && CROP_TYPES[2].points == 5
    ensures forall t :: t in CROP_TYPES ==> t.points > 0
    ensures DEFAULT_TYPE.name == "default" && DEFAULT_TYPE.points == 1
  {
  }

  /** A crop built without a type is the one-point "default" crop. */
  lemma DefaultCrop(x: real, y: real)
    ensures NewCrop(x, y).kind == "default" && NewCrop(x, y).points == 1
    ensures NewCrop(x, y) == NewCrop(x, y, DEFAULT_TYPE)
  {
  }
}
