/**
 * CritterCageAnimationTile: animates registered tiles the way critter cages
 * are animated. Each tile type maps to a framing array; every tile of one
 * cage computes the same frame number from its tile coordinates and its
 * frame offsets, and the frame's entry picks the vertical sprite offset.
 */
module CritterCages {
  import opened Wrappers
  import opened Geometry

  /** The pixel size of one tile frame. */
  const FrameSize := 18

  /** GetCageFrame's coordinates of a cage's top-left tile, recovered from any of its tiles. */
  function CageOrigin(x: int, y: int, tileFrameX: int, tileFrameY: int): (origin: Point)
    ensures 0 <= tileFrameX ==> FrameSize * (x - origin.x) <= tileFrameX < FrameSize * (x - origin.x + 1)
    ensures 0 <= tileFrameY ==> FrameSize * (y - origin.y) <= tileFrameY < FrameSize * (y - origin.y + 1)
  {
    Point(x - TDiv(tileFrameX, FrameSize), y - TDiv(tileFrameY, FrameSize))
  }

  /**
   * GetCageFrame: `left / width * (top / (height + 1)) % cageFrames` with
   * C#'s truncating `/` and `%`, evaluated left to right.
   */
  function GetCageFrame(x: int, y: int, tileFrameX: int, tileFrameY: int, width: int, height: int, cageFrames: int): (frame: int)
    requires width > 0 && height > 0 && cageFrames > 0
    ensures Abs(frame) < cageFrames
  {
    var origin := CageOrigin(x, y, tileFrameX, tileFrameY);
    TMod(TDiv(origin.x, width) * TDiv(origin.y, height + 1), cageFrames)
  }

  /** For a cage at nonnegative coordinates the frame is a valid index below `cageFrames`. */
  lemma FrameInRange(x: int, y: int, tileFrameX: int, tileFrameY: int, width: int, height: int, cageFrames: int)
    requires width > 0 && height > 0 && cageFrames > 0
    requires CageOrigin(x, y, tileFrameX, tileFrameY).x >= 0 && CageOrigin(x, y, tileFrameX, tileFrameY).y >= 0
    ensures 0 <= GetCageFrame(x, y, tileFrameX, tileFrameY, width, height, cageFrames) < cageFrames
  {
    var origin := CageOrigin(x, y, tileFrameX, tileFrameY);
    var a, b := TDiv(origin.x, width), TDiv(origin.y, height + 1);
    assert 0 <= a * b by {
      assert 0 <= a && 0 <= b;
    }
  }

  /** Moving right by whole tiles: the frame offset grows by 18 per tile, so the division absorbs the step. */
  lemma {:induction false} FrameOffsetStep(tileFrame: int, d: int)
    requires 0 <= tileFrame && 0 <= tileFrame + FrameSize * d
    ensures TDiv(tileFrame + FrameSize * d, FrameSize) == TDiv(tileFrame, FrameSize) + d
  {
    TruncatingAgreesOnNaturals(tileFrame, FrameSize);
    TruncatingAgreesOnNaturals(tileFrame + FrameSize * d, FrameSize);
    var q, r := tileFrame / FrameSize, tileFrame % FrameSize;
    assert tileFrame + FrameSize * d == FrameSize * (q + d) + r;
    assert (tileFrame + FrameSize * d) / FrameSize == q + d;
  }

  /**
   * Any point on the cage works: a tile `(dx, dy)` tiles away from another
   * tile of the same cage, whose frame offsets are larger by `18 * dx` and
   * `18 * dy`, gets the same frame.
   */
  lemma SameFrameAcrossCage(x: int, y: int, tileFrameX: int, tileFrameY: int, dx: int, dy: int,
                            width: int, height: int, cageFrames: int)
    requires width > 0 && height > 0 && cageFrames > 0
    requires 0 <= tileFrameX && 0 <= tileFrameX + FrameSize * dx
    requires 0 <= tileFrameY && 0 <= tileFrameY + FrameSize * dy
    ensures CageOrigin(x + dx, y + dy, tileFrameX + FrameSize * dx, tileFrameY + FrameSize * dy)
            == CageOrigin(x, y, tileFrameX, tileFrameY)
    ensures GetCageFrame(x + dx, y + dy, tileFrameX + FrameSize * dx, tileFrameY + FrameSize * dy, width, height, cageFrames)
            == GetCageFrame(x, y, tileFrameX, tileFrameY, width, height, cageFrames)
  {
    FrameOffsetStep(tileFrameX, dx);
    FrameOffsetStep(tileFrameY, dy);
  }

  /** The `ref` outputs of TileDrawing.GetTileDrawData that the hook may rewrite. */
  datatype TileDrawData = TileDrawData(
    tileFrameX: int,
    tileFrameY: int,
    tileWidth: int,
    tileHeight: int,
    tileTop: int,
    halfBrickHeight: int,
    addFrX: int,
    addFrY: int)

  /** The global tile hook and its `_framingArrayByTileType` dictionary. */
  class CritterCageAnimationTile {
    var framingArrayByTileType: map<int, array<int>>

    constructor ()
      ensures framingArrayByTileType == map[]
    {
      framingArrayByTileType := map[];
    }

    /**
     * RegisterTile: a null array throws before anything else; a type that
     * is already registered makes Dictionary.Add throw and keeps the first
     * registration; otherwise the pair is added.
     */
    method RegisterTile(tileType: int, framingArray: array?<int>) returns (r: Outcome)
      modifies this
      ensures framingArray == null ==> r == Threw(ArgumentNull) && framingArrayByTileType == old(framingArrayByTileType)
      ensures framingArray != null && tileType in old(framingArrayByTileType) ==>
                r == Threw(DuplicateKey) && framingArrayByTileType == old(framingArrayByTileType)
      ensures framingArray != null && tileType !in old(framingArrayByTileType) ==>
                r == Completed && framingArrayByTileType == old(framingArrayByTileType)[tileType := framingArray]
    {
      if framingArray == null {
        return Threw(ArgumentNull);
      }
      if tileType in framingArrayByTileType {
        return Threw(DuplicateKey);
      }
      framingArrayByTileType := framingArrayByTileType[tileType := framingArray];
      r := Completed;
    }

    /**
     * ModifyTileDrawData for the tile at (x, y) of type `typeCache`, whose
     * TileObjectData is `width` by `height` tiles. An unregistered type
     * returns at once. A registered one sets `tileTop` to 2 and
     * `Main.critterCage`, then reads the framing array at the cage's frame
     * (throwing when the frame lies outside the array) and scales the entry
     * into `addFrY`. Returns the new outputs and the new `Main.critterCage`.
     */
    method ModifyTileDrawData(x: int, y: int, typeCache: int, width: int, height: int, cageFrames: int,
                              data: TileDrawData, critterCage: bool)
      returns (result: TileDrawData, critterCageAfter: bool, outcome: Outcome)
      requires width > 0 && height > 0 && cageFrames > 0
      ensures typeCache !in framingArrayByTileType ==>
                result == data && critterCageAfter == critterCage && outcome == Completed
      ensures typeCache in framingArrayByTileType ==> critterCageAfter
      ensures typeCache in framingArrayByTileType ==>
                var framingArray := framingArrayByTileType[typeCache];
                var frame := GetCageFrame(x, y, data.tileFrameX, data.tileFrameY, width, height, cageFrames);
                if 0 <= frame < framingArray.Length then
                  outcome == Completed && result == data.(tileTop := 2, addFrY := framingArray[frame] * height * FrameSize)
                else
                  outcome == Threw(IndexOutOfRange) && result == data.(tileTop := 2)
      ensures typeCache in framingArrayByTileType && framingArrayByTileType[typeCache].Length >= cageFrames
              && CageOrigin(x, y, data.tileFrameX, data.tileFrameY).x >= 0
              && CageOrigin(x, y, data.tileFrameX, data.tileFrameY).y >= 0
              ==> outcome == Completed
    {
      if typeCache !in framingArrayByTileType {
        return data, critterCage, Completed;
      }
      var framingArray := framingArrayByTileType[typeCache];
      var frame := GetCageFrame(x, y, data.tileFrameX, data.tileFrameY, width, height, cageFrames);
      result := data.(tileTop := 2);
      critterCageAfter := true;
      if !(0 <= frame < framingArray.Length) {
        if CageOrigin(x, y, data.tileFrameX, data.tileFrameY).x >= 0 && CageOrigin(x, y, data.tileFrameX, data.tileFrameY).y >= 0 {
          FrameInRange(x, y, data.tileFrameX, data.tileFrameY, width, height, cageFrames);
        }
        return result, critterCageAfter, Threw(IndexOutOfRange);
      }
      result := result.(addFrY := framingArray[frame] * height * FrameSize);
      outcome := Completed;
    }
  }
}
