/**
 * BaseOption (ProfitCalculator/main/ui/BaseOption.cs): the clickable
 * component every option of the calculator's menus is built on: its bounds,
 * whether it was clicked, and the left-click dispatch the options share.
 */
module BaseOption {
  import Numeric
  import Xna

  class BaseOption {
    var Bounds: Xna.Rectangle
    var Clicked: bool

    /** The bounds are exactly (x, y, w, h); nothing is clicked yet. */
    constructor (x: int, y: int, w: int, h: int)
      ensures Bounds == Xna.Rectangle(x, y, w, h) && !Clicked
    {
      Bounds := Xna.Rectangle(x, y, w, h);
      Clicked := false;
    }

    /** The Position getter: the bounds' corner as a vector. */
    function Position(): (p: Xna.Vector2)
      reads this
      ensures p.x == p.x.Floor as real && p.y == p.y.Floor as real
      ensures Numeric.Truncate(p.x) == Bounds.x && Numeric.Truncate(p.y) == Bounds.y
    {
      Xna.Vector2(Bounds.x as real, Bounds.y as real)
    }

    /**
     * The Position setter: the corner takes the truncated coordinates and the
     * size is kept, so a position with whole coordinates reads back unchanged.
     */
    method SetPosition(p: Xna.Vector2)
      modifies this
      ensures Bounds == old(Bounds).(x := Numeric.Truncate(p.x), y := Numeric.Truncate(p.y))
      ensures Bounds.width == old(Bounds.width) && Bounds.height == old(Bounds.height)
      ensures Clicked == old(Clicked)
      ensures Position() == p <==> p.x == p.x.Floor as real && p.y == p.y.Floor as real
    {
      Numeric.TruncateWhole(p.x);
      Numeric.TruncateWhole(p.y);
      Bounds := Bounds.(x := Numeric.Truncate(p.x), y := Numeric.Truncate(p.y));
    }

    /** ClickableComponent.containsPoint: the point is in the bounds. */
    predicate ContainsPoint(x: int, y: int): (r: bool)
      reads this
      ensures r ==> Bounds.width > 0 && Bounds.height > 0
      ensures x == Bounds.x + Bounds.width || y == Bounds.y + Bounds.height ==> !r
    {
      Xna.Contains(Bounds, x, y)
    }

    /** ExecuteClick: the option is marked clicked (the click sound is left out). */
    method ExecuteClick()
      modifies this
      ensures Clicked && Bounds == old(Bounds)
    {
      Clicked := true;
    }
  }
}
