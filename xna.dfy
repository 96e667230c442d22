/** The XNA framework values the menus work with: rectangles, vectors and keys. */
module Xna {

  /** Microsoft.Xna.Framework.Rectangle. */
  datatype Rectangle = Rectangle(x: int, y: int, width: int, height: int)

  /** Rectangle.Contains: the left and top edges are inside, the right and bottom edges are not. */
  predicate Contains(r: Rectangle, px: int, py: int)
  {
    r.x <= px < r.x + r.width && r.y <= py < r.y + r.height
  }

  /** Vector2, with its float coordinates as reals. */
  datatype Vector2 = Vector2(x: real, y: real)

  /** The keys the menus tell apart; every other key is OtherKey. */
  datatype Key = Up | Down | Escape | OtherKey
}
