/**
 * The UI framework's menus (UIFramework/Menus/BaseMenu.cs and SubMenu.cs):
 * a menu keeps its components and submenus in lists whose ids are unique,
 * shows and hides itself, routes clicks to the first submenu or clickable
 * component under the mouse, and a submenu places itself next to an anchor
 * component and keeps inside the game's viewport. Game1's active menu and
 * viewport size are the fields of one shared Game1 object. SubMenu's
 * overrides are chosen by the menu's IsSubMenu flag.
 */
module UiMenus {
  import opened Wrappers
  import Numeric
  import Seqs
  import Xna
  import UC = UiComponents

  /** The parts of Game1 the menus read and write. */
  class Game1 {
    var ActiveMenu: object?
    var ViewportWidth: int
    var ViewportHeight: int

    constructor (viewportWidth: int, viewportHeight: int)
      ensures ActiveMenu == null && ViewportWidth == viewportWidth && ViewportHeight == viewportHeight
    {
      ActiveMenu := null;
      ViewportWidth := viewportWidth;
      ViewportHeight := viewportHeight;
    }
  }

  /** SButton, with SButton.None as NoButton. */
  datatype SButton = NoButton | Key(code: int)

  /** MenuConfig (UIFramework/Config/MenuConfig.cs), the fields the menus use. */
  datatype MenuConfig = MenuConfig(
    Title: string,
    Position: Xna.Vector2,
    Width: int,
    Height: int,
    Draggable: bool,
    Resizable: bool,
    Modal: bool,
    ShowCloseButton: bool,
    ToggleKey: SButton)

  /** new MenuConfig(): no title, at (0, 0), 800 by 600, with a close button and no toggle key. */
  const DefaultConfig: MenuConfig := MenuConfig("", Xna.Vector2(0.0, 0.0), 800, 600, false, false, true, true, NoButton)

  /** SubMenu.MenuPosition. */
  datatype MenuPosition = Above | Below | Left | Right

  /** A corner on screen. */
  datatype Point = Point(x: int, y: int)

  /** The ids of a list of components, in order. */
  function ComponentIds(cs: seq<UC.Component>): (ids: seq<string>)
    ensures |ids| == |cs| && forall i :: 0 <= i < |cs| ==> ids[i] == cs[i].Id
  {
    seq(|cs|, i requires 0 <= i < |cs| => cs[i].Id)
  }

  /** The ids of a list of menus, in order. */
  function MenuIds(ms: seq<Menu>): (ids: seq<string>)
    ensures |ids| == |ms| && forall i :: 0 <= i < |ms| ==> ids[i] == ms[i].Id
  {
    seq(|ms|, i requires 0 <= i < |ms| => ms[i].Id)
  }

  lemma ComponentIdsRemoveAt(cs: seq<UC.Component>, i: nat)
    requires i < |cs|
    ensures ComponentIds(Seqs.RemoveAt(cs, i)) == Seqs.RemoveAt(ComponentIds(cs), i)
  {
    var l, r := ComponentIds(Seqs.RemoveAt(cs, i)), Seqs.RemoveAt(ComponentIds(cs), i);
    assert |l| == |r|;
    assert forall k :: 0 <= k < |l| ==> l[k] == r[k];
  }

  lemma MenuIdsRemoveAt(ms: seq<Menu>, i: nat)
    requires i < |ms|
    ensures MenuIds(Seqs.RemoveAt(ms, i)) == Seqs.RemoveAt(MenuIds(ms), i)
    ensures Seqs.Distinct(MenuIds(ms)) ==>
      Seqs.Distinct(MenuIds(Seqs.RemoveAt(ms, i))) && ms[i].Id !in MenuIds(Seqs.RemoveAt(ms, i))
  {
    var l, r := MenuIds(Seqs.RemoveAt(ms, i)), Seqs.RemoveAt(MenuIds(ms), i);
    assert |l| == |r|;
    assert forall k :: 0 <= k < |l| ==> l[k] == r[k];
    if Seqs.Distinct(MenuIds(ms)) {
      Seqs.RemoveAtDistinct(MenuIds(ms), i);
    }
  }

  /**
   * The list left by removing the first component with the given id, if
   * there is one; without repeated ids before, the id is gone and the ids
   * stay without repeats.
   */
  function RemoveComponentById(cs: seq<UC.Component>, id: string): (r: seq<UC.Component>)
    ensures id !in ComponentIds(cs) ==> r == cs
    ensures id in ComponentIds(cs) ==> r == Seqs.RemoveAt(cs, Seqs.IndexOf(ComponentIds(cs), id))
    ensures Seqs.Distinct(ComponentIds(cs)) ==> Seqs.Distinct(ComponentIds(r)) && id !in ComponentIds(r)
  {
    var i := Seqs.IndexOf(ComponentIds(cs), id);
    if i < 0 then cs
    else
      ComponentIdsRemoveAt(cs, i);
      if Seqs.Distinct(ComponentIds(cs)) then
        Seqs.RemoveAtDistinct(ComponentIds(cs), i);
        Seqs.RemoveAt(cs, i)
      else
        Seqs.RemoveAt(cs, i)
  }

  /**
   * The list left by removing the first menu with the given id, if there is
   * one; without repeated ids before, the id is gone and the ids stay
   * without repeats.
   */
  function RemoveMenuById(ms: seq<Menu>, id: string): (r: seq<Menu>)
    ensures id !in MenuIds(ms) ==> r == ms
    ensures id in MenuIds(ms) ==> r == Seqs.RemoveAt(ms, Seqs.IndexOf(MenuIds(ms), id))
    ensures Seqs.Distinct(MenuIds(ms)) ==> Seqs.Distinct(MenuIds(r)) && id !in MenuIds(r)
  {
    var i := Seqs.IndexOf(MenuIds(ms), id);
    if i < 0 then ms
    else
      MenuIdsRemoveAt(ms, i);
      Seqs.RemoveAt(ms, i)
  }

  /** The title offset: 50 pixels below a non-empty title. */
  function TitleOffset(config: MenuConfig): int
  {
    if config.Title != "" then 50 else 0
  }

  /**
   * Where a menu of the given size goes next to an anchor, before it is kept
   * inside the viewport: above or to the left with a 4-pixel gap before the
   * anchor, below or to the right with a 4-pixel gap after it, aligned with
   * the anchor's other edge. The (int) casts truncate.
   */
  function Place(position: MenuPosition, anchorPosition: Xna.Vector2, anchorSize: Xna.Vector2, width: int, height: int): (p: Point)
    ensures position == Above ==> p == Point(Numeric.Truncate(anchorPosition.x), Numeric.Truncate(anchorPosition.y) - height - 4)
    ensures position == Below ==> p == Point(Numeric.Truncate(anchorPosition.x), Numeric.Truncate(anchorPosition.y + anchorSize.y + 4.0))
    ensures position == Left ==> p == Point(Numeric.Truncate(anchorPosition.x) - width - 4, Numeric.Truncate(anchorPosition.y))
    ensures position == Right ==> p == Point(Numeric.Truncate(anchorPosition.x + anchorSize.x + 4.0), Numeric.Truncate(anchorPosition.y))
  {
    match position
    case Above => Point(Numeric.Truncate(anchorPosition.x), Numeric.Truncate(anchorPosition.y) - height - 4)
    case Below => Point(Numeric.Truncate(anchorPosition.x), Numeric.Truncate(anchorPosition.y + anchorSize.y + 4.0))
    case Left => Point(Numeric.Truncate(anchorPosition.x) - width - 4, Numeric.Truncate(anchorPosition.y))
    case Right => Point(Numeric.Truncate(anchorPosition.x + anchorSize.x + 4.0), Numeric.Truncate(anchorPosition.y))
  }

  /**
   * For an anchor at whole, non-negative pixels, the placed menu and the
   * anchor are 4 pixels apart on the chosen side and share the other edge.
   */
  lemma PlaceLeavesGap(position: MenuPosition, ax: nat, ay: nat, aw: nat, ah: nat, width: int, height: int)
    ensures var p := Place(position, Xna.Vector2(ax as real, ay as real), Xna.Vector2(aw as real, ah as real), width, height);
      && (position == Above ==> p.x == ax && p.y + height + 4 == ay)
      && (position == Below ==> p.x == ax && p.y == ay + ah + 4)
      && (position == Left ==> p.x + width + 4 == ax && p.y == ay)
      && (position == Right ==> p.x == ax + aw + 4 && p.y == ay)
  {
  }

  /**
   * ConstrainToViewport on one axis: a negative coordinate becomes 0, and
   * one that would overflow the viewport moves back to viewport - size.
   */
  function Constrain(p: int, size: int, viewport: int): (r: int)
    ensures p < 0 ==> r == 0
    ensures 0 <= p && p + size <= viewport ==> r == p
    ensures 0 <= p && p + size > viewport ==> r == viewport - size
    ensures size <= viewport ==> 0 <= r && r + size <= viewport
  {
    if p < 0 then 0 else if p + size > viewport then viewport - size else p
  }

  /** A menu that fits the viewport stays put when constrained again. */
  lemma ConstrainSettles(p: int, size: int, viewport: int)
    requires size <= viewport
    ensures Constrain(Constrain(p, size, viewport), size, viewport) == Constrain(p, size, viewport)
  {
  }

  /** A menu wider than the viewport is pushed past the left edge, and constraining it again moves it to 0. */
  lemma OversizedMenuMoves()
    ensures Constrain(3, 10, 5) == -5
    ensures Constrain(Constrain(3, 10, 5), 10, 5) == 0
  {
  }

  /** The submenu's close button: 16 by 16, 24 pixels in from the right edge and 8 down. */
  function SubMenuCloseButton(x: int, y: int, width: int): Xna.Rectangle
  {
    Xna.Rectangle(x + width - 24, y + 8, 16, 16)
  }

  /** The menu's close button: 32 by 32, 32 pixels in from the right edge and 16 down. */
  function MenuCloseButton(x: int, y: int, width: int): Xna.Rectangle
  {
    Xna.Rectangle(x + width - 32, y + 16, 32, 32)
  }

  /** Where a click or key goes: nowhere, a submenu, a component, or the menu closes or hides. */
  datatype Route = Ignored | HiddenOutside | Exited | ToSubMenu(menu: Menu) | ToComponent(component: UC.Component) | PassedOn

  class Menu {
    const Id: string
    const Config: MenuConfig
    const Game: Game1
    const IsSubMenu: bool
    var X: int
    var Y: int
    var Width: int
    var Height: int
    var Components: seq<UC.Component>
    var SubMenus: seq<Menu>
    var ParentMenu: Menu?
    var Visible: bool
    /** upperRightCloseButton's bounds, None when there is no close button. */
    var CloseButton: Option<Xna.Rectangle>
    /** The sounds played so far, in order. */
    var Sounds: seq<string>
    /** SubMenu's own state. */
    var AutoClose: bool
    var CloseOnOutsideClick: bool
    var Anchor: UC.Component?
    var Placement: MenuPosition

    /** No two components, and no two submenus, share an id. */
    ghost predicate UniqueIds()
      reads this
    {
      Seqs.Distinct(ComponentIds(Components)) && Seqs.Distinct(MenuIds(SubMenus))
    }

    /**
     * The constructor with InitializeMenu: a missing config is the default
     * one; the menu takes the config's position (truncated) and size, and a
     * config at (0, 0) centres it in the viewport; the close button is
     * 32 by 32 at the top right when the config shows one.
     */
    constructor (id: string, config: Option<MenuConfig>, game: Game1)
      ensures Id == id && Game == game && !IsSubMenu
      ensures Config == (if config.Some? then config.value else DefaultConfig)
      ensures Width == Config.Width && Height == Config.Height
      ensures Config.Position != Xna.Vector2(0.0, 0.0) ==>
        X == Numeric.Truncate(Config.Position.x) && Y == Numeric.Truncate(Config.Position.y)
      ensures Config.Position == Xna.Vector2(0.0, 0.0) ==>
        X == Numeric.CDiv(game.ViewportWidth, 2) - Numeric.CDiv(Config.Width, 2)
        && Y == Numeric.CDiv(game.ViewportHeight, 2) - Numeric.CDiv(Config.Height, 2)
      ensures CloseButton == (if Config.ShowCloseButton then Some(MenuCloseButton(X, Y, Width)) else None)
      ensures Components == [] && SubMenus == [] && ParentMenu == null && !Visible && Sounds == []
      ensures UniqueIds()
    {
      Id := id;
      Game := game;
      IsSubMenu := false;
      var c := if config.Some? then config.value else DefaultConfig;
      Config := c;
      Width := c.Width;
      Height := c.Height;
      if c.Position == Xna.Vector2(0.0, 0.0) {
        X := Numeric.CDiv(game.ViewportWidth, 2) - Numeric.CDiv(c.Width, 2);
        Y := Numeric.CDiv(game.ViewportHeight, 2) - Numeric.CDiv(c.Height, 2);
      } else {
        X := Numeric.Truncate(c.Position.x);
        Y := Numeric.Truncate(c.Position.y);
      }
      Components := [];
      SubMenus := [];
      ParentMenu := null;
      Visible := false;
      Sounds := [];
      AutoClose := true;
      CloseOnOutsideClick := true;
      Anchor := null;
      Placement := Below;
      new;
      CloseButton := if c.ShowCloseButton then Some(MenuCloseButton(X, Y, Width)) else None;
    }

    /**
     * The SubMenu constructor: a menu as above, placed Below by default,
     * closing on outside clicks, whose close button is the smaller 16 by 16
     * one when the config shows one.
     */
    constructor SubMenu(id: string, config: MenuConfig, game: Game1)
      ensures Id == id && Game == game && IsSubMenu && Config == config
      ensures Width == config.Width && Height == config.Height
      ensures config.Position != Xna.Vector2(0.0, 0.0) ==>
        X == Numeric.Truncate(config.Position.x) && Y == Numeric.Truncate(config.Position.y)
      ensures config.Position == Xna.Vector2(0.0, 0.0) ==>
        X == Numeric.CDiv(game.ViewportWidth, 2) - Numeric.CDiv(config.Width, 2)
        && Y == Numeric.CDiv(game.ViewportHeight, 2) - Numeric.CDiv(config.Height, 2)
      ensures CloseButton == (if config.ShowCloseButton then Some(SubMenuCloseButton(X, Y, Width)) else None)
      ensures Placement == Below && AutoClose && CloseOnOutsideClick && Anchor == null
      ensures Components == [] && SubMenus == [] && ParentMenu == null && !Visible && Sounds == []
      ensures UniqueIds()
    {
      Id := id;
      Game := game;
      IsSubMenu := true;
      Config := config;
      Width := config.Width;
      Height := config.Height;
      if config.Position == Xna.Vector2(0.0, 0.0) {
        X := Numeric.CDiv(game.ViewportWidth, 2) - Numeric.CDiv(config.Width, 2);
        Y := Numeric.CDiv(game.ViewportHeight, 2) - Numeric.CDiv(config.Height, 2);
      } else {
        X := Numeric.Truncate(config.Position.x);
        Y := Numeric.Truncate(config.Position.y);
      }
      Components := [];
      SubMenus := [];
      ParentMenu := null;
      Visible := false;
      Sounds := [];
      AutoClose := true;
      CloseOnOutsideClick := true;
      Anchor := null;
      Placement := Below;
      new;
      CloseButton := if config.ShowCloseButton then Some(SubMenuCloseButton(X, Y, Width)) else None;
    }

    /** IsWithinBounds (and IClickableMenu.isWithinBounds): the left and top edges are inside, the right and bottom edges are not. */
    predicate IsWithinBounds(x: int, y: int): (r: bool)
      reads this
      ensures r ==> Width > 0 && Height > 0
      ensures x == X + Width || y == Y + Height || x == X - 1 || y == Y - 1 ==> !r
    {
      X <= x < X + Width && Y <= y < Y + Height
    }

    /**
     * AddComponent: a null component throws ArgumentNullException and one
     * whose id is taken throws ArgumentException, changing nothing. Otherwise
     * it goes at the end of the list; a component left of or above the
     * menu's corner is taken as relative to it and moved by the corner, plus
     * the title's 50 pixels down when the menu has a title.
     */
    method AddComponent(component: UC.Component?) returns (r: Result<()>)
      modifies this, component
      ensures component == null ==> r == Throws(ArgumentNull) && Components == old(Components)
      ensures component != null && component.Id in old(ComponentIds(Components)) ==>
        r == Throws(Argument) && Components == old(Components) && component.Position == old(component.Position)
      ensures component != null && component.Id !in old(ComponentIds(Components)) ==>
        && r == Ok(())
        && Components == old(Components) + [component]
        && (old(component.Position.x < X as real || component.Position.y < Y as real) ==>
              component.Position == Xna.Vector2(X as real + old(component.Position.x), Y as real + old(component.Position.y) + TitleOffset(Config) as real))
        && (!old(component.Position.x < X as real || component.Position.y < Y as real) ==> component.Position == old(component.Position))
      ensures old(UniqueIds()) ==> UniqueIds()
      ensures component != null ==>
        component.Size == old(component.Size) && component.Text == old(component.Text)
        && component.Visible == old(component.Visible) && component.Enabled == old(component.Enabled)
      ensures X == old(X) && Y == old(Y) && Width == old(Width) && Height == old(Height) && SubMenus == old(SubMenus)
      ensures Visible == old(Visible) && ParentMenu == old(ParentMenu) && CloseButton == old(CloseButton)
    {
      if component == null {
        return Throws(ArgumentNull);
      }
      if component.Id in ComponentIds(Components) {
        return Throws(Argument);
      }
      Components := Components + [component];
      // The source's second test, "not already inside the menu", always
      // holds once the corner test has passed, so it is not repeated.
      if component.Position.x < X as real || component.Position.y < Y as real {
        component.Position := Xna.Vector2(X as real + component.Position.x, Y as real + component.Position.y + TitleOffset(Config) as real);
      }
      return Ok(());
    }

    /** GetComponent: none for an empty id, else the first component with that id. */
    function GetComponent(componentId: string): (r: Option<UC.Component>)
      reads this
      ensures componentId == "" ==> r.None?
      ensures componentId != "" ==> (r.Some? <==> componentId in ComponentIds(Components))
      ensures r.Some? ==> r.value.Id == componentId && r.value in Components
      ensures r.Some? ==> r.value == Components[Seqs.IndexOf(ComponentIds(Components), componentId)]
    {
      if componentId == "" then None
      else
        var i := Seqs.IndexOf(ComponentIds(Components), componentId);
        if i < 0 then None else Some(Components[i])
    }

    /**
     * RemoveComponent: an empty id throws ArgumentNullException; otherwise the
     * first component with that id is removed, and an absent id changes
     * nothing. With unique ids, the id is gone afterwards.
     */
    method RemoveComponent(componentId: string) returns (r: Result<()>)
      modifies this
      ensures componentId == "" ==> r == Throws(ArgumentNull) && Components == old(Components)
      ensures componentId != "" ==> r == Ok(())
      ensures componentId != "" && componentId !in old(ComponentIds(Components)) ==> Components == old(Components)
      ensures componentId != "" && componentId in old(ComponentIds(Components)) ==>
        Components == Seqs.RemoveAt(old(Components), Seqs.IndexOf(old(ComponentIds(Components)), componentId))
      ensures old(UniqueIds()) ==> UniqueIds() && GetComponent(componentId).None?
      ensures X == old(X) && Y == old(Y) && SubMenus == old(SubMenus) && Visible == old(Visible) && ParentMenu == old(ParentMenu)
    {
      if componentId == "" {
        return Throws(ArgumentNull);
      }
      Components := RemoveComponentById(Components, componentId);
      return Ok(());
    }

    /**
     * AddSubMenu: null throws ArgumentNullException and a taken id
     * ArgumentException; otherwise the submenu's parent becomes this menu
     * and it goes at the end of the list.
     */
    method AddSubMenu(menu: Menu?) returns (r: Result<()>)
      modifies this, menu
      ensures menu == null ==> r == Throws(ArgumentNull) && SubMenus == old(SubMenus)
      ensures menu != null && menu.Id in old(MenuIds(SubMenus)) ==>
        r == Throws(Argument) && SubMenus == old(SubMenus) && menu.ParentMenu == old(menu.ParentMenu)
      ensures menu != null && menu.Id !in old(MenuIds(SubMenus)) ==>
        r == Ok(()) && SubMenus == old(SubMenus) + [menu] && menu.ParentMenu == this
      ensures old(UniqueIds()) ==> UniqueIds()
      ensures Components == old(Components) && X == old(X) && Y == old(Y) && Visible == old(Visible)
    {
      if menu == null {
        return Throws(ArgumentNull);
      }
      if menu.Id in MenuIds(SubMenus) {
        return Throws(Argument);
      }
      menu.ParentMenu := this;
      SubMenus := SubMenus + [menu];
      return Ok(());
    }

    /** GetSubMenu: none for an empty id, else the first submenu with that id. */
    function GetSubMenu(menuId: string): (r: Option<Menu>)
      reads this
      ensures menuId == "" ==> r.None?
      ensures menuId != "" ==> (r.Some? <==> menuId in MenuIds(SubMenus))
      ensures r.Some? ==> r.value.Id == menuId && r.value in SubMenus
    {
      if menuId == "" then None
      else
        var i := Seqs.IndexOf(MenuIds(SubMenus), menuId);
        if i < 0 then None else Some(SubMenus[i])
    }

    /** RemoveSubMenu: an empty id throws ArgumentNullException; otherwise the first submenu with that id is removed, if any. */
    method RemoveSubMenu(menuId: string) returns (r: Result<()>)
      modifies this
      ensures menuId == "" ==> r == Throws(ArgumentNull) && SubMenus == old(SubMenus)
      ensures menuId != "" ==> r == Ok(())
      ensures menuId != "" && menuId !in old(MenuIds(SubMenus)) ==> SubMenus == old(SubMenus)
      ensures menuId != "" && menuId in old(MenuIds(SubMenus)) ==>
        SubMenus == Seqs.RemoveAt(old(SubMenus), Seqs.IndexOf(old(MenuIds(SubMenus)), menuId))
      ensures old(UniqueIds()) ==> UniqueIds() && GetSubMenu(menuId).None?
      ensures Components == old(Components) && X == old(X) && Y == old(Y) && Visible == old(Visible)
    {
      if menuId == "" {
        return Throws(ArgumentNull);
      }
      SubMenus := RemoveMenuById(SubMenus, menuId);
      return Ok(());
    }

    /**
     * ConstrainToViewport: each axis is kept inside the viewport; a menu no
     * larger than the viewport ends up wholly inside it.
     */
    method ConstrainToViewport()
      modifies this
      ensures X == Constrain(old(X), Width, Game.ViewportWidth) && Y == Constrain(old(Y), Height, Game.ViewportHeight)
      ensures Width == old(Width) && Height == old(Height) && Components == old(Components) && SubMenus == old(SubMenus)
      ensures Visible == old(Visible) && CloseButton == old(CloseButton) && Anchor == old(Anchor) && Placement == old(Placement)
      ensures ParentMenu == old(ParentMenu) && Sounds == old(Sounds) && CloseOnOutsideClick == old(CloseOnOutsideClick)
    {
      if X < 0 {
        X := 0;
      } else if X + Width > Game.ViewportWidth {
        X := Game.ViewportWidth - Width;
      }
      if Y < 0 {
        Y := 0;
      } else if Y + Height > Game.ViewportHeight {
        Y := Game.ViewportHeight - Height;
      }
    }

    /**
     * PositionRelativeTo: a null anchor throws ArgumentNullException.
     * Otherwise the submenu remembers the anchor and side, goes next to it
     * (Place), is kept inside the viewport, and its close button follows.
     */
    method PositionRelativeTo(component: UC.Component?, position: MenuPosition) returns (r: Result<()>)
      requires IsSubMenu
      modifies this
      ensures component == null ==> r == Throws(ArgumentNull) && X == old(X) && Y == old(Y) && Anchor == old(Anchor)
      ensures component != null ==> r == Ok(()) && Anchor == component && Placement == position
      ensures component != null ==>
        var p := Place(position, component.Position, component.Size, Width, Height);
        X == Constrain(p.x, Width, Game.ViewportWidth) && Y == Constrain(p.y, Height, Game.ViewportHeight)
      ensures component != null ==> CloseButton == (if old(CloseButton).Some? then Some(SubMenuCloseButton(X, Y, Width)) else None)
      ensures Width == old(Width) && Height == old(Height) && Components == old(Components) && SubMenus == old(SubMenus)
      ensures Visible == old(Visible) && ParentMenu == old(ParentMenu) && Sounds == old(Sounds) && CloseOnOutsideClick == old(CloseOnOutsideClick)
    {
      if component == null {
        return Throws(ArgumentNull);
      }
      Anchor := component;
      Placement := position;
      var p := Place(position, component.Position, component.Size, Width, Height);
      X, Y := p.x, p.y;
      ConstrainToViewport();
      if CloseButton.Some? {
        CloseButton := Some(SubMenuCloseButton(X, Y, Width));
      }
      return Ok(());
    }

    /** PositionAt: the submenu goes to the given corner (truncated), kept inside the viewport, and its close button follows. */
    method PositionAt(position: Xna.Vector2)
      requires IsSubMenu
      modifies this
      ensures X == Constrain(Numeric.Truncate(position.x), Width, Game.ViewportWidth)
      ensures Y == Constrain(Numeric.Truncate(position.y), Height, Game.ViewportHeight)
      ensures CloseButton == (if old(CloseButton).Some? then Some(SubMenuCloseButton(X, Y, Width)) else None)
      ensures Width == old(Width) && Height == old(Height) && Components == old(Components) && SubMenus == old(SubMenus)
      ensures Visible == old(Visible) && Anchor == old(Anchor) && Placement == old(Placement) && ParentMenu == old(ParentMenu)
    {
      X := Numeric.Truncate(position.x);
      Y := Numeric.Truncate(position.y);
      ConstrainToViewport();
      if CloseButton.Some? {
        CloseButton := Some(SubMenuCloseButton(X, Y, Width));
      }
    }

    /**
     * Show: plays "bigSelect" only when the menu was hidden, makes it visible
     * and the game's active menu; a submenu with an anchor then places itself
     * next to the anchor on its side.
     */
    method Show()
      modifies this, Game
      ensures Visible && Game.ActiveMenu == this
      ensures Sounds == old(Sounds) + (if old(Visible) then [] else ["bigSelect"])
      ensures IsSubMenu && old(Anchor) != null ==>
        var p := Place(old(Placement), old(Anchor.Position), old(Anchor.Size), Width, Height);
        X == Constrain(p.x, Width, old(Game.ViewportWidth)) && Y == Constrain(p.y, Height, old(Game.ViewportHeight))
      ensures !(IsSubMenu && old(Anchor) != null) ==> X == old(X) && Y == old(Y)
      ensures Width == old(Width) && Height == old(Height) && Components == old(Components) && SubMenus == old(SubMenus)
      ensures ParentMenu == old(ParentMenu) && Anchor == old(Anchor) && Placement == old(Placement)
      ensures Game.ViewportWidth == old(Game.ViewportWidth) && Game.ViewportHeight == old(Game.ViewportHeight)
    {
      if !Visible {
        Sounds := Sounds + ["bigSelect"];
      }
      Visible := true;
      Game.ActiveMenu := this;
      if IsSubMenu && Anchor != null {
        var _ := PositionRelativeTo(Anchor, Placement);
      }
    }

    /**
     * Hide: plays "bigDeSelect" only when the menu was visible, hides it, and
     * when it was the active menu hands that place to its parent (null for a
     * top menu).
     */
    method Hide()
      modifies this, Game
      ensures !Visible
      ensures Sounds == old(Sounds) + (if old(Visible) then ["bigDeSelect"] else [])
      ensures old(Game.ActiveMenu) == this ==> Game.ActiveMenu == ParentMenu
      ensures old(Game.ActiveMenu) != this ==> Game.ActiveMenu == old(Game.ActiveMenu)
      ensures X == old(X) && Y == old(Y) && Width == old(Width) && Height == old(Height)
      ensures Components == old(Components) && SubMenus == old(SubMenus) && ParentMenu == old(ParentMenu)
      ensures CloseButton == old(CloseButton) && Anchor == old(Anchor) && Placement == old(Placement)
      ensures Game.ViewportWidth == old(Game.ViewportWidth) && Game.ViewportHeight == old(Game.ViewportHeight)
    {
      if Visible {
        Sounds := Sounds + ["bigDeSelect"];
      }
      Visible := false;
      if Game.ActiveMenu == this {
        Game.ActiveMenu := ParentMenu;
      }
    }

    /** ExitMenu: Hide, and no active menu is left pointing at this one. */
    method ExitMenu()
      modifies this, Game
      ensures !Visible
      ensures Sounds == old(Sounds) + (if old(Visible) then ["bigDeSelect"] else [])
      ensures old(Game.ActiveMenu) == this ==> Game.ActiveMenu == (if ParentMenu == this then null else ParentMenu)
      ensures old(Game.ActiveMenu) != this ==> Game.ActiveMenu == old(Game.ActiveMenu)
      ensures Game.ActiveMenu != this
      ensures X == old(X) && Y == old(Y) && Components == old(Components) && SubMenus == old(SubMenus) && ParentMenu == old(ParentMenu)
      ensures CloseButton == old(CloseButton)
    {
      Hide();
      if Game.ActiveMenu == this {
        Game.ActiveMenu := null;
      }
    }

    /** The first visible submenu whose bounds hold the point, or -1. */
    static function SubMenuAt(subs: seq<Menu>, x: int, y: int): (i: int)
      reads subs
      ensures -1 <= i < |subs|
      ensures i >= 0 ==> subs[i].Visible && subs[i].IsWithinBounds(x, y)
      ensures forall j :: 0 <= j < |subs| && (i < 0 || j < i) ==> !(subs[j].Visible && subs[j].IsWithinBounds(x, y))
    {
      if |subs| == 0 then -1
      else if subs[0].Visible && subs[0].IsWithinBounds(x, y) then 0
      else
        var j := SubMenuAt(subs[1..], x, y);
        if j < 0 then -1 else j + 1
    }

    /** The first visible submenu, or -1. */
    static function FirstVisible(subs: seq<Menu>): (i: int)
      reads subs
      ensures -1 <= i < |subs|
      ensures i >= 0 ==> subs[i].Visible
      ensures forall j :: 0 <= j < |subs| && (i < 0 || j < i) ==> !subs[j].Visible
    {
      if |subs| == 0 then -1
      else if subs[0].Visible then 0
      else
        var j := FirstVisible(subs[1..]);
        if j < 0 then -1 else j + 1
    }

    /** The first visible, enabled, clickable component whose area holds the point, or -1. */
    static function ComponentAt(cs: seq<UC.Component>, x: int, y: int): (i: int)
      reads cs
      ensures -1 <= i < |cs|
      ensures i >= 0 ==> cs[i].Visible && cs[i].Enabled && cs[i].IsClickable() && cs[i].Contains(x, y)
      ensures forall j :: 0 <= j < |cs| && (i < 0 || j < i) ==> !(cs[j].Visible && cs[j].Enabled && cs[j].IsClickable() && cs[j].Contains(x, y))
    {
      if |cs| == 0 then -1
      else if cs[0].Visible && cs[0].Enabled && cs[0].IsClickable() && cs[0].Contains(x, y) then 0
      else
        var j := ComponentAt(cs[1..], x, y);
        if j < 0 then -1 else j + 1
    }

    /**
     * receiveLeftClick. A hidden menu ignores the click. A submenu that
     * closes on outside clicks hides on a click outside it. A click on the
     * close button plays "bigDeSelect" (when asked to) and exits the menu.
     * Otherwise the click goes to the first visible submenu holding it, which
     * handles it in turn, else to the first visible, enabled, clickable
     * component holding it, which is clicked.
     */
    method ReceiveLeftClick(x: int, y: int, playSound: bool) returns (route: Route)
      modifies this, Game, Components
      ensures Components == old(Components) && SubMenus == old(SubMenus)
      ensures !old(Visible) ==> route == Ignored && Sounds == old(Sounds) && Visible == old(Visible)
      ensures old(Visible) && IsSubMenu && old(CloseOnOutsideClick) && !old(IsWithinBounds(x, y)) ==>
        route == HiddenOutside && !Visible
      ensures var outside := IsSubMenu && old(CloseOnOutsideClick) && !old(IsWithinBounds(x, y));
        var onClose := Config.ShowCloseButton && old(CloseButton).Some? && Xna.Contains(old(CloseButton).value, x, y);
        old(Visible) && !outside && onClose ==>
          route == Exited && !Visible && Game.ActiveMenu != this
          && Sounds == old(Sounds) + (if playSound then ["bigDeSelect"] else []) + ["bigDeSelect"]
      ensures var outside := IsSubMenu && old(CloseOnOutsideClick) && !old(IsWithinBounds(x, y));
        var onClose := Config.ShowCloseButton && old(CloseButton).Some? && Xna.Contains(old(CloseButton).value, x, y);
        var s := old(SubMenuAt(SubMenus, x, y));
        old(Visible) && !outside && !onClose && s >= 0 ==> route == ToSubMenu(old(SubMenus)[s])
      ensures var outside := IsSubMenu && old(CloseOnOutsideClick) && !old(IsWithinBounds(x, y));
        var onClose := Config.ShowCloseButton && old(CloseButton).Some? && Xna.Contains(old(CloseButton).value, x, y);
        var s := old(SubMenuAt(SubMenus, x, y));
        var c := old(ComponentAt(Components, x, y));
        old(Visible) && !outside && !onClose && s < 0 && c >= 0 ==>
          route == ToComponent(Components[c]) && Components[c].IsPressed
          && Components[c].Raised == old(Components[c].Raised) + [UC.ClickEventArgs(UC.ClickedEvent, x, y, UC.Left)]
          && Components[c].Sounds == old(Components[c].Sounds) + (if old(Components[c].ClickSoundName) == "" then [] else [old(Components[c].ClickSoundName)])
          && (forall k :: 0 <= k < |Components| && Components[k] != Components[c] ==> unchanged(Components[k]))
          && (UniqueIds() ==> forall k :: 0 <= k < |Components| && k != c ==> unchanged(Components[k]))
      ensures var outside := IsSubMenu && old(CloseOnOutsideClick) && !old(IsWithinBounds(x, y));
        var onClose := Config.ShowCloseButton && old(CloseButton).Some? && Xna.Contains(old(CloseButton).value, x, y);
        old(Visible) && !outside && !onClose && old(SubMenuAt(SubMenus, x, y)) < 0 && old(ComponentAt(Components, x, y)) < 0 ==>
          route == PassedOn
      // only a click routed to a component changes a component
      ensures !route.ToComponent? ==> forall k :: 0 <= k < |Components| ==> unchanged(Components[k])
      // hiding plays the visible menu's "bigDeSelect"; neither hiding nor exiting moves the menu or its close button
      ensures route == HiddenOutside ==> Sounds == old(Sounds) + ["bigDeSelect"]
      ensures route == HiddenOutside || route == Exited ==> X == old(X) && Y == old(Y) && CloseButton == old(CloseButton)
      // passing the click on, to a submenu, a component or the game, leaves the menu and the game as they were
      ensures route.Ignored? || route.ToSubMenu? || route.ToComponent? || route.PassedOn? ==> unchanged(this, Game)
    {
      if !Visible {
        return Ignored;
      }
      if IsSubMenu && CloseOnOutsideClick && !IsWithinBounds(x, y) {
        Hide();
        return HiddenOutside;
      }
      if Config.ShowCloseButton && CloseButton.Some? && Xna.Contains(CloseButton.value, x, y) {
        if playSound {
          Sounds := Sounds + ["bigDeSelect"];
        }
        ExitMenu();
        return Exited;
      }
      var s := SubMenuAt(SubMenus, x, y);
      if s >= 0 {
        return ToSubMenu(SubMenus[s]);
      }
      var c := ComponentAt(Components, x, y);
      if c >= 0 {
        forall k | UniqueIds() && 0 <= k < |Components| && k != c
          ensures Components[k] != Components[c]
        {
          UniqueComponents(Components, k, c);
        }
        Components[c].OnClick(x, y);
        return ToComponent(Components[c]);
      }
      return PassedOn;
    }

    /**
     * receiveRightClick: a hidden menu ignores it; otherwise it goes to the
     * first visible submenu holding it, else to the first visible, enabled,
     * clickable component holding it, which is right-clicked.
     */
    method ReceiveRightClick(x: int, y: int) returns (route: Route)
      modifies Components
      ensures !Visible ==> route == Ignored
      ensures Visible && SubMenuAt(SubMenus, x, y) >= 0 ==> route == ToSubMenu(SubMenus[SubMenuAt(SubMenus, x, y)])
      ensures var c := old(ComponentAt(Components, x, y));
        Visible && SubMenuAt(SubMenus, x, y) < 0 && c >= 0 ==>
          route == ToComponent(Components[c])
          && Components[c].Raised == old(Components[c].Raised) + [UC.ClickEventArgs(UC.RightClickedEvent, x, y, UC.Right)]
          && Components[c].Sounds == old(Components[c].Sounds) + (if old(Components[c].ClickSoundName) == "" then [] else [old(Components[c].ClickSoundName)])
          && (forall k :: 0 <= k < |Components| && Components[k] != Components[c] ==> unchanged(Components[k]))
          && (UniqueIds() ==> forall k :: 0 <= k < |Components| && k != c ==> unchanged(Components[k]))
      ensures Visible && SubMenuAt(SubMenus, x, y) < 0 && old(ComponentAt(Components, x, y)) < 0 ==> route == PassedOn
      // only a click routed to a component changes a component; the menu itself is not in the frame
      ensures !route.ToComponent? ==> forall k :: 0 <= k < |Components| ==> unchanged(Components[k])
    {
      if !Visible {
        return Ignored;
      }
      var s := SubMenuAt(SubMenus, x, y);
      if s >= 0 {
        return ToSubMenu(SubMenus[s]);
      }
      var c := ComponentAt(Components, x, y);
      if c >= 0 {
        forall k | UniqueIds() && 0 <= k < |Components| && k != c
          ensures Components[k] != Components[c]
        {
          UniqueComponents(Components, k, c);
        }
        Components[c].OnRightClick(x, y);
        return ToComponent(Components[c]);
      }
      return PassedOn;
    }

    /**
     * receiveKeyPress: a hidden menu ignores the key; the first visible
     * submenu takes it; Escape exits the menu; any other key goes on to
     * the game's own handling.
     */
    method ReceiveKeyPress(key: Xna.Key) returns (route: Route)
      modifies this, Game
      ensures SubMenus == old(SubMenus) && Components == old(Components)
      ensures !old(Visible) ==> route == Ignored && Visible == old(Visible)
      ensures old(Visible) && old(FirstVisible(SubMenus)) >= 0 ==>
        route == ToSubMenu(SubMenus[old(FirstVisible(SubMenus))]) && Visible
      ensures old(Visible) && old(FirstVisible(SubMenus)) < 0 && key == Xna.Escape ==>
        route == Exited && !Visible && Game.ActiveMenu != this
      ensures old(Visible) && old(FirstVisible(SubMenus)) < 0 && key != Xna.Escape ==>
        route == PassedOn && Visible
      // Escape plays "bigDeSelect" and leaves the menu and its close button in place
      ensures route == Exited ==> Sounds == old(Sounds) + ["bigDeSelect"] && X == old(X) && Y == old(Y) && CloseButton == old(CloseButton)
      // any other route leaves the menu and the game as they were
      ensures route != Exited ==> unchanged(this, Game)
    {
      if !Visible {
        return Ignored;
      }
      for i := 0 to |SubMenus|
        invariant forall k :: 0 <= k < i ==> !SubMenus[k].Visible
      {
        if SubMenus[i].Visible {
          return ToSubMenu(SubMenus[i]);
        }
      }
      if key == Xna.Escape {
        ExitMenu();
        return Exited;
      }
      return PassedOn;
    }

    /** UpdateAnchorPosition: a submenu with an anchor places itself next to it again, on the same side. */
    method UpdateAnchorPosition()
      requires IsSubMenu
      modifies this
      ensures Anchor == old(Anchor) && Placement == old(Placement) && Width == old(Width) && Height == old(Height)
      ensures old(Anchor) != null ==>
        var p := Place(Placement, Anchor.Position, Anchor.Size, Width, Height);
        X == Constrain(p.x, Width, Game.ViewportWidth) && Y == Constrain(p.y, Height, Game.ViewportHeight)
      ensures old(Anchor) == null ==> unchanged(this)
      ensures old(Anchor) != null ==> CloseButton == (if old(CloseButton).Some? then Some(SubMenuCloseButton(X, Y, Width)) else None)
      ensures Visible == old(Visible) && Sounds == old(Sounds) && Components == old(Components) && SubMenus == old(SubMenus)
    {
      if Anchor != null {
        var _ := PositionRelativeTo(Anchor, Placement);
      }
    }

    /** Whether hovering at the point reaches the component: a visible, enabled, clickable component holding it. */
    static predicate HoverHits(c: UC.Component, x: int, y: int)
      reads c
    {
      c.Visible && c.Enabled && c.IsClickable() && c.Contains(x, y)
    }

    /** With unique ids, the list holds each component once. */
    lemma UniqueComponents(cs: seq<UC.Component>, i: int, k: int)
      requires Seqs.Distinct(ComponentIds(cs))
      requires 0 <= i < |cs| && 0 <= k < |cs| && i != k
      ensures cs[i] != cs[k]
    {
      var ids := ComponentIds(cs);
      if i < k {
        assert ids[i] != ids[k];
      } else {
        assert ids[k] != ids[i];
      }
    }

    /**
     * performHoverAction on the components: in a visible menu every visible,
     * enabled, clickable component under the mouse is hovered (OnHover),
     * and the others are left alone. Submenus and the close button are not
     * followed here.
     */
    method PerformHoverAction(x: int, y: int)
      requires UniqueIds()
      modifies Components
      ensures forall i :: 0 <= i < |Components| && Visible && old(HoverHits(Components[i], x, y)) ==>
        Components[i].IsHovering
        && Components[i].Raised == old(Components[i].Raised) + [UC.ClickEventArgs(UC.HoveredEvent, x, y, UC.Left)]
        && Components[i].Sounds == old(Components[i].Sounds) + (if old(Components[i].IsHovering) then [] else [UC.HoverSound])
      ensures forall i :: 0 <= i < |Components| && !(Visible && old(HoverHits(Components[i], x, y))) ==>
        Components[i].Raised == old(Components[i].Raised) && Components[i].Sounds == old(Components[i].Sounds)
        && Components[i].IsHovering == old(Components[i].IsHovering)
      ensures forall i :: 0 <= i < |Components| ==>
        Components[i].Visible == old(Components[i].Visible) && Components[i].Enabled == old(Components[i].Enabled)
        && Components[i].Position == old(Components[i].Position) && Components[i].Size == old(Components[i].Size)
    {
      if !Visible {
        return;
      }
      var cs := Components;
      forall k, j | 0 <= k < |cs| && 0 <= j < |cs| && k != j
        ensures cs[k] != cs[j]
      {
        UniqueComponents(cs, k, j);
      }
      for i := 0 to |cs|
        invariant forall k :: 0 <= k < |cs| ==>
          cs[k].Visible == old(cs[k].Visible) && cs[k].Enabled == old(cs[k].Enabled)
          && cs[k].Position == old(cs[k].Position) && cs[k].Size == old(cs[k].Size)
        invariant forall k :: 0 <= k < i && old(HoverHits(cs[k], x, y)) ==>
          cs[k].IsHovering
          && cs[k].Raised == old(cs[k].Raised) + [UC.ClickEventArgs(UC.HoveredEvent, x, y, UC.Left)]
          && cs[k].Sounds == old(cs[k].Sounds) + (if old(cs[k].IsHovering) then [] else [UC.HoverSound])
        invariant forall k :: 0 <= k < |cs| && (i <= k || !old(HoverHits(cs[k], x, y))) ==>
          cs[k].Raised == old(cs[k].Raised) && cs[k].Sounds == old(cs[k].Sounds) && cs[k].IsHovering == old(cs[k].IsHovering)
      {
        if HoverHits(cs[i], x, y) {
          cs[i].OnHover(x, y);
        }
      }
    }

    /**
     * update on the components: each visible component runs its Update with
     * the mouse position, so a visible button is hovered exactly when it is
     * enabled and under the mouse, and raises Hovered when that starts.
     * Hidden components are not updated. Submenus' updates are not followed
     * here.
     */
    method Update(mouseX: int, mouseY: int)
      requires UniqueIds()
      modifies Components
      ensures forall i :: 0 <= i < |Components| && old(Components[i].Visible) && Components[i].IsClickable() ==>
        Components[i].IsHovered == (Components[i].Enabled && Components[i].Contains(mouseX, mouseY))
      ensures forall i :: 0 <= i < |Components| && old(Components[i].Visible) && Components[i].IsClickable() ==>
        (Components[i].IsHovered && !old(Components[i].IsHovered) <==>
         Components[i].Raised == old(Components[i].Raised) + [UC.ClickEventArgs(UC.HoveredEvent, mouseX, mouseY, UC.Left)])
      ensures forall i :: 0 <= i < |Components| && !(old(Components[i].Visible) && Components[i].IsClickable()) ==>
        Components[i].IsHovered == old(Components[i].IsHovered) && Components[i].Raised == old(Components[i].Raised)
      ensures forall i :: 0 <= i < |Components| ==>
        Components[i].Visible == old(Components[i].Visible) && Components[i].Enabled == old(Components[i].Enabled)
        && Components[i].Position == old(Components[i].Position) && Components[i].Size == old(Components[i].Size)
    {
      var cs := Components;
      forall k, j | 0 <= k < |cs| && 0 <= j < |cs| && k != j
        ensures cs[k] != cs[j]
      {
        UniqueComponents(cs, k, j);
      }
      for i := 0 to |cs|
        invariant forall k :: 0 <= k < |cs| ==>
          cs[k].Visible == old(cs[k].Visible) && cs[k].Enabled == old(cs[k].Enabled)
          && cs[k].Position == old(cs[k].Position) && cs[k].Size == old(cs[k].Size)
        invariant forall k :: 0 <= k < i && old(cs[k].Visible) && cs[k].IsClickable() ==>
          cs[k].IsHovered == (cs[k].Enabled && cs[k].Contains(mouseX, mouseY))
          && (cs[k].IsHovered && !old(cs[k].IsHovered) <==>
              cs[k].Raised == old(cs[k].Raised) + [UC.ClickEventArgs(UC.HoveredEvent, mouseX, mouseY, UC.Left)])
        invariant forall k :: 0 <= k < |cs| && (i <= k || !(old(cs[k].Visible) && cs[k].IsClickable())) ==>
          cs[k].IsHovered == old(cs[k].IsHovered) && cs[k].Raised == old(cs[k].Raised)
      {
        if cs[i].Visible {
          cs[i].Update(mouseX, mouseY);
          assert cs[i].Raised != old(cs[i].Raised) + [UC.ClickEventArgs(UC.HoveredEvent, mouseX, mouseY, UC.Left)] ==>
            !(cs[i].IsHovered && !old(cs[i].IsHovered));
        }
      }
    }

    /**
     * SubMenu.update: a submenu whose anchor has been hidden hides itself.
     * The components' and submenus' own updates are not followed here.
     */
    method UpdateAnchorVisibility()
      modifies this, Game
      ensures IsSubMenu && old(Anchor) != null && !old(Anchor.Visible) ==>
        !Visible && Sounds == old(Sounds) + (if old(Visible) then ["bigDeSelect"] else [])
        && Game.ActiveMenu == (if old(Game.ActiveMenu) == this then ParentMenu else old(Game.ActiveMenu))
      ensures !(IsSubMenu && old(Anchor) != null && !old(Anchor.Visible)) ==> unchanged(this, Game)
      ensures X == old(X) && Y == old(Y) && CloseButton == old(CloseButton) && Components == old(Components) && SubMenus == old(SubMenus)
    {
      if IsSubMenu && Anchor != null && !Anchor.Visible {
        Hide();
      }
    }

    /**
     * gameWindowSizeChanged: the game's own handler runs first and moves the
     * menu; (baseX, baseY) is where it leaves it. A menu configured at (0, 0)
     * is then centred again in the new viewport, any other keeps the game's
     * position, and the close button goes back to the 32 by 32 top-right
     * place (for a submenu too, which does not override it).
     */
    method GameWindowSizeChanged(baseX: int, baseY: int)
      modifies this
      ensures Config.Position == Xna.Vector2(0.0, 0.0) ==>
        X == Numeric.CDiv(Game.ViewportWidth, 2) - Numeric.CDiv(Width, 2)
        && Y == Numeric.CDiv(Game.ViewportHeight, 2) - Numeric.CDiv(Height, 2)
      ensures Config.Position != Xna.Vector2(0.0, 0.0) ==> X == baseX && Y == baseY
      ensures Config.ShowCloseButton && old(CloseButton).Some? ==> CloseButton == Some(MenuCloseButton(X, Y, Width))
      ensures !(Config.ShowCloseButton && old(CloseButton).Some?) ==> CloseButton == old(CloseButton)
      ensures Width == old(Width) && Height == old(Height) && Components == old(Components) && SubMenus == old(SubMenus)
      ensures Visible == old(Visible)
    {
      X, Y := baseX, baseY;
      if Config.Position == Xna.Vector2(0.0, 0.0) {
        X := Numeric.CDiv(Game.ViewportWidth, 2) - Numeric.CDiv(Width, 2);
        Y := Numeric.CDiv(Game.ViewportHeight, 2) - Numeric.CDiv(Height, 2);
      }
      if Config.ShowCloseButton && CloseButton.Some? {
        CloseButton := Some(MenuCloseButton(X, Y, Width));
      }
    }
  }
}
