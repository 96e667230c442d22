/**
 * StardewUIAPI (UIFramework/API/StardewUIAPI.cs): the framework's public
 * API keeps id-keyed registries of menus, components, layouts and hotkeys,
 * creates menus and components on request, and routes key presses to menu
 * toggles and hotkey actions. The .NET dictionaries are maps; the two that
 * are enumerated (menus and hotkeys) also keep their keys in insertion
 * order, which is the order a Dictionary that is never removed from
 * enumerates them in. A hotkey's delegate is an Action value: showing a menu,
 * or an external action whose runs are recorded in Performed.
 */
module UiApi {
  import opened Wrappers
  import Seqs
  import Xna
  import UC = UiComponents
  import UM = UiMenus

  /** RelativeLayout.AnchorPoint, in declaration order (0 to 8). */
  datatype AnchorPoint = TopLeft | Top | TopRight | Left | Center | Right | BottomLeft | Bottom | BottomRight

  /** The name of an anchor point. */
  function AnchorName(a: AnchorPoint): string
  {
    match a
    case TopLeft => "TopLeft"
    case Top => "Top"
    case TopRight => "TopRight"
    case Left => "Left"
    case Center => "Center"
    case Right => "Right"
    case BottomLeft => "BottomLeft"
    case Bottom => "Bottom"
    case BottomRight => "BottomRight"
  }

  /** The decimal text of an anchor point's underlying value. */
  function AnchorNumber(a: AnchorPoint): string
  {
    match a
    case TopLeft => "0"
    case Top => "1"
    case TopRight => "2"
    case Left => "3"
    case Center => "4"
    case Right => "5"
    case BottomLeft => "6"
    case Bottom => "7"
    case BottomRight => "8"
  }

  /**
   * Enum.TryParse of an anchor point with TopLeft as the fallback: a name
   * (case-sensitive) or the decimal value of one of the nine points picks
   * it, and any other text is TopLeft.
   */
  function ParseAnchor(s: string): (a: AnchorPoint)
    ensures a != TopLeft ==> s == AnchorName(a) || s == AnchorNumber(a)
  {
    if s == "TopLeft" || s == "0" then TopLeft
    else if s == "Top" || s == "1" then Top
    else if s == "TopRight" || s == "2" then TopRight
    else if s == "Left" || s == "3" then Left
    else if s == "Center" || s == "4" then Center
    else if s == "Right" || s == "5" then Right
    else if s == "BottomLeft" || s == "6" then BottomLeft
    else if s == "Bottom" || s == "7" then Bottom
    else if s == "BottomRight" || s == "8" then BottomRight
    else TopLeft
  }

  /** Parsing gives back the point a name or a number was written for. */
  lemma {:induction false} ParseAnchorRoundTrip(a: AnchorPoint)
    ensures ParseAnchor(AnchorName(a)) == a
    ensures ParseAnchor(AnchorNumber(a)) == a
  {
    match a
    case TopLeft =>
    case Top =>
    case TopRight =>
    case Left =>
    case Center =>
    case Right =>
    case BottomLeft =>
    case Bottom =>
    case BottomRight =>
  }

  /** Text that names no anchor point, such as a lower-case name, falls back to TopLeft. */
  lemma UnknownAnchorIsTopLeft()
    ensures ParseAnchor("center") == TopLeft
    ensures ParseAnchor("Middle") == TopLeft
    ensures ParseAnchor("") == TopLeft
  {
  }

  /** A hotkey's delegate: the one RegisterMenu binds shows a menu; the others are outside this model. */
  datatype Action = ShowMenuAction(menuId: string) | External(name: string)

  /** One AddComponent call on a GridLayout. */
  datatype GridEntry = GridEntry(component: UC.Component, column: int, row: int, columnSpan: int, rowSpan: int)

  /** A GridLayout: its shape, the origin a menu last gave it, and the components added to it. */
  datatype GridLayout = GridLayout(columns: int, rows: int, cellWidth: int, cellHeight: int, origin: Option<UM.Point>, entries: seq<GridEntry>)

  /** One AddComponent call on a RelativeLayout, relative to the layout or to another component. */
  datatype RelativeEntry = RelativeEntry(component: UC.Component, relativeTo: Option<UC.Component>, anchor: AnchorPoint, offset: Xna.Vector2)

  datatype RelativeLayout = RelativeLayout(entries: seq<RelativeEntry>)

  /** The first menu, in enumeration order, whose toggle key is the button, or -1. */
  function FirstToggle(order: seq<string>, menus: map<string, UM.Menu>, button: UM.SButton): (i: int)
    requires forall k :: 0 <= k < |order| ==> order[k] in menus
    ensures -1 <= i < |order|
    ensures i >= 0 ==> menus[order[i]].Config.ToggleKey == button
    ensures forall j :: 0 <= j < |order| && (i < 0 || j < i) ==> menus[order[j]].Config.ToggleKey != button
  {
    if |order| == 0 then -1
    else if menus[order[0]].Config.ToggleKey == button then 0
    else
      var j := FirstToggle(order[1..], menus, button);
      if j < 0 then -1 else j + 1
  }

  /** The first hotkey, in enumeration order, bound to the button and holding an action, or -1. */
  function FirstHotkey(order: seq<string>, keys: map<string, UM.SButton>, actions: map<string, Action>, button: UM.SButton): (i: int)
    requires forall k :: 0 <= k < |order| ==> order[k] in keys
    ensures -1 <= i < |order|
    ensures i >= 0 ==> keys[order[i]] == button && order[i] in actions
    ensures forall j :: 0 <= j < |order| && (i < 0 || j < i) ==> !(keys[order[j]] == button && order[j] in actions)
  {
    if |order| == 0 then -1
    else if keys[order[0]] == button && order[0] in actions then 0
    else
      var j := FirstHotkey(order[1..], keys, actions, button);
      if j < 0 then -1 else j + 1
  }

  class StardewUIAPI {
    const Game: UM.Game1
    /** UIConfig.DefaultTooltipDelay. */
    var TooltipDelay: int
    var Menus: map<string, UM.Menu>
    var MenuOrder: seq<string>
    var Hotkeys: map<string, UM.SButton>
    var HotkeyOrder: seq<string>
    var HotkeyActions: map<string, Action>
    var Components: map<string, UC.Component>
    var GridLayouts: map<string, GridLayout>
    var RelativeLayouts: map<string, RelativeLayout>
    /** The external hotkey actions run so far, in order. */
    var Performed: seq<string>

    /**
     * The registries agree with their enumeration orders; every menu is a
     * top menu of this game stored under its own id; every hotkey has its
     * action.
     */
    ghost predicate Valid()
      reads this
    {
      && Seqs.Distinct(MenuOrder)
      && (forall k :: 0 <= k < |MenuOrder| ==> MenuOrder[k] in Menus)
      && (forall id :: id in Menus ==> id in MenuOrder)
      && (forall id :: id in Menus ==> Menus[id].Id == id && Menus[id].Game == Game && !Menus[id].IsSubMenu)
      && Seqs.Distinct(HotkeyOrder)
      && (forall k :: 0 <= k < |HotkeyOrder| ==> HotkeyOrder[k] in Hotkeys)
      && (forall id :: id in Hotkeys ==> id in HotkeyOrder)
      && Hotkeys.Keys == HotkeyActions.Keys
    }

    /** The constructor: empty registries, with the configuration's tooltip delay. */
    constructor (game: UM.Game1, tooltipDelay: int)
      ensures Game == game && TooltipDelay == tooltipDelay
      ensures Menus == map[] && MenuOrder == [] && Hotkeys == map[] && HotkeyOrder == [] && HotkeyActions == map[] && Components == map[]
      ensures GridLayouts == map[] && RelativeLayouts == map[] && Performed == []
      ensures Valid()
    {
      Game := game;
      TooltipDelay := tooltipDelay;
      Menus := map[];
      MenuOrder := [];
      Hotkeys := map[];
      HotkeyOrder := [];
      HotkeyActions := map[];
      Components := map[];
      GridLayouts := map[];
      RelativeLayouts := map[];
      Performed := [];
    }

    /**
     * CreateMenu: an empty id throws ArgumentNullException and a taken one
     * ArgumentException. Otherwise a new, hidden top menu with the given
     * configuration, centred (its position is (0, 0)), is stored under the
     * id, which is returned.
     */
    method CreateMenu(id: string, title: string, width: int, height: int, draggable: bool, resizable: bool,
                      modal: bool, showCloseButton: bool, toggleKey: UM.SButton) returns (r: Result<string>)
      requires Valid()
      modifies this`Menus, this`MenuOrder
      ensures Valid()
      ensures id == "" ==> r == Throws(ArgumentNull) && Menus == old(Menus)
      ensures id != "" && id in old(Menus) ==> r == Throws(Argument) && Menus == old(Menus)
      ensures id != "" && id !in old(Menus) ==>
        && r == Ok(id) && id in Menus && fresh(Menus[id])
        && Menus == old(Menus)[id := Menus[id]] && MenuOrder == old(MenuOrder) + [id]
        && Menus[id].Config == UM.MenuConfig(title, Xna.Vector2(0.0, 0.0), width, height, draggable, resizable, modal, showCloseButton, toggleKey)
        && !Menus[id].Visible && Menus[id].Components == [] && Menus[id].SubMenus == []
    {
      if id == "" {
        return Throws(ArgumentNull);
      }
      if id in Menus {
        return Throws(Argument);
      }
      var config := UM.MenuConfig(title, Xna.Vector2(0.0, 0.0), width, height, draggable, resizable, modal, showCloseButton, toggleKey);
      var menu := new UM.Menu(id, Some(config), Game);
      Menus := Menus[id := menu];
      MenuOrder := MenuOrder + [id];
      return Ok(id);
    }

    /**
     * RegisterHotkey: an empty id or a missing action throws
     * ArgumentNullException; otherwise the key and the action are stored
     * under the id, replacing what was there (in its old enumeration place).
     */
    method RegisterHotkey(id: string, key: UM.SButton, onPressed: Option<Action>) returns (r: Result<()>)
      requires Valid()
      modifies this`Hotkeys, this`HotkeyActions, this`HotkeyOrder
      ensures Valid()
      ensures id == "" || onPressed.None? ==>
        r == Throws(ArgumentNull) && Hotkeys == old(Hotkeys) && HotkeyActions == old(HotkeyActions) && HotkeyOrder == old(HotkeyOrder)
      ensures id != "" && onPressed.Some? ==>
        && r == Ok(())
        && Hotkeys == old(Hotkeys)[id := key] && HotkeyActions == old(HotkeyActions)[id := onPressed.value]
        && HotkeyOrder == old(HotkeyOrder) + (if id in old(Hotkeys) then [] else [id])
    {
      if id == "" || onPressed.None? {
        return Throws(ArgumentNull);
      }
      if id !in Hotkeys {
        HotkeyOrder := HotkeyOrder + [id];
      }
      Hotkeys := Hotkeys[id := key];
      HotkeyActions := HotkeyActions[id := onPressed.value];
      return Ok(());
    }

    /**
     * RegisterMenu: an unknown menu changes nothing; a menu with a toggle key
     * gets the hotkey "Open" + id on that key, which shows the menu.
     */
    method RegisterMenu(menuId: string)
      requires Valid()
      modifies this`Hotkeys, this`HotkeyActions, this`HotkeyOrder
      ensures Valid()
      ensures menuId in Menus && Menus[menuId].Config.ToggleKey != UM.NoButton ==>
        && Hotkeys == old(Hotkeys)["Open" + menuId := Menus[menuId].Config.ToggleKey]
        && HotkeyActions == old(HotkeyActions)["Open" + menuId := ShowMenuAction(menuId)]
        && HotkeyOrder == old(HotkeyOrder) + (if "Open" + menuId in old(Hotkeys) then [] else ["Open" + menuId])
      ensures !(menuId in Menus && Menus[menuId].Config.ToggleKey != UM.NoButton) ==>
        Hotkeys == old(Hotkeys) && HotkeyActions == old(HotkeyActions) && HotkeyOrder == old(HotkeyOrder)
    {
      if menuId !in Menus {
        return;
      }
      var menu := Menus[menuId];
      if menu.Config.ToggleKey != UM.NoButton {
        var _ := RegisterHotkey("Open" + menu.Id, menu.Config.ToggleKey, Some(ShowMenuAction(menu.Id)));
      }
    }

    /** ShowMenu: an unknown id changes nothing; otherwise the menu is shown and becomes the active menu. */
    method ShowMenu(menuId: string)
      requires Valid()
      modifies Menus.Values, Game
      ensures menuId in Menus ==> Menus[menuId].Visible && Game.ActiveMenu == Menus[menuId]
      ensures menuId in Menus ==>
        Menus[menuId].Sounds == old(Menus[menuId].Sounds) + (if old(Menus[menuId].Visible) then [] else ["bigSelect"])
      ensures menuId !in Menus ==> unchanged(Menus.Values) && unchanged(Game)
      ensures forall id :: id in Menus && id != menuId ==> Menus[id].Visible == old(Menus[id].Visible)
      ensures Game.ViewportWidth == old(Game.ViewportWidth) && Game.ViewportHeight == old(Game.ViewportHeight)
    {
      if menuId in Menus {
        Menus[menuId].Show();
      }
    }

    /** HideMenu: an unknown id changes nothing; otherwise the menu is hidden. */
    method HideMenu(menuId: string)
      requires Valid()
      modifies Menus.Values, Game
      ensures menuId in Menus ==> !Menus[menuId].Visible
      ensures menuId in Menus && old(Game.ActiveMenu) == Menus[menuId] ==> Game.ActiveMenu == Menus[menuId].ParentMenu
      ensures menuId !in Menus ==> unchanged(Menus.Values) && unchanged(Game)
      ensures forall id :: id in Menus && id != menuId ==> Menus[id].Visible == old(Menus[id].Visible)
    {
      if menuId in Menus {
        Menus[menuId].Hide();
      }
    }

    /**
     * The shared end of CreateButton, CreateLabel and CreateTextInput: the
     * menu's AddComponent runs first, and only when it accepts the
     * component is the component recorded under its id (replacing any
     * component of another menu with that id).
     */
    method AddToMenu(menuId: string, c: UC.Component) returns (r: Result<string>)
      requires Valid() && menuId in Menus
      modifies this`Components, Menus[menuId], c
      ensures Valid()
      ensures c.Id in old(UM.ComponentIds(Menus[menuId].Components)) ==>
        r == Throws(Argument) && Components == old(Components) && Menus[menuId].Components == old(Menus[menuId].Components)
      ensures c.Id !in old(UM.ComponentIds(Menus[menuId].Components)) ==>
        && r == Ok(c.Id) && Components == old(Components)[c.Id := c]
        && Menus[menuId].Components == old(Menus[menuId].Components) + [c]
      ensures old(Menus[menuId].UniqueIds()) ==> Menus[menuId].UniqueIds()
      ensures c.Text == old(c.Text) && c.Visible == old(c.Visible) && c.Enabled == old(c.Enabled)
    {
      var menu := Menus[menuId];
      var added := menu.AddComponent(c);
      if added.Throws? {
        return Throws(added.error);
      }
      Components := Components[c.Id := c];
      return Ok(c.Id);
    }

    /**
     * CreateButton: an unknown menu gives "" and changes nothing. Otherwise a
     * new button with the given place, size and text is added to the menu and
     * recorded; a button whose id the menu already has makes AddComponent
     * throw ArgumentException, and the registry is left as it was.
     */
    method CreateButton(menuId: string, id: string, text: string, x: int, y: int, width: int, height: int) returns (r: Result<string>)
      requires Valid()
      modifies this`Components, Menus.Values
      ensures Valid()
      ensures menuId !in Menus ==> r == Ok("") && Components == old(Components)
      ensures menuId in Menus && id in old(UM.ComponentIds(Menus[menuId].Components)) ==>
        r == Throws(Argument) && Components == old(Components) && Menus[menuId].Components == old(Menus[menuId].Components)
      ensures menuId in Menus && id !in old(UM.ComponentIds(Menus[menuId].Components)) ==>
        && r == Ok(id) && id in Components && fresh(Components[id])
        && Components == old(Components)[id := Components[id]]
        && Menus[menuId].Components == old(Menus[menuId].Components) + [Components[id]]
        && Components[id].Kind == UC.ButtonKind && Components[id].Text == text
        && Components[id].Visible && Components[id].Enabled
    {
      if menuId !in Menus {
        return Ok("");
      }
      var button := new UC.Component.Button(id, Xna.Vector2(x as real, y as real), Xna.Vector2(width as real, height as real), text);
      r := AddToMenu(menuId, button);
    }

    /** CreateLabel: as CreateButton, with a label holding the text. */
    method CreateLabel(menuId: string, id: string, text: string, x: int, y: int) returns (r: Result<string>)
      requires Valid()
      modifies this`Components, Menus.Values
      ensures Valid()
      ensures menuId !in Menus ==> r == Ok("") && Components == old(Components)
      ensures menuId in Menus && id in old(UM.ComponentIds(Menus[menuId].Components)) ==>
        r == Throws(Argument) && Components == old(Components) && Menus[menuId].Components == old(Menus[menuId].Components)
      ensures menuId in Menus && id !in old(UM.ComponentIds(Menus[menuId].Components)) ==>
        && r == Ok(id) && id in Components && fresh(Components[id])
        && Components == old(Components)[id := Components[id]]
        && Menus[menuId].Components == old(Menus[menuId].Components) + [Components[id]]
        && Components[id].Kind == UC.LabelKind && Components[id].Text == text
    {
      if menuId !in Menus {
        return Ok("");
      }
      var lbl := new UC.Component.Passive(UC.LabelKind, id, Xna.Vector2(x as real, y as real), Xna.Vector2(0.0, 0.0), text);
      r := AddToMenu(menuId, lbl);
    }

    /** CreateTextInput: as CreateButton, with a text input holding the initial value. */
    method CreateTextInput(menuId: string, id: string, x: int, y: int, width: int, height: int, initialValue: string) returns (r: Result<string>)
      requires Valid()
      modifies this`Components, Menus.Values
      ensures Valid()
      ensures menuId !in Menus ==> r == Ok("") && Components == old(Components)
      ensures menuId in Menus && id in old(UM.ComponentIds(Menus[menuId].Components)) ==>
        r == Throws(Argument) && Components == old(Components) && Menus[menuId].Components == old(Menus[menuId].Components)
      ensures menuId in Menus && id !in old(UM.ComponentIds(Menus[menuId].Components)) ==>
        && r == Ok(id) && id in Components && fresh(Components[id])
        && Components == old(Components)[id := Components[id]]
        && Menus[menuId].Components == old(Menus[menuId].Components) + [Components[id]]
        && Components[id].Kind == UC.TextInputKind && Components[id].Text == initialValue
    {
      if menuId !in Menus {
        return Ok("");
      }
      var input := new UC.Component.Passive(UC.TextInputKind, id, Xna.Vector2(x as real, y as real), Xna.Vector2(width as real, height as real), initialValue);
      r := AddToMenu(menuId, input);
    }

    /** CreateGridLayout: "" for an unknown menu; otherwise an empty grid is stored under the id, replacing any other. */
    method CreateGridLayout(menuId: string, id: string, columns: int, rows: int, cellWidth: int, cellHeight: int) returns (r: string)
      modifies this`GridLayouts
      ensures menuId !in Menus ==> r == "" && GridLayouts == old(GridLayouts)
      ensures menuId in Menus ==> r == id && GridLayouts == old(GridLayouts)[id := GridLayout(columns, rows, cellWidth, cellHeight, None, [])]
    {
      if menuId !in Menus {
        return "";
      }
      GridLayouts := GridLayouts[id := GridLayout(columns, rows, cellWidth, cellHeight, None, [])];
      return id;
    }

    /**
     * AddComponentToGrid: "" when the menu, the grid or the component is
     * unknown, changing nothing. Otherwise the component is added to the
     * grid, and the menu sets the grid's origin to its corner, 50 pixels
     * lower when it has a title.
     */
    method AddComponentToGrid(menuId: string, layoutId: string, componentId: string, column: int, row: int,
                              columnSpan: int, rowSpan: int) returns (r: string)
      modifies this`GridLayouts
      ensures menuId !in Menus || layoutId !in old(GridLayouts) || componentId !in Components ==>
        r == "" && GridLayouts == old(GridLayouts)
      ensures menuId in Menus && layoutId in old(GridLayouts) && componentId in Components ==>
        var g := old(GridLayouts)[layoutId];
        var m := Menus[menuId];
        && r == componentId
        && GridLayouts == old(GridLayouts)[layoutId := g.(
             entries := g.entries + [GridEntry(Components[componentId], column, row, columnSpan, rowSpan)],
             origin := Some(UM.Point(m.X, m.Y + UM.TitleOffset(m.Config))))]
    {
      if menuId !in Menus || layoutId !in GridLayouts || componentId !in Components {
        return "";
      }
      var menu := Menus[menuId];
      var g := GridLayouts[layoutId];
      g := g.(entries := g.entries + [GridEntry(Components[componentId], column, row, columnSpan, rowSpan)]);
      g := g.(origin := Some(UM.Point(menu.X, menu.Y + UM.TitleOffset(menu.Config))));
      GridLayouts := GridLayouts[layoutId := g];
      return componentId;
    }

    /** CreateRelativeLayout: "" for an unknown menu; otherwise an empty layout is stored under the id, replacing any other. */
    method CreateRelativeLayout(menuId: string, id: string) returns (r: string)
      modifies this`RelativeLayouts
      ensures menuId !in Menus ==> r == "" && RelativeLayouts == old(RelativeLayouts)
      ensures menuId in Menus ==> r == id && RelativeLayouts == old(RelativeLayouts)[id := RelativeLayout([])]
    {
      if menuId !in Menus {
        return "";
      }
      RelativeLayouts := RelativeLayouts[id := RelativeLayout([])];
      return id;
    }

    /**
     * AddComponentToRelativeLayout: "" when the menu, the layout or the
     * component is unknown, changing nothing; otherwise the component is
     * added with the parsed anchor point and the offset.
     */
    method AddComponentToRelativeLayout(menuId: string, layoutId: string, componentId: string, anchorPoint: string,
                                        offsetX: int, offsetY: int) returns (r: string)
      modifies this`RelativeLayouts
      ensures menuId !in Menus || layoutId !in old(RelativeLayouts) || componentId !in Components ==>
        r == "" && RelativeLayouts == old(RelativeLayouts)
      ensures menuId in Menus && layoutId in old(RelativeLayouts) && componentId in Components ==>
        && r == componentId
        && RelativeLayouts == old(RelativeLayouts)[layoutId := RelativeLayout(old(RelativeLayouts)[layoutId].entries +
             [RelativeEntry(Components[componentId], None, ParseAnchor(anchorPoint), Xna.Vector2(offsetX as real, offsetY as real))])]
    {
      if menuId !in Menus || layoutId !in RelativeLayouts || componentId !in Components {
        return "";
      }
      var entry := RelativeEntry(Components[componentId], None, ParseAnchor(anchorPoint), Xna.Vector2(offsetX as real, offsetY as real));
      RelativeLayouts := RelativeLayouts[layoutId := RelativeLayout(RelativeLayouts[layoutId].entries + [entry])];
      return componentId;
    }

    /**
     * AddComponentRelativeToAnother: as AddComponentToRelativeLayout, and
     * also "" when the component to place it against is unknown.
     */
    method AddComponentRelativeToAnother(menuId: string, layoutId: string, componentId: string, relativeToId: string,
                                         anchorPoint: string, offsetX: int, offsetY: int) returns (r: string)
      modifies this`RelativeLayouts
      ensures menuId !in Menus || layoutId !in old(RelativeLayouts) || componentId !in Components || relativeToId !in Components ==>
        r == "" && RelativeLayouts == old(RelativeLayouts)
      ensures menuId in Menus && layoutId in old(RelativeLayouts) && componentId in Components && relativeToId in Components ==>
        && r == componentId
        && RelativeLayouts == old(RelativeLayouts)[layoutId := RelativeLayout(old(RelativeLayouts)[layoutId].entries +
             [RelativeEntry(Components[componentId], Some(Components[relativeToId]), ParseAnchor(anchorPoint),
                            Xna.Vector2(offsetX as real, offsetY as real))])]
    {
      if menuId !in Menus || layoutId !in RelativeLayouts || componentId !in Components || relativeToId !in Components {
        return "";
      }
      var entry := RelativeEntry(Components[componentId], Some(Components[relativeToId]), ParseAnchor(anchorPoint),
                                 Xna.Vector2(offsetX as real, offsetY as real));
      RelativeLayouts := RelativeLayouts[layoutId := RelativeLayout(RelativeLayouts[layoutId].entries + [entry])];
      return componentId;
    }

    /** SetGlobalTooltipDelay: the configuration's tooltip delay is replaced. */
    method SetGlobalTooltipDelay(delay: int)
      modifies this`TooltipDelay
      ensures TooltipDelay == delay
    {
      TooltipDelay := delay;
    }

    /** The component of a registered menu with the given id, if both exist. */
    function MenuComponent(menuId: string, componentId: string): (r: Option<UC.Component>)
      reads this, Menus.Values
      ensures r.Some? ==> menuId in Menus && r.value in Menus[menuId].Components && r.value.Id == componentId
      ensures menuId in Menus && componentId != "" && componentId in UM.ComponentIds(Menus[menuId].Components) ==> r.Some?
    {
      if menuId in Menus then Menus[menuId].GetComponent(componentId) else None
    }

    /**
     * SetComponentTooltip: an unknown menu or component changes nothing;
     * otherwise the component's tooltip is replaced.
     */
    method SetComponentTooltip(menuId: string, componentId: string, tooltip: string)
      modifies if MenuComponent(menuId, componentId).Some? then {MenuComponent(menuId, componentId).value} else {}
      ensures var c := old(MenuComponent(menuId, componentId));
        c.Some? ==>
          && c.value.Tooltip == tooltip
          && unchanged(c.value`Position, c.value`Size, c.value`Visible, c.value`Enabled, c.value`IsHovered,
            c.value`IsPressed, c.value`HoverSoundName, c.value`ClickSoundName, c.value`Raised, c.value`Sounds,
            c.value`Text, c.value`TextColor, c.value`BackgroundColor, c.value`HoverColor, c.value`PressedColor,
            c.value`ButtonPressed, c.value`IsHovering)
      ensures old(MenuComponent(menuId, componentId)).None? ==>
        menuId in Menus ==> unchanged(Menus[menuId].Components)
    {
      if menuId !in Menus {
        return;
      }
      var component := Menus[menuId].GetComponent(componentId);
      if component.None? {
        return;
      }
      component.value.Tooltip := tooltip;
    }

    /**
     * SetButtonColors: an unknown menu, or a component that is missing or
     * not a button, changes nothing; otherwise each colour that is given
     * replaces the button's, and the others stay.
     */
    method SetButtonColors(menuId: string, buttonId: string, textColor: Option<UC.Color>, backgroundColor: Option<UC.Color>,
                           hoverColor: Option<UC.Color>, pressedColor: Option<UC.Color>)
      modifies if MenuComponent(menuId, buttonId).Some? then {MenuComponent(menuId, buttonId).value} else {}
      ensures var c := old(MenuComponent(menuId, buttonId));
        c.Some? && c.value.Kind == UC.ButtonKind ==>
          && c.value.TextColor == (if textColor.Some? then textColor.value else old(c.value.TextColor))
          && c.value.BackgroundColor == (if backgroundColor.Some? then backgroundColor.value else old(c.value.BackgroundColor))
          && c.value.HoverColor == (if hoverColor.Some? then hoverColor.value else old(c.value.HoverColor))
          && c.value.PressedColor == (if pressedColor.Some? then pressedColor.value else old(c.value.PressedColor))
          && unchanged(c.value`Position, c.value`Size, c.value`Visible, c.value`Enabled, c.value`Tooltip, c.value`IsHovered,
            c.value`IsPressed, c.value`HoverSoundName, c.value`ClickSoundName, c.value`Raised, c.value`Sounds,
            c.value`Text, c.value`ButtonPressed, c.value`IsHovering)
      ensures var c := old(MenuComponent(menuId, buttonId));
        !(c.Some? && c.value.Kind == UC.ButtonKind) ==> menuId in Menus ==> unchanged(Menus[menuId].Components)
    {
      if menuId !in Menus {
        return;
      }
      var component := Menus[menuId].GetComponent(buttonId);
      if component.None? || component.value.Kind != UC.ButtonKind {
        return;
      }
      var button := component.value;
      if textColor.Some? {
        button.TextColor := textColor.value;
      }
      if backgroundColor.Some? {
        button.BackgroundColor := backgroundColor.value;
      }
      if hoverColor.Some? {
        button.HoverColor := hoverColor.value;
      }
      if pressedColor.Some? {
        button.PressedColor := pressedColor.value;
      }
    }

    /**
     * SetLabelText: an unknown menu, or a component that is missing or not
     * a label, changes nothing; otherwise the label shows the new text.
     */
    method SetLabelText(menuId: string, labelId: string, text: string)
      modifies if MenuComponent(menuId, labelId).Some? then {MenuComponent(menuId, labelId).value} else {}
      ensures var c := old(MenuComponent(menuId, labelId));
        c.Some? && c.value.Kind == UC.LabelKind ==>
          && c.value.Text == text
          && unchanged(c.value`Position, c.value`Size, c.value`Visible, c.value`Enabled, c.value`Tooltip, c.value`IsHovered,
            c.value`IsPressed, c.value`HoverSoundName, c.value`ClickSoundName, c.value`Raised, c.value`Sounds,
            c.value`TextColor, c.value`BackgroundColor, c.value`HoverColor, c.value`PressedColor,
            c.value`ButtonPressed, c.value`IsHovering)
      ensures var c := old(MenuComponent(menuId, labelId));
        !(c.Some? && c.value.Kind == UC.LabelKind) ==> menuId in Menus ==> unchanged(Menus[menuId].Components)
    {
      if menuId !in Menus {
        return;
      }
      var component := Menus[menuId].GetComponent(labelId);
      if component.None? || component.value.Kind != UC.LabelKind {
        return;
      }
      component.value.Text := text;
    }

    /**
     * The first half of OnButtonPressed: the first menu, in enumeration
     * order, whose toggle key is the button is hidden if visible and shown
     * otherwise; no other menu changes.
     */
    method ToggleFirstMenu(button: UM.SButton) returns (toggled: Option<string>)
      requires Valid()
      modifies Menus.Values, Game
      ensures var i := FirstToggle(MenuOrder, Menus, button);
        toggled == (if i < 0 then None else Some(MenuOrder[i]))
      ensures toggled.Some? ==> Menus[toggled.value].Visible == !old(Menus[toggled.value].Visible)
      ensures forall id :: id in Menus && toggled != Some(id) ==> Menus[id].Visible == old(Menus[id].Visible)
    {
      toggled := None;
      var i := 0;
      while i < |MenuOrder|
        invariant 0 <= i <= |MenuOrder|
        invariant forall j :: 0 <= j < i ==> Menus[MenuOrder[j]].Config.ToggleKey != button
        invariant forall id :: id in Menus ==> Menus[id].Visible == old(Menus[id].Visible)
      {
        var menu := Menus[MenuOrder[i]];
        if menu.Config.ToggleKey == button {
          if menu.Visible {
            menu.Hide();
          } else {
            menu.Show();
          }
          toggled := Some(MenuOrder[i]);
          return;
        }
        i := i + 1;
      }
    }

    /** Runs a hotkey's action: showing a menu, or recording an external action. */
    method Run(action: Action)
      requires Valid()
      modifies Menus.Values, Game, this`Performed
      ensures action.External? ==> Performed == old(Performed) + [action.name]
      ensures action.ShowMenuAction? ==> Performed == old(Performed)
      ensures action.ShowMenuAction? && action.menuId in Menus ==>
        Menus[action.menuId].Visible && Game.ActiveMenu == Menus[action.menuId]
      ensures forall id :: id in Menus && action != ShowMenuAction(id) ==> Menus[id].Visible == old(Menus[id].Visible)
    {
      match action
      case ShowMenuAction(menuId) =>
        ShowMenu(menuId);
      case External(name) =>
        Performed := Performed + [name];
    }

    /**
     * The second half of OnButtonPressed: the action of the first hotkey, in
     * enumeration order, bound to the button is run, and no other.
     */
    method RunFirstHotkey(button: UM.SButton) returns (ran: Option<Action>)
      requires Valid()
      modifies Menus.Values, Game, this`Performed
      ensures var j := FirstHotkey(HotkeyOrder, Hotkeys, HotkeyActions, button);
        ran == (if j < 0 then None else Some(HotkeyActions[HotkeyOrder[j]]))
      ensures ran.None? || ran.value.ShowMenuAction? ==> Performed == old(Performed)
      ensures ran.Some? && ran.value.External? ==> Performed == old(Performed) + [ran.value.name]
      ensures ran.Some? && ran.value.ShowMenuAction? && ran.value.menuId in Menus ==>
        Menus[ran.value.menuId].Visible && Game.ActiveMenu == Menus[ran.value.menuId]
      ensures forall id :: id in Menus && ran != Some(ShowMenuAction(id)) ==> Menus[id].Visible == old(Menus[id].Visible)
    {
      ran := None;
      var i := 0;
      while i < |HotkeyOrder|
        invariant 0 <= i <= |HotkeyOrder|
        invariant forall j :: 0 <= j < i ==> !(Hotkeys[HotkeyOrder[j]] == button && HotkeyOrder[j] in HotkeyActions)
      {
        var key := HotkeyOrder[i];
        if Hotkeys[key] == button && key in HotkeyActions {
          var action := HotkeyActions[key];
          Run(action);
          ran := Some(action);
          return;
        }
        i := i + 1;
      }
    }

    /**
     * OnButtonPressed as written: outside a loaded world nothing happens;
     * otherwise the first menu with the button as its toggle key is toggled,
     * and then the first hotkey on the button runs as well.
     */
    method OnButtonPressedAsWritten(button: UM.SButton, worldReady: bool) returns (toggled: Option<string>, ran: Option<Action>)
      requires Valid()
      modifies Menus.Values, Game, this`Performed
      ensures !worldReady ==> toggled.None? && ran.None? && unchanged(Menus.Values) && Performed == old(Performed)
      ensures worldReady ==>
        var i := FirstToggle(MenuOrder, Menus, button);
        toggled == (if i < 0 then None else Some(MenuOrder[i]))
      ensures worldReady ==>
        var j := FirstHotkey(HotkeyOrder, Hotkeys, HotkeyActions, button);
        ran == (if j < 0 then None else Some(HotkeyActions[HotkeyOrder[j]]))
      ensures ran.Some? && ran.value.ShowMenuAction? && ran.value.menuId in Menus ==> Menus[ran.value.menuId].Visible
      ensures toggled.Some? && ran != Some(ShowMenuAction(toggled.value)) ==>
        Menus[toggled.value].Visible == !old(Menus[toggled.value].Visible)
    {
      toggled, ran := None, None;
      if !worldReady {
        return;
      }
      toggled := ToggleFirstMenu(button);
      ran := RunFirstHotkey(button);
    }

    /**
     * OnButtonPressed as evidently intended: the hotkeys are the "other"
     * keys, so they run only when the button toggled no menu, and the
     * toggle key of a menu always flips its visibility.
     */
    method OnButtonPressed(button: UM.SButton, worldReady: bool) returns (toggled: Option<string>, ran: Option<Action>)
      requires Valid()
      modifies Menus.Values, Game, this`Performed
      ensures !worldReady ==> toggled.None? && ran.None? && unchanged(Menus.Values) && Performed == old(Performed)
      ensures worldReady ==>
        var i := FirstToggle(MenuOrder, Menus, button);
        toggled == (if i < 0 then None else Some(MenuOrder[i]))
      ensures toggled.Some? ==> ran.None? && Performed == old(Performed)
      ensures toggled.Some? ==> Menus[toggled.value].Visible == !old(Menus[toggled.value].Visible)
      ensures worldReady && toggled.None? ==>
        var j := FirstHotkey(HotkeyOrder, Hotkeys, HotkeyActions, button);
        ran == (if j < 0 then None else Some(HotkeyActions[HotkeyOrder[j]]))
      ensures ran.Some? && ran.value.ShowMenuAction? && ran.value.menuId in Menus ==> Menus[ran.value.menuId].Visible
    {
      toggled, ran := None, None;
      if !worldReady {
        return;
      }
      toggled := ToggleFirstMenu(button);
      if toggled.None? {
        ran := RunFirstHotkey(button);
      }
    }
  }

  /**
   * The example mod's set-up: a menu "main" created with a toggle key,
   * registered (which binds its "Open" hotkey to the same key) and shown.
   */
  method OpenRegisteredMenu(key: UM.SButton) returns (api: StardewUIAPI, menu: UM.Menu)
    requires key != UM.NoButton
    ensures fresh(api) && fresh(menu) && fresh(api.Game)
    ensures api.Valid() && api.MenuOrder == ["main"] && api.Menus == map["main" := menu]
    ensures menu.Config.ToggleKey == key && menu.Visible
    ensures api.HotkeyOrder == ["Openmain"] && api.Hotkeys == map["Openmain" := key]
    ensures api.HotkeyActions == map["Openmain" := ShowMenuAction("main")]
  {
    var game := new UM.Game1(1280, 720);
    api := new StardewUIAPI(game, 500);
    var _ := api.CreateMenu("main", "", 600, 400, false, false, true, true, key);
    assert api.MenuOrder == ["main"];
    menu := api.Menus["main"];
    assert api.Menus == map["main" := menu];
    assert menu.Config.ToggleKey == key;
    api.RegisterMenu("main");
    assert "Open" + "main" == "Openmain";
    api.ShowMenu("main");
  }

  /**
   * A menu created with a toggle key and registered, as the example mod
   * does with F8, cannot be closed with that key: once it is open, the key
   * hides it and the "Open" hotkey on the same key shows it again.
   */
  method ToggleKeyReopensMenu() returns (visibleAfter: bool)
    ensures visibleAfter
  {
    var key := UM.Key(119);
    var api, menu := OpenRegisteredMenu(key);
    assert FirstHotkey(api.HotkeyOrder, api.Hotkeys, api.HotkeyActions, key) == 0;
    var _, ran := api.OnButtonPressedAsWritten(key, true);
    assert ran == Some(ShowMenuAction("main"));
    visibleAfter := menu.Visible;
  }

  /** With the intended routing, the same key press closes the menu. */
  method ToggleKeyClosesMenu() returns (visibleAfter: bool)
    ensures !visibleAfter
  {
    var key := UM.Key(119);
    var api, menu := OpenRegisteredMenu(key);
    assert FirstToggle(api.MenuOrder, api.Menus, key) == 0;
    var toggled, _ := api.OnButtonPressed(key, true);
    assert toggled == Some("main");
    visibleAfter := menu.Visible;
  }
}
