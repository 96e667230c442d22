/**
 * The UI framework's components (UIFramework/Components): BaseComponent's
 * shared state, BaseClickableComponent's hover and click events, and Button.
 * C# dispatches the virtual members by the component's class; here a
 * component's Kind picks the behaviour. Labels and text inputs are kept as
 * passive components: only buttons take part in clicks and hovers.
 * The events a component raises and the sounds it plays are recorded, in
 * order, in Raised and Sounds.
 */
module UiComponents {
  import opened Wrappers
  import Xna

  datatype MouseButton = Left | Right | Middle

  /** Which of the component's events was raised: Clicked, RightClicked or Hovered. */
  datatype EventKind = ClickedEvent | RightClickedEvent | HoveredEvent

  /** ClickEventArgs: where and with which button. */
  datatype ClickEventArgs = ClickEventArgs(kind: EventKind, x: int, y: int, button: MouseButton)

  datatype Color = Color(r: int, g: int, b: int)

  const White: Color := Color(255, 255, 255)
  const Gray: Color := Color(128, 128, 128)
  const LightGray: Color := Color(211, 211, 211)
  /** Game1.textColor, the game's dark text colour. */
  const GameTextColor: Color := Color(34, 17, 34)

  /** The component classes the framework creates: Button, Label and TextInput. */
  datatype ComponentKind = ButtonKind | LabelKind | TextInputKind

  /** The sound a button plays the first time it is hovered. */
  const HoverSound: string := "hover"

  class Component {
    const Kind: ComponentKind
    const Id: string
    var Position: Xna.Vector2
    var Size: Xna.Vector2
    var Visible: bool
    var Enabled: bool
    var Tooltip: string
    /** BaseClickableComponent's _isHovered and _isPressed. */
    var IsHovered: bool
    var IsPressed: bool
    var HoverSoundName: string
    var ClickSoundName: string
    /** The events raised so far, in order. */
    var Raised: seq<ClickEventArgs>
    /** The sounds played so far, in order. */
    var Sounds: seq<string>
    /** Button's own state: its label, colours and the private isPressed and isHovering. */
    var Text: string
    var TextColor: Color
    var BackgroundColor: Color
    var HoverColor: Color
    var PressedColor: Color
    var ButtonPressed: bool
    var IsHovering: bool

    /** Whether the component is a BaseClickableComponent the menus route clicks and hovers to. */
    predicate IsClickable()
    {
      Kind == ButtonKind
    }

    /** The Button constructor: visible, enabled, the default sounds and colours, not pressed and not hovered. */
    constructor Button(id: string, position: Xna.Vector2, size: Xna.Vector2, text: string)
      ensures Kind == ButtonKind && Id == id && Position == position && Size == size && Text == text
      ensures Visible && Enabled && Tooltip == ""
      ensures !IsHovered && !IsPressed && !ButtonPressed && !IsHovering
      ensures HoverSoundName == "smallSelect" && ClickSoundName == "bigClick"
      ensures HoverColor == LightGray && PressedColor == Gray && TextColor == GameTextColor && BackgroundColor == White
      ensures Raised == [] && Sounds == []
    {
      Kind := ButtonKind;
      Id := id;
      Position := position;
      Size := size;
      Text := text;
      Visible := true;
      Enabled := true;
      Tooltip := "";
      IsHovered := false;
      IsPressed := false;
      ButtonPressed := false;
      IsHovering := false;
      HoverSoundName := "smallSelect";
      ClickSoundName := "bigClick";
      HoverColor := LightGray;
      PressedColor := Gray;
      TextColor := GameTextColor;
      BackgroundColor := White;
      Raised := [];
      Sounds := [];
    }

    /** A Label or TextInput: visible and enabled, with its text. */
    constructor Passive(kind: ComponentKind, id: string, position: Xna.Vector2, size: Xna.Vector2, text: string)
      requires kind != ButtonKind
      ensures Kind == kind && Id == id && Position == position && Size == size && Text == text
      ensures Visible && Enabled && Tooltip == "" && !IsHovered && !IsPressed && !IsHovering && !ButtonPressed
      ensures Raised == [] && Sounds == []
    {
      Kind := kind;
      Id := id;
      Position := position;
      Size := size;
      Text := text;
      Visible := true;
      Enabled := true;
      Tooltip := "";
      IsHovered := false;
      IsPressed := false;
      ButtonPressed := false;
      IsHovering := false;
      HoverSoundName := "smallSelect";
      ClickSoundName := "bigClick";
      HoverColor := LightGray;
      PressedColor := Gray;
      TextColor := GameTextColor;
      BackgroundColor := White;
      Raised := [];
      Sounds := [];
    }

    /** Button.Contains: the rectangle with both edges inside, on either axis. */
    predicate Contains(x: int, y: int): (r: bool)
      reads this
      ensures r ==> Size.x >= 0.0 && Size.y >= 0.0
      ensures x as real == Position.x + Size.x && y as real == Position.y + Size.y && Size.x >= 0.0 && Size.y >= 0.0 ==> r
    {
      && Position.x <= x as real <= Position.x + Size.x
      && Position.y <= y as real <= Position.y + Size.y
    }

    /**
     * Button.OnClick: a hidden or disabled button ignores the click;
     * otherwise it is marked pressed, plays its click sound when it has one,
     * and raises Clicked with the left button. The mark is the inherited
     * _isPressed, not the isPressed Draw reads, so the box keeps its colour.
     */
    method OnClick(x: int, y: int)
      modifies this
      ensures !old(Enabled && Visible) ==> Raised == old(Raised) && Sounds == old(Sounds) && IsPressed == old(IsPressed)
      ensures old(Enabled && Visible) ==> IsPressed
      ensures old(Enabled && Visible) ==> Raised == old(Raised) + [ClickEventArgs(ClickedEvent, x, y, Left)]
      ensures old(Enabled && Visible) ==> Sounds == old(Sounds) + (if ClickSoundName == "" then [] else [ClickSoundName])
      ensures ButtonPressed == old(ButtonPressed) && IsHovering == old(IsHovering) && IsHovered == old(IsHovered)
      ensures Position == old(Position) && Size == old(Size) && Visible == old(Visible) && Enabled == old(Enabled)
      ensures ClickSoundName == old(ClickSoundName) && HoverColor == old(HoverColor) && PressedColor == old(PressedColor)
      ensures BoxColor() == old(BoxColor())
    {
      if !Enabled || !Visible {
        return;
      }
      IsPressed := true;
      if ClickSoundName != "" {
        Sounds := Sounds + [ClickSoundName];
      }
      Raised := Raised + [ClickEventArgs(ClickedEvent, x, y, Left)];
    }

    /** Button.OnRightClick: the same guard and sound, raising RightClicked with the right button; it does not mark the button pressed. */
    method OnRightClick(x: int, y: int)
      modifies this
      ensures !old(Enabled && Visible) ==> Raised == old(Raised) && Sounds == old(Sounds)
      ensures old(Enabled && Visible) ==> Raised == old(Raised) + [ClickEventArgs(RightClickedEvent, x, y, Right)]
      ensures old(Enabled && Visible) ==> Sounds == old(Sounds) + (if ClickSoundName == "" then [] else [ClickSoundName])
      ensures IsPressed == old(IsPressed) && ButtonPressed == old(ButtonPressed) && IsHovering == old(IsHovering) && IsHovered == old(IsHovered)
      ensures Position == old(Position) && Size == old(Size) && Visible == old(Visible) && Enabled == old(Enabled)
      ensures ClickSoundName == old(ClickSoundName)
    {
      if !Enabled || !Visible {
        return;
      }
      if ClickSoundName != "" {
        Sounds := Sounds + [ClickSoundName];
      }
      Raised := Raised + [ClickEventArgs(RightClickedEvent, x, y, Right)];
    }

    /**
     * Button.OnHover: a hidden or disabled button ignores it; otherwise the
     * hover sound plays only when the button was not hovering yet, the
     * button is hovering from then on, and Hovered is raised.
     */
    method OnHover(x: int, y: int)
      modifies this
      ensures !old(Enabled && Visible) ==> Raised == old(Raised) && Sounds == old(Sounds) && IsHovering == old(IsHovering)
      ensures old(Enabled && Visible) ==> IsHovering
      ensures old(Enabled && Visible) ==> Sounds == old(Sounds) + (if old(IsHovering) then [] else [HoverSound])
      ensures old(Enabled && Visible) ==> Raised == old(Raised) + [ClickEventArgs(HoveredEvent, x, y, Left)]
      ensures IsPressed == old(IsPressed) && ButtonPressed == old(ButtonPressed) && IsHovered == old(IsHovered)
      ensures Position == old(Position) && Size == old(Size) && Visible == old(Visible) && Enabled == old(Enabled)
    {
      if !Enabled || !Visible {
        return;
      }
      if !IsHovering && Enabled {
        Sounds := Sounds + [HoverSound];
      }
      IsHovering := true;
      Raised := Raised + [ClickEventArgs(HoveredEvent, x, y, Left)];
    }

    /**
     * BaseClickableComponent.Update as a button runs it: hovered is
     * Enabled and Visible and the mouse inside, and OnHover fires only when
     * hovered turns from false to true. The other components' Update is not
     * part of this model and changes nothing here.
     */
    method Update(mouseX: int, mouseY: int)
      modifies this
      ensures Kind == ButtonKind ==> IsHovered == (Enabled && Visible && Contains(mouseX, mouseY))
      ensures Kind == ButtonKind && IsHovered && !old(IsHovered) ==>
        Raised == old(Raised) + [ClickEventArgs(HoveredEvent, mouseX, mouseY, Left)] && IsHovering
        && Sounds == old(Sounds) + (if old(IsHovering) then [] else [HoverSound])
      ensures !(Kind == ButtonKind && IsHovered && !old(IsHovered)) ==>
        Raised == old(Raised) && Sounds == old(Sounds) && IsHovering == old(IsHovering)
      ensures Kind != ButtonKind ==> IsHovered == old(IsHovered)
      ensures IsPressed == old(IsPressed) && ButtonPressed == old(ButtonPressed)
      ensures Position == old(Position) && Size == old(Size) && Visible == old(Visible) && Enabled == old(Enabled)
    {
      if Kind != ButtonKind {
        return;
      }
      var wasHovered := IsHovered;
      IsHovered := Enabled && Visible && Contains(mouseX, mouseY);
      if IsHovered && !wasHovered {
        OnHover(mouseX, mouseY);
      }
    }

    /** OnReleased: the press ends. */
    method OnReleased()
      modifies this
      ensures !IsPressed
      ensures ButtonPressed == old(ButtonPressed) && IsHovering == old(IsHovering) && Raised == old(Raised) && Sounds == old(Sounds)
      ensures Position == old(Position) && Size == old(Size) && Visible == old(Visible) && Enabled == old(Enabled)
    {
      IsPressed := false;
    }

    /** SetSounds: both sound names are stored. */
    method SetSounds(hoverSound: string, clickSound: string)
      modifies this
      ensures HoverSoundName == hoverSound && ClickSoundName == clickSound
      ensures IsPressed == old(IsPressed) && IsHovering == old(IsHovering) && Raised == old(Raised) && Sounds == old(Sounds)
      ensures Position == old(Position) && Size == old(Size) && Visible == old(Visible) && Enabled == old(Enabled)
    {
      HoverSoundName := hoverSound;
      ClickSoundName := clickSound;
    }

    /**
     * The colour Button.Draw gives its box, None when it draws nothing:
     * disabled grey first, then PressedColor when the private isPressed is
     * set, then HoverColor while hovering, else white.
     */
    function BoxColor(): (c: Option<Color>)
      reads this
      ensures c.None? <==> !Visible
      ensures Visible && !Enabled ==> c == Some(Gray)
      ensures Visible && Enabled && !ButtonPressed ==> c == Some(if IsHovering then HoverColor else White)
    {
      if !Visible then None
      else if !Enabled then Some(Gray)
      else if ButtonPressed then Some(PressedColor)
      else if IsHovering then Some(HoverColor)
      else Some(White)
    }
  }
}
