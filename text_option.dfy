/**
 * TextOption (ProfitCalculator/main/ui/TextOption.cs): a text box of the
 * calculator's menus. The getter and setter the menu passes in reach one
 * string setting, modelled as the field Value. Selecting the box makes it
 * the keyboard dispatcher's subscriber; deselecting it gives the
 * subscription up only when it still holds it.
 */
module TextOption {
  import BO = BaseOption
  import Xna

  /** Game1.keyboardDispatcher: the one object that receives typed text. */
  class KeyboardDispatcher {
    var Subscriber: object?

    constructor ()
      ensures Subscriber == null
    {
      Subscriber := null;
    }
  }

  /** The backspace command character. */
  const Backspace: char := '\U{8}'

  /** The value after a backspace: its last character removed, and an empty value kept. */
  function Backspaced(v: string): (r: string)
    ensures |v| == 0 ==> r == v
    ensures |v| > 0 ==> |r| == |v| - 1 && r == v[..|r|]
  {
    if |v| > 0 then v[..|v| - 1] else v
  }

  /** A backspace undoes the character typed last. */
  lemma BackspaceUndoesTyping(v: string, c: char)
    ensures Backspaced(v + [c]) == v
  {
    assert (v + [c])[..|v|] == v;
  }

  class TextOption {
    const Base: BO.BaseOption
    const Keyboard: KeyboardDispatcher
    var SelectedImpl: bool
    /** What ValueGetter returns and ValueSetter stores. */
    var Value: string

    /** The base bounds (x, y, 192, 48), resized by SetTexture to the text box texture's size. */
    constructor (x: int, y: int, value: string, keyboard: KeyboardDispatcher, textureWidth: int, textureHeight: int)
      ensures fresh(Base) && Base.Bounds == Xna.Rectangle(x, y, textureWidth, textureHeight) && !Base.Clicked
      ensures Keyboard == keyboard && !SelectedImpl && Value == value
    {
      var base := new BO.BaseOption(x, y, 192, 48);
      base.Bounds := base.Bounds.(width := textureWidth, height := textureHeight);
      Base := base;
      Keyboard := keyboard;
      SelectedImpl := false;
      Value := value;
    }

    /** SetTexture: the bounds take the texture's size and keep their corner. */
    method SetTexture(textureWidth: int, textureHeight: int)
      modifies Base
      ensures Base.Bounds == old(Base.Bounds).(width := textureWidth, height := textureHeight)
      ensures Base.Clicked == old(Base.Clicked)
    {
      Base.Bounds := Base.Bounds.(width := textureWidth, height := textureHeight);
    }

    /**
     * The Selected setter: nothing happens when the value is unchanged;
     * selecting subscribes this box, deselecting unsubscribes it only when it
     * is the current subscriber.
     */
    method SetSelected(value: bool)
      modifies this, Keyboard
      ensures SelectedImpl == value && Value == old(Value)
      ensures old(SelectedImpl) == value ==> Keyboard.Subscriber == old(Keyboard.Subscriber)
      ensures old(SelectedImpl) != value && value ==> Keyboard.Subscriber == this
      ensures old(SelectedImpl) != value && !value ==>
        Keyboard.Subscriber == (if old(Keyboard.Subscriber) == this then null else old(Keyboard.Subscriber))
    {
      if SelectedImpl == value {
        return;
      }
      SelectedImpl := value;
      if SelectedImpl {
        Keyboard.Subscriber := this;
      } else if Keyboard.Subscriber == this {
        Keyboard.Subscriber := null;
      }
    }

    /** ReceiveInput: the text is appended to the value. */
    method ReceiveInput(str: string)
      modifies this
      ensures Value == old(Value) + str && SelectedImpl == old(SelectedImpl)
    {
      Value := Value + str;
    }

    /** RecieveTextInput(char): the character, as text, goes to ReceiveInput (the sounds are left out). */
    method RecieveTextInputChar(inputChar: char)
      modifies this
      ensures Value == old(Value) + [inputChar] && SelectedImpl == old(SelectedImpl)
    {
      ReceiveInput([inputChar]);
    }

    /** RecieveTextInput(string): the text goes to ReceiveInput. */
    method RecieveTextInput(text: string)
      modifies this
      ensures Value == old(Value) + text && SelectedImpl == old(SelectedImpl)
    {
      ReceiveInput(text);
    }

    /** RecieveCommandInput: a backspace on a non-empty value removes its last character; other commands do nothing. */
    method RecieveCommandInput(command: char)
      modifies this
      ensures command == Backspace ==> Value == Backspaced(old(Value))
      ensures command != Backspace ==> Value == old(Value)
      ensures SelectedImpl == old(SelectedImpl)
    {
      if command == Backspace && |Value| > 0 {
        Value := Value[..|Value| - 1];
      }
    }

    /** BeforeReceiveLeftClick: a click outside a selected box deselects it. */
    method BeforeReceiveLeftClick(x: int, y: int)
      modifies this, Keyboard
      ensures SelectedImpl == (old(SelectedImpl) && Base.ContainsPoint(x, y))
      ensures old(SelectedImpl) && !Base.ContainsPoint(x, y) ==>
        Keyboard.Subscriber == (if old(Keyboard.Subscriber) == this then null else old(Keyboard.Subscriber))
      ensures !(old(SelectedImpl) && !Base.ContainsPoint(x, y)) ==> Keyboard.Subscriber == old(Keyboard.Subscriber)
      ensures Value == old(Value)
    {
      if SelectedImpl && !Base.ContainsPoint(x, y) {
        SetSelected(false);
      }
    }

    /**
     * ExecuteClick: the box is marked clicked and selected; it becomes the
     * keyboard's subscriber unless it was selected already.
     */
    method ExecuteClick()
      modifies this, Base, Keyboard
      ensures Base.Clicked && SelectedImpl
      ensures !old(SelectedImpl) ==> Keyboard.Subscriber == this
      ensures old(SelectedImpl) ==> Keyboard.Subscriber == old(Keyboard.Subscriber)
      ensures Base.Bounds == old(Base.Bounds) && Value == old(Value)
    {
      Base.ExecuteClick();
      SetSelected(true);
    }

    /** ReceiveLeftClick, as BaseOption dispatches it: BeforeReceiveLeftClick, then ExecuteClick for a click inside. */
    method ReceiveLeftClick(x: int, y: int)
      modifies this, Base, Keyboard
      ensures Base.ContainsPoint(x, y) ==> Base.Clicked && SelectedImpl
      ensures Base.ContainsPoint(x, y) && !old(SelectedImpl) ==> Keyboard.Subscriber == this
      ensures !Base.ContainsPoint(x, y) ==> !SelectedImpl && Base.Clicked == old(Base.Clicked)
      ensures Base.Bounds == old(Base.Bounds) && Value == old(Value)
    {
      BeforeReceiveLeftClick(x, y);
      if Base.ContainsPoint(x, y) {
        ExecuteClick();
      }
    }
  }
}
