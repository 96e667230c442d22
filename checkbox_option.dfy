/**
 * CheckboxOption (ProfitCalculator/main/ui/CheckboxOption.cs): a check box
 * over one bool setting, the field Checked that the getter and setter reach.
 * A click inside the bounds toggles it; the overridden ExecuteClick does not
 * mark the option clicked.
 */
module CheckboxOption {
  import BO = BaseOption
  import Xna

  class CheckboxOption {
    const Base: BO.BaseOption
    /** What ValueGetter returns and ValueSetter stores. */
    var Checked: bool

    /** The bounds are four times the checked sprite's size, at (x, y). */
    constructor (x: int, y: int, checked: bool, spriteWidth: int, spriteHeight: int)
      ensures fresh(Base) && Base.Bounds == Xna.Rectangle(x, y, spriteWidth * 4, spriteHeight * 4)
      ensures !Base.Clicked && Checked == checked
    {
      var base := new BO.BaseOption(x, y, 0, 0);
      base.Bounds := base.Bounds.(width := spriteWidth * 4, height := spriteHeight * 4);
      Base := base;
      Checked := checked;
    }

    /** ExecuteClick: the setting takes the negation of its value (the sound is left out). */
    method ExecuteClick()
      modifies this
      ensures Checked == !old(Checked)
    {
      Checked := !Checked;
    }

    /**
     * ReceiveLeftClick, as BaseOption dispatches it: BeforeReceiveLeftClick
     * does nothing, and only a click inside the bounds toggles the setting.
     */
    method ReceiveLeftClick(x: int, y: int)
      modifies this
      ensures Checked == (if Base.ContainsPoint(x, y) then !old(Checked) else old(Checked))
      ensures Base.Clicked == old(Base.Clicked)
    {
      if Base.ContainsPoint(x, y) {
        ExecuteClick();
      }
    }
  }
}
