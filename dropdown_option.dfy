/**
 * DropdownOption (ProfitCalculator/main/ui/DropdownOption.cs): a drop-down
 * list of choices. The active choice indexes Choices and Labels; the list
 * opens after a click, shows MaxValuesAtOnce choices from ActivePosition on,
 * and only one drop-down is the active one at a time (the static
 * ActiveDropdown, held here by a shared ActiveDropdownSlot). What the value
 * setter stores is the field Setting; the mouse and game-pad state Update
 * reads and the viewport height are parameters.
 */
module DropdownOption {
  import opened Wrappers
  import Numeric
  import Seqs
  import Xna
  import BO = BaseOption

  /** DropdownOption.ActiveDropdown: the drop-down that is open, if any. */
  class ActiveDropdownSlot {
    var Active: object?

    constructor ()
      ensures Active == null
    {
      Active := null;
    }
  }

  /** The height of one row of the box. */
  const DropDownBoxHeight: int := 44

  class DropdownOption {
    const Base: BO.BaseOption
    const Shared: ActiveDropdownSlot
    var RequestWidth: int
    var MaxValuesAtOnce: int
    var ActiveChoice: int
    var ActivePosition: int
    var Choices: seq<string>
    var Labels: seq<string>
    /** What ValueSetter stores. */
    var Setting: string
    var Dropped: bool

    /** DropDownBoxWidth: Max(300, Min(300, RequestWidth)), which is 300 whatever the request. */
    function DropDownBoxWidth(): (w: int)
      reads this
      ensures w == 300
    {
      Numeric.Max(300, Numeric.Min(300, RequestWidth))
    }

    /**
     * The constructor: the active choice is the index of the setting's value
     * among the choices (-1 when it is not one), and the bounds are one row
     * of the box.
     */
    constructor (x: int, y: int, choices: seq<string>, labels: seq<string>, value: string, shared: ActiveDropdownSlot)
      ensures fresh(Base) && Shared == shared
      ensures Choices == choices && Labels == labels && Setting == value
      ensures ActiveChoice == Seqs.IndexOf(choices, value)
      ensures Base.Bounds == Xna.Rectangle(x, y, 300, DropDownBoxHeight) && !Base.Clicked
      ensures MaxValuesAtOnce == 5 && RequestWidth == 0 && ActivePosition == 0 && !Dropped
      ensures value in choices <==> Value().Ok?
      ensures value in choices ==> Value() == Ok(value)
    {
      var base := new BO.BaseOption(x, y, 0, 0);
      Base := base;
      Shared := shared;
      RequestWidth := 0;
      MaxValuesAtOnce := 5;
      ActivePosition := 0;
      Dropped := false;
      Choices := choices;
      Labels := labels;
      Setting := value;
      ActiveChoice := Seqs.IndexOf(choices, value);
      new;
      base.Bounds := base.Bounds.(width := DropDownBoxWidth(), height := DropDownBoxHeight);
    }

    /** The Value getter: Choices[ActiveChoice], which throws outside the array. */
    function Value(): (r: Result<string>)
      reads this
      ensures r.Ok? <==> 0 <= ActiveChoice < |Choices|
      ensures r.Throws? ==> r.error == IndexOutOfRange
    {
      if 0 <= ActiveChoice < |Choices| then Ok(Choices[ActiveChoice]) else Throws(IndexOutOfRange)
    }

    /** The Label getter: Labels[ActiveChoice], which throws outside the array. */
    function Label(): (r: Result<string>)
      reads this
      ensures r.Ok? <==> 0 <= ActiveChoice < |Labels|
      ensures r.Throws? ==> r.error == IndexOutOfRange
    {
      if 0 <= ActiveChoice < |Labels| then Ok(Labels[ActiveChoice]) else Throws(IndexOutOfRange)
    }

    /** The Value setter: a value among the choices becomes the active one and reads back; any other value is ignored. */
    method SetValue(value: string)
      modifies this
      ensures value in Choices ==> ActiveChoice == Seqs.IndexOf(Choices, value) && Value() == Ok(value)
      ensures value !in Choices ==> ActiveChoice == old(ActiveChoice)
      ensures Choices == old(Choices) && Labels == old(Labels) && Setting == old(Setting)
      ensures ActivePosition == old(ActivePosition) && Dropped == old(Dropped)
    {
      if value in Choices {
        ActiveChoice := Seqs.IndexOf(Choices, value);
      }
    }

    /** The top of the open list: its own row, raised so that the visible rows fit in the viewport. */
    static function ListTop(y: int, viewportHeight: int, maxValues: int, count: int, position: int): int
    {
      Numeric.Min(y, viewportHeight - Numeric.Min(maxValues, count - position) * DropDownBoxHeight)
    }

    /** The open list's area: MaxValuesAtOnce rows from the list's top. */
    static function ListArea(x: int, top: int, maxValues: int): Xna.Rectangle
    {
      Xna.Rectangle(x, top, 300, DropDownBoxHeight * maxValues)
    }

    /**
     * A point in the open list picks a row the list shows: when the visible
     * rows all hold choices (as with the calculator's menus, which set
     * MaxValuesAtOnce to the number of choices), the hovered choice exists.
     */
    static lemma HoverPicksChoice(x: int, top: int, maxValues: int, count: int, position: int, mouseX: int, mouseY: int)
      requires Xna.Contains(ListArea(x, top, maxValues), mouseX, mouseY)
      requires 0 <= position && position + maxValues <= count
      ensures 0 <= (mouseY - top) / DropDownBoxHeight < maxValues
      ensures 0 <= (mouseY - top) / DropDownBoxHeight + position < count
    {
    }

    /**
     * The first visible row after a scroll of the wheel: moved back by
     * direction / 120 (truncated toward zero), kept at 0 or above, then at
     * count - maxValues or below.
     */
    static function ScrolledPosition(position: int, direction: int, count: int, maxValues: int): (p: int)
      ensures p <= count - maxValues
      ensures count >= maxValues ==> 0 <= p
      ensures 0 <= position <= count - maxValues && -120 < direction < 120 ==> p == position
      ensures 0 <= position - 1 && position <= count - maxValues && 120 <= direction < 240 ==> p == position - 1
      ensures 0 <= position && position + 1 <= count - maxValues && -240 < direction <= -120 ==> p == position + 1
    {
      Numeric.Min(Numeric.Max(position - Numeric.CDiv(direction, 120), 0), count - maxValues)
    }

    /** Whether Update treats the list as open: it was dropped, or it was clicked while no drop-down is active. */
    static predicate Opens(clicked: bool, active: object?, dropped: bool)
    {
      dropped || (clicked && active == null)
    }

    /**
     * Update. A click while no drop-down is active opens this one. An open
     * list closes on a fresh press unless it opened in this very update; the
     * row under the mouse becomes the active choice and is stored, which
     * throws when the row is past the last choice; and the list becomes the
     * active drop-down. A closed list gives up the active slot and moves its
     * first visible row to Min(ActiveChoice, |Choices| - MaxValuesAtOnce).
     */
    method Update(pressed: bool, mouseX: int, mouseY: int, viewportHeight: int) returns (r: Result<()>)
      modifies this, Shared
      ensures Choices == old(Choices) && Labels == old(Labels) && MaxValuesAtOnce == old(MaxValuesAtOnce)
      ensures Opens(old(Base.Clicked), old(Shared.Active), old(Dropped)) ==>
        Dropped == ((old(Base.Clicked) && old(Shared.Active) == null) || !pressed) && ActivePosition == old(ActivePosition)
      ensures Opens(old(Base.Clicked), old(Shared.Active), old(Dropped)) && !Xna.Contains(ListArea(Base.Bounds.x, ListTop(Base.Bounds.y, viewportHeight, MaxValuesAtOnce, |Choices|, ActivePosition), MaxValuesAtOnce), mouseX, mouseY) ==>
        r == Ok(()) && ActiveChoice == old(ActiveChoice) && Setting == old(Setting) && Shared.Active == this
      ensures Opens(old(Base.Clicked), old(Shared.Active), old(Dropped)) && Xna.Contains(ListArea(Base.Bounds.x, ListTop(Base.Bounds.y, viewportHeight, MaxValuesAtOnce, |Choices|, ActivePosition), MaxValuesAtOnce), mouseX, mouseY) ==>
        ActiveChoice == (mouseY - ListTop(Base.Bounds.y, viewportHeight, MaxValuesAtOnce, |Choices|, ActivePosition)) / DropDownBoxHeight + ActivePosition
      ensures Opens(old(Base.Clicked), old(Shared.Active), old(Dropped)) && Xna.Contains(ListArea(Base.Bounds.x, ListTop(Base.Bounds.y, viewportHeight, MaxValuesAtOnce, |Choices|, ActivePosition), MaxValuesAtOnce), mouseX, mouseY) ==>
        (r.Ok? <==> Value().Ok?) && (r.Ok? ==> Value() == Ok(Setting) && Shared.Active == this)
      ensures r.Throws? ==> r.error == IndexOutOfRange && Setting == old(Setting)
      ensures !Opens(old(Base.Clicked), old(Shared.Active), old(Dropped)) ==>
        r == Ok(()) && !Dropped && ActiveChoice == old(ActiveChoice) && Setting == old(Setting)
      ensures !Opens(old(Base.Clicked), old(Shared.Active), old(Dropped)) ==>
        ActivePosition == Numeric.Min(ActiveChoice, |Choices| - MaxValuesAtOnce)
      ensures !Opens(old(Base.Clicked), old(Shared.Active), old(Dropped)) ==>
        Shared.Active == (if old(Shared.Active) == this then null else old(Shared.Active))
    {
      var justClicked := false;
      if Base.Clicked && Shared.Active == null {
        justClicked := true;
        Dropped := true;
      }
      if Dropped {
        if pressed && !justClicked {
          Dropped := false;
        }
        var drawY := ListTop(Base.Bounds.y, viewportHeight, MaxValuesAtOnce, |Choices|, ActivePosition);
        var area := ListArea(Base.Bounds.x, drawY, MaxValuesAtOnce);
        if Xna.Contains(area, mouseX, mouseY) {
          var choice := (mouseY - drawY) / DropDownBoxHeight;
          ActiveChoice := choice + ActivePosition;
          if !(0 <= ActiveChoice < |Choices|) {
            return Throws(IndexOutOfRange);
          }
          Setting := Choices[ActiveChoice];
        }
        Shared.Active := this;
      } else {
        if Shared.Active == this {
          Shared.Active := null;
        }
        ActivePosition := Numeric.Min(ActiveChoice, |Choices| - MaxValuesAtOnce);
      }
      return Ok(());
    }

    /**
     * ReceiveScrollWheelAction: an open list moves its first visible row by
     * direction / 120 (truncated), kept at 0 or above and then at
     * |Choices| - MaxValuesAtOnce or below; a closed one clears the active slot.
     */
    method ReceiveScrollWheelAction(direction: int)
      modifies this, Shared
      ensures old(Dropped) ==> ActivePosition == ScrolledPosition(old(ActivePosition), direction, |Choices|, MaxValuesAtOnce)
      ensures old(Dropped) ==> Shared.Active == old(Shared.Active)
      ensures !old(Dropped) ==> Shared.Active == null && ActivePosition == old(ActivePosition)
      ensures Dropped == old(Dropped) && ActiveChoice == old(ActiveChoice) && Choices == old(Choices)
    {
      if Dropped {
        ActivePosition := ScrolledPosition(ActivePosition, direction, |Choices|, MaxValuesAtOnce);
      } else {
        Shared.Active := null;
      }
    }

    /**
     * ReceiveLeftClick (overriding BaseOption's dispatch): a click inside a
     * closed, unclicked box executes the click; otherwise an open or clicked
     * box closes, forgets the click and stops the click from spreading.
     * The result says whether stopSpread was called.
     */
    method ReceiveLeftClick(x: int, y: int) returns (stopSpread: bool)
      modifies this, Base
      ensures var opens := old(Base.ContainsPoint(x, y)) && !old(Dropped) && !old(Base.Clicked);
        && (opens ==> Base.Clicked && Dropped == old(Dropped) && !stopSpread)
        && (!opens && (old(Dropped) || old(Base.Clicked)) ==> !Dropped && !Base.Clicked && stopSpread)
        && (!opens && !old(Dropped) && !old(Base.Clicked) ==> !Dropped && !Base.Clicked && !stopSpread)
      ensures Base.Bounds == old(Base.Bounds) && ActiveChoice == old(ActiveChoice) && Setting == old(Setting)
    {
      stopSpread := false;
      if Base.ContainsPoint(x, y) && !Dropped && !Base.Clicked {
        Base.ExecuteClick();
      } else if Dropped || Base.Clicked {
        Dropped := false;
        Base.Clicked := false;
        stopSpread := true;
      }
    }
  }
}
