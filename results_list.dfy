/**
 * ProfitCalculatorResultsList (ProfitCalculator/main/ui/menus/ProfitCalculatorResultsList.cs):
 * the menu that pages through the calculated crops, six at a time. The index
 * of the first shown crop moves with the arrow keys, the mouse wheel, the
 * arrow buttons and the scroll bar, and stays between 0 and
 * max(0, count - 6). The menu's position on screen and the game's layout
 * constants (IClickableMenu's border sizes, Game1.tileSize) are inputs.
 */
module ResultsList {
  import opened Wrappers
  import Numeric
  import Xna
  import CI = CropInfo

  /** maxOptions: the number of crops one page shows. */
  const MaxOptions: int := 6

  /** IClickableMenu.borderWidth, spaceToClearSideBorder, spaceToClearTopBorder and Game1.tileSize. */
  datatype Metrics = Metrics(borderWidth: int, sideBorder: int, topBorder: int, tileSize: int)

  /** widthOnScreen and heightOnScreen. */
  function WidthOnScreen(m: Metrics): int { 632 + m.borderWidth * 2 }
  function HeightOnScreen(m: Metrics): int { 600 + m.borderWidth * 2 + m.tileSize }

  /** One entry of OptionSlots: a Vector4 (x, y, width, height) whose float components hold whole numbers. */
  datatype Slot = Slot(x: int, y: int, z: int, w: int)

  /** The i-th option slot of a menu whose corner is (x, y). */
  function SlotAt(m: Metrics, x: int, y: int, i: int): Slot
  {
    Slot(
      x + m.sideBorder + m.borderWidth + 10,
      y + m.topBorder + 5 + m.tileSize / 2 - m.tileSize / 4 + (m.tileSize + m.tileSize / 2) * i,
      WidthOnScreen(m) - (m.sideBorder + m.borderWidth + 10) * 2,
      m.tileSize + m.tileSize / 2)
  }

  /** The six slots stack without gaps: each one starts where the one before it ends. */
  lemma {:induction false} SlotsStack(m: Metrics, x: int, y: int, i: int)
    ensures SlotAt(m, x, y, i + 1).y == SlotAt(m, x, y, i).y + SlotAt(m, x, y, i).w
    ensures SlotAt(m, x, y, i + 1).x == SlotAt(m, x, y, i).x && SlotAt(m, x, y, i + 1).z == SlotAt(m, x, y, i).z
  {
    var h := m.tileSize + m.tileSize / 2;
    assert h * (i + 1) == h * i + h;
  }

  /** The scroll bar's parts: the two arrow buttons, the bar's track and the bar itself. */
  datatype ScrollParts = ScrollParts(UpArrow: Xna.Rectangle, DownArrow: Xna.Rectangle, ScrollBarBounds: Xna.Rectangle, ScrollBar: Xna.Rectangle)

  /** The scroll bar's parts for a menu whose corner is (x, y), as the constructor and gameWindowSizeChanged lay them out. */
  function PartsAt(m: Metrics, x: int, y: int): (p: ScrollParts)
    ensures p.ScrollBarBounds.y == p.UpArrow.y + p.UpArrow.height + 4
    ensures p.ScrollBarBounds.y + p.ScrollBarBounds.height == p.DownArrow.y - 4
    ensures p.ScrollBar.y == p.ScrollBarBounds.y && p.ScrollBar.height == 40
  {
    var scrollbarX := x + WidthOnScreen(m);
    var up := Xna.Rectangle(scrollbarX, y + m.tileSize + m.tileSize / 3, 44, 48);
    var down := Xna.Rectangle(scrollbarX, y + HeightOnScreen(m) - 64, 44, 48);
    var trackY := up.y + up.height + 4;
    var track := Xna.Rectangle(up.x + 12, trackY, 24, down.y - 4 - trackY);
    ScrollParts(up, down, track, Xna.Rectangle(track.x, track.y, 24, 40))
  }

  /** The largest index of the first shown crop. */
  function MaxIndex(count: int): int { Numeric.Max(0, count - MaxOptions) }

  /**
   * The crops a page shows, by index, for the first shown index and the
   * number of crops: up to min(6, count) consecutive indices, stopping at
   * the end of the list; a negative index into a non-empty list throws.
   */
  function Window(index: int, count: nat): (r: Result<seq<int>>)
    ensures r.Throws? <==> 0 < count && index < 0
    ensures r.Throws? ==> r.error == ArgumentOutOfRange
    ensures r.Ok? ==> |r.value| == (if index < 0 then 0 else Numeric.Max(0, Numeric.Min(MaxOptions, count - index)))
    ensures r.Ok? ==> forall k :: 0 <= k < |r.value| ==> r.value[k] == index + k && 0 <= r.value[k] < count
  {
    if 0 < count && index < 0 then Throws(ArgumentOutOfRange)
    else if index < 0 then Ok([])
    else Ok(seq(Numeric.Max(0, Numeric.Min(MaxOptions, count - index)), k => index + k))
  }

  /** A page from an index the menu keeps in range is full: it shows min(6, count) crops. */
  lemma FullPage(index: int, count: nat)
    requires 0 <= index <= MaxIndex(count)
    ensures Window(index, count).Ok?
    ensures |Window(index, count).value| == Numeric.Min(MaxOptions, count)
  {
  }

  /** Utility.Clamp(value, 0, 1). */
  function Clamp01(value: real): (t: real)
    ensures 0.0 <= t <= 1.0
    ensures 0.0 <= value <= 1.0 ==> t == value
  {
    if value < 0.0 then 0.0 else if value > 1.0 then 1.0 else value
  }

  /** Where on the scroll bar's track the mouse is, as a fraction of the track, clamped to [0, 1]. */
  function ScrollFraction(y: int, track: Xna.Rectangle): (t: real)
    requires track.height > 0
    ensures 0.0 <= t <= 1.0
    ensures y <= track.y ==> t == 0.0
    ensures y >= track.y + track.height ==> t == 1.0
  {
    Clamp01((y - track.y) as real / track.height as real)
  }

  /**
   * SetScrollFromY as written: Math.Round of Lerp(0, count - 6, t). With
   * fewer than six crops count - 6 is negative, and so is the index for
   * any t past 1 / (2 * (6 - count)).
   */
  function ScrollIndexAsWritten(count: int, t: real): (r: int)
    ensures 0.0 <= t <= 1.0 && count >= MaxOptions ==> 0 <= r <= count - MaxOptions
  {
    var x := t * (count - MaxOptions) as real;
    var r := Numeric.RoundHalfEven(x);
    assert 0.0 <= t <= 1.0 && count >= MaxOptions ==> 0.0 <= x <= (count - MaxOptions) as real by {
      if 0.0 <= t <= 1.0 && count >= MaxOptions {
        Numeric.MulMonotone(t, (count - MaxOptions) as real, 1.0, (count - MaxOptions) as real);
      }
    }
    r
  }

  /** One crop and a drag to the bottom of the track: the index becomes -5, and drawing the page then throws. */
  lemma ScrollPastShortListThrows()
    ensures ScrollIndexAsWritten(1, 1.0) == -5
    ensures Window(ScrollIndexAsWritten(1, 1.0), 1) == Throws(ArgumentOutOfRange)
  {
    assert (1.0 * (1 - MaxOptions) as real).Floor == -5;
  }

  /**
   * SetScrollFromY as intended: the fraction of the track picks an index
   * between 0 and max(0, count - 6), rounded half to even; with six crops or
   * more it agrees with the code as written.
   */
  function ScrollIndex(count: int, t: real): (r: int)
    requires 0.0 <= t <= 1.0
    ensures 0 <= r <= MaxIndex(count)
    ensures count >= MaxOptions ==> r == ScrollIndexAsWritten(count, t)
    ensures t == 0.0 ==> r == 0
    ensures t == 1.0 ==> r == MaxIndex(count)
  {
    var m := MaxIndex(count);
    var x := t * m as real;
    Numeric.MulMonotone(t, m as real, 1.0, m as real);
    assert count >= MaxOptions ==> x == t * (count - MaxOptions) as real;
    var lo := if t == 1.0 then m else 0;
    var hi := if t == 0.0 then 0 else m;
    Numeric.RoundBetween(x, lo, hi);
    Numeric.RoundHalfEven(x)
  }

  /**
   * SetScrollBarToCurrentIndex: the bar's top on the track. The track less
   * half the bar is split into max(1, count - 6) whole-pixel steps; the last
   * index puts the bar 7 pixels above the down arrow, and an empty list puts
   * it at the track's top.
   */
  function BarTop(index: int, count: int, parts: ScrollParts): (top: int)
    ensures count <= 0 ==> top == parts.ScrollBarBounds.y
    ensures count > 0 && index == count - MaxOptions ==> top == parts.DownArrow.y - parts.ScrollBar.height - 7
    ensures index == 0 && count > 0 && count != MaxOptions ==> top == parts.ScrollBarBounds.y
  {
    if count > 0 then
      var steps := Numeric.Max(1, count - MaxOptions);
      var stepSize := (parts.ScrollBarBounds.height - parts.ScrollBar.height / 2) / steps;
      if index == count - MaxOptions then parts.DownArrow.y - parts.ScrollBar.height - 7
      else parts.ScrollBarBounds.y + stepSize * index
    else parts.ScrollBarBounds.y
  }

  /** While the index is in range, the bar's top stays on the track, at most half a bar above its end. */
  lemma {:induction false} BarStaysOnTrack(index: int, count: int, parts: ScrollParts)
    requires 0 <= index <= MaxIndex(count) && index != count - MaxOptions
    requires parts.ScrollBar.height == 40 && parts.ScrollBarBounds.height >= 20
    ensures parts.ScrollBarBounds.y <= BarTop(index, count, parts) <= parts.ScrollBarBounds.y + parts.ScrollBarBounds.height - 20
  {
    if count > 0 {
      var steps := Numeric.Max(1, count - MaxOptions);
      var room := parts.ScrollBarBounds.height - parts.ScrollBar.height / 2;
      var stepSize := room / steps;
      assert 0 <= stepSize && stepSize * steps <= room;
      assert index <= steps;
      assert stepSize * index <= stepSize * steps;
    }
  }

  class ResultsList {
    const Layout: Metrics
    const Options: seq<CI.CropInfo>
    var OptionSlots: seq<Slot>
    var Parts: ScrollParts
    var XPositionOnScreen: int
    var YPositionOnScreen: int
    var CurrentItemIndex: int
    var Scrolling: bool
    var IsResultsListOpen: bool

    /** The menu's invariant: six slots, a track with room, and the index in range. */
    ghost predicate Valid()
      reads this
    {
      && |OptionSlots| == MaxOptions
      && Parts.ScrollBarBounds.height > 0
      && 0 <= CurrentItemIndex <= MaxIndex(|Options|)
    }

    /** The width and height the menu was created with. */
    function Width(): int reads this { WidthOnScreen(Layout) }
    function Height(): int reads this { HeightOnScreen(Layout) }

    /** Lays out the six option slots for a menu whose corner is (x, y). */
    method BuildSlots(x: int, y: int)
      modifies this
      ensures |OptionSlots| == MaxOptions
      ensures forall i :: 0 <= i < MaxOptions ==> OptionSlots[i] == SlotAt(Layout, x, y, i)
      ensures Parts == old(Parts) && CurrentItemIndex == old(CurrentItemIndex) && Scrolling == old(Scrolling)
      ensures IsResultsListOpen == old(IsResultsListOpen)
      ensures XPositionOnScreen == old(XPositionOnScreen) && YPositionOnScreen == old(YPositionOnScreen)
    {
      var slots: seq<Slot> := [];
      for i := 0 to MaxOptions
        invariant |slots| == i
        invariant forall k :: 0 <= k < i ==> slots[k] == SlotAt(Layout, x, y, k)
      {
        slots := slots + [SlotAt(Layout, x, y, i)];
      }
      OptionSlots := slots;
    }

    /** The constructor: one option per crop, six slots, the scroll bar's parts, the first page, and the menu closed. */
    constructor (cropInfos: seq<CI.CropInfo>, layout: Metrics, x: int, y: int)
      requires PartsAt(layout, x, y).ScrollBarBounds.height > 0
      ensures Valid()
      ensures Layout == layout && Options == cropInfos
      ensures forall i :: 0 <= i < MaxOptions ==> OptionSlots[i] == SlotAt(layout, x, y, i)
      ensures Parts == PartsAt(layout, x, y) && XPositionOnScreen == x && YPositionOnScreen == y
      ensures CurrentItemIndex == 0 && !Scrolling && !IsResultsListOpen
    {
      Layout := layout;
      Options := cropInfos;
      XPositionOnScreen := x;
      YPositionOnScreen := y;
      CurrentItemIndex := 0;
      Scrolling := false;
      IsResultsListOpen := false;
      Parts := PartsAt(layout, x, y);
      OptionSlots := [];
      new;
      BuildSlots(x, y);
    }

    /**
     * draw: the crops shown, in slot order: Options[index + i] for
     * i < min(6, count), stopping at the end of the list; an index below 0
     * reads before the list and throws.
     */
    method Draw() returns (r: Result<seq<int>>)
      ensures r == Window(CurrentItemIndex, |Options|)
    {
      var maxIndex := Numeric.Min(MaxOptions, |Options|);
      var shown: seq<int> := [];
      var i := 0;
      while i < maxIndex
        invariant 0 <= i <= maxIndex
        invariant |shown| == i
        invariant forall k :: 0 <= k < i ==> shown[k] == CurrentItemIndex + k
        invariant i > 0 ==> 0 <= CurrentItemIndex && CurrentItemIndex + i <= |Options|
      {
        if CurrentItemIndex + i >= |Options| {
          break;
        }
        if CurrentItemIndex + i < 0 {
          return Throws(ArgumentOutOfRange);
        }
        shown := shown + [CurrentItemIndex + i];
        i := i + 1;
      }
      ghost var window := Window(CurrentItemIndex, |Options|);
      assert window.Ok?;
      assert CurrentItemIndex < 0 ==> |Options| == 0 && i == 0;
      assert CurrentItemIndex >= 0 ==> i == Numeric.Max(0, Numeric.Min(MaxOptions, |Options| - CurrentItemIndex));
      assert |window.value| == |shown| && forall k :: 0 <= k < |shown| ==> window.value[k] == shown[k];
      assert shown == window.value;
      return Ok(shown);
    }

    /** SetScrollBarToCurrentIndex: the bar moves to the current index's place on the track. */
    method SetScrollBarToCurrentIndex()
      modifies this
      ensures Parts == old(Parts).(ScrollBar := old(Parts).ScrollBar.(y := BarTop(CurrentItemIndex, |Options|, old(Parts))))
      ensures CurrentItemIndex == old(CurrentItemIndex) && OptionSlots == old(OptionSlots) && Scrolling == old(Scrolling)
      ensures IsResultsListOpen == old(IsResultsListOpen)
    {
      Parts := Parts.(ScrollBar := Parts.ScrollBar.(y := BarTop(CurrentItemIndex, |Options|, Parts)));
    }

    /** ArrowPressed: the index moves by exactly the direction and the bar follows it. */
    method ArrowPressed(direction: int)
      modifies this
      ensures CurrentItemIndex == old(CurrentItemIndex) + direction
      ensures Parts == old(Parts).(ScrollBar := old(Parts).ScrollBar.(y := BarTop(CurrentItemIndex, |Options|, old(Parts))))
      ensures OptionSlots == old(OptionSlots) && Scrolling == old(Scrolling) && IsResultsListOpen == old(IsResultsListOpen)
    {
      CurrentItemIndex := CurrentItemIndex + direction;
      SetScrollBarToCurrentIndex();
    }

    /**
     * receiveScrollWheelAction: a positive direction moves up a row when not
     * at the top, a negative one down a row when not at the bottom; any other
     * turn of the wheel throws.
     */
    method ReceiveScrollWheelAction(direction: int) returns (r: Result<()>)
      requires Valid()
      modifies this
      ensures Valid()
      ensures direction > 0 && old(CurrentItemIndex) > 0 ==> r == Ok(()) && CurrentItemIndex == old(CurrentItemIndex) - 1
      ensures !(direction > 0 && old(CurrentItemIndex) > 0) && direction < 0 && old(CurrentItemIndex) < MaxIndex(|Options|) ==>
        r == Ok(()) && CurrentItemIndex == old(CurrentItemIndex) + 1
      ensures r.Throws? <==> !(direction > 0 && old(CurrentItemIndex) > 0) && !(direction < 0 && old(CurrentItemIndex) < MaxIndex(|Options|))
      ensures r.Throws? ==> r.error == InvalidOperation && CurrentItemIndex == old(CurrentItemIndex)
    {
      if direction > 0 && CurrentItemIndex > 0 {
        ArrowPressed(-1);
      } else if direction < 0 && CurrentItemIndex < MaxIndex(|Options|) {
        ArrowPressed(1);
      } else {
        return Throws(InvalidOperation);
      }
      return Ok(());
    }

    /**
     * receiveKeyPress: Escape closes the menu; Down moves down a row while a
     * further page of crops remains below; Up moves up a row while the index
     * is at least six; any other key closes the menu when it is the game's
     * menu button.
     */
    method ReceiveKeyPress(key: Xna.Key, isMenuButton: bool)
      requires Valid()
      modifies this
      ensures Valid()
      ensures key == Xna.Escape ==> !IsResultsListOpen && CurrentItemIndex == old(CurrentItemIndex)
      ensures key == Xna.Down ==> CurrentItemIndex == (if old(CurrentItemIndex) + MaxOptions < |Options| then old(CurrentItemIndex) + 1 else old(CurrentItemIndex))
      ensures key == Xna.Up ==> CurrentItemIndex == (if old(CurrentItemIndex) - MaxOptions >= 0 then old(CurrentItemIndex) - 1 else old(CurrentItemIndex))
      ensures key == Xna.OtherKey ==> CurrentItemIndex == old(CurrentItemIndex)
      ensures key == Xna.OtherKey ==> IsResultsListOpen == (old(IsResultsListOpen) && !isMenuButton)
      ensures key == Xna.Up || key == Xna.Down ==> IsResultsListOpen == old(IsResultsListOpen)
    {
      match key {
        case Escape =>
          IsResultsListOpen := false;
        case Down =>
          if CurrentItemIndex + MaxOptions < |Options| {
            ArrowPressed(1);
          }
        case Up =>
          if CurrentItemIndex - MaxOptions >= 0 {
            ArrowPressed(-1);
          }
        case OtherKey =>
          if isMenuButton {
            IsResultsListOpen := false;
          }
      }
    }

    /** IsWithinScrollArea: the gutter right of the menu, 128 pixels wide, strictly inside the menu's height, off the down arrow. */
    predicate IsWithinScrollArea(x: int, y: int)
      reads this
    {
      && !Xna.Contains(Parts.DownArrow, x, y)
      && XPositionOnScreen + Width() < x < XPositionOnScreen + Width() + 128
      && YPositionOnScreen < y < YPositionOnScreen + Height()
    }

    /** SetScrollFromY: the mouse's place on the track picks the index (as intended, see ScrollIndex), and the bar follows it. */
    method SetScrollFromY(y: int)
      requires Valid()
      modifies this
      ensures Valid()
      ensures CurrentItemIndex == ScrollIndex(|Options|, ScrollFraction(y, old(Parts).ScrollBarBounds))
      ensures Parts == old(Parts).(ScrollBar := old(Parts).ScrollBar.(y := BarTop(CurrentItemIndex, |Options|, old(Parts))))
      ensures Scrolling == old(Scrolling) && IsResultsListOpen == old(IsResultsListOpen)
    {
      CurrentItemIndex := ScrollIndex(|Options|, ScrollFraction(y, Parts.ScrollBarBounds));
      SetScrollBarToCurrentIndex();
    }

    /** leftClickHeld: while the bar is being dragged, the mouse's height sets the index; nothing happens while closing is prevented. */
    method LeftClickHeld(x: int, y: int, forcePreventClose: bool)
      requires Valid()
      modifies this
      ensures Valid()
      ensures !forcePreventClose && old(Scrolling) ==> CurrentItemIndex == ScrollIndex(|Options|, ScrollFraction(y, old(Parts).ScrollBarBounds))
      ensures forcePreventClose || !old(Scrolling) ==> CurrentItemIndex == old(CurrentItemIndex) && Parts == old(Parts)
      ensures Scrolling == old(Scrolling) && IsResultsListOpen == old(IsResultsListOpen)
    {
      if !forcePreventClose && Scrolling {
        SetScrollFromY(y);
      }
    }

    /** releaseLeftClick: the drag ends, unless closing is prevented. */
    method ReleaseLeftClick(x: int, y: int, forcePreventClose: bool)
      modifies this
      ensures Scrolling == (old(Scrolling) && forcePreventClose)
      ensures CurrentItemIndex == old(CurrentItemIndex) && Parts == old(Parts) && IsResultsListOpen == old(IsResultsListOpen)
      ensures OptionSlots == old(OptionSlots)
    {
      if !forcePreventClose {
        Scrolling := false;
      }
    }

    /**
     * receiveLeftClick, in the code's order: the down arrow moves down a row
     * when not at the bottom, the up arrow up a row when not at the top, the
     * bar starts a drag, a click elsewhere in the gutter jumps the index to
     * the mouse's height; a click anywhere else throws. Nothing happens while
     * closing is prevented.
     */
    method ReceiveLeftClick(x: int, y: int, forcePreventClose: bool) returns (r: Result<()>)
      requires Valid()
      modifies this
      ensures Valid()
      ensures forcePreventClose ==> r == Ok(()) && CurrentItemIndex == old(CurrentItemIndex) && Scrolling == old(Scrolling)
      ensures var down := Xna.Contains(old(Parts).DownArrow, x, y) && old(CurrentItemIndex) < MaxIndex(|Options|);
        !forcePreventClose && down ==> r == Ok(()) && CurrentItemIndex == old(CurrentItemIndex) + 1
      ensures var down := Xna.Contains(old(Parts).DownArrow, x, y) && old(CurrentItemIndex) < MaxIndex(|Options|);
        var up := Xna.Contains(old(Parts).UpArrow, x, y) && old(CurrentItemIndex) > 0;
        !forcePreventClose && !down && up ==> r == Ok(()) && CurrentItemIndex == old(CurrentItemIndex) - 1
      ensures var down := Xna.Contains(old(Parts).DownArrow, x, y) && old(CurrentItemIndex) < MaxIndex(|Options|);
        var up := Xna.Contains(old(Parts).UpArrow, x, y) && old(CurrentItemIndex) > 0;
        !forcePreventClose && !down && !up && Xna.Contains(old(Parts).ScrollBar, x, y) ==>
          r == Ok(()) && Scrolling && CurrentItemIndex == old(CurrentItemIndex)
      ensures var down := Xna.Contains(old(Parts).DownArrow, x, y) && old(CurrentItemIndex) < MaxIndex(|Options|);
        var up := Xna.Contains(old(Parts).UpArrow, x, y) && old(CurrentItemIndex) > 0;
        !forcePreventClose && !down && !up && !Xna.Contains(old(Parts).ScrollBar, x, y) && old(IsWithinScrollArea(x, y)) ==>
          r == Ok(()) && !Scrolling && CurrentItemIndex == ScrollIndex(|Options|, ScrollFraction(y, old(Parts).ScrollBarBounds))
      ensures var down := Xna.Contains(old(Parts).DownArrow, x, y) && old(CurrentItemIndex) < MaxIndex(|Options|);
        var up := Xna.Contains(old(Parts).UpArrow, x, y) && old(CurrentItemIndex) > 0;
        r.Throws? <==> !forcePreventClose && !down && !up && !Xna.Contains(old(Parts).ScrollBar, x, y) && !old(IsWithinScrollArea(x, y))
      ensures r.Throws? ==> r.error == InvalidOperation && CurrentItemIndex == old(CurrentItemIndex)
      ensures IsResultsListOpen == old(IsResultsListOpen)
    {
      if forcePreventClose {
        return Ok(());
      }
      if Xna.Contains(Parts.DownArrow, x, y) && CurrentItemIndex < MaxIndex(|Options|) {
        ArrowPressed(1);
      } else if Xna.Contains(Parts.UpArrow, x, y) && CurrentItemIndex > 0 {
        ArrowPressed(-1);
      } else if Xna.Contains(Parts.ScrollBar, x, y) {
        Scrolling := true;
      } else if IsWithinScrollArea(x, y) {
        Scrolling := true;
        LeftClickHeld(x, y, forcePreventClose);
        ReleaseLeftClick(x, y, forcePreventClose);
      } else {
        return Throws(InvalidOperation);
      }
      return Ok(());
    }

    /** gameWindowSizeChanged: the menu moves to its new corner, and the six slots and the scroll bar's parts are laid out again there. */
    method GameWindowSizeChanged(x: int, y: int)
      requires Valid()
      requires PartsAt(Layout, x, y).ScrollBarBounds.height > 0
      modifies this
      ensures Valid()
      ensures XPositionOnScreen == x && YPositionOnScreen == y
      ensures forall i :: 0 <= i < MaxOptions ==> OptionSlots[i] == SlotAt(Layout, x, y, i)
      ensures Parts == PartsAt(Layout, x, y)
      ensures CurrentItemIndex == old(CurrentItemIndex) && Scrolling == old(Scrolling) && IsResultsListOpen == old(IsResultsListOpen)
    {
      XPositionOnScreen := x;
      YPositionOnScreen := y;
      BuildSlots(x, y);
      Parts := PartsAt(Layout, x, y);
    }
  }
}
