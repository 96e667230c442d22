/**
 * UIntOption (ProfitCalculator/main/ui/UIntOption.cs): a text box for an
 * unsigned 32-bit setting. The box shows the setting's decimal text (the
 * getter is `valueGetter().ToString()`) and every store goes through
 * `uint.Parse`, as the calculator's menu passes it; the setting is the field
 * Setting, and the TextOption part, Box, holds its text. Typing accepts digits
 * only; the result is clamped to [Min, Max] when clamping is on, except that
 * a value of 0 is always kept, so that the box can be cleared.
 */
module UIntOption {
  import opened Wrappers
  import Numeric
  import Text
  import Xna
  import TO = TextOption

  /** The character at k passes the input filter: a digit, or a leading '-' typed into an empty box. */
  predicate AcceptsAt(current: string, str: string, k: nat)
    requires k < |str|
  {
    Text.IsDigit(str[k]) || (str[k] == '-' && current == "" && k == 0)
  }

  /** Every character of the input passes the filter. */
  predicate Accepts(current: string, str: string): (r: bool)
    ensures Text.AllDigits(str) ==> r
    ensures r && current != "" ==> Text.AllDigits(str)
  {
    var all := forall k :: 0 <= k < |str| ==> AcceptsAt(current, str, k);
    assert all && current != "" ==> Text.AllDigits(str) by {
      if all && current != "" {
        forall i | 0 <= i < |str| ensures Text.IsDigit(str[i]) {
          assert AcceptsAt(current, str, i);
        }
      }
    }
    assert Text.AllDigits(str) ==> all by {
      if Text.AllDigits(str) {
        forall i | 0 <= i < |str| ensures AcceptsAt(current, str, i) {
          assert Text.IsDigit(str[i]);
        }
      }
    }
    all
  }

  /** The box always shows a setting's text, which is never empty, so a '-' is never accepted: only digits are. */
  lemma MinusNeverAccepted(setting: nat, str: string)
    ensures Accepts(Text.NatText(setting), str) <==> Text.AllDigits(str)
  {
    var current := Text.NatText(setting);
    assert current != "";
    if Accepts(current, str) {
      forall k | 0 <= k < |str| ensures Text.IsDigit(str[k]) {
        assert AcceptsAt(current, str, k);
      }
    }
  }

  /** uint.Parse of a string of digits: FormatException when empty, OverflowException past uint.MaxValue. */
  function ParseUInt(s: string): (r: Result<int>)
    requires Text.AllDigits(s)
    ensures r.Ok? ==> Numeric.IsUInt32(r.value) && r.value == Text.DigitsValue(s)
    ensures r.Throws? ==> r.error == Format || r.error == Overflow
  {
    if |s| == 0 then Throws(Format)
    else if Text.DigitsValue(s) > Numeric.UIntMax then Throws(Overflow)
    else Ok(Text.DigitsValue(s))
  }

  /** Math.Clamp: ArgumentException when min exceeds max. */
  function Clamp(v: int, min: int, max: int): (r: Result<int>)
    ensures r.Ok? <==> min <= max
    ensures r.Throws? ==> r.error == Argument
    ensures r.Ok? ==> min <= r.value <= max
    ensures r.Ok? && min <= v <= max ==> r.value == v
  {
    if min > max then Throws(Argument)
    else if v < min then Ok(min)
    else if v > max then Ok(max)
    else Ok(v)
  }

  /** The setting after text input: rejected input keeps it, 0 is kept as 0, and otherwise the clamped or raw number. */
  function AfterInput(setting: nat, str: string, min: int, max: int, clamping: bool): (r: Result<int>)
    ensures r.Throws? ==> r.error == Overflow || (r.error == Argument && clamping && min > max)
    ensures r.Ok? && r.value != setting && r.value != 0 && clamping ==> min <= r.value <= max
    ensures r.Ok? && r.value != setting && !clamping ==> Numeric.IsUInt32(r.value)
  {
    var current := Text.NatText(setting);
    if !Accepts(current, str) then Ok(setting)
    else
      MinusNeverAccepted(setting, str);
      assert Text.AllDigits(current + str) by {
        assert forall k :: 0 <= k < |current + str| ==>
          (current + str)[k] == (if k < |current| then current[k] else str[k - |current|]);
      }
      var v := Text.DigitsValue(current + str);
      if v > Numeric.UIntMax then Throws(Overflow)
      else if v == 0 then Ok(0)
      else if clamping then Clamp(v, min, max)
      else Ok(v)
  }

  /** Input with anything but digits leaves the setting as it was. */
  lemma RejectedInputKeepsSetting(setting: nat, str: string, min: int, max: int, clamping: bool)
    requires !Text.AllDigits(str)
    ensures AfterInput(setting, str, min, max, clamping) == Ok(setting)
  {
    MinusNeverAccepted(setting, str);
  }

  /** Typing a digit d into an unclamped box holding v gives 10v + d, while that fits in a uint. */
  lemma TypedDigitAppends(setting: nat, d: char)
    requires Text.IsDigit(d) && 10 * setting + Text.DigitValue(d) <= Numeric.UIntMax
    ensures AfterInput(setting, [d], 0, 0, false) == Ok(10 * setting + Text.DigitValue(d))
  {
    var current := Text.NatText(setting);
    assert (current + [d])[..|current|] == current;
  }

  /** With clamping on, a nonzero result lies in [min, max]. */
  lemma ClampedInputInRange(setting: nat, str: string, min: int, max: int)
    requires Numeric.IsUInt32(setting) && min <= max
    requires AfterInput(setting, str, min, max, true).Ok?
    requires AfterInput(setting, str, min, max, true).value != setting
    requires AfterInput(setting, str, min, max, true).value != 0
    ensures min <= AfterInput(setting, str, min, max, true).value <= max
  {
  }

  /** Typing 0 into an empty-valued box keeps 0 even when min is above it: the clearing rule comes before the clamp. */
  lemma ZeroComesBeforeClamp()
    ensures AfterInput(0, "0", 1, 28, true) == Ok(0)
  {
    assert Text.NatText(0) + "0" == "00";
    assert Text.DigitsValue("00") == 10 * Text.DigitsValue("0") + 0;
  }

  /** A number past uint.MaxValue makes uint.Parse throw, clamping or not. */
  lemma TypingPastUIntMaxThrows(clamping: bool)
    ensures AfterInput(429496729, "6", 0, 28, clamping) == Throws(Overflow)
  {
    var current := Text.NatText(429496729);
    assert (current + "6")[..|current|] == current;
  }

  /** Down from 0 wraps to uint.MaxValue, which the clamp brings to max. */
  lemma DownFromZeroGoesToMax(min: int, max: int)
    requires min <= max <= Numeric.UIntMax
    ensures Clamp(Numeric.WrapUInt32(0 - 1), min, max) == Ok(max)
  {
    assert Numeric.WrapUInt32(-1) == Numeric.UIntMax;
  }

  /** The digits of a value's text without its last digit denote the value divided by ten. */
  lemma DropLastDigit(setting: nat)
    requires |Text.NatText(setting)| > 1
    ensures Text.DigitsValue(Text.NatText(setting)[..|Text.NatText(setting)| - 1]) == setting / 10
  {
    var s := Text.NatText(setting);
    assert Text.DigitsValue(s) == 10 * Text.DigitsValue(s[..|s| - 1]) + Text.DigitValue(s[|s| - 1]);
  }

  class UIntOption {
    const Box: TO.TextOption
    /** The uint setting the getter reads and the setter parses into. */
    var Setting: int
    const Min: int
    const Max: int
    const EnableClamping: bool

    /** The setting is a uint and the box shows its text; the bounds are uints too. */
    ghost predicate Valid()
      reads this, Box
    {
      Numeric.IsUInt32(Setting) && Numeric.IsUInt32(Min) && Numeric.IsUInt32(Max)
      && Box.Value == Text.NatText(Setting)
    }

    /** Both constructors: clamping is on unless switched off. */
    constructor (x: int, y: int, setting: int, max: int, min: int, keyboard: TO.KeyboardDispatcher,
                 enableClamping: bool, textureWidth: int, textureHeight: int)
      requires Numeric.IsUInt32(setting) && Numeric.IsUInt32(min) && Numeric.IsUInt32(max)
      ensures Valid() && fresh(Box) && fresh(Box.Base)
      ensures Setting == setting && Min == min && Max == max && EnableClamping == enableClamping
      ensures Box.Keyboard == keyboard && !Box.SelectedImpl
    {
      Box := new TO.TextOption(x, y, Text.NatText(setting), keyboard, textureWidth, textureHeight);
      Setting := setting;
      Min := min;
      Max := max;
      EnableClamping := enableClamping;
    }

    /** IsValid: the text parses as an int, so a setting above int.MaxValue is not valid. */
    function IsValid(): (b: bool)
      reads this, Box
      requires Valid()
      ensures b <==> Setting <= Numeric.IntMax
    {
      Text.DigitsValue(Box.Value) <= Numeric.IntMax
    }

    /** The menu's ValueSetter: the setting becomes uint.Parse of the text. */
    method Store(s: string) returns (r: Result<()>)
      requires Valid() && Text.AllDigits(s) && |s| > 0
      modifies this, Box
      ensures Valid() && Box.SelectedImpl == old(Box.SelectedImpl)
      ensures r.Ok? <==> Text.DigitsValue(s) <= Numeric.UIntMax
      ensures r.Ok? ==> Setting == Text.DigitsValue(s)
      ensures r.Throws? ==> r.error == Overflow && Setting == old(Setting)
    {
      var parsed := ParseUInt(s);
      if parsed.Throws? {
        return Throws(parsed.error);
      }
      Setting := parsed.value;
      Box.Value := Text.NatText(parsed.value);
      return Ok(());
    }

    /** ReceiveInput: the filter loop, then the clearing rule, then the clamp. */
    method ReceiveInput(str: string) returns (r: Result<()>)
      requires Valid()
      modifies this, Box
      ensures Valid() && Box.SelectedImpl == old(Box.SelectedImpl)
      ensures r.Ok? <==> AfterInput(old(Setting), str, Min, Max, EnableClamping).Ok?
      ensures r.Ok? ==> Setting == AfterInput(old(Setting), str, Min, Max, EnableClamping).value
      ensures r.Throws? ==> r.error == AfterInput(old(Setting), str, Min, Max, EnableClamping).error && Setting == old(Setting)
    {
      var valid := true;
      var i := 0;
      while i < |str|
        invariant 0 <= i <= |str|
        invariant forall k :: 0 <= k < i ==> AcceptsAt(Box.Value, str, k)
      {
        var c := str[i];
        if !Text.IsDigit(c) && !(c == '-' && Box.Value == "" && i == 0) {
          valid := false;
          break;
        }
        i := i + 1;
      }
      if !valid {
        assert i < |str| && !AcceptsAt(Box.Value, str, i);
        return Ok(());
      }
      MinusNeverAccepted(Setting, str);
      var current := Box.Value;
      assert Text.AllDigits(current + str) by {
        assert forall k :: 0 <= k < |current + str| ==>
          (current + str)[k] == (if k < |current| then current[k] else str[k - |current|]);
      }
      var parsed := ParseUInt(current + str);
      if parsed.Throws? {
        return Throws(parsed.error);
      }
      if parsed.value == 0 {
        r := Store("0");
        return;
      }
      if EnableClamping {
        var val :- Clamp(parsed.value, Min, Max);
        r := Store(Text.NatText(val));
      } else {
        r := Store(current + str);
      }
    }

    /** RecieveTextInput(char), overridden through ReceiveInput. */
    method RecieveTextInputChar(inputChar: char) returns (r: Result<()>)
      requires Valid()
      modifies this, Box
      ensures Valid() && Box.SelectedImpl == old(Box.SelectedImpl)
      ensures r.Ok? <==> AfterInput(old(Setting), [inputChar], Min, Max, EnableClamping).Ok?
      ensures r.Ok? ==> Setting == AfterInput(old(Setting), [inputChar], Min, Max, EnableClamping).value
    {
      r := ReceiveInput([inputChar]);
    }

    /** RecieveTextInput(string), overridden through ReceiveInput. */
    method RecieveTextInput(text: string) returns (r: Result<()>)
      requires Valid()
      modifies this, Box
      ensures Valid() && Box.SelectedImpl == old(Box.SelectedImpl)
      ensures r.Ok? <==> AfterInput(old(Setting), text, Min, Max, EnableClamping).Ok?
      ensures r.Ok? ==> Setting == AfterInput(old(Setting), text, Min, Max, EnableClamping).value
    {
      r := ReceiveInput(text);
    }

    /** RecieveCommandInput: a backspace drops the last digit, so the setting is divided by ten; other commands do nothing. */
    method RecieveCommandInput(command: char)
      requires Valid()
      modifies this, Box
      ensures Valid() && Box.SelectedImpl == old(Box.SelectedImpl)
      ensures command == TO.Backspace ==> Setting == old(Setting) / 10
      ensures command != TO.Backspace ==> Setting == old(Setting)
    {
      if command == TO.Backspace && |Box.Value| > 0 {
        var value := Box.Value;
        if |value| == 1 || forall k :: 0 <= k < |value| ==> value[k] == '0' {
          var stored := Store("0");
        } else {
          DropLastDigit(Setting);
          var stored := Store(value[..|value| - 1]);
        }
      }
    }

    /** RecieveSpecialInput: Up and Down step the setting in uint arithmetic, then clamp it; other keys do nothing. */
    method RecieveSpecialInput(key: Xna.Key) returns (r: Result<()>)
      requires Valid()
      modifies this, Box
      ensures Valid() && Box.SelectedImpl == old(Box.SelectedImpl)
      ensures r.Ok? <==> !(key.Up? || key.Down?) || Min <= Max
      ensures r.Throws? ==> r.error == Argument && Setting == old(Setting)
      ensures r.Ok? && key.Up? ==> Setting == Clamp(Numeric.WrapUInt32(old(Setting) + 1), Min, Max).value
      ensures r.Ok? && key.Down? ==> Setting == Clamp(Numeric.WrapUInt32(old(Setting) - 1), Min, Max).value
      ensures !(key.Up? || key.Down?) ==> Setting == old(Setting)
    {
      r := Ok(());
      if key.Up? || key.Down? {
        var step := if key.Up? then Setting + 1 else Setting - 1;
        var val :- Clamp(Numeric.WrapUInt32(step), Min, Max);
        r := Store(Text.NatText(val));
      }
    }

    /** BeforeReceiveLeftClick: the TextOption's deselection, then a re-clamp of an unselected box. */
    method BeforeReceiveLeftClick(x: int, y: int) returns (r: Result<()>)
      requires Valid()
      modifies this, Box, Box.Keyboard
      ensures Valid()
      ensures Box.SelectedImpl == (old(Box.SelectedImpl) && Box.Base.ContainsPoint(x, y))
      ensures r.Ok? <==> Box.SelectedImpl || !EnableClamping || Min <= Max
      ensures r.Throws? ==> r.error == Argument && Setting == old(Setting)
      ensures r.Ok? && !Box.SelectedImpl && EnableClamping ==> Setting == Clamp(old(Setting), Min, Max).value
      ensures Box.SelectedImpl || !EnableClamping ==> Setting == old(Setting)
    {
      Box.BeforeReceiveLeftClick(x, y);
      r := Ok(());
      if !Box.SelectedImpl && EnableClamping {
        var val :- Clamp(Setting, Min, Max);
        r := Store(Text.NatText(val));
      }
    }

    /** ReceiveLeftClick, as BaseOption dispatches it to this override. */
    method ReceiveLeftClick(x: int, y: int) returns (r: Result<()>)
      requires Valid()
      modifies this, Box, Box.Base, Box.Keyboard
      ensures Valid()
      ensures r.Ok? ==> (Box.Base.ContainsPoint(x, y) <==> Box.SelectedImpl)
      ensures r.Ok? && Box.Base.ContainsPoint(x, y) ==> Box.Base.Clicked
      ensures r.Ok? && !Box.Base.ContainsPoint(x, y) && EnableClamping ==> Clamp(old(Setting), Min, Max) == Ok(Setting)
    {
      r := BeforeReceiveLeftClick(x, y);
      if r.Throws? {
        return;
      }
      if Box.Base.ContainsPoint(x, y) {
        Box.ExecuteClick();
      }
    }
  }
}
