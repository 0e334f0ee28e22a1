/**
 * Turning the key identifiers found in action parameters into Windows virtual
 * key codes, as LongPressKey and PressMultipleKeys do before pressing anything.
 * `char_to_vk` of the input helper is not part of this model: it is a parameter,
 * whose None stands for a character it raises on (caught by both actions).
 */
module KeyCodes {
  import opened Wrappers
  import opened Json
  import opened Text

  /** win32con.VK_SHIFT, VK_CONTROL, VK_MENU (Alt) and VK_SPACE. */
  const VkShift: int := 0x10
  const VkControl: int := 0x11
  const VkMenu: int := 0x12
  const VkSpace: int := 0x20

  /** The fixed codes of the named keys PressMultipleKeys accepts, compared after lowering. */
  function NamedKey(name: string): Option<int> {
    var n := AsciiLower(name);
    if n == "shift" then Some(VkShift)
    else if n == "ctrl" then Some(VkControl)
    else if n == "alt" then Some(VkMenu)
    else if n == "space" then Some(VkSpace)
    else None
  }

  /**
   * LongPressKey's conversion: a one-character string through char_to_vk (None
   * where it raises), an int as it is, nothing else.
   */
  function SingleKey(key: Value, charToVk: char -> Option<int>): Option<int> {
    match key
    case Str(s) => if |s| == 1 then charToVk(s[0]) else None
    case _ => AsInt(key)
  }

  /** PressMultipleKeys' conversion of one list item: as SingleKey, and also the four key names. */
  function ComboKey(key: Value, charToVk: char -> Option<int>): Option<int> {
    match key
    case Str(s) => if |s| == 1 then charToVk(s[0]) else NamedKey(s)
    case _ => AsInt(key)
  }

  /**
   * The list `vk_codes` PressMultipleKeys builds: every item converted, in
   * order, or None as soon as one item is not convertible.
   */
  function ComboKeys(keys: seq<Value>, charToVk: char -> Option<int>): (r: Option<seq<int>>)
    ensures r.Some? <==> forall k :: 0 <= k < |keys| ==> ComboKey(keys[k], charToVk).Some?
    ensures r.Some? ==> |r.value| == |keys|
                        && forall k :: 0 <= k < |keys| ==> r.value[k] == ComboKey(keys[k], charToVk).value
  {
    if keys == [] then Some([])
    else match ComboKey(keys[0], charToVk)
      case None => None
      case Some(code) =>
        match ComboKeys(keys[1..], charToVk)
        case None => None
        case Some(rest) => Some([code] + rest)
  }

  /** Every identifier LongPressKey accepts is accepted by PressMultipleKeys with the same code. */
  lemma ComboKeyExtendsSingleKey(key: Value, charToVk: char -> Option<int>)
    ensures SingleKey(key, charToVk).Some? ==> ComboKey(key, charToVk) == SingleKey(key, charToVk)
    ensures key.Str? && |key.s| != 1 ==> SingleKey(key, charToVk).None?
  {
  }

  /** Named keys are matched case-insensitively: a name converts exactly as its lower-case form does. */
  lemma {:induction false} ComboKeyCaseInsensitive(s: string, charToVk: char -> Option<int>)
    requires |s| != 1
    ensures ComboKey(Str(s), charToVk) == ComboKey(Str(AsciiLower(s)), charToVk)
  {
    AsciiLowerIdempotent(s);
  }

  /** Named keys in mixed case convert to their fixed codes. */
  lemma NamedKeyExamples(charToVk: char -> Option<int>)
    ensures ComboKey(Str("Shift"), charToVk) == Some(VkShift)
    ensures ComboKey(Str("CTRL"), charToVk) == Some(VkControl)
    ensures ComboKey(Str("Space"), charToVk) == Some(VkSpace)
  {
    LowerExample("Shift", "shift");
    LowerExample("CTRL", "ctrl");
    LowerExample("Space", "space");
  }

  /** A direction name, the empty string and a float are refused; a boolean passes as an int. */
  lemma RefusedKeyExamples(charToVk: char -> Option<int>)
    ensures ComboKey(Str("up"), charToVk) == None
    ensures ComboKey(Str(""), charToVk) == None
    ensures ComboKey(Float(1.0), charToVk) == None
    ensures ComboKey(Bool(true), charToVk) == Some(1)
  {
    LowerExample("up", "up");
  }
}
