/** The translation of Win32 virtual-key codes into engine keys. */
module Win32Keyboard {
  import opened Wrappers
  import opened Keyboard

  /** `WPARAM`, an unsigned 64-bit word. */
  type WParam = x: int | 0 <= x < 0x1_0000_0000_0000_0000

  /** `LPARAM`, a signed 64-bit word, as its two's-complement bits. */
  type LParam = bv64

  /** `UINT`. */
  type Uint = x: int | 0 <= x < 0x1_0000_0000

  /** The virtual-key codes of the Windows headers that the translation
      names; letters and digits are their own ASCII codes. */
  const VK_BACK: WParam := 0x08
  const VK_TAB: WParam := 0x09
  const VK_RETURN: WParam := 0x0D
  const VK_SHIFT: WParam := 0x10
  const VK_CONTROL: WParam := 0x11
  const VK_MENU: WParam := 0x12
  const VK_PAUSE: WParam := 0x13
  const VK_CAPITAL: WParam := 0x14
  const VK_ESCAPE: WParam := 0x1B
  const VK_SPACE: WParam := 0x20
  const VK_PRIOR: WParam := 0x21
  const VK_NEXT: WParam := 0x22
  const VK_END: WParam := 0x23
  const VK_HOME: WParam := 0x24
  const VK_LEFT: WParam := 0x25
  const VK_UP: WParam := 0x26
  const VK_RIGHT: WParam := 0x27
  const VK_DOWN: WParam := 0x28
  const VK_SNAPSHOT: WParam := 0x2C
  const VK_INSERT: WParam := 0x2D
  const VK_DELETE: WParam := 0x2E
  const VK_LWIN: WParam := 0x5B
  const VK_RWIN: WParam := 0x5C
  const VK_NUMPAD0: WParam := 0x60
  const VK_NUMPAD1: WParam := 0x61
  const VK_NUMPAD2: WParam := 0x62
  const VK_NUMPAD3: WParam := 0x63
  const VK_NUMPAD4: WParam := 0x64
  const VK_NUMPAD5: WParam := 0x65
  const VK_NUMPAD6: WParam := 0x66
  const VK_NUMPAD7: WParam := 0x67
  const VK_NUMPAD8: WParam := 0x68
  const VK_NUMPAD9: WParam := 0x69
  const VK_MULTIPLY: WParam := 0x6A
  const VK_ADD: WParam := 0x6B
  const VK_SUBTRACT: WParam := 0x6D
  const VK_DIVIDE: WParam := 0x6F
  const VK_F1: WParam := 0x70
  const VK_F2: WParam := 0x71
  const VK_F3: WParam := 0x72
  const VK_F4: WParam := 0x73
  const VK_F5: WParam := 0x74
  const VK_F6: WParam := 0x75
  const VK_F7: WParam := 0x76
  const VK_F8: WParam := 0x77
  const VK_F9: WParam := 0x78
  const VK_F10: WParam := 0x79
  const VK_F11: WParam := 0x7A
  const VK_F12: WParam := 0x7B
  const VK_NUMLOCK: WParam := 0x90
  const VK_SCROLL: WParam := 0x91
  const VK_OEM_1: WParam := 0xBA
  const VK_OEM_PLUS: WParam := 0xBB
  const VK_OEM_COMMA: WParam := 0xBC
  const VK_OEM_MINUS: WParam := 0xBD
  const VK_OEM_PERIOD: WParam := 0xBE
  const VK_OEM_2: WParam := 0xBF
  const VK_OEM_3: WParam := 0xC0
  const VK_OEM_4: WParam := 0xDB
  const VK_OEM_5: WParam := 0xDC
  const VK_OEM_6: WParam := 0xDD
  const VK_OEM_7: WParam := 0xDE

  /** `KF_EXTENDED`: the extended-key bit of the high word of the flags. */
  const KF_EXTENDED: bv16 := 0x0100

  /** `(flags & 0x00FF0000) >> 16`: the scan code of the keystroke. */
  function ScanCode(flags: LParam): (r: Uint)
    ensures r < 0x100
  {
    ((flags & 0x00FF_0000) >> 16) as int
  }

  /** `HIWORD(flags)`: bits 16 to 31. */
  function HiWord(flags: LParam): bv16
  {
    ((flags >> 16) & 0xFFFF) as bv16
  }

  /** `HIWORD(flags) & KF_EXTENDED`: whether the keystroke comes from an
      extended key (the right-hand Ctrl and Alt). */
  predicate Extended(flags: LParam)
  {
    HiWord(flags) & KF_EXTENDED != 0
  }

  /** The flags of a keystroke message as Windows lays them out: the repeat
      count in bits 0 to 15, the scan code in bits 16 to 23, the extended-key
      flag in bit 24, the context code in bit 29, the previous key state in
      bit 30 and the transition state in bit 31; bits 25 to 28 and the upper
      half are zero. */
  function KeystrokeFlags(repeatCount: bv16, scanCode: bv8, extended: bool, contextCode: bool,
                          previousState: bool, transition: bool): LParam
  {
    (repeatCount as bv64)
    | ((scanCode as bv64) << 16)
    | (if extended then 1 << 24 else 0)
    | (if contextCode then 1 << 29 else 0)
    | (if previousState then 1 << 30 else 0)
    | (if transition then 1 << 31 else 0)
  }

  /** `translateWin32KeyCode`. `leftShiftScanCode` is what
      `MapVirtualKey(VK_SHIFT, MAPVK_VK_TO_VSC)` returns; a shift
      keystroke is the left shift exactly when its scan code is that one.
      Ctrl and Alt are the right-hand keys exactly when the extended-key bit
      is set. Every other code ignores the flags, and a code the switch does
      not list gives `Invalid` (after an error is logged). */
  function TranslateWin32KeyCode(code: WParam, flags: LParam, leftShiftScanCode: Uint): (k: Key)
    ensures k < EnumSize
  {
    if InLetters(code) then LetterKey(code)
    else if InPunctuation(code) then PunctuationKey(code)
    else if InModifiers(code) then ModifierKey(code, flags, leftShiftScanCode)
    else if InDigitRow(code) then DigitRowKey(code)
    else if InNumpad(code) then NumpadKey(code)
    else if InOperators(code) then OperatorKey(code)
    else if InFunctionKeys(code) then FunctionKey(code)
    else if InEditing(code) then EditingKey(code)
    else if InArrows(code) then ArrowKey(code)
    else Invalid
  }

  /** The cases of the switch for the letters. */
  function LetterKey(code: WParam): Key
    requires InLetters(code)
  {
    if code == 'A' as WParam then A
    else if code == 'B' as WParam then B
    else if code == 'C' as WParam then C
    else if code == 'D' as WParam then D
    else if code == 'E' as WParam then E
    else if code == 'F' as WParam then F
    else if code == 'G' as WParam then G
    else if code == 'H' as WParam then H
    else if code == 'I' as WParam then I
    else if code == 'J' as WParam then J
    else if code == 'K' as WParam then K
    else if code == 'L' as WParam then L
    else if code == 'M' as WParam then M
    else if code == 'N' as WParam then N
    else if code == 'O' as WParam then O
    else if code == 'P' as WParam then P
    else if code == 'Q' as WParam then Q
    else if code == 'R' as WParam then R
    else if code == 'S' as WParam then S
    else if code == 'T' as WParam then T
    else if code == 'U' as WParam then U
    else if code == 'V' as WParam then V
    else if code == 'W' as WParam then W
    else if code == 'X' as WParam then X
    else if code == 'Y' as WParam then Y
    else Z
  }

  /** The cases of the switch for the punctuation keys. */
  function PunctuationKey(code: WParam): Key
    requires InPunctuation(code)
  {
    if code == VK_SPACE then Space
    else if code == VK_OEM_COMMA then Comma
    else if code == VK_OEM_PERIOD then Period
    else if code == VK_OEM_1 then Semicolon
    else if code == VK_OEM_2 then Slash
    else if code == VK_OEM_3 then Tilde
    else if code == VK_OEM_4 then LeftBracket
    else if code == VK_OEM_6 then RightBracket
    else if code == VK_OEM_5 then Backslash
    else Quote
  }

  /** The cases of the switch for the modifier, Windows, Tab, Backspace, Enter, Caps Lock and Escape keys. */
  function ModifierKey(code: WParam, flags: LParam, leftShiftScanCode: Uint): Key
    requires InModifiers(code)
  {
    if code == VK_SHIFT then (if ScanCode(flags) == leftShiftScanCode then LeftShift else RightShift)
    else if code == VK_CONTROL then (if Extended(flags) then RightCtrl else LeftCtrl)
    else if code == VK_MENU then (if Extended(flags) then RightAlt else LeftAlt)
    else if code == VK_LWIN then LeftSystem
    else if code == VK_RWIN then RightSystem
    else if code == VK_TAB then Tab
    else if code == VK_BACK then Backspace
    else if code == VK_RETURN then Enter
    else if code == VK_CAPITAL then CapsLock
    else Escape
  }

  /** The cases of the switch for the digit row. */
  function DigitRowKey(code: WParam): Key
    requires InDigitRow(code)
  {
    if code == '0' as WParam then Num0
    else if code == '1' as WParam then Num1
    else if code == '2' as WParam then Num2
    else if code == '3' as WParam then Num3
    else if code == '4' as WParam then Num4
    else if code == '5' as WParam then Num5
    else if code == '6' as WParam then Num6
    else if code == '7' as WParam then Num7
    else if code == '8' as WParam then Num8
    else if code == '9' as WParam then Num9
    else if code == VK_OEM_MINUS then Dash
    else Equals
  }

  /** The cases of the switch for the keypad digits. */
  function NumpadKey(code: WParam): Key
    requires InNumpad(code)
  {
    if code == VK_NUMPAD0 then Numpad0
    else if code == VK_NUMPAD1 then Numpad1
    else if code == VK_NUMPAD2 then Numpad2
    else if code == VK_NUMPAD3 then Numpad3
    else if code == VK_NUMPAD4 then Numpad4
    else if code == VK_NUMPAD5 then Numpad5
    else if code == VK_NUMPAD6 then Numpad6
    else if code == VK_NUMPAD7 then Numpad7
    else if code == VK_NUMPAD8 then Numpad8
    else Numpad9
  }

  /** The cases of the switch for the keypad operators and Num Lock. */
  function OperatorKey(code: WParam): Key
    requires InOperators(code)
  {
    if code == VK_ADD then Add
    else if code == VK_SUBTRACT then Subtract
    else if code == VK_MULTIPLY then Multiply
    else if code == VK_DIVIDE then Divide
    else NumLock
  }

  /** The cases of the switch for the function keys. */
  function FunctionKey(code: WParam): Key
    requires InFunctionKeys(code)
  {
    if code == VK_F1 then F1
    else if code == VK_F2 then F2
    else if code == VK_F3 then F3
    else if code == VK_F4 then F4
    else if code == VK_F5 then F5
    else if code == VK_F6 then F6
    else if code == VK_F7 then F7
    else if code == VK_F8 then F8
    else if code == VK_F9 then F9
    else if code == VK_F10 then F10
    else if code == VK_F11 then F11
    else F12
  }

  /** The cases of the switch for Print Screen, Scroll Lock, Pause and the editing keys. */
  function EditingKey(code: WParam): Key
    requires InEditing(code)
  {
    if code == VK_SNAPSHOT then PrintScreen
    else if code == VK_SCROLL then ScrollLock
    else if code == VK_PAUSE then Pause
    else if code == VK_INSERT then Insert
    else if code == VK_DELETE then Delete
    else if code == VK_HOME then Home
    else if code == VK_END then End
    else if code == VK_PRIOR then PageUp
    else PageDown
  }

  /** The cases of the switch for the arrow keys. */
  function ArrowKey(code: WParam): Key
    requires InArrows(code)
  {
    if code == VK_UP then Up
    else if code == VK_DOWN then Down
    else if code == VK_LEFT then Left
    else Right
  }

  /** The codes the switch lists, one predicate per group of cases; the
      letters, the digits, the keypad digits and the function keys are
      runs of consecutive codes. */
  predicate InLetters(code: WParam)
  {
    'A' as WParam <= code <= 'Z' as WParam
  }

  predicate InPunctuation(code: WParam)
  {
    code == VK_SPACE || code == VK_OEM_COMMA || code == VK_OEM_PERIOD || code == VK_OEM_1 ||
    code == VK_OEM_2 || code == VK_OEM_3 || code == VK_OEM_4 || code == VK_OEM_6 ||
    code == VK_OEM_5 || code == VK_OEM_7
  }

  predicate InModifiers(code: WParam)
  {
    code == VK_SHIFT || code == VK_CONTROL || code == VK_MENU || code == VK_LWIN ||
    code == VK_RWIN || code == VK_TAB || code == VK_BACK || code == VK_RETURN ||
    code == VK_CAPITAL || code == VK_ESCAPE
  }

  predicate InDigitRow(code: WParam)
  {
    '0' as WParam <= code <= '9' as WParam || code == VK_OEM_MINUS || code == VK_OEM_PLUS
  }

  predicate InNumpad(code: WParam)
  {
    VK_NUMPAD0 <= code <= VK_NUMPAD9
  }

  predicate InOperators(code: WParam)
  {
    code == VK_ADD || code == VK_SUBTRACT || code == VK_MULTIPLY || code == VK_DIVIDE ||
    code == VK_NUMLOCK
  }

  predicate InFunctionKeys(code: WParam)
  {
    VK_F1 <= code <= VK_F12
  }

  predicate InEditing(code: WParam)
  {
    code == VK_SNAPSHOT || code == VK_SCROLL || code == VK_PAUSE || code == VK_INSERT ||
    code == VK_DELETE || code == VK_HOME || code == VK_END || code == VK_PRIOR || code == VK_NEXT
  }

  predicate InArrows(code: WParam)
  {
    code == VK_UP || code == VK_DOWN || code == VK_LEFT || code == VK_RIGHT
  }

  /** Whether the switch lists the code. */
  predicate Handled(code: WParam)
  {
    InLetters(code) || InPunctuation(code) || InModifiers(code) || InDigitRow(code)
    || InNumpad(code) || InOperators(code) || InFunctionKeys(code) || InEditing(code) || InArrows(code)
  }

  /** The code each key comes from, as a table keyed by the engine key;
      `Invalid`, and any number that is not a key, comes from no code. */
  function CodeOf(k: Key): Option<WParam>
  {
    if k == A then Some('A' as WParam)
    else if k == B then Some('B' as WParam)
    else if k == C then Some('C' as WParam)
    else if k == D then Some('D' as WParam)
    else if k == E then Some('E' as WParam)
    else if k == F then Some('F' as WParam)
    else if k == G then Some('G' as WParam)
    else if k == H then Some('H' as WParam)
    else if k == I then Some('I' as WParam)
    else if k == J then Some('J' as WParam)
    else if k == K then Some('K' as WParam)
    else if k == L then Some('L' as WParam)
    else if k == M then Some('M' as WParam)
    else if k == N then Some('N' as WParam)
    else if k == O then Some('O' as WParam)
    else if k == P then Some('P' as WParam)
    else if k == Q then Some('Q' as WParam)
    else if k == R then Some('R' as WParam)
    else if k == S then Some('S' as WParam)
    else if k == T then Some('T' as WParam)
    else if k == U then Some('U' as WParam)
    else if k == V then Some('V' as WParam)
    else if k == W then Some('W' as WParam)
    else if k == X then Some('X' as WParam)
    else if k == Y then Some('Y' as WParam)
    else if k == Z then Some('Z' as WParam)
    else if k == Space then Some(VK_SPACE)
    else if k == Comma then Some(VK_OEM_COMMA)
    else if k == Period then Some(VK_OEM_PERIOD)
    else if k == Semicolon then Some(VK_OEM_1)
    else if k == Slash then Some(VK_OEM_2)
    else if k == Tilde then Some(VK_OEM_3)
    else if k == LeftBracket then Some(VK_OEM_4)
    else if k == RightBracket then Some(VK_OEM_6)
    else if k == Backslash then Some(VK_OEM_5)
    else if k == Quote then Some(VK_OEM_7)
    else if k == LeftSystem then Some(VK_LWIN)
    else if k == RightSystem then Some(VK_RWIN)
    else if k == Tab then Some(VK_TAB)
    else if k == Backspace then Some(VK_BACK)
    else if k == Enter then Some(VK_RETURN)
    else if k == CapsLock then Some(VK_CAPITAL)
    else if k == Escape then Some(VK_ESCAPE)
    else if k == Num0 then Some('0' as WParam)
    else if k == Num1 then Some('1' as WParam)
    else if k == Num2 then Some('2' as WParam)
    else if k == Num3 then Some('3' as WParam)
    else if k == Num4 then Some('4' as WParam)
    else if k == Num5 then Some('5' as WParam)
    else if k == Num6 then Some('6' as WParam)
    else if k == Num7 then Some('7' as WParam)
    else if k == Num8 then Some('8' as WParam)
    else if k == Num9 then Some('9' as WParam)
    else if k == Dash then Some(VK_OEM_MINUS)
    else if k == Equals then Some(VK_OEM_PLUS)
    else if k == Numpad0 then Some(VK_NUMPAD0)
    else if k == Numpad1 then Some(VK_NUMPAD1)
    else if k == Numpad2 then Some(VK_NUMPAD2)
    else if k == Numpad3 then Some(VK_NUMPAD3)
    else if k == Numpad4 then Some(VK_NUMPAD4)
    else if k == Numpad5 then Some(VK_NUMPAD5)
    else if k == Numpad6 then Some(VK_NUMPAD6)
    else if k == Numpad7 then Some(VK_NUMPAD7)
    else if k == Numpad8 then Some(VK_NUMPAD8)
    else if k == Numpad9 then Some(VK_NUMPAD9)
    else if k == Add then Some(VK_ADD)
    else if k == Subtract then Some(VK_SUBTRACT)
    else if k == Multiply then Some(VK_MULTIPLY)
    else if k == Divide then Some(VK_DIVIDE)
    else if k == NumLock then Some(VK_NUMLOCK)
    else if k == F1 then Some(VK_F1)
    else if k == F2 then Some(VK_F2)
    else if k == F3 then Some(VK_F3)
    else if k == F4 then Some(VK_F4)
    else if k == F5 then Some(VK_F5)
    else if k == F6 then Some(VK_F6)
    else if k == F7 then Some(VK_F7)
    else if k == F8 then Some(VK_F8)
    else if k == F9 then Some(VK_F9)
    else if k == F10 then Some(VK_F10)
    else if k == F11 then Some(VK_F11)
    else if k == F12 then Some(VK_F12)
    else if k == PrintScreen then Some(VK_SNAPSHOT)
    else if k == ScrollLock then Some(VK_SCROLL)
    else if k == Pause then Some(VK_PAUSE)
    else if k == Insert then Some(VK_INSERT)
    else if k == Delete then Some(VK_DELETE)
    else if k == Home then Some(VK_HOME)
    else if k == End then Some(VK_END)
    else if k == PageUp then Some(VK_PRIOR)
    else if k == PageDown then Some(VK_NEXT)
    else if k == Up then Some(VK_UP)
    else if k == Down then Some(VK_DOWN)
    else if k == Left then Some(VK_LEFT)
    else if k == Right then Some(VK_RIGHT)
    else if k == LeftShift || k == RightShift then Some(VK_SHIFT)
    else if k == LeftCtrl || k == RightCtrl then Some(VK_CONTROL)
    else if k == LeftAlt || k == RightAlt then Some(VK_MENU)
    else None
  }

  /** `CodeOf` recovers each code of the letters from its key. */
  lemma LetterCodes(code: WParam)
    requires InLetters(code)
    ensures CodeOf(LetterKey(code)) == Some(code)
  {
  }

  /** `TranslationRoundTrip` for the letters. */
  lemma RoundTripLetters(code: WParam, flags: LParam, leftShiftScanCode: Uint)
    requires InLetters(code)
    ensures TranslateWin32KeyCode(code, flags, leftShiftScanCode) != Invalid
    ensures CodeOf(TranslateWin32KeyCode(code, flags, leftShiftScanCode)) == Some(code)
    ensures Index(TranslateWin32KeyCode(code, flags, leftShiftScanCode)) == Index(A) + (code - 'A' as WParam)
  {
    assert TranslateWin32KeyCode(code, flags, leftShiftScanCode) == LetterKey(code);
    LetterCodes(code);
  }

  /** `CodeOf` recovers each code of the punctuation keys from its key. */
  lemma PunctuationCodes(code: WParam)
    requires InPunctuation(code)
    ensures CodeOf(PunctuationKey(code)) == Some(code)
  {
  }

  /** `TranslationRoundTrip` for the punctuation keys. */
  lemma RoundTripPunctuation(code: WParam, flags: LParam, leftShiftScanCode: Uint)
    requires InPunctuation(code)
    ensures TranslateWin32KeyCode(code, flags, leftShiftScanCode) != Invalid
    ensures CodeOf(TranslateWin32KeyCode(code, flags, leftShiftScanCode)) == Some(code)
  {
    assert TranslateWin32KeyCode(code, flags, leftShiftScanCode) == PunctuationKey(code);
    PunctuationCodes(code);
  }

  /** `CodeOf` recovers each code of the modifier and editing keys from its key. */
  lemma ModifierCodes(code: WParam, flags: LParam, leftShiftScanCode: Uint)
    requires InModifiers(code)
    ensures CodeOf(ModifierKey(code, flags, leftShiftScanCode)) == Some(code)
  {
  }

  /** `TranslationRoundTrip` for the modifier and editing keys. */
  lemma RoundTripModifiers(code: WParam, flags: LParam, leftShiftScanCode: Uint)
    requires InModifiers(code)
    ensures TranslateWin32KeyCode(code, flags, leftShiftScanCode) != Invalid
    ensures CodeOf(TranslateWin32KeyCode(code, flags, leftShiftScanCode)) == Some(code)
  {
    assert TranslateWin32KeyCode(code, flags, leftShiftScanCode) == ModifierKey(code, flags, leftShiftScanCode);
    ModifierCodes(code, flags, leftShiftScanCode);
  }

  /** `CodeOf` recovers each code of the digit row from its key. */
  lemma DigitRowCodes(code: WParam)
    requires InDigitRow(code)
    ensures CodeOf(DigitRowKey(code)) == Some(code)
  {
  }

  /** `TranslationRoundTrip` for the digit row. */
  lemma RoundTripDigitRow(code: WParam, flags: LParam, leftShiftScanCode: Uint)
    requires InDigitRow(code)
    ensures TranslateWin32KeyCode(code, flags, leftShiftScanCode) != Invalid
    ensures CodeOf(TranslateWin32KeyCode(code, flags, leftShiftScanCode)) == Some(code)
    ensures code < '0' as WParam + 10 ==>
              Index(TranslateWin32KeyCode(code, flags, leftShiftScanCode)) == Index(Num0) + (code - '0' as WParam)
  {
    assert TranslateWin32KeyCode(code, flags, leftShiftScanCode) == DigitRowKey(code);
    DigitRowCodes(code);
  }

  /** `CodeOf` recovers each code of the numeric keypad digits from its key. */
  lemma NumpadCodes(code: WParam)
    requires InNumpad(code)
    ensures CodeOf(NumpadKey(code)) == Some(code)
  {
  }

  /** `TranslationRoundTrip` for the numeric keypad digits. */
  lemma RoundTripNumpad(code: WParam, flags: LParam, leftShiftScanCode: Uint)
    requires InNumpad(code)
    ensures TranslateWin32KeyCode(code, flags, leftShiftScanCode) != Invalid
    ensures CodeOf(TranslateWin32KeyCode(code, flags, leftShiftScanCode)) == Some(code)
    ensures Index(TranslateWin32KeyCode(code, flags, leftShiftScanCode)) == Index(Numpad0) + (code - VK_NUMPAD0)
  {
    assert TranslateWin32KeyCode(code, flags, leftShiftScanCode) == NumpadKey(code);
    NumpadCodes(code);
  }

  /** `CodeOf` recovers each code of the keypad operators and Num Lock from its key. */
  lemma OperatorCodes(code: WParam)
    requires InOperators(code)
    ensures CodeOf(OperatorKey(code)) == Some(code)
  {
  }

  /** `TranslationRoundTrip` for the keypad operators and Num Lock. */
  lemma RoundTripOperators(code: WParam, flags: LParam, leftShiftScanCode: Uint)
    requires InOperators(code)
    ensures TranslateWin32KeyCode(code, flags, leftShiftScanCode) != Invalid
    ensures CodeOf(TranslateWin32KeyCode(code, flags, leftShiftScanCode)) == Some(code)
  {
    assert TranslateWin32KeyCode(code, flags, leftShiftScanCode) == OperatorKey(code);
    OperatorCodes(code);
  }

  /** `CodeOf` recovers each code of the function keys from its key. */
  lemma FunctionKeyCodes(code: WParam)
    requires InFunctionKeys(code)
    ensures CodeOf(FunctionKey(code)) == Some(code)
  {
  }

  /** `TranslationRoundTrip` for the function keys. */
  lemma RoundTripFunctionKeys(code: WParam, flags: LParam, leftShiftScanCode: Uint)
    requires InFunctionKeys(code)
    ensures TranslateWin32KeyCode(code, flags, leftShiftScanCode) != Invalid
    ensures CodeOf(TranslateWin32KeyCode(code, flags, leftShiftScanCode)) == Some(code)
    ensures Index(TranslateWin32KeyCode(code, flags, leftShiftScanCode)) == Index(F1) + (code - VK_F1)
  {
    assert TranslateWin32KeyCode(code, flags, leftShiftScanCode) == FunctionKey(code);
    FunctionKeyCodes(code);
  }

  /** `CodeOf` recovers each code of the print-screen, lock, pause and editing keys from its key. */
  lemma EditingCodes(code: WParam)
    requires InEditing(code)
    ensures CodeOf(EditingKey(code)) == Some(code)
  {
  }

  /** `TranslationRoundTrip` for the print-screen, lock, pause and editing keys. */
  lemma RoundTripEditing(code: WParam, flags: LParam, leftShiftScanCode: Uint)
    requires InEditing(code)
    ensures TranslateWin32KeyCode(code, flags, leftShiftScanCode) != Invalid
    ensures CodeOf(TranslateWin32KeyCode(code, flags, leftShiftScanCode)) == Some(code)
  {
    assert TranslateWin32KeyCode(code, flags, leftShiftScanCode) == EditingKey(code);
    EditingCodes(code);
  }

  /** `CodeOf` recovers each code of the arrow keys from its key. */
  lemma ArrowCodes(code: WParam)
    requires InArrows(code)
    ensures CodeOf(ArrowKey(code)) == Some(code)
  {
  }

  /** `TranslationRoundTrip` for the arrow keys. */
  lemma RoundTripArrows(code: WParam, flags: LParam, leftShiftScanCode: Uint)
    requires InArrows(code)
    ensures TranslateWin32KeyCode(code, flags, leftShiftScanCode) != Invalid
    ensures CodeOf(TranslateWin32KeyCode(code, flags, leftShiftScanCode)) == Some(code)
  {
    assert TranslateWin32KeyCode(code, flags, leftShiftScanCode) == ArrowKey(code);
    ArrowCodes(code);
  }

  /** A listed code never gives `Invalid`, and `CodeOf` recovers it from
      the key, whatever the flags. */
  lemma TranslationRoundTrip(code: WParam, flags: LParam, leftShiftScanCode: Uint)
    requires Handled(code)
    ensures TranslateWin32KeyCode(code, flags, leftShiftScanCode) != Invalid
    ensures CodeOf(TranslateWin32KeyCode(code, flags, leftShiftScanCode)) == Some(code)
  {
    if InLetters(code) {
      RoundTripLetters(code, flags, leftShiftScanCode);
    } else if InPunctuation(code) {
      RoundTripPunctuation(code, flags, leftShiftScanCode);
    } else if InModifiers(code) {
      RoundTripModifiers(code, flags, leftShiftScanCode);
    } else if InDigitRow(code) {
      RoundTripDigitRow(code, flags, leftShiftScanCode);
    } else if InNumpad(code) {
      RoundTripNumpad(code, flags, leftShiftScanCode);
    } else if InOperators(code) {
      RoundTripOperators(code, flags, leftShiftScanCode);
    } else if InFunctionKeys(code) {
      RoundTripFunctionKeys(code, flags, leftShiftScanCode);
    } else if InEditing(code) {
      RoundTripEditing(code, flags, leftShiftScanCode);
    } else {
      RoundTripArrows(code, flags, leftShiftScanCode);
    }
  }

  /** Distinct listed codes give distinct keys, whatever the flags. */
  lemma TranslationInjective(code1: WParam, flags1: LParam, code2: WParam, flags2: LParam, leftShiftScanCode: Uint)
    requires Handled(code1) && Handled(code2)
    requires TranslateWin32KeyCode(code1, flags1, leftShiftScanCode)
             == TranslateWin32KeyCode(code2, flags2, leftShiftScanCode)
    ensures code1 == code2
  {
    TranslationRoundTrip(code1, flags1, leftShiftScanCode);
    TranslationRoundTrip(code2, flags2, leftShiftScanCode);
  }

  /** The result is `Invalid` exactly for the codes the switch does not
      list. */
  lemma InvalidIffUnhandled(code: WParam, flags: LParam, leftShiftScanCode: Uint)
    ensures TranslateWin32KeyCode(code, flags, leftShiftScanCode) == Invalid <==> !Handled(code)
  {
    if Handled(code) {
      TranslationRoundTrip(code, flags, leftShiftScanCode);
    }
  }

  /** Only shift, Ctrl and Alt look at the flags or at the left-shift scan
      code. */
  lemma FlagsIrrelevant(code: WParam, flags1: LParam, flags2: LParam, scan1: Uint, scan2: Uint)
    requires code != VK_SHIFT && code != VK_CONTROL && code != VK_MENU
    ensures TranslateWin32KeyCode(code, flags1, scan1) == TranslateWin32KeyCode(code, flags2, scan2)
  {
  }

  /** The scan code and the extended-key bit are read from their places in
      the keystroke flags. */
  lemma FlagsFields(repeatCount: bv16, scanCode: bv8, extended: bool, contextCode: bool,
                    previousState: bool, transition: bool)
    ensures ScanCode(KeystrokeFlags(repeatCount, scanCode, extended, contextCode, previousState, transition))
            == scanCode as int
    ensures Extended(KeystrokeFlags(repeatCount, scanCode, extended, contextCode, previousState, transition))
            == extended
  {
  }

  /** Shift is the left shift exactly when the keystroke's scan code is the
      left shift's, and otherwise the right shift; Ctrl and Alt are the
      right-hand keys exactly when the keystroke is extended. */
  lemma ModifierSides(repeatCount: bv16, scanCode: bv8, extended: bool, contextCode: bool,
                      previousState: bool, transition: bool, leftShiftScanCode: Uint)
    ensures var flags := KeystrokeFlags(repeatCount, scanCode, extended, contextCode, previousState, transition);
            && TranslateWin32KeyCode(VK_SHIFT, flags, leftShiftScanCode)
               == (if scanCode as int == leftShiftScanCode then LeftShift else RightShift)
            && TranslateWin32KeyCode(VK_CONTROL, flags, leftShiftScanCode) == (if extended then RightCtrl else LeftCtrl)
            && TranslateWin32KeyCode(VK_MENU, flags, leftShiftScanCode) == (if extended then RightAlt else LeftAlt)
  {
    FlagsFields(repeatCount, scanCode, extended, contextCode, previousState, transition);
  }

  /** 'A' to 'Z' give `A` to `Z` in order. */
  lemma LettersInOrder(code: WParam, flags: LParam, leftShiftScanCode: Uint)
    requires 'A' as WParam <= code <= 'Z' as WParam
    ensures Index(TranslateWin32KeyCode(code, flags, leftShiftScanCode)) == Index(A) + (code - 'A' as WParam)
  {
    RoundTripLetters(code, flags, leftShiftScanCode);
  }

  /** '0' to '9' give `Num0` to `Num9` in order. */
  lemma DigitsInOrder(code: WParam, flags: LParam, leftShiftScanCode: Uint)
    requires '0' as WParam <= code <= '9' as WParam
    ensures Index(TranslateWin32KeyCode(code, flags, leftShiftScanCode)) == Index(Num0) + (code - '0' as WParam)
  {
    RoundTripDigitRow(code, flags, leftShiftScanCode);
  }

  /** `VK_NUMPAD0` to `VK_NUMPAD9` give `Numpad0` to `Numpad9` in order. */
  lemma NumpadInOrder(code: WParam, flags: LParam, leftShiftScanCode: Uint)
    requires VK_NUMPAD0 <= code <= VK_NUMPAD9
    ensures Index(TranslateWin32KeyCode(code, flags, leftShiftScanCode)) == Index(Numpad0) + (code - VK_NUMPAD0)
  {
    RoundTripNumpad(code, flags, leftShiftScanCode);
  }

  /** `VK_F1` to `VK_F12` give `F1` to `F12` in order. */
  lemma FunctionKeysInOrder(code: WParam, flags: LParam, leftShiftScanCode: Uint)
    requires VK_F1 <= code <= VK_F12
    ensures Index(TranslateWin32KeyCode(code, flags, leftShiftScanCode)) == Index(F1) + (code - VK_F1)
  {
    RoundTripFunctionKeys(code, flags, leftShiftScanCode);
  }
}
