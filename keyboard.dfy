/** The engine's keyboard keys and their printable names. */
module Keyboard {
  import opened Wrappers

  /** `Keyboard::Key`, an `enum class` whose underlying type is `uint16_t`:
      a key is a 16-bit number, and the enumerators below number the keys
      from 0 in declaration order. */
  newtype Key = k: int | 0 <= k < 0x1_0000

  const Invalid: Key := 0

  const A: Key := 1
  const B: Key := 2
  const C: Key := 3
  const D: Key := 4
  const E: Key := 5
  const F: Key := 6
  const G: Key := 7
  const H: Key := 8
  const I: Key := 9
  const J: Key := 10
  const K: Key := 11
  const L: Key := 12
  const M: Key := 13

  const N: Key := 14
  const O: Key := 15
  const P: Key := 16
  const Q: Key := 17
  const R: Key := 18
  const S: Key := 19
  const T: Key := 20
  const U: Key := 21
  const V: Key := 22
  const W: Key := 23
  const X: Key := 24
  const Y: Key := 25
  const Z: Key := 26

  const Space: Key := 27
  const Comma: Key := 28
  const Period: Key := 29
  const Semicolon: Key := 30
  const Slash: Key := 31
  const Tilde: Key := 32

  const LeftBracket: Key := 33
  const RightBracket: Key := 34
  const Backslash: Key := 35
  const Quote: Key := 36

  const LeftShift: Key := 37
  const RightShift: Key := 38
  const LeftCtrl: Key := 39
  const RightCtrl: Key := 40

  const LeftAlt: Key := 41
  const RightAlt: Key := 42
  const LeftSystem: Key := 43
  const RightSystem: Key := 44

  const Tab: Key := 45
  const Backspace: Key := 46
  const Enter: Key := 47
  const CapsLock: Key := 48
  const Escape: Key := 49

  const Num0: Key := 50
  const Num1: Key := 51
  const Num2: Key := 52
  const Num3: Key := 53
  const Num4: Key := 54
  const Num5: Key := 55
  const Num6: Key := 56
  const Num7: Key := 57
  const Num8: Key := 58
  const Num9: Key := 59
  const Dash: Key := 60
  const Equals: Key := 61

  const Numpad0: Key := 62
  const Numpad1: Key := 63
  const Numpad2: Key := 64
  const Numpad3: Key := 65
  const Numpad4: Key := 66
  const Numpad5: Key := 67
  const Numpad6: Key := 68

  const Numpad7: Key := 69
  const Numpad8: Key := 70
  const Numpad9: Key := 71
  const Add: Key := 72
  const Subtract: Key := 73
  const Multiply: Key := 74
  const Divide: Key := 75
  const NumLock: Key := 76

  const F1: Key := 77
  const F2: Key := 78
  const F3: Key := 79
  const F4: Key := 80
  const F5: Key := 81
  const F6: Key := 82
  const F7: Key := 83
  const F8: Key := 84
  const F9: Key := 85
  const F10: Key := 86
  const F11: Key := 87
  const F12: Key := 88

  const PrintScreen: Key := 89
  const ScrollLock: Key := 90
  const Pause: Key := 91

  const Insert: Key := 92
  const Delete: Key := 93
  const Home: Key := 94
  const End: Key := 95
  const PageUp: Key := 96
  const PageDown: Key := 97

  const Up: Key := 98
  const Down: Key := 99
  const Left: Key := 100
  const Right: Key := 101

  /** `Keyboard::Key::ENUM_SIZE`, the enumerator after the last key: the
      number of keys. */
  const EnumSize: Key := 102

  /** `Keyboard::keyNames`, one name per enumerator in declaration order,
      written one declaration line per display. */
  const KeyNames: seq<string> :=
    (((["Invalid"]
     + (["A", "B", "C", "D", "E", "F", "G", "H", "I", "J", "K", "L", "M"]
     + ["N", "O", "P", "Q", "R", "S", "T", "U", "V", "W", "X", "Y", "Z"]))
     + ((["Space", "Comma", "Period", "Semicolon", "Slash", "Tilde"]
     + ["LeftBracket", "RightBracket", "Backslash", "Quote"])
     + (["LeftShift", "RightShift", "LeftCtrl", "RightCtrl"]
     + ["LeftAlt", "RightAlt", "LeftSystem", "RightSystem"])))
     + (((["Tab", "Backspace", "Enter", "CapsLock", "Escape"]
     + ["Num0", "Num1", "Num2", "Num3", "Num4", "Num5", "Num6", "Num7", "Num8", "Num9", "Dash", "Equals"])
     + (["Numpad0", "Numpad1", "Numpad2", "Numpad3", "Numpad4", "Numpad5", "Numpad6"]
     + ["Numpad7", "Numpad8", "Numpad9", "Add", "Subtract", "Multiply", "Divide", "NumLock"]))
     + ((["F1", "F2", "F3", "F4", "F5", "F6", "F7", "F8", "F9", "F10", "F11", "F12"]
     + ["PrintScreen", "ScrollLock", "Pause"])
     + (["Insert", "Delete", "Home", "End", "PageUp", "PageDown"]
     + ["Up", "Down", "Left", "Right"]))))

  /** `INDEX_CAST(key)`: the key's number as an index. */
  function Index(k: Key): nat
  {
    k as nat
  }

  /** `GetKeyName`: the entry of `keyNames` at the key's number; the key
      must be one of the enumerators before `ENUM_SIZE`. */
  function GetKeyName(k: Key): string
    requires k < EnumSize
  {
    KeyNames[Index(k)]
  }

  /** The identifier of each enumerator, as declared. */
  function Spelling(k: Key): string
    requires k < EnumSize
  {
    if k == Invalid then "Invalid"
    else if k == A then "A"
    else if k == B then "B"
    else if k == C then "C"
    else if k == D then "D"
    else if k == E then "E"
    else if k == F then "F"
    else if k == G then "G"
    else if k == H then "H"
    else if k == I then "I"
    else if k == J then "J"
    else if k == K then "K"
    else if k == L then "L"
    else if k == M then "M"
    else if k == N then "N"
    else if k == O then "O"
    else if k == P then "P"
    else if k == Q then "Q"
    else if k == R then "R"
    else if k == S then "S"
    else if k == T then "T"
    else if k == U then "U"
    else if k == V then "V"
    else if k == W then "W"
    else if k == X then "X"
    else if k == Y then "Y"
    else if k == Z then "Z"
    else if k == Space then "Space"
    else if k == Comma then "Comma"
    else if k == Period then "Period"
    else if k == Semicolon then "Semicolon"
    else if k == Slash then "Slash"
    else if k == Tilde then "Tilde"
    else if k == LeftBracket then "LeftBracket"
    else if k == RightBracket then "RightBracket"
    else if k == Backslash then "Backslash"
    else if k == Quote then "Quote"
    else if k == LeftShift then "LeftShift"
    else if k == RightShift then "RightShift"
    else if k == LeftCtrl then "LeftCtrl"
    else if k == RightCtrl then "RightCtrl"
    else if k == LeftAlt then "LeftAlt"
    else if k == RightAlt then "RightAlt"
    else if k == LeftSystem then "LeftSystem"
    else if k == RightSystem then "RightSystem"
    else if k == Tab then "Tab"
    else if k == Backspace then "Backspace"
    else if k == Enter then "Enter"
    else if k == CapsLock then "CapsLock"
    else if k == Escape then "Escape"
    else if k == Num0 then "Num0"
    else if k == Num1 then "Num1"
    else if k == Num2 then "Num2"
    else if k == Num3 then "Num3"
    else if k == Num4 then "Num4"
    else if k == Num5 then "Num5"
    else if k == Num6 then "Num6"
    else if k == Num7 then "Num7"
    else if k == Num8 then "Num8"
    else if k == Num9 then "Num9"
    else if k == Dash then "Dash"
    else if k == Equals then "Equals"
    else if k == Numpad0 then "Numpad0"
    else if k == Numpad1 then "Numpad1"
    else if k == Numpad2 then "Numpad2"
    else if k == Numpad3 then "Numpad3"
    else if k == Numpad4 then "Numpad4"
    else if k == Numpad5 then "Numpad5"
    else if k == Numpad6 then "Numpad6"
    else if k == Numpad7 then "Numpad7"
    else if k == Numpad8 then "Numpad8"
    else if k == Numpad9 then "Numpad9"
    else if k == Add then "Add"
    else if k == Subtract then "Subtract"
    else if k == Multiply then "Multiply"
    else if k == Divide then "Divide"
    else if k == NumLock then "NumLock"
    else if k == F1 then "F1"
    else if k == F2 then "F2"
    else if k == F3 then "F3"
    else if k == F4 then "F4"
    else if k == F5 then "F5"
    else if k == F6 then "F6"
    else if k == F7 then "F7"
    else if k == F8 then "F8"
    else if k == F9 then "F9"
    else if k == F10 then "F10"
    else if k == F11 then "F11"
    else if k == F12 then "F12"
    else if k == PrintScreen then "PrintScreen"
    else if k == ScrollLock then "ScrollLock"
    else if k == Pause then "Pause"
    else if k == Insert then "Insert"
    else if k == Delete then "Delete"
    else if k == Home then "Home"
    else if k == End then "End"
    else if k == PageUp then "PageUp"
    else if k == PageDown then "PageDown"
    else if k == Up then "Up"
    else if k == Down then "Down"
    else if k == Left then "Left"
    else "Right"
  }

  /** The key a name belongs to: the inverse of `Spelling`, decided on the
      length and then on single characters, so that telling names apart
      never compares two whole strings. */
  function KeyFromName(s: string): Option<Key>
  {
    if |s| == 1 then
      (if s[0] == 'A' then
        if s == "A" then Some(A) else None
      else if s[0] == 'B' then
        if s == "B" then Some(B) else None
      else if s[0] == 'C' then
        if s == "C" then Some(C) else None
      else if s[0] == 'D' then
        if s == "D" then Some(D) else None
      else if s[0] == 'E' then
        if s == "E" then Some(E) else None
      else if s[0] == 'F' then
        if s == "F" then Some(F) else None
      else if s[0] == 'G' then
        if s == "G" then Some(G) else None
      else if s[0] == 'H' then
        if s == "H" then Some(H) else None
      else if s[0] == 'I' then
        if s == "I" then Some(I) else None
      else if s[0] == 'J' then
        if s == "J" then Some(J) else None
      else if s[0] == 'K' then
        if s == "K" then Some(K) else None
      else if s[0] == 'L' then
        if s == "L" then Some(L) else None
      else if s[0] == 'M' then
        if s == "M" then Some(M) else None
      else if s[0] == 'N' then
        if s == "N" then Some(N) else None
      else if s[0] == 'O' then
        if s == "O" then Some(O) else None
      else if s[0] == 'P' then
        if s == "P" then Some(P) else None
      else if s[0] == 'Q' then
        if s == "Q" then Some(Q) else None
      else if s[0] == 'R' then
        if s == "R" then Some(R) else None
      else if s[0] == 'S' then
        if s == "S" then Some(S) else None
      else if s[0] == 'T' then
        if s == "T" then Some(T) else None
      else if s[0] == 'U' then
        if s == "U" then Some(U) else None
      else if s[0] == 'V' then
        if s == "V" then Some(V) else None
      else if s[0] == 'W' then
        if s == "W" then Some(W) else None
      else if s[0] == 'X' then
        if s == "X" then Some(X) else None
      else if s[0] == 'Y' then
        if s == "Y" then Some(Y) else None
      else if s[0] == 'Z' then
        if s == "Z" then Some(Z) else None
      else None)
    else if |s| == 2 then
      (if s[1] == '1' then
        if s == "F1" then Some(F1) else None
      else if s[1] == '2' then
        if s == "F2" then Some(F2) else None
      else if s[1] == '3' then
        if s == "F3" then Some(F3) else None
      else if s[1] == '4' then
        if s == "F4" then Some(F4) else None
      else if s[1] == '5' then
        if s == "F5" then Some(F5) else None
      else if s[1] == '6' then
        if s == "F6" then Some(F6) else None
      else if s[1] == '7' then
        if s == "F7" then Some(F7) else None
      else if s[1] == '8' then
        if s == "F8" then Some(F8) else None
      else if s[1] == '9' then
        if s == "F9" then Some(F9) else None
      else if s[1] == 'p' then
        if s == "Up" then Some(Up) else None
      else None)
    else if |s| == 3 then
      (if s[2] == 'b' then
        if s == "Tab" then Some(Tab) else None
      else if s[2] == 'd' then
        (if s[0] == 'A' then
          if s == "Add" then Some(Add) else None
        else if s[0] == 'E' then
          if s == "End" then Some(End) else None
        else None)
      else if s[2] == '0' then
        if s == "F10" then Some(F10) else None
      else if s[2] == '1' then
        if s == "F11" then Some(F11) else None
      else if s[2] == '2' then
        if s == "F12" then Some(F12) else None
      else None)
    else if |s| == 4 then
      (if s[3] == '0' then
        if s == "Num0" then Some(Num0) else None
      else if s[3] == '1' then
        if s == "Num1" then Some(Num1) else None
      else if s[3] == '2' then
        if s == "Num2" then Some(Num2) else None
      else if s[3] == '3' then
        if s == "Num3" then Some(Num3) else None
      else if s[3] == '4' then
        if s == "Num4" then Some(Num4) else None
      else if s[3] == '5' then
        if s == "Num5" then Some(Num5) else None
      else if s[3] == '6' then
        if s == "Num6" then Some(Num6) else None
      else if s[3] == '7' then
        if s == "Num7" then Some(Num7) else None
      else if s[3] == '8' then
        if s == "Num8" then Some(Num8) else None
      else if s[3] == '9' then
        if s == "Num9" then Some(Num9) else None
      else if s[3] == 'h' then
        if s == "Dash" then Some(Dash) else None
      else if s[3] == 'e' then
        if s == "Home" then Some(Home) else None
      else if s[3] == 'n' then
        if s == "Down" then Some(Down) else None
      else if s[3] == 't' then
        if s == "Left" then Some(Left) else None
      else None)
    else if |s| == 5 then
      (if s[0] == 'S' then
        (if s[1] == 'p' then
          if s == "Space" then Some(Space) else None
        else if s[1] == 'l' then
          if s == "Slash" then Some(Slash) else None
        else None)
      else if s[0] == 'C' then
        if s == "Comma" then Some(Comma) else None
      else if s[0] == 'T' then
        if s == "Tilde" then Some(Tilde) else None
      else if s[0] == 'Q' then
        if s == "Quote" then Some(Quote) else None
      else if s[0] == 'E' then
        if s == "Enter" then Some(Enter) else None
      else if s[0] == 'P' then
        if s == "Pause" then Some(Pause) else None
      else if s[0] == 'R' then
        if s == "Right" then Some(Right) else None
      else None)
    else if |s| == 6 then
      (if s[2] == 'r' then
        if s == "Period" then Some(Period) else None
      else if s[2] == 'c' then
        if s == "Escape" then Some(Escape) else None
      else if s[2] == 'u' then
        if s == "Equals" then Some(Equals) else None
      else if s[2] == 'v' then
        if s == "Divide" then Some(Divide) else None
      else if s[2] == 's' then
        if s == "Insert" then Some(Insert) else None
      else if s[2] == 'l' then
        if s == "Delete" then Some(Delete) else None
      else if s[2] == 'g' then
        if s == "PageUp" then Some(PageUp) else None
      else None)
    else if |s| == 7 then
      (if s[6] == 'd' then
        if s == "Invalid" then Some(Invalid) else None
      else if s[6] == 't' then
        if s == "LeftAlt" then Some(LeftAlt) else None
      else if s[6] == '0' then
        if s == "Numpad0" then Some(Numpad0) else None
      else if s[6] == '1' then
        if s == "Numpad1" then Some(Numpad1) else None
      else if s[6] == '2' then
        if s == "Numpad2" then Some(Numpad2) else None
      else if s[6] == '3' then
        if s == "Numpad3" then Some(Numpad3) else None
      else if s[6] == '4' then
        if s == "Numpad4" then Some(Numpad4) else None
      else if s[6] == '5' then
        if s == "Numpad5" then Some(Numpad5) else None
      else if s[6] == '6' then
        if s == "Numpad6" then Some(Numpad6) else None
      else if s[6] == '7' then
        if s == "Numpad7" then Some(Numpad7) else None
      else if s[6] == '8' then
        if s == "Numpad8" then Some(Numpad8) else None
      else if s[6] == '9' then
        if s == "Numpad9" then Some(Numpad9) else None
      else if s[6] == 'k' then
        if s == "NumLock" then Some(NumLock) else None
      else None)
    else if |s| == 8 then
      (if s[0] == 'L' then
        if s == "LeftCtrl" then Some(LeftCtrl) else None
      else if s[0] == 'R' then
        if s == "RightAlt" then Some(RightAlt) else None
      else if s[0] == 'C' then
        if s == "CapsLock" then Some(CapsLock) else None
      else if s[0] == 'S' then
        if s == "Subtract" then Some(Subtract) else None
      else if s[0] == 'M' then
        if s == "Multiply" then Some(Multiply) else None
      else if s[0] == 'P' then
        if s == "PageDown" then Some(PageDown) else None
      else None)
    else if |s| == 9 then
      (if s[5] == 'o' then
        if s == "Semicolon" then Some(Semicolon) else None
      else if s[5] == 'l' then
        if s == "Backslash" then Some(Backslash) else None
      else if s[5] == 'h' then
        if s == "LeftShift" then Some(LeftShift) else None
      else if s[5] == 'C' then
        if s == "RightCtrl" then Some(RightCtrl) else None
      else if s[5] == 'p' then
        if s == "Backspace" then Some(Backspace) else None
      else None)
    else if |s| == 10 then
      (if s[0] == 'R' then
        if s == "RightShift" then Some(RightShift) else None
      else if s[0] == 'L' then
        if s == "LeftSystem" then Some(LeftSystem) else None
      else if s[0] == 'S' then
        if s == "ScrollLock" then Some(ScrollLock) else None
      else None)
    else if |s| == 11 then
      (if s[0] == 'L' then
        if s == "LeftBracket" then Some(LeftBracket) else None
      else if s[0] == 'R' then
        if s == "RightSystem" then Some(RightSystem) else None
      else if s[0] == 'P' then
        if s == "PrintScreen" then Some(PrintScreen) else None
      else None)
    else if |s| == 12 then
      if s == "RightBracket" then Some(RightBracket) else None
    else None
  }

  /** The table facts for Invalid, A, B, C, D, E, F. */
  lemma KeyFactsFromInvalid(k: Key)
    requires Invalid <= k < G
    ensures GetKeyName(k) == Spelling(k)
    ensures KeyFromName(Spelling(k)) == Some(k)
  {
    if k == Invalid {
    } else if k == A {
    } else if k == B {
    } else if k == C {
    } else if k == D {
    } else if k == E {
    } else {
      assert k == F;
    }
  }

  /** The table facts for G, H, I, J, K, L, M. */
  lemma KeyFactsFromG(k: Key)
    requires G <= k < N
    ensures GetKeyName(k) == Spelling(k)
    ensures KeyFromName(Spelling(k)) == Some(k)
  {
    if k == G {
    } else if k == H {
    } else if k == I {
    } else if k == J {
    } else if k == K {
    } else if k == L {
    } else {
      assert k == M;
    }
  }

  /** The table facts for N, O, P, Q, R, S, T. */
  lemma KeyFactsFromN(k: Key)
    requires N <= k < U
    ensures GetKeyName(k) == Spelling(k)
    ensures KeyFromName(Spelling(k)) == Some(k)
  {
    if k == N {
    } else if k == O {
    } else if k == P {
    } else if k == Q {
    } else if k == R {
    } else if k == S {
    } else {
      assert k == T;
    }
  }

  /** The table facts for U, V, W, X, Y, Z. */
  lemma KeyFactsFromU(k: Key)
    requires U <= k < Space
    ensures GetKeyName(k) == Spelling(k)
    ensures KeyFromName(Spelling(k)) == Some(k)
  {
    if k == U {
    } else if k == V {
    } else if k == W {
    } else if k == X {
    } else if k == Y {
    } else {
      assert k == Z;
    }
  }

  /** The table facts for Space, Comma, Period, Semicolon, Slash. */
  lemma KeyFactsFromSpace(k: Key)
    requires Space <= k < Tilde
    ensures GetKeyName(k) == Spelling(k)
    ensures KeyFromName(Spelling(k)) == Some(k)
  {
    if k == Space {
    } else if k == Comma {
    } else if k == Period {
    } else if k == Semicolon {
    } else {
      assert k == Slash;
    }
  }

  /** The table facts for Tilde, LeftBracket, RightBracket, Backslash, Quote. */
  lemma KeyFactsFromTilde(k: Key)
    requires Tilde <= k < LeftShift
    ensures GetKeyName(k) == Spelling(k)
    ensures KeyFromName(Spelling(k)) == Some(k)
  {
    if k == Tilde {
    } else if k == LeftBracket {
    } else if k == RightBracket {
    } else if k == Backslash {
    } else {
      assert k == Quote;
    }
  }

  /** The table facts for LeftShift, RightShift, LeftCtrl, RightCtrl, LeftAlt, RightAlt, LeftSystem. */
  lemma KeyFactsFromLeftShift(k: Key)
    requires LeftShift <= k < RightSystem
    ensures GetKeyName(k) == Spelling(k)
    ensures KeyFromName(Spelling(k)) == Some(k)
  {
    if k == LeftShift {
    } else if k == RightShift {
    } else if k == LeftCtrl {
    } else if k == RightCtrl {
    } else if k == LeftAlt {
    } else if k == RightAlt {
    } else {
      assert k == LeftSystem;
    }
  }

  /** The table facts for RightSystem, Tab, Backspace, Enter, CapsLock, Escape. */
  lemma KeyFactsFromRightSystem(k: Key)
    requires RightSystem <= k < Num0
    ensures GetKeyName(k) == Spelling(k)
    ensures KeyFromName(Spelling(k)) == Some(k)
  {
    if k == RightSystem {
    } else if k == Tab {
    } else if k == Backspace {
    } else if k == Enter {
    } else if k == CapsLock {
    } else {
      assert k == Escape;
    }
  }

  /** The table facts for Num0, Num1, Num2, Num3, Num4, Num5. */
  lemma KeyFactsFromNum0(k: Key)
    requires Num0 <= k < Num6
    ensures GetKeyName(k) == Spelling(k)
    ensures KeyFromName(Spelling(k)) == Some(k)
  {
    if k == Num0 {
    } else if k == Num1 {
    } else if k == Num2 {
    } else if k == Num3 {
    } else if k == Num4 {
    } else {
      assert k == Num5;
    }
  }

  /** The table facts for Num6, Num7, Num8, Num9, Dash, Equals. */
  lemma KeyFactsFromNum6(k: Key)
    requires Num6 <= k < Numpad0
    ensures GetKeyName(k) == Spelling(k)
    ensures KeyFromName(Spelling(k)) == Some(k)
  {
    if k == Num6 {
    } else if k == Num7 {
    } else if k == Num8 {
    } else if k == Num9 {
    } else if k == Dash {
    } else {
      assert k == Equals;
    }
  }

  /** The table facts for Numpad0, Numpad1, Numpad2, Numpad3, Numpad4, Numpad5, Numpad6, Numpad7. */
  lemma KeyFactsFromNumpad0(k: Key)
    requires Numpad0 <= k < Numpad8
    ensures GetKeyName(k) == Spelling(k)
    ensures KeyFromName(Spelling(k)) == Some(k)
  {
    if k == Numpad0 {
    } else if k == Numpad1 {
    } else if k == Numpad2 {
    } else if k == Numpad3 {
    } else if k == Numpad4 {
    } else if k == Numpad5 {
    } else if k == Numpad6 {
    } else {
      assert k == Numpad7;
    }
  }

  /** The table facts for Numpad8, Numpad9, Add, Subtract, Multiply, Divide, NumLock. */
  lemma KeyFactsFromNumpad8(k: Key)
    requires Numpad8 <= k < F1
    ensures GetKeyName(k) == Spelling(k)
    ensures KeyFromName(Spelling(k)) == Some(k)
  {
    if k == Numpad8 {
    } else if k == Numpad9 {
    } else if k == Add {
    } else if k == Subtract {
    } else if k == Multiply {
    } else if k == Divide {
    } else {
      assert k == NumLock;
    }
  }

  /** The table facts for F1, F2, F3, F4, F5, F6. */
  lemma KeyFactsFromF1(k: Key)
    requires F1 <= k < F7
    ensures GetKeyName(k) == Spelling(k)
    ensures KeyFromName(Spelling(k)) == Some(k)
  {
    if k == F1 {
    } else if k == F2 {
    } else if k == F3 {
    } else if k == F4 {
    } else if k == F5 {
    } else {
      assert k == F6;
    }
  }

  /** The table facts for F7, F8, F9, F10, F11, F12. */
  lemma KeyFactsFromF7(k: Key)
    requires F7 <= k < PrintScreen
    ensures GetKeyName(k) == Spelling(k)
    ensures KeyFromName(Spelling(k)) == Some(k)
  {
    if k == F7 {
    } else if k == F8 {
    } else if k == F9 {
    } else if k == F10 {
    } else if k == F11 {
    } else {
      assert k == F12;
    }
  }

  /** The table facts for PrintScreen, ScrollLock, Pause, Insert, Delete, Home, End. */
  lemma KeyFactsFromPrintScreen(k: Key)
    requires PrintScreen <= k < PageUp
    ensures GetKeyName(k) == Spelling(k)
    ensures KeyFromName(Spelling(k)) == Some(k)
  {
    if k == PrintScreen {
    } else if k == ScrollLock {
    } else if k == Pause {
    } else if k == Insert {
    } else if k == Delete {
    } else if k == Home {
    } else {
      assert k == End;
    }
  }

  /** The table facts for PageUp, PageDown, Up, Down, Left, Right. */
  lemma KeyFactsFromPageUp(k: Key)
    requires PageUp <= k < EnumSize
    ensures GetKeyName(k) == Spelling(k)
    ensures KeyFromName(Spelling(k)) == Some(k)
  {
    if k == PageUp {
    } else if k == PageDown {
    } else if k == Up {
    } else if k == Down {
    } else if k == Left {
    } else {
      assert k == Right;
    }
  }

  /** The table facts for the keys declared on line 9: `keyNames` spells
      each one's identifier, and the identifier reads back as the key. */
  lemma KeyFactsOfLine0(k: Key)
    requires Invalid <= k < N
    ensures GetKeyName(k) == Spelling(k)
    ensures KeyFromName(Spelling(k)) == Some(k)
  {
    if k < G {
      KeyFactsFromInvalid(k);
    } else {
      KeyFactsFromG(k);
    }
  }

  /** The table facts for the keys declared on line 10: `keyNames` spells
      each one's identifier, and the identifier reads back as the key. */
  lemma KeyFactsOfLine1(k: Key)
    requires N <= k < Space
    ensures GetKeyName(k) == Spelling(k)
    ensures KeyFromName(Spelling(k)) == Some(k)
  {
    if k < U {
      KeyFactsFromN(k);
    } else {
      KeyFactsFromU(k);
    }
  }

  /** The table facts for the keys declared on lines 12-13: `keyNames` spells
      each one's identifier, and the identifier reads back as the key. */
  lemma KeyFactsOfLine2(k: Key)
    requires Space <= k < LeftShift
    ensures GetKeyName(k) == Spelling(k)
    ensures KeyFromName(Spelling(k)) == Some(k)
  {
    if k < Tilde {
      KeyFactsFromSpace(k);
    } else {
      KeyFactsFromTilde(k);
    }
  }

  /** The table facts for the keys declared on lines 15-17: `keyNames` spells
      each one's identifier, and the identifier reads back as the key. */
  lemma KeyFactsOfLine3(k: Key)
    requires LeftShift <= k < Num0
    ensures GetKeyName(k) == Spelling(k)
    ensures KeyFromName(Spelling(k)) == Some(k)
  {
    if k < RightSystem {
      KeyFactsFromLeftShift(k);
    } else {
      KeyFactsFromRightSystem(k);
    }
  }

  /** The table facts for the keys declared on line 19: `keyNames` spells
      each one's identifier, and the identifier reads back as the key. */
  lemma KeyFactsOfLine4(k: Key)
    requires Num0 <= k < Numpad0
    ensures GetKeyName(k) == Spelling(k)
    ensures KeyFromName(Spelling(k)) == Some(k)
  {
    if k < Num6 {
      KeyFactsFromNum0(k);
    } else {
      KeyFactsFromNum6(k);
    }
  }

  /** The table facts for the keys declared on lines 21-22: `keyNames` spells
      each one's identifier, and the identifier reads back as the key. */
  lemma KeyFactsOfLine5(k: Key)
    requires Numpad0 <= k < F1
    ensures GetKeyName(k) == Spelling(k)
    ensures KeyFromName(Spelling(k)) == Some(k)
  {
    if k < Numpad8 {
      KeyFactsFromNumpad0(k);
    } else {
      KeyFactsFromNumpad8(k);
    }
  }

  /** The table facts for the keys declared on line 24: `keyNames` spells
      each one's identifier, and the identifier reads back as the key. */
  lemma KeyFactsOfLine6(k: Key)
    requires F1 <= k < PrintScreen
    ensures GetKeyName(k) == Spelling(k)
    ensures KeyFromName(Spelling(k)) == Some(k)
  {
    if k < F7 {
      KeyFactsFromF1(k);
    } else {
      KeyFactsFromF7(k);
    }
  }

  /** The table facts for the keys declared on lines 26-28: `keyNames` spells
      each one's identifier, and the identifier reads back as the key. */
  lemma KeyFactsOfLine7(k: Key)
    requires PrintScreen <= k < EnumSize
    ensures GetKeyName(k) == Spelling(k)
    ensures KeyFromName(Spelling(k)) == Some(k)
  {
    if k < PageUp {
      KeyFactsFromPrintScreen(k);
    } else {
      KeyFactsFromPageUp(k);
    }
  }

  /** Every key has the table facts of its declaration line. */
  lemma AllKeyFacts(k: Key)
    requires k < EnumSize
    ensures GetKeyName(k) == Spelling(k)
    ensures KeyFromName(Spelling(k)) == Some(k)
  {
    if k < N {
      KeyFactsOfLine0(k);
    } else if k < Space {
      KeyFactsOfLine1(k);
    } else if k < LeftShift {
      KeyFactsOfLine2(k);
    } else if k < Num0 {
      KeyFactsOfLine3(k);
    } else if k < Numpad0 {
      KeyFactsOfLine4(k);
    } else if k < F1 {
      KeyFactsOfLine5(k);
    } else if k < PrintScreen {
      KeyFactsOfLine6(k);
    } else {
      KeyFactsOfLine7(k);
    }
  }

  /** The name of every key is the enumerator's own identifier: `A` is
      "A" and `Invalid` is "Invalid". */
  lemma NameSpellsKey(k: Key)
    requires k < EnumSize
    ensures GetKeyName(k) == Spelling(k)
  {
    AllKeyFacts(k);
  }

  /** `keyNames` has one entry per enumerator. */
  lemma KeyNamesSize()
    ensures |KeyNames| == EnumSize as int
  {
  }

  /** Distinct keys have distinct names. */
  lemma NamesDistinct(k1: Key, k2: Key)
    requires k1 < EnumSize && k2 < EnumSize
    requires k1 != k2
    ensures GetKeyName(k1) != GetKeyName(k2)
  {
    AllKeyFacts(k1);
    AllKeyFacts(k2);
  }

  /** No name occurs twice in `keyNames`. */
  lemma KeyNamesDistinct(i: nat, j: nat)
    requires i < j < EnumSize as int
    ensures KeyNames[i] != KeyNames[j]
  {
    KeyNamesSize();
    NamesDistinct(i as Key, j as Key);
  }
}
