/** The pure helpers and the state updates of the status window in
    src/ui.rs: decoding an event value for display, the key-name table, the
    one-line rendering of an event, and the newest-first key history. */
module Ui {
  import Core

  /** The window's own value enum (src/ui.rs keeps a copy apart from core's). */
  datatype KeyValue = Release | Press | Repeat

  /** A recorded key event; the wall-clock timestamp is not modelled. */
  datatype KeyEvent = KeyEvent(code: Core.u16, value: KeyValue)

  /** KeyEvent::new: 0, 1 and 2 decode as in the kernel's convention; every
      other value is shown as a press. */
  function NewKeyEvent(code: Core.u16, value: Core.i32): (e: KeyEvent)
    ensures e.code == code
    ensures e.value == Release <==> value == 0
    ensures e.value == Repeat <==> value == 2
    ensures e.value == Press <==> value != 0 && value != 2
  {
    KeyEvent(code, if value == 0 then Release else if value == 2 then Repeat else Press)
  }

  /** The core's value with the same name. */
  function AsCore(v: KeyValue): Core.KeyValue {
    match v
    case Release => Core.Release
    case Press => Core.Press
    case Repeat => Core.Repeat
  }

  /** The window and the remapping engine agree on 0, 1 and 2 and disagree on
      every other value: the engine reads it as a release, the window as a
      press. */
  lemma DecodingsAgreeOnlyOnKnownValues(code: Core.u16, value: Core.i32)
    ensures 0 <= value <= 2 ==> AsCore(NewKeyEvent(code, value).value) == Core.KeyValueFrom(value)
    ensures !(0 <= value <= 2) ==>
      NewKeyEvent(code, value).value == Press && Core.KeyValueFrom(value) == Core.Release
  {
    if 0 <= value <= 2 {
      Core.KeyValueRoundTrip(Core.KeyValueFrom(value));
    }
  }

  // ---------------------------------------------------------------------
  // Key names

  /** The name shown for a Linux key code. */
  function GetKeyName(code: Core.u16): (name: string)
    ensures 120 < code && code != 125 ==> name == "?"
  {
    match code
    case 0 => "Reserved"
    case 1 => "Esc"
    case 2 => "1"
    case 3 => "2"
    case 4 => "3"
    case 5 => "4"
    case 6 => "5"
    case 7 => "6"
    case 8 => "7"
    case 9 => "8"
    case 10 => "9"
    case 11 => "0"
    case 12 => "-"
    case 13 => "="
    case 14 => "Back"
    case 15 => "Tab"
    case 16 => "Q"
    case 17 => "W"
    case 18 => "E"
    case 19 => "R"
    case 20 => "T"
    case 21 => "Y"
    case 22 => "U"
    case 23 => "I"
    case 24 => "O"
    case 25 => "P"
    case 26 => "["
    case 27 => "]"
    case 28 => "Enter"
    case 29 => "LCtrl"
    case 30 => "A"
    case 31 => "S"
    case 32 => "D"
    case 33 => "F"
    case 34 => "G"
    case 35 => "H"
    case 36 => "J"
    case 37 => "K"
    case 38 => "L"
    case 39 => ";"
    case 40 => "'"
    case 41 => "`"
    case 42 => "LShift"
    case 43 => "\\"
    case 44 => "Z"
    case 45 => "X"
    case 46 => "C"
    case 47 => "V"
    case 48 => "B"
    case 49 => "N"
    case 50 => "M"
    case 51 => ","
    case 52 => "."
    case 53 => "/"
    case 54 => "RShift"
    case 55 => "KP*"
    case 56 => "LAlt"
    case 57 => "Space"
    case 58 => "Caps"
    case 59 => "F1"
    case 60 => "F2"
    case 61 => "F3"
    case 62 => "F4"
    case 63 => "F5"
    case 64 => "F6"
    case 65 => "F7"
    case 66 => "F8"
    case 67 => "F9"
    case 68 => "F10"
    case 69 => "NumLock"
    case 70 => "ScrLock"
    case 71 => "KP7"
    case 72 => "KP8"
    case 73 => "KP9"
    case 74 => "KP-"
    case 75 => "KP4"
    case 76 => "KP5"
    case 77 => "KP6"
    case 78 => "KP+"
    case 79 => "KP1"
    case 80 => "KP2"
    case 81 => "KP3"
    case 82 => "KP0"
    case 83 => "KP."
    case 84 => "OEM102"
    case 85 => "F11"
    case 86 => "F12"
    case 87 => "F11"
    case 88 => "F12"
    case 89 => "Kata"
    case 90 => "Hira"
    case 91 => "Henkan"
    case 92 => "Kana"
    case 93 => "Muhen"
    case 94 => "KPEnt"
    case 95 => "RCtrl"
    case 96 => "KP/"
    case 97 => "SysRq"
    case 98 => "RAlt"
    case 99 => "LFn"
    case 100 => "Home"
    case 101 => "Up"
    case 102 => "PgUp"
    case 103 => "Up"
    case 104 => "Right"
    case 105 => "End"
    case 106 => "Down"
    case 107 => "PgDn"
    case 108 => "Ins"
    case 109 => "Del"
    case 110 => "Macro"
    case 111 => "Mute"
    case 112 => "Vol-"
    case 113 => "Vol+"
    case 114 => "Power"
    case 115 => "KP="
    case 116 => "KP+/-"
    case 117 => "Pause"
    case 118 => "Scale"
    case 119 => "KP,"
    case 120 => "RO"
    case 125 => "Menu"
    case _ => "?"
  }

  /** Exactly the codes outside the table show as "?". */
  lemma UnknownKeyName(code: Core.u16)
    ensures GetKeyName(code) == "?" <==> !(code <= 120 || code == 125)
  {
  }

  /** The names the window shows for the layer key and two others. */
  lemma KeyNameExamples()
    ensures GetKeyName(57) == "Space" && GetKeyName(30) == "A" && GetKeyName(0) == "Reserved"
  {
  }

  // ---------------------------------------------------------------------
  // Decimal rendering, as the `{:03}` format specifier does it

  predicate IsDigit(c: char) {
    '0' <= c <= '9'
  }

  predicate AllDigits(s: string) {
    forall k :: 0 <= k < |s| ==> IsDigit(s[k])
  }

  function DigitChar(d: nat): (c: char)
    requires d < 10
    ensures IsDigit(c)
  {
    ('0' as int + d) as char
  }

  /** The shortest decimal representation of `n`. */
  function Digits(n: nat): (s: string)
    ensures |s| >= 1 && AllDigits(s)
    ensures n < 10 <==> |s| == 1
    ensures n < 1000 ==> |s| <= 3
  {
    if n < 10 then [DigitChar(n)] else Digits(n / 10) + [DigitChar(n % 10)]
  }

  function Zeros(k: nat): (s: string)
    ensures |s| == k && AllDigits(s)
  {
    seq(k, _ => '0')
  }

  /** `n` zero-padded on the left to at least `width` characters. */
  function Padded(n: nat, width: nat): string {
    var d := Digits(n);
    (if |d| < width then Zeros(width - |d|) else []) + d
  }

  /** The number a string of decimal digits denotes; the reader side of
      Digits. */
  function ValueOf(s: string): nat
    requires AllDigits(s)
  {
    if s == [] then 0 else ValueOf(s[..|s| - 1]) * 10 + (s[|s| - 1] as int - '0' as int)
  }

  lemma {:induction false} DigitsRoundTrip(n: nat)
    ensures ValueOf(Digits(n)) == n
  {
    if n >= 10 {
      var s := Digits(n);
      assert s[..|s| - 1] == Digits(n / 10);
      DigitsRoundTrip(n / 10);
    }
  }

  /** Leading zeros do not change the value. */
  lemma {:induction false} LeadingZerosRoundTrip(k: nat, s: string)
    requires AllDigits(s)
    ensures AllDigits(Zeros(k) + s) && ValueOf(Zeros(k) + s) == ValueOf(s)
    decreases |s|
  {
    var z := Zeros(k) + s;
    assert AllDigits(z) by {
      forall i | 0 <= i < |z| ensures IsDigit(z[i]) {
        if i >= k { assert z[i] == s[i - k]; }
      }
    }
    if s == [] {
      assert z == Zeros(k);
      ZerosValue(k);
    } else {
      assert z[..|z| - 1] == Zeros(k) + s[..|s| - 1];
      LeadingZerosRoundTrip(k, s[..|s| - 1]);
    }
  }

  lemma {:induction false} ZerosValue(k: nat)
    ensures ValueOf(Zeros(k)) == 0
  {
    if k > 0 {
      assert Zeros(k)[..k - 1] == Zeros(k - 1);
      ZerosValue(k - 1);
    }
  }

  /** Padding to width three reads back as the same number, and a code below
      1000 takes exactly three characters. */
  lemma PaddedRoundTrip(n: nat)
    ensures AllDigits(Padded(n, 3)) && ValueOf(Padded(n, 3)) == n
    ensures n < 1000 ==> |Padded(n, 3)| == 3
    ensures |Padded(n, 3)| >= 3
  {
    var d := Digits(n);
    DigitsRoundTrip(n);
    if |d| < 3 {
      LeadingZerosRoundTrip(3 - |d|, d);
    } else {
      assert Padded(n, 3) == d;
    }
  }

  // ---------------------------------------------------------------------
  // display_string

  function Arrow(v: KeyValue): (c: char)
    ensures !IsDigit(c) && c != ' '
  {
    match v
    case Press => '\U{2193}'
    case Release => '\U{2191}'
    case Repeat => '\U{21BB}'
  }

  /** KeyEvent::display_string. The line can be read back: the arrow gives
      the value, the digit run after it (three digits for every code below
      1000) gives the code, and the key's name ends the line after one space. */
  function DisplayString(e: KeyEvent): (s: string)
    ensures var w := |Padded(e.code as nat, 3)|;
      && w >= 3 && (e.code < 1000 ==> w == 3)
      && |s| == w + 3 + |GetKeyName(e.code)|
      && s[0] == Arrow(e.value) && s[1] == ' ' && s[w + 2] == ' '
      && AllDigits(s[2..w + 2]) && ValueOf(s[2..w + 2]) == e.code as nat
      && s[w + 3..] == GetKeyName(e.code)
  {
    var digits := Padded(e.code as nat, 3);
    PaddedRoundTrip(e.code as nat);
    var s := [Arrow(e.value)] + " " + digits + " " + GetKeyName(e.code);
    assert s[2..|digits| + 2] == digits;
    assert s[|digits| + 3..] == GetKeyName(e.code);
    s
  }

  /** Distinct values render with distinct arrows. */
  lemma ArrowInjective(a: KeyValue, b: KeyValue)
    ensures Arrow(a) == Arrow(b) <==> a == b
  {
  }

  // ---------------------------------------------------------------------
  // The key history

  const HistoryLimit: nat := 20

  /** The history after recording `e`: `e` first, then the older entries,
      the oldest dropped once there are more than twenty. */
  function Pushed(history: seq<KeyEvent>, e: KeyEvent): (r: seq<KeyEvent>)
    requires |history| <= HistoryLimit
    ensures |r| <= HistoryLimit && |r| == if |history| < HistoryLimit then |history| + 1 else HistoryLimit
    ensures r[0] == e && r[1..] == history[..|r| - 1]
  {
    var inserted := [e] + history;
    if |inserted| > HistoryLimit then inserted[..|inserted| - 1] else inserted
  }

  function Reversed(s: seq<KeyEvent>): (r: seq<KeyEvent>)
    ensures |r| == |s|
  {
    if s == [] then [] else [s[|s| - 1]] + Reversed(s[..|s| - 1])
  }

  /** The history after recording `events` in order, starting from none. */
  function HistoryOf(events: seq<KeyEvent>): (h: seq<KeyEvent>)
    ensures |h| <= HistoryLimit
  {
    if events == [] then [] else Pushed(HistoryOf(events[..|events| - 1]), events[|events| - 1])
  }

  /** The window shows the last twenty events recorded, newest first. */
  lemma {:induction false} HistoryIsLastTwentyNewestFirst(events: seq<KeyEvent>)
    ensures var keep := if |events| < HistoryLimit then |events| else HistoryLimit;
      HistoryOf(events) == Reversed(events[|events| - keep..])
  {
    if events != [] {
      var n := |events|;
      var init := events[..n - 1];
      HistoryIsLastTwentyNewestFirst(init);
      var keep := if n < HistoryLimit then n else HistoryLimit;
      var keep' := if n - 1 < HistoryLimit then n - 1 else HistoryLimit;
      var tail := events[n - keep..];
      assert tail[..|tail| - 1] == init[n - 1 - (keep - 1)..];
      var old' := Reversed(init[n - 1 - keep'..]);
      assert HistoryOf(init) == old';
      // the newest entry goes first; the rest is the older window, cut to fit
      ReversedPrefix(init[n - 1 - keep'..], keep - 1);
      assert init[n - 1 - keep'..][|init[n - 1 - keep'..]| - (keep - 1)..] == init[n - 1 - (keep - 1)..];
    }
  }

  /** The first `k` entries of a reversal are the reversal of the last `k`. */
  lemma {:induction false} ReversedPrefix(s: seq<KeyEvent>, k: nat)
    requires k <= |s|
    ensures Reversed(s)[..k] == Reversed(s[|s| - k..])
  {
    if k > 0 {
      var t := s[..|s| - 1];
      ReversedPrefix(t, k - 1);
      assert s[|s| - k..][..k - 1] == t[|t| - (k - 1)..];
      assert s[|s| - k..][k - 1] == s[|s| - 1];
    }
  }

  // ---------------------------------------------------------------------
  // The window's state

  /** The fields of SpacefnApp that the engine's notifications update. */
  class SpacefnApp {
    var currentState: Core.State
    var keyHistory: seq<KeyEvent>
    var errorMessage: Core.Option<string>

    predicate Valid()
      reads this
    {
      |keyHistory| <= HistoryLimit
    }

    constructor ()
      ensures Valid()
      ensures currentState == Core.Idle && keyHistory == [] && errorMessage == Core.None
    {
      currentState := Core.Idle;
      keyHistory := [];
      errorMessage := Core.None;
    }

    method UpdateState(state: Core.State)
      modifies this`currentState
      ensures currentState == state
    {
      currentState := state;
    }

    /** Records a key event with the value of a press. */
    method AddKeyEvent(code: Core.u16)
      requires Valid()
      modifies this`keyHistory
      ensures Valid()
      ensures keyHistory == Pushed(old(keyHistory), KeyEvent(code, Press))
    {
      AddKeyEventFull(code, 1);
    }

    /** Inserts the event at the front, then drops the last entry when the
        history has grown past twenty. */
    method AddKeyEventFull(code: Core.u16, value: Core.i32)
      requires Valid()
      modifies this`keyHistory
      ensures Valid()
      ensures keyHistory == Pushed(old(keyHistory), NewKeyEvent(code, value))
    {
      var event := NewKeyEvent(code, value);
      keyHistory := [event] + keyHistory;
      if |keyHistory| > HistoryLimit {
        keyHistory := keyHistory[..|keyHistory| - 1];
      }
    }

    method SetError(error: string)
      modifies this`errorMessage
      ensures errorMessage == Core.Some(error)
    {
      errorMessage := Core.Some(error);
    }

    method ClearError()
      modifies this`errorMessage
      ensures errorMessage == Core.None
    {
      errorMessage := Core.None;
    }
  }
}
