/** Key values, remapping states, the key buffer, mapping rules and the
    state-machine holder of spacefn-rs/src/core.rs. */
module Core {

  /** Fixed-width integers of the source. */
  type u16 = x: int | 0 <= x < 0x1_0000
  type u32 = x: int | 0 <= x < 0x1_0000_0000
  type i32 = x: int | -0x8000_0000 <= x < 0x8000_0000

  datatype Option<+T> = None | Some(value: T)

  /** Largest number of codes a KeyBuffer holds. */
  const MaxBuffer: nat := 8

  /** The value of an evdev key event, with the wire discriminants 0/1/2. */
  datatype KeyValue = Release | Press | Repeat {
    /** `value as i32`. */
    function ToInt(): i32 {
      match this
      case Release => 0
      case Press => 1
      case Repeat => 2
    }
  }

  /** `KeyValue::from(i32)`: the three wire values decode to themselves,
      every other integer is read as a Release. */
  function KeyValueFrom(v: i32): (k: KeyValue)
    ensures 0 <= v <= 2 ==> k.ToInt() == v
    ensures !(0 <= v <= 2) ==> k == Release
  {
    match v
    case 0 => Release
    case 1 => Press
    case 2 => Repeat
    case _ => Release
  }

  /** Decoding the integer of a value gives that value back. */
  lemma KeyValueRoundTrip(k: KeyValue)
    ensures KeyValueFrom(k.ToInt()) == k
  {
  }

  datatype State = Idle | Decide | Shift

  /** One `[orig, repl, ext]` triple of `keys_map`; 0 in `repl` means "keep the
      original code", 0 in `ext` means "no extended code". */
  datatype Rule = Rule(orig: u32, repl: u32, ext: u32)

  /** The configuration value (device path and ordered mapping rules). */
  datatype Config = Config(keyboard: string, keysMap: seq<Rule>)

  /** `Config::default()`. */
  const DefaultConfig: Config := Config("", [])

  /** The `as u16` cast: keeps the low 16 bits. */
  function Truncate(x: u32): (r: u16)
    ensures x < 0x1_0000 ==> r == x
    ensures r <= x && (x - r) % 0x1_0000 == 0
  {
    x % 0x1_0000
  }

  // ---------------------------------------------------------------------
  // Sequences of key codes: distinctness, position, removal

  predicate Distinct(s: seq<u16>) {
    forall i, j :: 0 <= i < j < |s| ==> s[i] != s[j]
  }

  /** The position of the first occurrence of `x` (`iter().position`). */
  function IndexOf(s: seq<u16>, x: u16): (i: nat)
    requires x in s
    ensures i < |s| && s[i] == x
    ensures forall j :: 0 <= j < i ==> s[j] != x
  {
    if s[0] == x then 0
    else
      assert x in s[1..] by { var k :| 0 <= k < |s| && s[k] == x; assert s[1..][k - 1] == x; }
      var i' := IndexOf(s[1..], x);
      assert forall j :: 1 <= j < i' + 1 ==> s[j] == s[1..][j - 1];
      i' + 1
  }

  /** `s` with the first occurrence of `x` taken out (`Vec::remove` at the
      position of `x`); `s` itself when `x` is absent. */
  function Removed(s: seq<u16>, x: u16): seq<u16> {
    if x in s then
      var i := IndexOf(s, x);
      s[..i] + s[i + 1..]
    else s
  }

  /** Removing a code from a distinct sequence deletes exactly that code and
      keeps every other code, in order, and keeps the sequence distinct. */
  lemma RemovedFromDistinct(s: seq<u16>, x: u16)
    requires Distinct(s)
    ensures Distinct(Removed(s, x))
    ensures forall y :: y in Removed(s, x) <==> y in s && y != x
    ensures |Removed(s, x)| == if x in s then |s| - 1 else |s|
  {
    if x in s {
      var i := IndexOf(s, x);
      var r := s[..i] + s[i + 1..];
      assert forall k :: 0 <= k < |r| ==> r[k] == if k < i then s[k] else s[k + 1];
      forall y
        ensures y in r <==> y in s && y != x
      {
        if y in s && y != x {
          var k :| 0 <= k < |s| && s[k] == y;
          assert k != i;
          if k < i { assert r[k] == y; } else { assert r[k - 1] == y; }
        }
      }
    }
  }

  /** In a distinct sequence the first occurrence of `s[i]` is at `i`, so
      removing `s[i]` cuts out exactly position `i`. */
  lemma RemovedAt(s: seq<u16>, i: nat)
    requires Distinct(s) && i < |s|
    ensures Removed(s, s[i]) == s[..i] + s[i + 1..]
  {
    var k := IndexOf(s, s[i]);
    assert k == i;
  }

  /** Removal never introduces a code. */
  lemma RemovedSubset(s: seq<u16>, x: u16)
    ensures forall y :: y in Removed(s, x) ==> y in s
  {
    if x in s {
      var i := IndexOf(s, x);
      assert forall y :: y in s[..i] ==> y in s;
      assert forall y :: y in s[i + 1..] ==> y in s;
    }
  }

  /** Appending a code that is absent keeps a sequence distinct. */
  lemma AppendAbsentKeepsDistinct(s: seq<u16>, x: u16)
    requires Distinct(s) && x !in s
    ensures Distinct(s + [x])
  {
    var t := s + [x];
    forall i, j | 0 <= i < j < |t|
      ensures t[i] != t[j]
    {
      if j == |s| { assert t[i] == s[i]; }
    }
  }

  // ---------------------------------------------------------------------
  // KeyBuffer: an insertion-ordered, duplicate-free set of at most 8 codes

  class KeyBuffer {
    var buffer: seq<u16>

    ghost predicate Valid()
      reads this
    {
      Distinct(buffer) && |buffer| <= MaxBuffer
    }

    constructor ()
      ensures Valid() && buffer == []
    {
      buffer := [];
    }

    function Contains(code: u16): (b: bool)
      reads this
      ensures b <==> exists i :: 0 <= i < |buffer| && buffer[i] == code
    {
      code in buffer
    }

    /** Adds `code` at the end unless the buffer is full or already holds it. */
    method Append(code: u16) returns (ok: bool)
      requires Valid()
      modifies this
      ensures Valid()
      ensures ok <==> |old(buffer)| < MaxBuffer && code !in old(buffer)
      ensures buffer == if ok then old(buffer) + [code] else old(buffer)
    {
      if |buffer| >= MaxBuffer {
        return false;
      }
      if code in buffer {
        return false;
      }
      AppendAbsentKeepsDistinct(buffer, code);
      buffer := buffer + [code];
      return true;
    }

    /** Deletes `code` if present; reports whether it was. */
    method Remove(code: u16) returns (ok: bool)
      requires Valid()
      modifies this
      ensures Valid()
      ensures ok <==> code in old(buffer)
      ensures buffer == Removed(old(buffer), code)
      ensures forall y :: y in buffer <==> y in old(buffer) && y != code
    {
      RemovedFromDistinct(buffer, code);
      var found, pos := Position(buffer, code);
      if found {
        buffer := buffer[..pos] + buffer[pos + 1..];
        return true;
      }
      return false;
    }

    method Clear()
      modifies this
      ensures Valid() && buffer == []
    {
      buffer := [];
    }

    /** Iteration in insertion order: every held code once. */
    function Iter(): (s: seq<u16>)
      requires Valid()
      reads this
      ensures |s| == Len() && Distinct(s)
      ensures forall c :: c in s <==> Contains(c)
    {
      buffer
    }

    function Len(): (n: nat)
      requires Valid()
      reads this
      ensures n <= MaxBuffer
    {
      |buffer|
    }

    function IsEmpty(): (b: bool)
      requires Valid()
      reads this
      ensures b <==> Len() == 0
    {
      buffer == []
    }
  }

  /** `iter().position(|&x| x == code)`: a linear scan for the first match. */
  method Position(s: seq<u16>, x: u16) returns (found: bool, pos: nat)
    ensures found <==> x in s
    ensures found ==> pos < |s| && s[pos] == x && pos == IndexOf(s, x)
  {
    pos := 0;
    while pos < |s|
      invariant pos <= |s|
      invariant forall j :: 0 <= j < pos ==> s[j] != x
    {
      if s[pos] == x {
        return true, pos;
      }
      pos := pos + 1;
    }
    return false, 0;
  }

  // ---------------------------------------------------------------------
  // Key mapping: first-match resolution over the rule list

  /** The pair a matching rule yields for `original`. */
  function RuleResult(rule: Rule, original: u16): (u16, Option<u16>) {
    (if rule.repl != 0 then Truncate(rule.repl) else original,
     if rule.ext != 0 then Some(Truncate(rule.ext)) else None)
  }

  /** The specification of `map_key`: the first rule whose `orig` equals the
      code decides; no rule leaves the code unchanged with no extended code. */
  function Resolve(rules: seq<Rule>, original: u16): (r: (u16, Option<u16>))
    ensures r != (original, None) ==> exists j :: 0 <= j < |rules| && rules[j].orig == original
  {
    if rules == [] then (original, None)
    else if rules[0].orig == original then RuleResult(rules[0], original)
    else Resolve(rules[1..], original)
  }

  /** The first matching rule, wherever it stands in the list, decides. */
  lemma {:induction false} ResolveFirstMatch(rules: seq<Rule>, original: u16, i: nat)
    requires i < |rules| && rules[i].orig == original
    requires forall j :: 0 <= j < i ==> rules[j].orig != original
    ensures Resolve(rules, original) == RuleResult(rules[i], original)
  {
    if i > 0 {
      ResolveFirstMatch(rules[1..], original, i - 1);
    }
  }

  /** Without a matching rule the code passes through unchanged. */
  lemma {:induction false} ResolveNoMatch(rules: seq<Rule>, original: u16)
    requires forall j :: 0 <= j < |rules| ==> rules[j].orig != original
    ensures Resolve(rules, original) == (original, None)
  {
    if rules != [] {
      ResolveNoMatch(rules[1..], original);
    }
  }

  /** Rules placed after a matching rule never matter. */
  lemma {:induction false} ResolveIgnoresLaterRules(rules: seq<Rule>, more: seq<Rule>, original: u16)
    requires exists j :: 0 <= j < |rules| && rules[j].orig == original
    ensures Resolve(rules + more, original) == Resolve(rules, original)
  {
    if rules[0].orig != original {
      var j :| 0 <= j < |rules| && rules[j].orig == original;
      assert rules[1..][j - 1].orig == original;
      assert (rules + more)[1..] == rules[1..] + more;
      ResolveIgnoresLaterRules(rules[1..], more, original);
    }
  }

  // ---------------------------------------------------------------------
  // StateMachine: the holder of the state, a KeyBuffer and the configuration

  class StateMachine {
    var state: State
    var buffer: KeyBuffer
    var config: Config

    ghost predicate Valid()
      reads this, buffer
    {
      buffer.Valid()
    }

    /** Starts in Idle with an empty buffer. */
    constructor (config: Config)
      ensures Valid() && fresh(buffer)
      ensures state == Idle && buffer.buffer == [] && this.config == config
    {
      state := Idle;
      buffer := new KeyBuffer();
      this.config := config;
    }

    function CurrentState(): (s: State)
      reads this
      ensures s == state
    {
      state
    }

    /** `map_key`: a scan of the rules that returns at the first match. */
    method MapKey(original: u16) returns (mapped: u16, extended: Option<u16>)
      ensures (mapped, extended) == Resolve(config.keysMap, original)
    {
      var rules := config.keysMap;
      for i := 0 to |rules|
        invariant forall j :: 0 <= j < i ==> rules[j].orig != original
      {
        var rule := rules[i];
        if rule.orig == original {
          mapped := if rule.repl != 0 then Truncate(rule.repl) else original;
          extended := if rule.ext != 0 then Some(Truncate(rule.ext)) else None;
          ResolveFirstMatch(rules, original, i);
          return;
        }
      }
      ResolveNoMatch(rules, original);
      return original, None;
    }

    /** Sets the state; entering Decide empties the buffer. */
    method SetState(s: State)
      requires Valid()
      modifies this, buffer
      ensures Valid() && buffer == old(buffer) && config == old(config)
      ensures state == s
      ensures buffer.buffer == if s == Decide then [] else old(buffer.buffer)
    {
      state := s;
      if s == Decide {
        buffer.Clear();
      }
    }

    function Buffer(): (b: KeyBuffer)
      requires Valid()
      reads this, buffer
      ensures b == buffer && b.Valid()
    {
      buffer
    }
  }

  // ---------------------------------------------------------------------
  // The unit tests of core.rs, as verified clients

  method TestKeyBuffer() {
    var b := new KeyBuffer();
    assert !b.Contains(1);
    var ok := b.Append(1);
    assert ok && b.Contains(1);
    ok := b.Append(1);
    assert !ok;
    ok := b.Remove(1);
    assert ok && !b.Contains(1);
    assert b.buffer == [];
    for i := 0 to MaxBuffer
      invariant b.Valid() && |b.buffer| == i
      invariant forall k :: 0 <= k < i ==> b.buffer[k] == k
    {
      ok := b.Append(i);
      assert ok;
    }
    ok := b.Append(100);
    assert !ok;
  }

  method TestKeyBufferClear() {
    var b := new KeyBuffer();
    var ok := b.Append(1);
    ok := b.Append(2);
    assert b.Len() == 2;
    b.Clear();
    assert b.IsEmpty();
  }

  method TestKeyBufferRemoveMiddle() {
    var b := new KeyBuffer();
    var ok := b.Append(1);
    ok := b.Append(2);
    ok := b.Append(3);
    ok := b.Remove(2);
    assert !b.Contains(2) && b.Contains(1) && b.Contains(3);
  }

  /** Iteration keeps insertion order across a removal. */
  method TestKeyBufferIterOrder() {
    var b := new KeyBuffer();
    var ok := b.Append(1);
    ok := b.Append(2);
    ok := b.Append(3);
    ok := b.Remove(2);
    RemovedAt([1, 2, 3], 1);
    assert b.Iter() == [1, 3];
  }

  method TestStateTransitions() {
    var sm := new StateMachine(DefaultConfig);
    assert sm.CurrentState() == Idle;
    sm.SetState(Decide);
    assert sm.CurrentState() == Decide && sm.buffer.IsEmpty();
    sm.SetState(Shift);
    assert sm.CurrentState() == Shift;
  }

  method TestKeyMap() {
    var sm := new StateMachine(DefaultConfig);
    var m, e := sm.MapKey(30);
    assert m == 30 && e == None;
    sm := new StateMachine(Config("", [Rule(30, 105, 0)]));
    m, e := sm.MapKey(30);
    assert m == 105 && e == None;
    sm := new StateMachine(Config("", [Rule(104, 0, 109)]));
    m, e := sm.MapKey(104);
    assert m == 104 && e == Some(109);
    sm := new StateMachine(Config("", [Rule(57, 0, 125)]));
    m, e := sm.MapKey(57);
    assert m == 57 && e == Some(125);
  }
}
