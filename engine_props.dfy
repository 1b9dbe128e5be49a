/** What the remapping handlers promise, proved about EngineSpec: the mapped
    emission of send_mapped_key, the three states, the three Decide outcomes,
    the command drain, and whole sessions (including the input on which a key
    is released twice). */
module EngineProperties {
  import opened Core
  import opened EngineSpec

  // ---------------------------------------------------------------------
  // Helpers for stating properties

  predicate IsSpacePress(t: Token) {
    t.Ev? && t.event.Key? && t.event.code == KeySpace && KeyValueFrom(t.event.value) == Press
  }

  predicate NoSpacePress(input: seq<Token>) {
    forall i :: 0 <= i < |input| ==> !IsSpacePress(input[i])
  }

  /** The events of a stream, in order, without the Timeout marks. */
  function EventsOf(input: seq<Token>): seq<Event> {
    if input == [] then []
    else (if input[0].Ev? then [input[0].event] else []) + EventsOf(input[1..])
  }

  /** A Press event for each code, in order. */
  function Presses(codes: seq<u16>): seq<Token> {
    seq(|codes|, i requires 0 <= i < |codes| => Ev(Key(codes[i], 1)))
  }

  // ---------------------------------------------------------------------
  // send_mapped_key

  /** Every event send_mapped_key emits carries the same value; the extended
      code, when there is one, goes out strictly before the effective code. */
  lemma MappedEventsOrder(rules: seq<Rule>, code: u16, v: KeyValue)
    ensures var r := MappedEvents(rules, code, v);
      && r[|r| - 1] == Key(Effective(rules, code), v.ToInt())
      && (forall k :: 0 <= k < |r| ==> r[k].value == v.ToInt())
      && (Resolve(rules, code).1.Some? ==> |r| == 2 && r[0] == Key(Resolve(rules, code).1.value, v.ToInt()))
      && (Resolve(rules, code).1.None? ==> |r| == 1)
  {
  }

  /** The flag is true exactly when the code that goes out differs from the
      code that came in. */
  lemma RemappedIffEffectiveDiffers(rules: seq<Rule>, code: u16)
    ensures Remapped(rules, code) <==> Effective(rules, code) != code
  {
  }

  /** When the first rule for a code leaves the replacement at 0 (a rule that
      only adds an extended code), the key does not count as remapped. */
  lemma ExtendedOnlyRuleNotRemapped(rules: seq<Rule>, code: u16, i: nat)
    requires i < |rules| && rules[i].orig == code && rules[i].repl == 0
    requires forall j :: 0 <= j < i ==> rules[j].orig != code
    ensures !Remapped(rules, code)
    ensures Effective(rules, code) == code
  {
    ResolveFirstMatch(rules, code, i);
  }

  /** A rule field that is a non-zero multiple of 65536 passes the source's
      `!= 0` test but casts to 0: a replacement like that keeps the code and
      does not count as remapped, and an extended field like that sends code
      0 before the key. */
  lemma WrappedRuleFields(rules: seq<Rule>, code: u16, i: nat, v: KeyValue)
    requires i < |rules| && rules[i].orig == code
    requires forall j :: 0 <= j < i ==> rules[j].orig != code
    requires rules[i].repl >= 0x1_0000 && rules[i].repl % 0x1_0000 == 0
    ensures Resolve(rules, code).0 == 0
    ensures Effective(rules, code) == code && !Remapped(rules, code)
    ensures rules[i].ext >= 0x1_0000 && rules[i].ext % 0x1_0000 == 0 ==>
      MappedEvents(rules, code, v) == [Key(0, v.ToInt()), Key(code, v.ToInt())]
  {
    ResolveFirstMatch(rules, code, i);
  }

  /** A code no rule names goes out unchanged, alone, and is not remapped. */
  lemma UnmatchedPassesThrough(rules: seq<Rule>, code: u16, v: KeyValue)
    requires forall j :: 0 <= j < |rules| ==> rules[j].orig != code
    ensures MappedEvents(rules, code, v) == [Key(code, v.ToInt())]
    ensures !Remapped(rules, code)
  {
    ResolveNoMatch(rules, code);
  }

  // ---------------------------------------------------------------------
  // Emitting for every buffered code

  lemma {:induction false} MappedEachAppend(rules: seq<Rule>, a: seq<u16>, b: seq<u16>, v: KeyValue)
    ensures MappedEach(rules, a + b, v) == MappedEach(rules, a, v) + MappedEach(rules, b, v)
    decreases |b|
  {
    if b == [] {
      assert a + b == a;
    } else {
      var b' := b[..|b| - 1];
      assert (a + b)[..|a + b| - 1] == a + b';
      MappedEachAppend(rules, a, b', v);
    }
  }

  /** The effective code of every buffered code goes out with value `v`. */
  lemma {:induction false} MappedEachCoversEach(rules: seq<Rule>, codes: seq<u16>, v: KeyValue)
    ensures forall c :: c in codes ==> Key(Effective(rules, c), v.ToInt()) in MappedEach(rules, codes, v)
    decreases |codes|
  {
    if codes != [] {
      var init := codes[..|codes| - 1];
      var last := codes[|codes| - 1];
      MappedEachCoversEach(rules, init, v);
      MappedEventsOrder(rules, last, v);
      forall c | c in codes
        ensures Key(Effective(rules, c), v.ToInt()) in MappedEach(rules, codes, v)
      {
        if c != last {
          assert c in init by {
            var k :| 0 <= k < |codes| && codes[k] == c;
            assert init[k] == c;
          }
        }
      }
    }
  }

  /** Everything emitted for the buffer carries the value `v`. */
  lemma {:induction false} MappedEachValues(rules: seq<Rule>, codes: seq<u16>, v: KeyValue)
    ensures forall e :: e in MappedEach(rules, codes, v) ==> e.value == v.ToInt()
    decreases |codes|
  {
    if codes != [] {
      MappedEachValues(rules, codes[..|codes| - 1], v);
      MappedEventsOrder(rules, codes[|codes| - 1], v);
    }
  }

  /** Without rules, every buffered code goes out as itself, in buffer order. */
  lemma {:induction false} MappedEachUnmapped(codes: seq<u16>, v: KeyValue)
    ensures MappedEach([], codes, v) == seq(|codes|, i requires 0 <= i < |codes| => Key(codes[i], v.ToInt()))
    decreases |codes|
  {
    if codes != [] {
      MappedEachUnmapped(codes[..|codes| - 1], v);
    }
  }

  // ---------------------------------------------------------------------
  // Every state

  /** Non-key events go out unchanged in every state and change nothing. */
  lemma NonKeyForwarded(s: State, rules: seq<Rule>, buffer: seq<u16>, e: Event)
    requires e.NonKey?
    ensures HandlerStep(s, rules, buffer, Ev(e)) == Step([e], buffer, None)
  {
  }

  // ---------------------------------------------------------------------
  // Idle

  /** Idle on one key event: a space press is withheld and leads to Decide;
      any other key event goes out as it came. */
  lemma IdleOnKey(buffer: seq<u16>, code: u16, raw: i32)
    ensures code == KeySpace && KeyValueFrom(raw) == Press ==>
      IdleStep(buffer, Key(code, raw)) == Step([], buffer, Some(Decide))
    ensures !(code == KeySpace && KeyValueFrom(raw) == Press) ==>
      IdleStep(buffer, Key(code, raw)) == Step([Key(code, raw)], buffer, None)
  {
  }

  /** Without a space press, Idle forwards every event unchanged and in order,
      and stays in Idle. */
  lemma {:induction false} IdleForwardsAll(rules: seq<Rule>, buffer: seq<u16>, input: seq<Token>)
    requires NoSpacePress(input)
    ensures Handler(Idle, rules, buffer, input) == Outcome(None, buffer, EventsOf(input), [])
    decreases |input|
  {
    if input != [] {
      assert !IsSpacePress(input[0]);
      assert NoSpacePress(input[1..]) by {
        forall i | 0 <= i < |input[1..]| ensures !IsSpacePress(input[1..][i]) {
          assert input[1..][i] == input[i + 1];
        }
      }
      IdleForwardsAll(rules, buffer, input[1..]);
    }
  }

  /** Idle returns at the first space press, having forwarded what came
      before it, and leaves the rest of the stream unread. */
  lemma {:induction false} IdleStopsAtSpacePress(rules: seq<Rule>, buffer: seq<u16>, pre: seq<Token>, raw: i32, rest: seq<Token>)
    requires NoSpacePress(pre) && KeyValueFrom(raw) == Press
    ensures Handler(Idle, rules, buffer, pre + [Ev(Key(KeySpace, raw))] + rest)
         == Outcome(Some(Decide), buffer, EventsOf(pre), rest)
    decreases |pre|
  {
    var input := pre + [Ev(Key(KeySpace, raw))] + rest;
    if pre == [] {
      assert input[1..] == rest;
    } else {
      assert !IsSpacePress(pre[0]);
      assert input[1..] == pre[1..] + [Ev(Key(KeySpace, raw))] + rest;
      assert NoSpacePress(pre[1..]) by {
        forall i | 0 <= i < |pre[1..]| ensures !IsSpacePress(pre[1..][i]) {
          assert pre[1..][i] == pre[i + 1];
        }
      }
      IdleStopsAtSpacePress(rules, buffer, pre[1..], raw, rest);
    }
  }

  // ---------------------------------------------------------------------
  // Decide

  /** Decide on one key event before the deadline, branch by branch. */
  lemma DecideOnKey(rules: seq<Rule>, buffer: seq<u16>, code: u16, raw: i32)
    ensures var st := DecideStep(rules, buffer, Key(code, raw)); var v := KeyValueFrom(raw);
      && (code == KeySpace && v == Release ==>
            st == Step([Key(KeySpace, 1), Key(KeySpace, 0)] + PlainPresses(buffer), buffer, Some(Idle)))
      && (v == Press ==>
            st.emitted == [] && st.exit == None && st.buffer == (if code in buffer then buffer else buffer + [code]))
      && (code != KeySpace && v == Release && code !in buffer ==> st == Step([Key(code, raw)], buffer, None))
      && (code != KeySpace && v == Release && code in buffer ==>
            st == Step(MappedEvents(rules, code, Press) + MappedEvents(rules, code, Release),
                       Removed(buffer, code), Some(Shift)))
      && (v == Repeat ==> st == Step([], buffer, None))
  {
  }

  /** The tap outcome emits space press, space release, then each withheld
      code as a plain press, in buffer order. */
  lemma TapEmission(buffer: seq<u16>)
    ensures var r := [Key(KeySpace, 1), Key(KeySpace, 0)] + PlainPresses(buffer);
      |r| == |buffer| + 2 && (forall k :: 0 <= k < |buffer| ==> r[k + 2] == Key(buffer[k], 1))
  {
  }

  /** Decide keeps its buffer free of duplicates. */
  lemma DecideStepKeepsDistinct(rules: seq<Rule>, buffer: seq<u16>, e: Event)
    requires Distinct(buffer)
    ensures Distinct(DecideStep(rules, buffer, e).buffer)
  {
    if e.Key? {
      if e.code !in buffer { AppendAbsentKeepsDistinct(buffer, e.code); }
      RemovedFromDistinct(buffer, e.code);
    }
  }

  /** Presses in Decide (including a second space press) are withheld and
      collected in arrival order. */
  lemma {:induction false} DecideBuffersPresses(rules: seq<Rule>, buffer: seq<u16>, codes: seq<u16>, rest: seq<Token>)
    requires Distinct(buffer + codes)
    ensures Handler(Decide, rules, buffer, Presses(codes) + rest) == Handler(Decide, rules, buffer + codes, rest)
    decreases |codes|
  {
    if codes == [] {
      assert Presses(codes) + rest == rest;
      assert buffer + codes == buffer;
    } else {
      var input := Presses(codes) + rest;
      assert input[0] == Ev(Key(codes[0], 1));
      assert input[1..] == Presses(codes[1..]) + rest;
      assert codes[0] !in buffer by {
        assert (buffer + codes)[|buffer|] == codes[0];
        forall k | 0 <= k < |buffer| ensures buffer[k] != codes[0] {
          assert (buffer + codes)[k] == buffer[k];
        }
      }
      assert buffer + codes == (buffer + [codes[0]]) + codes[1..];
      DecideBuffersPresses(rules, buffer + [codes[0]], codes[1..], rest);
    }
  }

  /** Tap: keys pressed after space, then space released before the deadline:
      space press, space release, then the keys as plain presses; Idle next. */
  lemma TapOutcome(rules: seq<Rule>, codes: seq<u16>, raw: i32, rest: seq<Token>)
    requires Distinct(codes) && KeyValueFrom(raw) == Release
    ensures Handler(Decide, rules, [], Presses(codes) + [Ev(Key(KeySpace, raw))] + rest)
         == Outcome(Some(Idle), codes, [Key(KeySpace, 1), Key(KeySpace, 0)] + PlainPresses(codes), rest)
  {
    assert Presses(codes) + [Ev(Key(KeySpace, raw))] + rest == Presses(codes) + ([Ev(Key(KeySpace, raw))] + rest);
    assert [] + codes == codes;
    DecideBuffersPresses(rules, [], codes, [Ev(Key(KeySpace, raw))] + rest);
  }

  /** Timeout: keys pressed after space and still held at the deadline go out
      as mapped presses only and stay claimed; Shift next. */
  lemma TimeoutOutcome(rules: seq<Rule>, codes: seq<u16>, rest: seq<Token>)
    requires Distinct(codes)
    ensures Handler(Decide, rules, [], Presses(codes) + [Timeout] + rest)
         == Outcome(Some(Shift), codes, MappedEach(rules, codes, Press), rest)
  {
    assert Presses(codes) + [Timeout] + rest == Presses(codes) + ([Timeout] + rest);
    assert [] + codes == codes;
    DecideBuffersPresses(rules, [], codes, [Timeout] + rest);
  }

  /** Combo: releasing one of the withheld keys sends that key's mapped press
      and release, drops only that key from the buffer (the others stay,
      never emitted) and moves to Shift. */
  lemma ComboOutcome(rules: seq<Rule>, codes: seq<u16>, i: nat, raw: i32, rest: seq<Token>)
    requires Distinct(codes) && i < |codes| && codes[i] != KeySpace && KeyValueFrom(raw) == Release
    ensures Handler(Decide, rules, [], Presses(codes) + [Ev(Key(codes[i], raw))] + rest)
         == Outcome(Some(Shift), codes[..i] + codes[i + 1..],
                    MappedEvents(rules, codes[i], Press) + MappedEvents(rules, codes[i], Release), rest)
  {
    assert Presses(codes) + [Ev(Key(codes[i], raw))] + rest == Presses(codes) + ([Ev(Key(codes[i], raw))] + rest);
    assert [] + codes == codes;
    DecideBuffersPresses(rules, [], codes, [Ev(Key(codes[i], raw))] + rest);
    RemovedAt(codes, i);
  }

  // ---------------------------------------------------------------------
  // Shift

  /** Shift on one key event: a space release releases every claimed key
      through the mapping and empties the buffer; other space events are
      swallowed; other keys go out through the mapping and only remapped
      keys are tracked (press) or untracked (release). */
  lemma ShiftOnKey(rules: seq<Rule>, buffer: seq<u16>, code: u16, raw: i32)
    ensures var st := ShiftStep(rules, buffer, Key(code, raw)); var v := KeyValueFrom(raw);
      && (code == KeySpace && v == Release ==> st == Step(MappedEach(rules, buffer, Release), [], Some(Idle)))
      && (code == KeySpace && v != Release ==> st == Step([], buffer, None))
      && (code != KeySpace ==> st.emitted == MappedEvents(rules, code, v) && st.exit == None)
      && (code != KeySpace && Remapped(rules, code) && v == Press ==>
            st.buffer == if code in buffer then buffer else buffer + [code])
      && (code != KeySpace && Remapped(rules, code) && v == Release ==> st.buffer == Removed(buffer, code))
      && (code != KeySpace && (!Remapped(rules, code) || v == Repeat) ==> st.buffer == buffer)
  {
  }

  /** Leaving Shift releases every claimed key and leaves the buffer empty. */
  lemma ShiftExitReleasesClaimed(rules: seq<Rule>, buffer: seq<u16>, raw: i32)
    requires KeyValueFrom(raw) == Release
    ensures var st := ShiftStep(rules, buffer, Key(KeySpace, raw));
      && st.exit == Some(Idle) && st.buffer == []
      && (forall c :: c in buffer ==> Key(Effective(rules, c), 0) in st.emitted)
      && (forall e :: e in st.emitted ==> e.value == 0)
  {
    MappedEachCoversEach(rules, buffer, Release);
    MappedEachValues(rules, buffer, Release);
  }

  /** Shift claims nothing but remapped keys: whatever it holds was held on
      entry or is a remapped code. */
  lemma {:induction false} ShiftTracksOnlyRemapped(rules: seq<Rule>, buffer: seq<u16>, input: seq<Token>)
    ensures forall c :: c in Handler(Shift, rules, buffer, input).buffer ==> c in buffer || Remapped(rules, c)
    decreases |input|
  {
    if input != [] {
      var st := HandlerStep(Shift, rules, buffer, input[0]);
      assert forall c :: c in st.buffer ==> c in buffer || Remapped(rules, c) by {
        if input[0].Ev? && input[0].event.Key? {
          RemovedSubset(buffer, input[0].event.code);
        }
      }
      if st.exit.None? {
        ShiftTracksOnlyRemapped(rules, st.buffer, input[1..]);
      }
    }
  }

  /** When Shift returns, it returns to Idle with an empty buffer. */
  lemma {:induction false} ShiftLeavesEmpty(rules: seq<Rule>, buffer: seq<u16>, input: seq<Token>)
    ensures var o := Handler(Shift, rules, buffer, input);
      o.next.Some? ==> o.next == Some(Idle) && o.buffer == []
    decreases |input|
  {
    if input != [] {
      var st := HandlerStep(Shift, rules, buffer, input[0]);
      if st.exit.None? {
        ShiftLeavesEmpty(rules, st.buffer, input[1..]);
      }
    }
  }

  // ---------------------------------------------------------------------
  // Whole handlers and sessions

  lemma HandlerStepKeepsDistinct(s: State, rules: seq<Rule>, buffer: seq<u16>, t: Token)
    requires Distinct(buffer)
    ensures Distinct(HandlerStep(s, rules, buffer, t).buffer)
  {
    if t.Ev? && t.event.Key? {
      var code := t.event.code;
      if code !in buffer { AppendAbsentKeepsDistinct(buffer, code); }
      RemovedFromDistinct(buffer, code);
    }
  }

  /** Every handler keeps the buffer free of duplicates. */
  lemma {:induction false} HandlerKeepsDistinct(s: State, rules: seq<Rule>, buffer: seq<u16>, input: seq<Token>)
    requires Distinct(buffer)
    ensures Distinct(Handler(s, rules, buffer, input).buffer)
    decreases |input|
  {
    if input != [] {
      HandlerStepKeepsDistinct(s, rules, buffer, input[0]);
      var st := HandlerStep(s, rules, buffer, input[0]);
      if st.exit.None? {
        HandlerKeepsDistinct(s, rules, st.buffer, input[1..]);
      }
    }
  }

  /** Throughout a session the buffer never holds a code twice. */
  lemma {:induction false} RunKeepsDistinct(s: State, buffer: seq<u16>, config: Config, input: seq<Token>, drains: seq<seq<Command>>)
    requires Distinct(buffer)
    ensures Distinct(Run(s, buffer, config, input, drains).buffer)
    decreases |input|
  {
    var o := Handler(s, config.keysMap, Entered(s, buffer), input);
    HandlerKeepsDistinct(s, config.keysMap, Entered(s, buffer), input);
    if o.next.Some? {
      var d := Drain(config, if drains == [] then [] else drains[0]);
      if !d.stop {
        RunKeepsDistinct(o.next.value, o.buffer, d.config, o.rest, if drains == [] then [] else drains[1..]);
      }
    }
  }

  // ---------------------------------------------------------------------
  // Commands

  /** A Stop among the drained commands ends the session. */
  lemma {:induction false} DrainStops(config: Config, cmds: seq<Command>)
    ensures Drain(config, cmds).stop <==> Stop in cmds
    decreases |cmds|
  {
    if cmds != [] {
      DrainStops(if cmds[0].ReloadConfig? && cmds[0].loaded.Some? then cmds[0].loaded.value else config, cmds[1..]);
      assert cmds == [cmds[0]] + cmds[1..];
    }
  }

  /** Reloads that fail to load leave the configuration as it was. */
  lemma {:induction false} DrainFailedReloadsKeepConfig(config: Config, cmds: seq<Command>)
    requires forall c :: c in cmds && c.ReloadConfig? ==> c.loaded.None?
    ensures Drain(config, cmds).config == config
    decreases |cmds|
  {
    if cmds != [] && cmds[0].ReloadConfig? {
      assert cmds[0] in cmds;
      assert forall c :: c in cmds[1..] ==> c in cmds;
      DrainFailedReloadsKeepConfig(config, cmds[1..]);
    }
  }

  /** With no Stop drained, the last reload that loaded wins: failed reloads
      after it keep its configuration. */
  lemma {:induction false} DrainLastLoadWins(config: Config, cmds: seq<Command>, i: nat, c: Config)
    requires i < |cmds| && cmds[i] == ReloadConfig(Some(c))
    requires Stop !in cmds
    requires forall j :: i < j < |cmds| ==> cmds[j] == ReloadConfig(None)
    ensures Drain(config, cmds) == Drained(c, false)
    decreases |cmds|
  {
    var cmd := cmds[0];
    assert cmd != Stop by { assert cmds[0] in cmds; }
    if i > 0 {
      assert Stop !in cmds[1..];
      DrainLastLoadWins(if cmd.loaded.Some? then cmd.loaded.value else config, cmds[1..], i - 1, c);
    } else {
      DrainFailedReloadsKeepConfig(c, cmds[1..]);
      DrainStops(c, cmds[1..]);
      assert Stop !in cmds[1..];
    }
  }

  /** A session starts in Idle with an empty buffer; on an empty stream it
      emits nothing and waits there. */
  lemma SessionStartsIdle(config: Config, drains: seq<seq<Command>>)
    ensures FromStart(config, [], drains) == Trace([], Idle, [], config, false)
  {
  }

  /** A whole timeout round in a session without commands: space pressed,
      keys pressed, the deadline passes, space released. Each key goes out as
      exactly one mapped press and later one mapped release, and the session
      is back in Idle with an empty buffer. */
  lemma {:induction false} TimeoutRoundPairs(buffer: seq<u16>, config: Config, codes: seq<u16>, rest: seq<Token>)
    requires Distinct(codes)
    ensures Run(Idle, buffer, config, [Ev(Key(KeySpace, 1))] + Presses(codes) + [Timeout, Ev(Key(KeySpace, 0))] + rest, [])
         == AfterTrace(MappedEach(config.keysMap, codes, Press) + MappedEach(config.keysMap, codes, Release),
                       Run(Idle, [], config, rest, []))
  {
    var rules := config.keysMap;
    var input := [Ev(Key(KeySpace, 1))] + Presses(codes) + [Timeout, Ev(Key(KeySpace, 0))] + rest;
    var afterSpace := Presses(codes) + [Timeout] + ([Ev(Key(KeySpace, 0))] + rest);
    assert input[1..] == afterSpace;
    var o1 := Handler(Idle, rules, buffer, input);
    assert o1 == Outcome(Some(Decide), buffer, [], afterSpace);
    TimeoutOutcome(rules, codes, [Ev(Key(KeySpace, 0))] + rest);
    var o2 := Handler(Decide, rules, [], afterSpace);
    assert o2 == Outcome(Some(Shift), codes, MappedEach(rules, codes, Press), [Ev(Key(KeySpace, 0))] + rest);
    var o3 := Handler(Shift, rules, codes, [Ev(Key(KeySpace, 0))] + rest);
    assert ([Ev(Key(KeySpace, 0))] + rest)[1..] == rest;
    assert o3 == Outcome(Some(Idle), [], MappedEach(rules, codes, Release), rest);
    assert Run(Shift, codes, config, [Ev(Key(KeySpace, 0))] + rest, [])
        == AfterTrace(MappedEach(rules, codes, Release), Run(Idle, [], config, rest, []));
    assert Run(Decide, buffer, config, afterSpace, [])
        == AfterTrace(MappedEach(rules, codes, Press), Run(Shift, codes, config, [Ev(Key(KeySpace, 0))] + rest, []));
  }

  /** The pairing the source does not keep: a key with no rule, pressed in
      Decide and still held at the deadline, then released in Shift and
      followed by the space release, goes out as one press and two releases
      (Shift forwards its release without untracking it, and the space release
      releases it again). */
  lemma {:induction false} DoubleRelease(config: Config, code: u16)
    requires code != KeySpace
    requires forall j :: 0 <= j < |config.keysMap| ==> config.keysMap[j].orig != code
    ensures FromStart(config, [Ev(Key(KeySpace, 1)), Ev(Key(code, 1)), Timeout, Ev(Key(code, 0)), Ev(Key(KeySpace, 0))], [])
         == Trace([Key(code, 1), Key(code, 0), Key(code, 0)], Idle, [], config, false)
  {
    var rules := config.keysMap;
    UnmatchedPassesThrough(rules, code, Press);
    UnmatchedPassesThrough(rules, code, Release);
    var input := [Ev(Key(KeySpace, 1)), Ev(Key(code, 1)), Timeout, Ev(Key(code, 0)), Ev(Key(KeySpace, 0))];
    assert Handler(Idle, rules, [], input) == Outcome(Some(Decide), [], [], input[1..]);
    assert input[1..] == [Ev(Key(code, 1)), Timeout] + input[3..];
    HeldPastDeadline(rules, code, input[3..]);
    ReleasedTwice(rules, code);
    assert Run(Idle, [], config, [], []) == Trace([], Idle, [], config, false);
    assert Run(Shift, [code], config, input[3..], []) == Trace([Key(code, 0), Key(code, 0)], Idle, [], config, false);
    assert Run(Decide, [], config, input[1..], []) == Trace([Key(code, 1), Key(code, 0), Key(code, 0)], Idle, [], config, false);
  }

  /** First half of DoubleRelease: the press is withheld, then the deadline
      passes and the key goes out as a press and stays claimed. */
  lemma HeldPastDeadline(rules: seq<Rule>, code: u16, rest: seq<Token>)
    requires code != KeySpace && MappedEvents(rules, code, Press) == [Key(code, 1)]
    ensures Handler(Decide, rules, [], [Ev(Key(code, 1)), Timeout] + rest) == Outcome(Some(Shift), [code], [Key(code, 1)], rest)
  {
    var input := [Ev(Key(code, 1)), Timeout] + rest;
    assert input[1..][1..] == rest;
    assert MappedEach(rules, [code], Press) == [Key(code, 1)] by {
      assert [code][..0] == [];
    }
  }

  /** Second half of DoubleRelease: the release goes out but the key stays
      claimed, and the space release releases it again. */
  lemma ReleasedTwice(rules: seq<Rule>, code: u16)
    requires code != KeySpace && !Remapped(rules, code) && MappedEvents(rules, code, Release) == [Key(code, 0)]
    ensures Handler(Shift, rules, [code], [Ev(Key(code, 0)), Ev(Key(KeySpace, 0))])
         == Outcome(Some(Idle), [], [Key(code, 0), Key(code, 0)], [])
  {
    var input := [Ev(Key(code, 0)), Ev(Key(KeySpace, 0))];
    assert input[1..] == [Ev(Key(KeySpace, 0))] && input[1..][1..] == [];
    assert MappedEach(rules, [code], Release) == [Key(code, 0)] by {
      assert [code][..0] == [];
    }
  }

}
