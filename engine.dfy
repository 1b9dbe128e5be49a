/** The remapping session of spacefn-rs/src/main.rs and src/main.rs: the
    dispatch loop, the three state handlers and send_mapped_key, as methods of
    one session object that reads the physical device's stream and writes the
    virtual device's stream. Each method is proved against EngineSpec. */
module Engine {
  import opened Core
  import opened EngineSpec

  /** Regrouping the output; stated once and called where a loop appends,
      which keeps those proofs small. */
  lemma ConcatAssoc(a: seq<Event>, b: seq<Event>, c: seq<Event>)
    ensures (a + b) + c == a + (b + c)
  {
  }

  /** One token of a handler loop: what was still to come after `pre` is
      either the step's exit or the rest of the loop after the step. */
  lemma HandlerStepOn(s: State, rules: seq<Rule>, buffer: seq<u16>, input: seq<Token>, pre: seq<Event>, o0: Outcome)
    requires input != []
    requires o0 == After(pre, Handler(s, rules, buffer, input))
    ensures var st := HandlerStep(s, rules, buffer, input[0]);
      if st.exit.Some? then o0 == Outcome(st.exit, st.buffer, pre + st.emitted, input[1..])
      else o0 == After(pre + st.emitted, Handler(s, rules, st.buffer, input[1..]))
  {
  }

  /** One round of the dispatch loop, in the same form. */
  lemma RunOn(s: State, buffer: seq<u16>, config: Config, input: seq<Token>, drains: seq<seq<Command>>, pre: seq<Event>, t0: Trace)
    requires t0 == AfterTrace(pre, Run(s, buffer, config, input, drains))
    ensures var o := Handler(s, config.keysMap, Entered(s, buffer), input);
      var d := Drain(config, if drains == [] then [] else drains[0]);
      if o.next.None? then t0 == Trace(pre + o.emitted, s, o.buffer, config, false)
      else if d.stop then t0 == Trace(pre + o.emitted, o.next.value, o.buffer, d.config, true)
      else t0 == AfterTrace(pre + o.emitted, Run(o.next.value, o.buffer, d.config, o.rest, if drains == [] then [] else drains[1..]))
  {
  }

  class Session {
    /** The state the dispatch loop will run next. */
    var state: State
    /** The `Vec<u16>` of claimed codes shared by the Decide and Shift handlers. */
    var buffer: seq<u16>
    var config: Config
    /** What the physical device has yet to deliver. */
    var input: seq<Token>
    /** Everything written to the virtual device so far. */
    var output: seq<Event>

    /** The session as run_state_machine sets it up. */
    constructor (config: Config, input: seq<Token>)
      ensures state == Idle && buffer == [] && this.config == config
      ensures this.input == input && output == []
    {
      state := Idle;
      buffer := [];
      this.config := config;
      this.input := input;
      output := [];
    }

    /** `send_key`: one key event to the virtual device. */
    method SendKey(code: u16, value: i32)
      modifies this`output
      ensures output == old(output) + [Key(code, value)]
    {
      output := output + [Key(code, value)];
    }

    /** `forward_event`: an event copied to the virtual device as it is. */
    method ForwardEvent(e: Event)
      modifies this`output
      ensures output == old(output) + [e]
    {
      output := output + [e];
    }

    /** `send_mapped_key`: emits the extended code (if any) and then the
        effective code, and reports whether the code was actually remapped. */
    method SendMappedKey(code: u16, value: KeyValue) returns (mapped: bool)
      modifies this`output
      ensures output == old(output) + MappedEvents(config.keysMap, code, value)
      ensures mapped == Remapped(config.keysMap, code)
    {
      var sm := new StateMachine(config);
      var mappedCode, extCode := sm.MapKey(code);
      var actualCode := if mappedCode != 0 then mappedCode else code;
      if extCode.Some? {
        SendKey(extCode.value, value.ToInt());
      }
      SendKey(actualCode, value.ToInt());
      return mappedCode != 0 && mappedCode != code;
    }

    /** `for &code in codes { send_mapped_key(code, value) }`. */
    method SendMappedEach(codes: seq<u16>, value: KeyValue)
      modifies this`output
      ensures output == old(output) + MappedEach(config.keysMap, codes, value)
    {
      for i := 0 to |codes|
        invariant output == old(output) + MappedEach(config.keysMap, codes[..i], value)
      {
        assert codes[..i + 1][..i] == codes[..i];
        var _ := SendMappedKey(codes[i], value);
      }
      assert codes[..|codes|] == codes;
    }

    /** `for &code in codes { send_key(code, 1) }`. */
    method SendPlainPresses(codes: seq<u16>)
      modifies this`output
      ensures output == old(output) + PlainPresses(codes)
    {
      for i := 0 to |codes|
        invariant output == old(output) + PlainPresses(codes[..i])
      {
        SendKey(codes[i], 1);
      }
      assert codes[..|codes|] == codes;
    }

    /** The body of run_idle_state's event loop, for one token. */
    method IdleOn(t: Token) returns (exit: Option<State>)
      modifies this`output
      ensures var st := HandlerStep(Idle, config.keysMap, buffer, t);
        exit == st.exit && output == old(output) + st.emitted
    {
      if t.Timeout? {
        return None;
      }
      var e := t.event;
      if e.NonKey? {
        ForwardEvent(e);
        return None;
      }
      var code, value := e.code, KeyValueFrom(e.value);
      if code == KeySpace && value == Press {
        return Some(Decide);
      }
      SendKey(code, e.value);
      return None;
    }

    /** The body of run_decide_state's loop, for one token: the deadline
        check when the token is Timeout, one event of a batch otherwise. */
    method DecideOn(t: Token) returns (exit: Option<State>)
      modifies this`output, this`buffer
      ensures var st := HandlerStep(Decide, config.keysMap, old(buffer), t);
        exit == st.exit && output == old(output) + st.emitted && buffer == st.buffer
    {
      if t.Timeout? {
        SendMappedEach(buffer, Press);
        return Some(Shift);
      }
      var e := t.event;
      if e.NonKey? {
        ForwardEvent(e);
        return None;
      }
      var code, value := e.code, KeyValueFrom(e.value);
      if code == KeySpace && value == Release {
        SendKey(KeySpace, 1);
        SendKey(KeySpace, 0);
        SendPlainPresses(buffer);
        return Some(Idle);
      }
      if value == Press {
        if code !in buffer {
          buffer := buffer + [code];
        }
        return None;
      }
      if value == Release && code !in buffer {
        SendKey(code, e.value);
        return None;
      }
      if value == Release && code in buffer {
        var found, pos := Position(buffer, code);
        if found {
          buffer := buffer[..pos] + buffer[pos + 1..];
        }
        var _ := SendMappedKey(code, Press);
        var _ := SendMappedKey(code, Release);
        return Some(Shift);
      }
      return None;
    }

    /** The body of run_shift_state's event loop, for one token. */
    method ShiftOn(t: Token) returns (exit: Option<State>)
      modifies this`output, this`buffer
      ensures var st := HandlerStep(Shift, config.keysMap, old(buffer), t);
        exit == st.exit && output == old(output) + st.emitted && buffer == st.buffer
    {
      if t.Timeout? {
        return None;
      }
      var e := t.event;
      if e.NonKey? {
        ForwardEvent(e);
        return None;
      }
      var code, value := e.code, KeyValueFrom(e.value);
      if code == KeySpace && value == Release {
        SendMappedEach(buffer, Release);
        buffer := [];
        return Some(Idle);
      }
      if code == KeySpace {
        return None;
      }
      var mapped := SendMappedKey(code, value);
      if mapped {
        if value == Press {
          if code !in buffer {
            buffer := buffer + [code];
          }
        } else if value == Release {
          var found, pos := Position(buffer, code);
          if found {
            buffer := buffer[..pos] + buffer[pos + 1..];
          }
        }
      }
      return None;
    }

    /** run_idle_state: forwards everything until space is pressed. */
    method RunIdle() returns (next: Option<State>)
      modifies this`input, this`output
      ensures var o := Handler(Idle, config.keysMap, buffer, old(input));
        next == o.next && input == o.rest && output == old(output) + o.emitted && buffer == o.buffer
    {
      ghost var o0 := Handler(Idle, config.keysMap, buffer, input);
      ghost var emitted: seq<Event> := [];
      while input != []
        invariant output == old(output) + emitted
        invariant o0 == After(emitted, Handler(Idle, config.keysMap, buffer, input))
        decreases |input|
      {
        HandlerStepOn(Idle, config.keysMap, buffer, input, emitted, o0);
        ghost var st := HandlerStep(Idle, config.keysMap, buffer, input[0]);
        var t := input[0];
        input := input[1..];
        var exit := IdleOn(t);
        ConcatAssoc(old(output), emitted, st.emitted);
        emitted := emitted + st.emitted;
        if exit.Some? {
          return exit;
        }
      }
      return None;
    }

    /** run_decide_state: clears the buffer, then withholds presses until the
        space key is released (tap), a withheld key is released (combo) or the
        deadline elapses (timeout). */
    method RunDecide() returns (next: Option<State>)
      modifies this`input, this`output, this`buffer
      ensures var o := Handler(Decide, config.keysMap, [], old(input));
        next == o.next && input == o.rest && output == old(output) + o.emitted && buffer == o.buffer
    {
      buffer := [];
      ghost var o0 := Handler(Decide, config.keysMap, buffer, input);
      ghost var emitted: seq<Event> := [];
      while input != []
        invariant output == old(output) + emitted
        invariant o0 == After(emitted, Handler(Decide, config.keysMap, buffer, input))
        decreases |input|
      {
        HandlerStepOn(Decide, config.keysMap, buffer, input, emitted, o0);
        ghost var st := HandlerStep(Decide, config.keysMap, buffer, input[0]);
        var t := input[0];
        input := input[1..];
        var exit := DecideOn(t);
        ConcatAssoc(old(output), emitted, st.emitted);
        emitted := emitted + st.emitted;
        if exit.Some? {
          return exit;
        }
      }
      return None;
    }

    /** run_shift_state: keys go out through the mapping; remapped keys are
        tracked in the buffer; releasing space releases what is tracked. */
    method RunShift() returns (next: Option<State>)
      modifies this`input, this`output, this`buffer
      ensures var o := Handler(Shift, config.keysMap, old(buffer), old(input));
        next == o.next && input == o.rest && output == old(output) + o.emitted && buffer == o.buffer
    {
      ghost var o0 := Handler(Shift, config.keysMap, buffer, input);
      ghost var emitted: seq<Event> := [];
      while input != []
        invariant output == old(output) + emitted
        invariant o0 == After(emitted, Handler(Shift, config.keysMap, buffer, input))
        decreases |input|
      {
        HandlerStepOn(Shift, config.keysMap, buffer, input, emitted, o0);
        ghost var st := HandlerStep(Shift, config.keysMap, buffer, input[0]);
        var t := input[0];
        input := input[1..];
        var exit := ShiftOn(t);
        ConcatAssoc(old(output), emitted, st.emitted);
        emitted := emitted + st.emitted;
        if exit.Some? {
          return exit;
        }
      }
      return None;
    }

    /** The `while let Ok(cmd) = cmd_rx.try_recv()` drain. */
    method DrainCommands(cmds: seq<Command>) returns (stop: bool)
      modifies this`config
      ensures Drained(config, stop) == Drain(old(config), cmds)
    {
      var i := 0;
      while i < |cmds|
        invariant i <= |cmds|
        invariant Drain(old(config), cmds) == Drain(config, cmds[i..])
      {
        match cmds[i]
        case Stop =>
          return true;
        case ReloadConfig(loaded) =>
          if loaded.Some? {
            config := loaded.value;
          }
        i := i + 1;
      }
      return false;
    }

    /** run_state_machine's loop: run the handler of the current state, then
        drain the commands. Returns true when a Stop ended the session, false
        when the device stream ran out while a handler was waiting on it. */
    method RunStateMachine(drains: seq<seq<Command>>) returns (stopped: bool)
      modifies this
      ensures var t := Run(old(state), old(buffer), old(config), old(input), drains);
        output == old(output) + t.emitted && state == t.state && buffer == t.buffer
        && config == t.config && stopped == t.stopped
    {
      var pending := drains;
      ghost var t0 := Run(state, buffer, config, input, drains);
      ghost var emitted: seq<Event> := [];
      while true
        invariant output == old(output) + emitted
        invariant t0 == AfterTrace(emitted, Run(state, buffer, config, input, pending))
        decreases |input|
      {
        RunOn(state, buffer, config, input, pending, emitted, t0);
        ghost var o := Handler(state, config.keysMap, Entered(state, buffer), input);
        var next: Option<State>;
        match state {
          case Idle => next := RunIdle();
          case Decide => next := RunDecide();
          case Shift => next := RunShift();
        }
        ConcatAssoc(old(output), emitted, o.emitted);
        emitted := emitted + o.emitted;
        if next.None? {
          return false;
        }
        state := next.value;
        var cmds := if pending == [] then [] else pending[0];
        pending := if pending == [] then [] else pending[1..];
        var stop := DrainCommands(cmds);
        if stop {
          return true;
        }
      }
    }
  }

  /** A session from start: Idle, empty buffer, nothing emitted yet. */
  method RunSession(config: Config, input: seq<Token>, drains: seq<seq<Command>>)
    returns (output: seq<Event>, stopped: bool)
    ensures output == FromStart(config, input, drains).emitted
    ensures stopped == FromStart(config, input, drains).stopped
  {
    var s := new Session(config, input);
    stopped := s.RunStateMachine(drains);
    output := s.output;
  }
}
