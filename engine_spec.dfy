/** The behaviour of the remapping handlers of spacefn-rs/src/main.rs (and the
    identical handlers of src/main.rs), stated as functions: what each handler
    does with one event, what it does with a whole input stream until it
    returns, and what a whole session does. */
module EngineSpec {
  import opened Core

  /** KEY_SPACE, the layer key. */
  const KeySpace: u16 := 57

  /** An event read from the physical device: a key event with its raw value,
      or any other event, which is forwarded untouched. */
  datatype Event = Key(code: u16, value: i32) | NonKey(etype: u16, code: u16, value: i32)

  /** The physical device as a stream. `Timeout` marks the point where, at the
      top of the Decide loop, the 200 ms deadline is found to have elapsed. */
  datatype Token = Ev(event: Event) | Timeout

  /** A command drained from the command channel. `ReloadConfig` carries what
      `Config::load` returned: a configuration, or None for a failed load. */
  datatype Command = ReloadConfig(loaded: Option<Config>) | Stop

  // ---------------------------------------------------------------------
  // send_mapped_key

  /** The code `send_mapped_key` emits last: the resolved code, or the input
      code when resolution gave 0. */
  function Effective(rules: seq<Rule>, code: u16): u16 {
    var mapped := Resolve(rules, code).0;
    if mapped != 0 then mapped else code
  }

  /** The events `send_mapped_key` emits: the extended code first when there is
      one, then the effective code, both with the same value. */
  function MappedEvents(rules: seq<Rule>, code: u16, v: KeyValue): seq<Event> {
    var ext := Resolve(rules, code).1;
    (if ext.Some? then [Key(ext.value, v.ToInt())] else []) + [Key(Effective(rules, code), v.ToInt())]
  }

  /** The flag `send_mapped_key` returns. */
  function Remapped(rules: seq<Rule>, code: u16): bool {
    var mapped := Resolve(rules, code).0;
    mapped != 0 && mapped != code
  }

  /** `for &code in codes { send_mapped_key(code, v) }`. */
  function MappedEach(rules: seq<Rule>, codes: seq<u16>, v: KeyValue): seq<Event> {
    if codes == [] then []
    else MappedEach(rules, codes[..|codes| - 1], v) + MappedEvents(rules, codes[|codes| - 1], v)
  }

  /** `for &code in codes { send_key(code, 1) }`: plain, unmapped presses. */
  function PlainPresses(codes: seq<u16>): seq<Event> {
    seq(|codes|, i requires 0 <= i < |codes| => Key(codes[i], 1))
  }

  /** `if !buffer.contains(&code) { buffer.push(code) }`. */
  function Tracked(buffer: seq<u16>, code: u16): seq<u16> {
    if code in buffer then buffer else buffer + [code]
  }

  // ---------------------------------------------------------------------
  // One event in each state

  /** What one event does: the events emitted, the buffer afterwards, and the
      state the handler returns, if it returns. */
  datatype Step = Step(emitted: seq<Event>, buffer: seq<u16>, exit: Option<State>)

  /** run_idle_state on one event. */
  function IdleStep(buffer: seq<u16>, e: Event): Step {
    match e
    case NonKey(_, _, _) => Step([e], buffer, None)
    case Key(code, raw) =>
      if code == KeySpace && KeyValueFrom(raw) == Press then Step([], buffer, Some(Decide))
      else Step([Key(code, raw)], buffer, None)
  }

  /** run_decide_state on one event read before the deadline. */
  function DecideStep(rules: seq<Rule>, buffer: seq<u16>, e: Event): Step {
    match e
    case NonKey(_, _, _) => Step([e], buffer, None)
    case Key(code, raw) =>
      var value := KeyValueFrom(raw);
      if code == KeySpace && value == Release then
        // tap: the space key itself, then the withheld keys as plain presses
        Step([Key(KeySpace, 1), Key(KeySpace, 0)] + PlainPresses(buffer), buffer, Some(Idle))
      else if value == Press then
        Step([], Tracked(buffer, code), None)
      else if value == Release && code !in buffer then
        Step([Key(code, raw)], buffer, None)
      else if value == Release && code in buffer then
        // combo: the released key goes out through the mapping
        Step(MappedEvents(rules, code, Press) + MappedEvents(rules, code, Release),
             Removed(buffer, code), Some(Shift))
      else
        // a repeat matches no branch
        Step([], buffer, None)
  }

  /** run_decide_state when the deadline has elapsed: every withheld key is
      pressed through the mapping and stays in the buffer. */
  function DecideTimeout(rules: seq<Rule>, buffer: seq<u16>): Step {
    Step(MappedEach(rules, buffer, Press), buffer, Some(Shift))
  }

  /** run_shift_state on one event. */
  function ShiftStep(rules: seq<Rule>, buffer: seq<u16>, e: Event): Step {
    match e
    case NonKey(_, _, _) => Step([e], buffer, None)
    case Key(code, raw) =>
      var value := KeyValueFrom(raw);
      if code == KeySpace && value == Release then
        Step(MappedEach(rules, buffer, Release), [], Some(Idle))
      else if code == KeySpace then
        Step([], buffer, None)
      else
        var emitted := MappedEvents(rules, code, value);
        if Remapped(rules, code) && value == Press then Step(emitted, Tracked(buffer, code), None)
        else if Remapped(rules, code) && value == Release then Step(emitted, Removed(buffer, code), None)
        else Step(emitted, buffer, None)
  }

  /** The handler of state `s` on one token. Only Decide has a deadline. */
  function HandlerStep(s: State, rules: seq<Rule>, buffer: seq<u16>, t: Token): Step {
    match t
    case Timeout => if s == Decide then DecideTimeout(rules, buffer) else Step([], buffer, None)
    case Ev(e) =>
      match s
      case Idle => IdleStep(buffer, e)
      case Decide => DecideStep(rules, buffer, e)
      case Shift => ShiftStep(rules, buffer, e)
  }

  /** The transitions a handler can make. */
  predicate Successor(s: State, t: State) {
    match s
    case Idle => t == Decide
    case Decide => t == Idle || t == Shift
    case Shift => t == Idle
  }

  // ---------------------------------------------------------------------
  // A whole handler run

  /** What a handler does with the stream until it returns: the state it
      returns (None when the stream ends first, where the source keeps waiting
      for the device), the buffer, what it emitted and the unread stream. */
  datatype Outcome = Outcome(next: Option<State>, buffer: seq<u16>, emitted: seq<Event>, rest: seq<Token>)

  function Handler(s: State, rules: seq<Rule>, buffer: seq<u16>, input: seq<Token>): (o: Outcome)
    ensures o.next.Some? ==> |o.rest| < |input| && Successor(s, o.next.value)
    ensures o.next.None? ==> o.rest == []
    decreases |input|
  {
    if input == [] then Outcome(None, buffer, [], [])
    else
      var st := HandlerStep(s, rules, buffer, input[0]);
      if st.exit.Some? then Outcome(st.exit, st.buffer, st.emitted, input[1..])
      else
        var o := Handler(s, rules, st.buffer, input[1..]);
        o.(emitted := st.emitted + o.emitted)
  }

  /** The buffer a handler starts with: run_decide_state clears it on entry. */
  function Entered(s: State, buffer: seq<u16>): seq<u16> {
    if s == Decide then [] else buffer
  }

  // ---------------------------------------------------------------------
  // Commands and the dispatch loop

  datatype Drained = Drained(config: Config, stop: bool)

  /** The command drain after a handler returns: a successful reload replaces
      the configuration, a failed one keeps it, Stop ends the session. */
  function Drain(config: Config, cmds: seq<Command>): Drained
    decreases |cmds|
  {
    if cmds == [] then Drained(config, false)
    else
      match cmds[0]
      case Stop => Drained(config, true)
      case ReloadConfig(loaded) =>
        Drain(if loaded.Some? then loaded.value else config, cmds[1..])
  }

  /** What a session does: the events written to the virtual device, the final
      state, buffer and configuration, and whether a Stop command ended it
      (false: the device stream ran out while a handler waited for it).
      `drains[k]` is what the command channel holds after the k-th return. */
  datatype Trace = Trace(emitted: seq<Event>, state: State, buffer: seq<u16>, config: Config, stopped: bool)

  function Run(s: State, buffer: seq<u16>, config: Config, input: seq<Token>, drains: seq<seq<Command>>): Trace
    decreases |input|
  {
    var o := Handler(s, config.keysMap, Entered(s, buffer), input);
    if o.next.None? then Trace(o.emitted, s, o.buffer, config, false)
    else
      var d := Drain(config, if drains == [] then [] else drains[0]);
      if d.stop then Trace(o.emitted, o.next.value, o.buffer, d.config, true)
      else
        var t := Run(o.next.value, o.buffer, d.config, o.rest, if drains == [] then [] else drains[1..]);
        t.(emitted := o.emitted + t.emitted)
  }

  /** A session as run_state_machine starts it: Idle, with an empty buffer. */
  function FromStart(config: Config, input: seq<Token>, drains: seq<seq<Command>>): Trace {
    Run(Idle, [], config, input, drains)
  }

  /** `o` with `pre` emitted before everything it emitted. */
  function After(pre: seq<Event>, o: Outcome): Outcome {
    o.(emitted := pre + o.emitted)
  }

  /** `t` with `pre` emitted before everything it emitted. */
  function AfterTrace(pre: seq<Event>, t: Trace): Trace {
    t.(emitted := pre + t.emitted)
  }
}
