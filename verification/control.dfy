/**
 * `ScriptControl` (core/control.py) without its threads: the flags the
 * keyboard listener sets and the bot loop reads.  Every clock reading and
 * random draw is a parameter; the listener's debounce timestamp is part of
 * the state.
 */
module Control {
  import opened Values
  import Py
  import RangeCodec

  /** The pause key is honoured at most once per this many seconds. */
  const ToggleCooldown: real := 0.4

  /**
   * The control state: the two flags, the end of the current break, the break
   * configuration (unset until a bot installs one) and the time the pause key
   * last took effect.
   */
  datatype Control = Control(terminate: bool, pause: bool, breakUntil: real,
                             breakConfig: Option<BreakCfg>, lastPauseToggle: real)

  /** The state `__init__` and the listener start from. */
  const Initial: Control := Control(false, false, 0.0, None, 0.0)

  // ---------------------------------------------------------------- setters

  /** The `terminate` setter. */
  function SetTerminate(c: Control, v: bool): (r: Control)
    ensures r.terminate == v
    ensures r.(terminate := c.terminate) == c
  {
    c.(terminate := v)
  }

  /** The `pause` setter. */
  function SetPause(c: Control, v: bool): (r: Control)
    ensures r.pause == v
    ensures r.(pause := c.pause) == c
  {
    c.(pause := v)
  }

  // ---------------------------------------------------------------- guard

  /** What a guarded call does at one check of the flags and the clock. */
  datatype Decision = Wait | Cancel | Run

  /**
   * One pass of the `guard` wrapper: while a break is running or the script is
   * paused it waits, unless termination was requested; once neither holds it
   * raises on termination and otherwise runs the call.
   */
  function GuardStep(c: Control, now: real): (d: Decision)
    ensures d == Cancel <==> c.terminate
    ensures d == Run <==> !c.terminate && !c.pause && now >= c.breakUntil
    ensures d == Wait <==> !c.terminate && (c.pause || now < c.breakUntil)
  {
    if now < c.breakUntil || c.pause then
      (if c.terminate then Cancel else Wait)
    else if c.terminate then Cancel
    else Run
  }

  /** One check of the wrapper: the state as the wrapper reads it, and the clock. */
  datatype Poll = Poll(state: Control, now: real)

  /** How a guarded call ended: it ran at poll `at`, it raised at poll `at`, or it is still waiting. */
  datatype Outcome<T> = Ran(value: T, at: nat) | Cancelled(at: nat) | StillWaiting

  /**
   * The `guard` wrapper over the successive checks it makes; `result` is what
   * the wrapped function returns when it is called.
   */
  method Guard<T>(polls: seq<Poll>, result: T) returns (o: Outcome<T>)
    ensures o.StillWaiting? <==> forall j :: 0 <= j < |polls| ==> GuardStep(polls[j].state, polls[j].now) == Wait
    ensures !o.StillWaiting? ==> o.at < |polls| && forall j :: 0 <= j < o.at ==> GuardStep(polls[j].state, polls[j].now) == Wait
    ensures o.Cancelled? ==> polls[o.at].state.terminate
    ensures o.Ran? ==> o.value == result && !polls[o.at].state.terminate && !polls[o.at].state.pause
                       && polls[o.at].now >= polls[o.at].state.breakUntil
  {
    var i := 0;
    while i < |polls| && GuardStep(polls[i].state, polls[i].now) == Wait
      invariant 0 <= i <= |polls|
      invariant forall j :: 0 <= j < i ==> GuardStep(polls[j].state, polls[j].now) == Wait
    {
      i := i + 1;
    }
    if i == |polls| {
      o := StillWaiting;
    } else if GuardStep(polls[i].state, polls[i].now) == Cancel {
      o := Cancelled(i);
    } else {
      o := Ran(result, i);
    }
  }

  // ---------------------------------------------------------------- breaks

  /** `int(x)` for a float: truncation toward zero. */
  function Trunc(x: real): (n: int)
    ensures x >= 0.0 ==> n as real <= x < n as real + 1.0
    ensures x < 0.0 ==> n as real - 1.0 < x <= n as real
  {
    if x >= 0.0 then x.Floor else -((-x).Floor)
  }

  /** `initialize_break(seconds)`: the break ends `seconds` after `now`. */
  function InitializeBreak(c: Control, now: real, seconds: int): (r: Control)
    ensures r.breakUntil == now + seconds as real
    ensures r.(breakUntil := c.breakUntil) == c
  {
    c.(breakUntil := now + seconds as real)
  }

  /**
   * `propose_break`: without a configuration nothing happens; otherwise a draw
   * in [0, 1) decides whether to break, and the break lasts the whole seconds
   * of a duration chosen with the draw `u`.  Choosing from bounds that are not
   * numbers raises `TypeError`.
   */
  function ProposeBreak(c: Control, now: real, draw: real, u: real): (r: Result<Control>)
    requires 0.0 <= draw < 1.0 && 0.0 <= u <= 1.0
    ensures c.breakConfig.None? ==> r == Ok(c)
    ensures c.breakConfig.Some? && !RangeCodec.ShouldBreak(c.breakConfig.value, draw) ==> r == Ok(c)
    ensures r.Ok? ==> r.value.(breakUntil := c.breakUntil) == c
    ensures r.Ok? && r.value != c ==>
              c.breakConfig.Some? && RangeCodec.ShouldBreak(c.breakConfig.value, draw)
              && RangeCodec.Choose(c.breakConfig.value.duration, u).Ok?
              && r.value.breakUntil == now + Trunc(RangeCodec.Choose(c.breakConfig.value.duration, u).value) as real
    ensures r.Err? ==> r.error == WrongType
    // a winning draw always starts the break, unless choosing its length raises
    ensures c.breakConfig.Some? && RangeCodec.ShouldBreak(c.breakConfig.value, draw) ==>
              (r.Err? <==> RangeCodec.Choose(c.breakConfig.value.duration, u).Err?)
    ensures c.breakConfig.Some? && RangeCodec.ShouldBreak(c.breakConfig.value, draw)
            && RangeCodec.Choose(c.breakConfig.value.duration, u).Ok? ==>
              r == Ok(InitializeBreak(c, now, Trunc(RangeCodec.Choose(c.breakConfig.value.duration, u).value)))
  {
    match c.breakConfig
    case None => Ok(c)
    case Some(cfg) =>
      if RangeCodec.ShouldBreak(cfg, draw) then
        var d :- RangeCodec.Choose(cfg.duration, u);
        Ok(InitializeBreak(c, now, Trunc(d)))
      else Ok(c)
  }

  // ---------------------------------------------------------------- the key handler

  /** A keyboard event as the hook delivers it. */
  datatype KeyEvent = KeyEvent(eventType: Option<string>, name: Option<string>, isKeypad: bool)

  /** `(e.name or '').lower()`. */
  function KeyName(e: KeyEvent): string
  {
    match e.name
    case None => ""
    case Some(n) => Py.Lower(n)
  }

  predicate IsPageUp(e: KeyEvent)
  {
    KeyName(e) == "page up" || KeyName(e) == "pageup"
  }

  predicate IsPageDown(e: KeyEvent)
  {
    KeyName(e) == "page down" || KeyName(e) == "pagedown"
  }

  /**
   * The listener's `handler`: only key-down events from the main keyboard
   * count.  Page Up requests termination; Page Down flips the pause flag,
   * at most once per cooldown.
   */
  function Handle(c: Control, e: KeyEvent, now: real): (r: Control)
    ensures e.eventType != Some("down") || e.isKeypad ==> r == c
    ensures e.eventType == Some("down") && !e.isKeypad && IsPageUp(e) ==> r == SetTerminate(c, true)
    ensures e.eventType == Some("down") && !e.isKeypad && IsPageDown(e) ==>
              if now - c.lastPauseToggle >= ToggleCooldown
              then r == c.(pause := !c.pause, lastPauseToggle := now)
              else r == c
    ensures !IsPageUp(e) && !IsPageDown(e) ==> r == c
    ensures c.terminate ==> r.terminate
  {
    if e.eventType != Some("down") then c
    else if IsPageUp(e) then
      (if !e.isKeypad then SetTerminate(c, true) else c)
    else if IsPageDown(e) then
      (if !e.isKeypad && now - c.lastPauseToggle >= ToggleCooldown
       then SetPause(c, !c.pause).(lastPauseToggle := now)
       else c)
    else c
  }

  /** A timed sequence of keyboard events handled one after another. */
  function HandleAll(c: Control, events: seq<(KeyEvent, real)>): (r: Control)
    decreases |events|
  {
    if |events| == 0 then c else HandleAll(Handle(c, events[0].0, events[0].1), events[1..])
  }

  // ---------------------------------------------------------------- properties

  /** The last value written to a flag is the one it holds, and the two setters do not interact. */
  lemma LastWriteWins(c: Control, a: bool, b: bool, p: bool, t: bool)
    ensures SetTerminate(SetTerminate(c, a), b) == SetTerminate(c, b)
    ensures SetPause(SetPause(c, a), b) == SetPause(c, b)
    ensures SetTerminate(SetPause(c, p), t) == SetPause(SetTerminate(c, t), p)
  {
  }

  /**
   * Terminate always wins: once requested, no keyboard event clears it, and
   * every later check of a guarded call raises, whatever the pause flag,
   * the break or the clock.
   */
  lemma {:induction false} TerminateWins(c: Control, events: seq<(KeyEvent, real)>, now: real)
    requires c.terminate
    ensures HandleAll(c, events).terminate
    ensures GuardStep(HandleAll(c, events), now) == Cancel
    decreases |events|
  {
    if |events| > 0 {
      TerminateWins(Handle(c, events[0].0, events[0].1), events[1..], now);
    }
  }

  /** A guarded call never runs while termination is requested, at any poll. */
  lemma GuardNeverRunsTerminated(c: Control, now: real)
    requires c.terminate
    ensures GuardStep(c, now) != Run
  {
  }

  /** Page Up is recognised whatever its letter case: every name that lower-cases to it terminates. */
  lemma PageUpAnyCase(c: Control, n: string, now: real)
    requires Py.Lower(n) == "page up" || Py.Lower(n) == "pageup"
    ensures Handle(c, KeyEvent(Some("down"), Some(n), false), now).terminate
    ensures Handle(c, KeyEvent(Some("down"), Some(n), true), now) == c
  {
  }

  /** Two mixed-case spellings the hook may deliver. */
  lemma PageUpSpellings(c: Control, now: real)
    ensures Handle(c, KeyEvent(Some("down"), Some("Page Up"), false), now).terminate
    ensures Handle(c, KeyEvent(Some("down"), Some("PAGEUP"), false), now).terminate
  {
    assert Py.Lower("Page Up") == "page up";
    assert Py.Lower("PAGEUP") == "pageup";
    PageUpAnyCase(c, "Page Up", now);
    PageUpAnyCase(c, "PAGEUP", now);
  }

  /** A second Page Down inside the cooldown is ignored: two quick presses pause only once. */
  lemma DebouncedPause(c: Control, t1: real, t2: real)
    requires t1 - c.lastPauseToggle >= ToggleCooldown
    requires t1 <= t2 < t1 + ToggleCooldown
    ensures var e := KeyEvent(Some("down"), Some("page down"), false);
            var r := Handle(Handle(c, e, t1), e, t2);
            r.pause == !c.pause && r.lastPauseToggle == t1 && r.terminate == c.terminate
  {
    var e := KeyEvent(Some("down"), Some("page down"), false);
    assert Py.Lower("page down") == "page down";
    assert IsPageDown(e) && !IsPageUp(e);
  }

  /**
   * A winning draw from a configuration with non-negative bounds `lo <= hi`
   * starts a break that ends between `now + int(lo)` and `now + hi`.
   */
  lemma BreakLength(c: Control, now: real, draw: real, u: real)
    requires 0.0 <= draw < 1.0 && 0.0 <= u <= 1.0
    requires c.breakConfig.Some? && RangeCodec.ShouldBreak(c.breakConfig.value, draw)
    requires var d := c.breakConfig.value.duration;
             Py.AsNumber(d.lo).Some? && Py.AsNumber(d.hi).Some?
             && 0.0 <= Py.AsNumber(d.lo).value <= Py.AsNumber(d.hi).value
    ensures ProposeBreak(c, now, draw, u).Ok?
    ensures var lo, hi := Py.AsNumber(c.breakConfig.value.duration.lo).value, Py.AsNumber(c.breakConfig.value.duration.hi).value;
            var b := ProposeBreak(c, now, draw, u).value.breakUntil;
            now + Trunc(lo) as real <= b <= now + hi
  {
    var d := c.breakConfig.value.duration;
    var lo, hi := Py.AsNumber(d.lo).value, Py.AsNumber(d.hi).value;
    RangeCodec.ChooseWithinBounds(d, u);
    var x := RangeCodec.Choose(d, u).value;
    assert lo <= x <= hi;
    TruncMonotone(lo, x);
  }

  /** `int()` of a float is monotone. */
  lemma TruncMonotone(x: real, y: real)
    requires x <= y
    ensures Trunc(x) <= Trunc(y)
  {
  }
}
