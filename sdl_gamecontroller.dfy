/** The SDL2 GameController input reader: events that a dispatcher routes
    to one device's queue are drained on `read` into the device's axis and
    button arrays, after a deadzone filter; `devices` lists the connected
    controllers once, with duplicate names told apart by a `#k` suffix.
    SDL itself is abstracted: what it reports arrives as parameters. */
module SdlGameController {
  import opened Outcomes
  import opened Text

  /** `DEADZONE`: raw axis values closer to zero than this read as zero. */
  const Deadzone: int := 2000

  /** The largest raw axis value; raw values are divided by it. */
  const AxisScale: int := 32767

  /** SDL 2.0's `SDL_CONTROLLER_AXIS_MAX` and `SDL_CONTROLLER_BUTTON_MAX`. */
  const AxisMax: nat := 6
  const ButtonMax: nat := 15

  /** SDL's `SDL_CONTROLLER_AXIS_TRIGGERLEFT` and `..._TRIGGERRIGHT`. */
  const AxisTriggerLeft: nat := 4
  const AxisTriggerRight: nat := 5

  /** An SDL_GameController handle as SDL returns it. */
  type Handle = nat

  /** The controller events `read` looks at; every other SDL event is
      queued too but changes nothing. Axis and button numbers are SDL's
      unsigned 8-bit fields, raw axis values its signed 16-bit ones. */
  datatype Event =
    | AxisMotion(axis: nat, value: int)
    | ButtonDown(button: nat)
    | ButtonUp(button: nat)
    | OtherEvent

  // ---------------------------------------------------------------------
  // One event
  // ---------------------------------------------------------------------

  /** The raw value after the deadzone: `v = 0` when `abs(v) < DEADZONE`. */
  function Filtered(v: int): (f: int)
    ensures -Deadzone < v < Deadzone ==> f == 0
    ensures v <= -Deadzone || Deadzone <= v ==> f == v
  {
    if -Deadzone < v < Deadzone then 0 else v
  }

  /** The value stored in `axes`: the filtered value over 32767. */
  function Scaled(v: int): (s: real)
    ensures s * AxisScale as real == Filtered(v) as real
  {
    Filtered(v) as real / AxisScale as real
  }

  /** The synthetic trigger button: 1 when the filtered value is positive. */
  function Pressed(v: int): (b: int)
    ensures b == 1 <==> Deadzone <= v
    ensures b == 0 <==> v < Deadzone
  {
    if Filtered(v) > 0 then 1 else 0
  }

  /** The arrays a device exposes: `axes` and `buttons`. */
  datatype Pads = Pads(axes: seq<real>, buttons: seq<int>)

  /** The value that `e` stores in `axes[a]`, if it stores one there. */
  function AxisWrite(e: Event, a: nat): (w: Option<real>)
    ensures w.Some? <==> e.AxisMotion? && e.axis == a
    ensures w.Some? ==> (w.value == 0.0 <==> -Deadzone < e.value < Deadzone)
  {
    if e.AxisMotion? && e.axis == a then Some(Scaled(e.value)) else None
  }

  /** The value that `e` stores in slot `b` of an `n`-slot `buttons` array,
      if it stores one there: the left trigger drives the last slot, the
      right trigger the one before it, button events their own slot. */
  function ButtonWrite(e: Event, n: nat, b: nat): (w: Option<int>)
    ensures w.Some? ==> w.value == 0 || w.value == 1
    ensures e.AxisMotion? && w.Some? ==>
      || (e.axis == AxisTriggerLeft && b + 1 == n)
      || (e.axis == AxisTriggerRight && b + 2 == n)
    ensures e.ButtonDown? || e.ButtonUp? ==> (w.Some? <==> b == e.button)
    ensures e.ButtonDown? && w.Some? ==> w.value == 1
    ensures e.ButtonUp? && w.Some? ==> w.value == 0
  {
    match e
    case AxisMotion(a, v) =>
      if a == AxisTriggerLeft && b == n - 1 then Some(Pressed(v))
      else if a == AxisTriggerRight && b == n - 2 then Some(Pressed(v))
      else None
    case ButtonDown(x) => if x == b then Some(1) else None
    case ButtonUp(x) => if x == b then Some(0) else None
    case OtherEvent => None
  }

  function Written<T>(w: Option<T>, otherwise: T): T
  {
    if w.Some? then w.value else otherwise
  }

  /** Whether every list index `e` uses exists; otherwise Python raises
      IndexError (a device that was never opened has empty lists). */
  predicate IndicesExist(p: Pads, e: Event): (ok: bool)
    ensures |p.axes| == AxisMax && |p.buttons| == ButtonMax + 2 ==>
      (ok <==> && (e.AxisMotion? ==> e.axis < AxisMax)
               && (e.ButtonDown? || e.ButtonUp? ==> e.button < ButtonMax + 2))
  {
    match e
    case AxisMotion(a, _) =>
      && a < |p.axes|
      && (a == AxisTriggerLeft ==> 1 <= |p.buttons|)
      && (a == AxisTriggerRight ==> 2 <= |p.buttons|)
    case ButtonDown(b) => b < |p.buttons|
    case ButtonUp(b) => b < |p.buttons|
    case OtherEvent => true
  }

  /** One iteration of the loop in `_JS.read`. An IndexError keeps the axis
      already written when the trigger slot is missing. */
  function ApplyEvent(p: Pads, e: Event): (r: Run<Pads>)
    ensures |r.state.axes| == |p.axes| && |r.state.buttons| == |p.buttons|
    ensures r.Completed? <==> IndicesExist(p, e)
    ensures r.Aborted? ==> r.exc == IndexError
    ensures r.Completed? ==>
      && (forall a :: 0 <= a < |p.axes| ==> r.state.axes[a] == Written(AxisWrite(e, a), p.axes[a]))
      && (forall b :: 0 <= b < |p.buttons| ==>
            r.state.buttons[b] == Written(ButtonWrite(e, |p.buttons|, b), p.buttons[b]))
  {
    match e
    case AxisMotion(a, v) =>
      if a >= |p.axes| then Aborted(p, IndexError)
      else
        var p1 := p.(axes := p.axes[a := Scaled(v)]);
        var n := |p.buttons|;
        if a == AxisTriggerLeft then
          if n < 1 then Aborted(p1, IndexError)
          else Completed(p1.(buttons := p.buttons[n - 1 := Pressed(v)]))
        else if a == AxisTriggerRight then
          if n < 2 then Aborted(p1, IndexError)
          else Completed(p1.(buttons := p.buttons[n - 2 := Pressed(v)]))
        else Completed(p1)
    case ButtonDown(b) =>
      if b < |p.buttons| then Completed(p.(buttons := p.buttons[b := 1])) else Aborted(p, IndexError)
    case ButtonUp(b) =>
      if b < |p.buttons| then Completed(p.(buttons := p.buttons[b := 0])) else Aborted(p, IndexError)
    case OtherEvent => Completed(p)
  }

  // ---------------------------------------------------------------------
  // Draining the queue
  // ---------------------------------------------------------------------

  /** What `_JS.read` leaves behind: the arrays, the events still queued,
      and the exception that ended it, if any. */
  datatype Drained = Drained(pads: Pads, pending: seq<Event>, raised: Option<Exception>)

  /** `_JS.read`: the queued events applied first to last. The event that
      raises has already been taken off the queue. */
  function Drain(p: Pads, queue: seq<Event>): (r: Drained)
    ensures |r.pads.axes| == |p.axes| && |r.pads.buttons| == |p.buttons|
    ensures r.raised.None? ==> r.pending == []
    ensures r.raised.Some? ==> r.raised.value == IndexError && |r.pending| < |queue|
    ensures r.pending == queue[|queue| - |r.pending|..]
    decreases |queue|
  {
    if queue == [] then Drained(p, [], None)
    else match ApplyEvent(p, queue[0])
      case Aborted(p', e) => Drained(p', queue[1..], Some(e))
      case Completed(p') => Drain(p', queue[1..])
  }

  /** `read` raises exactly when some queued event uses a missing index in
      the state the earlier events left; on an opened device it never does. */
  lemma {:induction false} DrainOpenedNeverRaises(p: Pads, queue: seq<Event>)
    requires |p.axes| == AxisMax && |p.buttons| == ButtonMax + 2
    requires forall j :: 0 <= j < |queue| ==> IndicesExist(p, queue[j])
    ensures Drain(p, queue).raised.None?
    decreases |queue|
  {
    if queue != [] {
      var p' := ApplyEvent(p, queue[0]).state;
      forall j | 0 <= j < |queue[1..]|
        ensures IndicesExist(p', queue[1..][j])
      {
        assert queue[1..][j] == queue[j + 1];
      }
      DrainOpenedNeverRaises(p', queue[1..]);
    }
  }

  /** An axis that no queued event writes keeps its value. */
  lemma {:induction false} DrainAxisUntouched(p: Pads, queue: seq<Event>, a: nat)
    requires a < |p.axes|
    requires forall j :: 0 <= j < |queue| ==> AxisWrite(queue[j], a).None?
    ensures Drain(p, queue).pads.axes[a] == p.axes[a]
    decreases |queue|
  {
    if queue != [] {
      var step := ApplyEvent(p, queue[0]);
      assert AxisWrite(queue[0], a).None?;
      if step.Completed? {
        var rest := queue[1..];
        forall j | 0 <= j < |rest|
          ensures AxisWrite(rest[j], a).None?
        {
          assert rest[j] == queue[j + 1];
        }
        DrainAxisUntouched(step.state, rest, a);
      }
    }
  }

  /** After a read that raises nothing, each axis holds what the last
      event for that axis wrote: the last event wins. */
  lemma {:induction false} DrainAxisLastWins(p: Pads, queue: seq<Event>, i: nat, a: nat)
    requires a < |p.axes|
    requires Drain(p, queue).raised.None?
    requires i < |queue| && AxisWrite(queue[i], a).Some?
    requires forall j :: i < j < |queue| ==> AxisWrite(queue[j], a).None?
    ensures Drain(p, queue).pads.axes[a] == AxisWrite(queue[i], a).value
    decreases |queue|
  {
    var step := ApplyEvent(p, queue[0]);
    assert step.Completed?;
    var rest := queue[1..];
    assert Drain(p, queue) == Drain(step.state, rest);
    if i == 0 {
      assert step.state.axes[a] == AxisWrite(queue[0], a).value;
      forall j | 0 <= j < |rest|
        ensures AxisWrite(rest[j], a).None?
      {
        assert rest[j] == queue[j + 1];
      }
      DrainAxisUntouched(step.state, rest, a);
    } else {
      forall j | i - 1 < j < |rest|
        ensures AxisWrite(rest[j], a).None?
      {
        assert rest[j] == queue[j + 1];
      }
      assert rest[i - 1] == queue[i];
      DrainAxisLastWins(step.state, rest, i - 1, a);
    }
  }

  /** A button slot that no queued event writes keeps its value. */
  lemma {:induction false} DrainButtonUntouched(p: Pads, queue: seq<Event>, b: nat)
    requires b < |p.buttons|
    requires forall j :: 0 <= j < |queue| ==> ButtonWrite(queue[j], |p.buttons|, b).None?
    ensures Drain(p, queue).pads.buttons[b] == p.buttons[b]
    decreases |queue|
  {
    if queue != [] {
      var step := ApplyEvent(p, queue[0]);
      assert ButtonWrite(queue[0], |p.buttons|, b).None?;
      if step.Completed? {
        var rest := queue[1..];
        forall j | 0 <= j < |rest|
          ensures ButtonWrite(rest[j], |p.buttons|, b).None?
        {
          assert rest[j] == queue[j + 1];
        }
        DrainButtonUntouched(step.state, rest, b);
      }
    }
  }

  /** After a read that raises nothing, each button slot holds what the
      last event for that slot wrote. */
  lemma {:induction false} DrainButtonLastWins(p: Pads, queue: seq<Event>, i: nat, b: nat)
    requires b < |p.buttons|
    requires Drain(p, queue).raised.None?
    requires i < |queue| && ButtonWrite(queue[i], |p.buttons|, b).Some?
    requires forall j :: i < j < |queue| ==> ButtonWrite(queue[j], |p.buttons|, b).None?
    ensures Drain(p, queue).pads.buttons[b] == ButtonWrite(queue[i], |p.buttons|, b).value
    decreases |queue|
  {
    var step := ApplyEvent(p, queue[0]);
    assert step.Completed?;
    var rest := queue[1..];
    assert Drain(p, queue) == Drain(step.state, rest);
    if i == 0 {
      assert step.state.buttons[b] == ButtonWrite(queue[0], |p.buttons|, b).value;
      forall j | 0 <= j < |rest|
        ensures ButtonWrite(rest[j], |p.buttons|, b).None?
      {
        assert rest[j] == queue[j + 1];
      }
      DrainButtonUntouched(step.state, rest, b);
    } else {
      forall j | i - 1 < j < |rest|
        ensures ButtonWrite(rest[j], |p.buttons|, b).None?
      {
        assert rest[j] == queue[j + 1];
      }
      assert rest[i - 1] == queue[i];
      DrainButtonLastWins(step.state, rest, i - 1, b);
    }
  }

  /** On an opened device the two trigger slots are `BUTTON_MAX` and
      `BUTTON_MAX + 1`, so axis motion never writes a real button, and a
      real button's events never write a trigger slot. */
  lemma TriggerSlotsApart(e: Event, b: nat)
    requires b < ButtonMax
    ensures e.AxisMotion? ==> ButtonWrite(e, ButtonMax + 2, b).None?
    ensures e.AxisMotion? && e.axis == AxisTriggerLeft ==> ButtonWrite(e, ButtonMax + 2, ButtonMax + 1).Some?
    ensures e.AxisMotion? && e.axis == AxisTriggerRight ==> ButtonWrite(e, ButtonMax + 2, ButtonMax).Some?
    ensures (e.ButtonDown? || e.ButtonUp?) && e.button < ButtonMax ==>
      ButtonWrite(e, ButtonMax + 2, ButtonMax).None? && ButtonWrite(e, ButtonMax + 2, ButtonMax + 1).None?
  {
  }

  /** For SDL's 16-bit raw values the stored axis value lies in [-1, 1],
      except for -32768, which is stored as -32768/32767, just below -1;
      inside the deadzone it is 0. */
  lemma ScaledRange(v: int)
    requires -32768 <= v <= 32767
    ensures -Deadzone < v < Deadzone <==> Scaled(v) == 0.0
    ensures v != -32768 ==> -1.0 <= Scaled(v) <= 1.0
    ensures v == -32768 ==> Scaled(v) < -1.0
  {
  }

  // ---------------------------------------------------------------------
  // One device
  // ---------------------------------------------------------------------

  /** `_JS`: one input device and its event queue. */
  class Joystick {
    var axes: array<real>
    var buttons: array<int>
    var handle: Option<Handle>
    const index: nat
    /** `_name`, the controller's name as listed (not `_JS.name`, which is
        the module name). */
    const deviceName: string
    var queue: seq<Event>

    function State(): Pads
      reads this, axes, buttons
    {
      Pads(axes[..], buttons[..])
    }

    constructor (index: nat, deviceName: string)
      ensures this.index == index && this.deviceName == deviceName
      ensures handle.None? && queue == [] && axes.Length == 0 && buttons.Length == 0
      ensures fresh(axes) && fresh(buttons)
    {
      this.index := index;
      this.deviceName := deviceName;
      handle := None;
      queue := [];
      axes := new real[0];
      buttons := new int[0];
    }

    /** `_JS.open`: keeps the handle SDL returns (None when it returns
        NULL) and replaces both arrays by zeros, two more buttons than SDL
        has for the triggers. Queued events are kept. */
    method Open(h: Option<Handle>)
      modifies this
      ensures handle == h && queue == old(queue)
      ensures fresh(axes) && fresh(buttons)
      ensures axes[..] == seq(AxisMax, _ => 0.0)
      ensures buttons[..] == seq(ButtonMax + 2, _ => 0)
    {
      handle := h;
      axes := new real[AxisMax](_ => 0.0);
      buttons := new int[ButtonMax + 2](_ => 0);
    }

    /** `_JS.close`: returns the handle given to `SDL_GameControllerClose`,
        if there was one, and forgets it; the arrays and the queue stay. */
    method Close() returns (released: Option<Handle>)
      modifies this`handle
      ensures handle.None? && released == old(handle)
    {
      released := handle;
      handle := None;
    }

    /** `_JS.add_event`. */
    method AddEvent(e: Event)
      modifies this`queue
      ensures queue == old(queue) + [e]
    {
      queue := queue + [e];
    }

    /** One pass of the loop in `_JS.read`: the event taken off the queue
        written into the arrays. */
    method HandleEvent(e: Event) returns (r: Result<()>)
      modifies axes, buttons
      ensures var run := ApplyEvent(old(State()), e);
        && State() == run.state
        && (r.Ok? <==> run.Completed?)
        && (r.Raise? ==> r.exc == run.exc)
    {
      match e {
        case AxisMotion(a, raw) =>
          if a >= axes.Length {
            return Raise(IndexError);
          }
          var v := if -Deadzone < raw < Deadzone then 0 else raw;
          axes[a] := v as real / AxisScale as real;
          if a == AxisTriggerLeft {
            if buttons.Length < 1 {
              return Raise(IndexError);
            }
            buttons[buttons.Length - 1] := if v > 0 then 1 else 0;
          }
          if a == AxisTriggerRight {
            if buttons.Length < 2 {
              return Raise(IndexError);
            }
            buttons[buttons.Length - 2] := if v > 0 then 1 else 0;
          }
        case ButtonDown(b) =>
          if b >= buttons.Length {
            return Raise(IndexError);
          }
          buttons[b] := 1;
        case ButtonUp(b) =>
          if b >= buttons.Length {
            return Raise(IndexError);
          }
          buttons[b] := 0;
        case OtherEvent =>
      }
      return Ok(());
    }

    /** `_JS.read`: drains the queue into the arrays and returns them (the
        lists themselves, not copies). */
    method Read() returns (r: Result<(array<real>, array<int>)>)
      modifies this`queue, axes, buttons
      ensures var d := Drain(old(State()), old(queue));
        && State() == d.pads
        && queue == d.pending
        && (r.Ok? <==> d.raised.None?)
        && (r.Raise? ==> d.raised == Some(r.exc))
        && (r.Ok? ==> r.value == (axes, buttons))
    {
      while queue != []
        invariant Drain(State(), queue) == Drain(old(State()), old(queue))
        decreases |queue|
      {
        var e := queue[0];
        queue := queue[1..];
        var handled := HandleEvent(e);
        if handled.Raise? {
          return Raise(handled.exc);
        }
      }
      return Ok((axes, buttons));
    }
  }

  // ---------------------------------------------------------------------
  // Device enumeration
  // ---------------------------------------------------------------------

  /** An entry of `devices()`: `{"id": sdl_index, "name": name}`. */
  datatype Device = Device(id: nat, name: string)

  function NamesOf(ds: seq<Device>): (names: seq<string>)
    ensures |names| == |ds| && forall i :: 0 <= i < |ds| ==> names[i] == ds[i].name
  {
    seq(|ds|, i requires 0 <= i < |ds| => ds[i].name)
  }

  lemma NamesOfAppend(ds: seq<Device>, d: Device)
    ensures NamesOf(ds + [d]) == NamesOf(ds) + [d.name]
  {
  }

  /** The name a controller is listed under: a name already listed `k`
      times becomes `"name #(k+1)"`. The count is taken over the names as
      listed, suffixes included. */
  function Deduplicated(listed: seq<string>, name: string): (r: string)
    ensures StartsWith(r, name)
    ensures r == name <==> name !in listed
  {
    var k := Count(listed, name);
    if k > 0 then name + " #" + NatToString(k + 1) else name
  }

  /** A name listed before is followed by ` #` and digits that read back
      as one more than the times it was listed. */
  lemma DeduplicatedReadsBack(listed: seq<string>, name: string)
    requires name in listed
    ensures var r := Deduplicated(listed, name);
      && |name| + 2 < |r|
      && r[..|name| + 2] == name + " #"
      && (forall i :: |name| + 2 <= i < |r| ==> IsDigit(r[i]))
      && DecimalValue(r[|name| + 2..]) == Count(listed, name) + 1
  {
    var r := Deduplicated(listed, name);
    var digits := NatToString(Count(listed, name) + 1);
    assert r == (name + " #") + digits;
    assert r[|name| + 2..] == digits;
    NatToStringRoundTrip(Count(listed, name) + 1);
  }

  /** The same name counted a different number of times is listed under
      different names. */
  lemma DeduplicatedCountsDiffer(listed1: seq<string>, listed2: seq<string>, name: string)
    requires Count(listed1, name) != Count(listed2, name)
    ensures Deduplicated(listed1, name) != Deduplicated(listed2, name)
  {
    if name in listed1 && name in listed2 {
      DeduplicatedReadsBack(listed1, name);
      DeduplicatedReadsBack(listed2, name);
    }
  }

  /** The loop of `devices()` over what SDL reports for the joysticks
      0 .. n-1: the name of each, or None where SDL returns NULL (a joystick
      that is not a game controller), on which `.decode` raises
      AttributeError. `if not SDL_IsGameController` tests the function
      itself, which is always true, so no index is skipped. */
  function Enumerate(sdlNames: seq<Option<string>>): (r: Run<seq<Device>>)
    ensures |r.state| <= |sdlNames|
    ensures r.Completed? <==> |r.state| == |sdlNames|
    ensures r.Aborted? ==> sdlNames[|r.state|].None? && r.exc == AttributeError
    decreases |sdlNames|
  {
    if sdlNames == [] then Completed([])
    else
      var n := |sdlNames| - 1;
      match Enumerate(sdlNames[..n])
      case Aborted(ds, e) => Aborted(ds, e)
      case Completed(ds) =>
        match sdlNames[n]
        case None => Aborted(ds, AttributeError)
        case Some(name) =>
          Completed(ds + [Device(n, Deduplicated(NamesOf(ds), name))])
  }

  /** Entry `j` of the list is joystick `j`, which SDL named; a name
      already listed `k` times is listed as `"name #(k+1)"`, any other
      under its own name. */
  lemma {:induction false} EnumerateEntry(sdlNames: seq<Option<string>>, j: nat)
    requires j < |Enumerate(sdlNames).state|
    ensures var ds := Enumerate(sdlNames).state;
      && sdlNames[j].Some?
      && ds[j].id == j
      && ds[j].name == Deduplicated(NamesOf(ds[..j]), sdlNames[j].value)
    decreases |sdlNames|
  {
    var n := |sdlNames| - 1;
    var prefix := sdlNames[..n];
    var prev := Enumerate(prefix).state;
    var ds := Enumerate(sdlNames).state;
    EnumerateExtends(sdlNames);
    if j < |prev| {
      EnumerateEntry(prefix, j);
      assert prefix[j] == sdlNames[j];
      assert ds[..j] == ds[..|prev|][..j];
    } else {
      assert ds[..j] == prev;
    }
  }

  /** Looking at one more joystick keeps the devices listed so far and
      lists at most one more: the next index, under its deduplicated name. */
  lemma EnumerateExtends(sdlNames: seq<Option<string>>)
    requires sdlNames != []
    ensures var n := |sdlNames| - 1;
      var prev := Enumerate(sdlNames[..n]).state;
      var ds := Enumerate(sdlNames).state;
      && |prev| <= |ds| <= |prev| + 1
      && ds[..|prev|] == prev
      && (|ds| == |prev| + 1 ==>
            && |prev| == n && sdlNames[n].Some?
            && ds[n] == Device(n, Deduplicated(NamesOf(prev), sdlNames[n].value)))
  {
    var n := |sdlNames| - 1;
    match Enumerate(sdlNames[..n])
    case Aborted(_, _) =>
    case Completed(prev) =>
      if sdlNames[n].Some? {
        assert Enumerate(sdlNames).state[..|prev|] == prev;
      }
  }

  /** One more joystick with a name extends a completed enumeration by one
      device. */
  lemma EnumerateStep(sdlNames: seq<Option<string>>, i: nat, ds: seq<Device>)
    requires i < |sdlNames| && sdlNames[i].Some?
    requires Enumerate(sdlNames[..i]) == Completed(ds)
    ensures Enumerate(sdlNames[..i + 1]) ==
      Completed(ds + [Device(i, Deduplicated(NamesOf(ds), sdlNames[i].value))])
  {
    assert sdlNames[..i + 1][..i] == sdlNames[..i];
  }

  /** Once an enumeration prefix has raised, the rest of the joysticks are
      not looked at. */
  lemma {:induction false} EnumerateStopsAtFirstNull(sdlNames: seq<Option<string>>, i: nat)
    requires i <= |sdlNames|
    requires Enumerate(sdlNames[..i]).Aborted?
    ensures Enumerate(sdlNames) == Enumerate(sdlNames[..i])
    decreases |sdlNames| - i
  {
    if i < |sdlNames| {
      var n := |sdlNames| - 1;
      assert sdlNames[..n][..i] == sdlNames[..i];
      EnumerateStopsAtFirstNull(sdlNames[..n], i);
    } else {
      assert sdlNames[..i] == sdlNames;
    }
  }

  /** A joystick SDL gives no name for ends a completed enumeration. */
  lemma EnumerateNull(sdlNames: seq<Option<string>>, i: nat, ds: seq<Device>)
    requires i < |sdlNames| && sdlNames[i].None?
    requires Enumerate(sdlNames[..i]) == Completed(ds)
    ensures Enumerate(sdlNames) == Aborted(ds, AttributeError)
  {
    assert sdlNames[..i + 1][..i] == sdlNames[..i];
    EnumerateStopsAtFirstNull(sdlNames, i + 1);
  }

  /** Controllers whose names all differ are listed under their own names. */
  lemma {:induction false} DistinctNamesKept(sdlNames: seq<Option<string>>)
    requires forall j :: 0 <= j < |sdlNames| ==> sdlNames[j].Some?
    requires forall i, j :: 0 <= i < j < |sdlNames| ==> sdlNames[i] != sdlNames[j]
    ensures var r := Enumerate(sdlNames);
      r.Completed? && NamesOf(r.state) == seq(|sdlNames|, j requires 0 <= j < |sdlNames| => sdlNames[j].value)
    decreases |sdlNames|
  {
    if sdlNames != [] {
      var n := |sdlNames| - 1;
      DistinctNamesKept(sdlNames[..n]);
    }
  }

  /** As written, a third controller with the same name is listed under
      the same name as the second: the count is taken over names that
      already carry their suffix. */
  lemma ThirdDuplicateRepeatsSecond()
    ensures var pad := Some("pad");
      Enumerate([pad, pad, pad]) ==
        Completed([Device(0, "pad"), Device(1, "pad #2"), Device(2, "pad #2")])
  {
    var pad: Option<string> := Some("pad");
    assert [pad][..0] == [];
    assert Enumerate([pad][..0]) == Completed([]);
    assert NamesOf([]) == [];
    assert Deduplicated([], "pad") == "pad";
    assert [] + [Device(0, "pad")] == [Device(0, "pad")];
    assert Enumerate([pad]) == Completed([Device(0, "pad")]);
    assert [pad, pad][..1] == [pad];
    assert Enumerate([pad, pad][..1]) == Completed([Device(0, "pad")]);
    assert NamesOf([Device(0, "pad")]) == ["pad"];
    assert Count(["pad"], "pad") == 1 by {
      assert ["pad"][..0] == [];
    }
    assert NatToString(2) == "2";
    assert Deduplicated(["pad"], "pad") == "pad #2";
    assert [Device(0, "pad")] + [Device(1, "pad #2")] == [Device(0, "pad"), Device(1, "pad #2")];
    assert Enumerate([pad, pad]) == Completed([Device(0, "pad"), Device(1, "pad #2")]);
    assert [pad, pad, pad][..2] == [pad, pad];
    assert Enumerate([pad, pad, pad][..2]) == Completed([Device(0, "pad"), Device(1, "pad #2")]);
    assert NamesOf([Device(0, "pad"), Device(1, "pad #2")]) == ["pad", "pad #2"];
    assert Count(["pad", "pad #2"], "pad") == 1 by {
      assert ["pad", "pad #2"][..1] == ["pad"];
      assert "pad #2" != "pad";
    }
    assert Deduplicated(["pad", "pad #2"], "pad") == "pad #2";
    assert [Device(0, "pad"), Device(1, "pad #2")] + [Device(2, "pad #2")]
      == [Device(0, "pad"), Device(1, "pad #2"), Device(2, "pad #2")];
  }

  // ---------------------------------------------------------------------
  // The reader
  // ---------------------------------------------------------------------

  /** `SDL2GameController`: the devices found, one `_JS` per SDL index, and
      the enable flag of the event dispatcher thread. */
  class GameController {
    var js: map<nat, Joystick>
    var devices: seq<Device>
    var dispatcherEnabled: bool

    /** There is a `_JS` exactly for the indices listed, device `k` is
        SDL index `k`, and no two indices share a `_JS` or its arrays. */
    ghost predicate Valid()
      reads this, js.Values
    {
      && (forall k: nat :: k in js <==> k < |devices|)
      && (forall k :: 0 <= k < |devices| ==> devices[k].id == k)
      && Separate()
    }

    /** Each `_JS` is its own object with its own arrays. */
    ghost predicate Separate()
      reads this, js.Values
    {
      forall i, j :: i in js && j in js && i != j ==>
        && js[i] != js[j]
        && js[i].axes != js[j].axes
        && js[i].buttons != js[j].buttons
    }

    constructor ()
      ensures Valid()
      ensures js == map[] && devices == [] && !dispatcherEnabled
    {
      js := map[];
      devices := [];
      dispatcherEnabled := false;
    }

    /** `open`: enables the dispatcher, then opens the device; an unknown
        id raises KeyError after the dispatcher has been enabled. */
    method Open(deviceId: nat, h: Option<Handle>) returns (r: Result<()>)
      requires Valid()
      modifies this, if deviceId in js then {js[deviceId]} else {}
      ensures Valid() && dispatcherEnabled && js == old(js) && devices == old(devices)
      ensures r.Ok? <==> deviceId < |devices|
      ensures r.Ok? <==> deviceId in js
      ensures r.Raise? ==> r.exc == KeyError
      ensures r.Ok? ==>
        && js[deviceId].handle == h
        && js[deviceId].queue == old(js[deviceId].queue)
        && fresh(js[deviceId].axes) && fresh(js[deviceId].buttons)
        && js[deviceId].State() == Pads(seq(AxisMax, _ => 0.0), seq(ButtonMax + 2, _ => 0))
      ensures forall k :: k in js && k != deviceId ==>
        && js[k].handle == old(js[k].handle) && js[k].queue == old(js[k].queue)
        && js[k].State() == old(js[k].State())
    {
      dispatcherEnabled := true;
      if deviceId !in js {
        return Raise(KeyError);
      }
      js[deviceId].Open(h);
      return Ok(());
    }

    /** `close`: disables the dispatcher, then closes the device, giving
        back the handle released, if any. */
    method Close(deviceId: nat) returns (r: Result<Option<Handle>>)
      requires Valid()
      modifies this, if deviceId in js then {js[deviceId]} else {}
      ensures Valid() && !dispatcherEnabled && js == old(js) && devices == old(devices)
      ensures r.Ok? <==> deviceId < |devices|
      ensures r.Ok? <==> deviceId in js
      ensures r.Raise? ==> r.exc == KeyError
      ensures r.Ok? ==> js[deviceId].handle.None? && r.value == old(js[deviceId].handle)
      ensures r.Ok? ==>
        && js[deviceId].axes == old(js[deviceId].axes) && js[deviceId].buttons == old(js[deviceId].buttons)
        && js[deviceId].queue == old(js[deviceId].queue)
      ensures forall k :: k in js && k != deviceId ==>
        && js[k].handle == old(js[k].handle) && js[k].queue == old(js[k].queue)
        && js[k].State() == old(js[k].State())
    {
      dispatcherEnabled := false;
      if deviceId !in js {
        return Raise(KeyError);
      }
      var released := js[deviceId].Close();
      return Ok(released);
    }

    /** `read`. */
    method Read(deviceId: nat) returns (r: Result<(array<real>, array<int>)>)
      requires Valid()
      modifies if deviceId in js then {js[deviceId], js[deviceId].axes, js[deviceId].buttons} else {}
      ensures Valid()
      ensures deviceId !in js <==> |devices| <= deviceId
      ensures deviceId !in js ==> r == Raise(KeyError)
      ensures deviceId in js ==>
        var j := js[deviceId];
        var d := Drain(old(j.State()), old(j.queue));
        && j.handle == old(j.handle) && j.axes == old(j.axes) && j.buttons == old(j.buttons)
        && j.State() == d.pads
        && j.queue == d.pending
        && (r.Ok? <==> d.raised.None?)
        && (r.Raise? ==> d.raised == Some(r.exc))
        && (r.Ok? ==> r.value == (j.axes, j.buttons))
      ensures forall k :: k in js && k != deviceId ==>
        && js[k].handle == old(js[k].handle) && js[k].queue == old(js[k].queue)
        && js[k].State() == old(js[k].State())
    {
      if deviceId !in js {
        return Raise(KeyError);
      }
      r := js[deviceId].Read();
    }

    /** `_dispatch_events`: appends the event to its device's queue. */
    method DispatchEvent(deviceId: nat, e: Event) returns (r: Result<()>)
      requires Valid()
      modifies if deviceId in js then {js[deviceId]} else {}
      ensures Valid()
      ensures r.Ok? <==> deviceId in js
      ensures r.Ok? <==> deviceId < |devices|
      ensures r.Raise? ==> r.exc == KeyError
      ensures r.Ok? ==>
        && js[deviceId].queue == old(js[deviceId].queue) + [e]
        && js[deviceId].handle == old(js[deviceId].handle)
        && js[deviceId].axes == old(js[deviceId].axes)
        && js[deviceId].buttons == old(js[deviceId].buttons)
      ensures forall k :: k in js && k != deviceId ==>
        && js[k].handle == old(js[k].handle) && js[k].queue == old(js[k].queue)
        && js[k].State() == old(js[k].State())
    {
      if deviceId !in js {
        return Raise(KeyError);
      }
      js[deviceId].AddEvent(e);
      return Ok(());
    }

    /** `devices`: while the list is empty, lists the joysticks SDL reports
        (`sdlNames`, one entry per index, as `SDL_NumJoysticks` and
        `SDL_GameControllerNameForIndex` give them) and makes a `_JS` for
        each; once it holds a device, returns it unchanged. */
    method Devices(sdlNames: seq<Option<string>>) returns (r: Result<seq<Device>>)
      requires Valid()
      modifies this
      ensures Valid() && dispatcherEnabled == old(dispatcherEnabled)
      ensures old(devices) != [] ==> devices == old(devices) && js == old(js) && r == Ok(devices)
      ensures old(devices) == [] ==>
        var run := Enumerate(sdlNames);
        && devices == run.state
        && (r.Ok? <==> run.Completed?)
        && (r.Ok? ==> r.value == devices)
        && (r.Raise? ==> r.exc == run.exc)
      ensures old(devices) == [] ==>
        && (forall k: nat :: k in js <==> k in old(js) || k < |devices|)
        && (forall k :: 0 <= k < |devices| ==> fresh(js[k]))
        && forall k :: 0 <= k < |devices| ==> Listed(k, devices[k].name)
    {
      if |devices| == 0 {
        r := ListDevices(sdlNames);
        if r.Raise? {
          return;
        }
      }
      return Ok(devices);
    }

    /** The enumeration `devices` does while its list is empty. */
    method ListDevices(sdlNames: seq<Option<string>>) returns (r: Result<seq<Device>>)
      requires Valid() && devices == []
      modifies this
      ensures Valid()
      ensures dispatcherEnabled == old(dispatcherEnabled)
      ensures var run := Enumerate(sdlNames);
        && devices == run.state
        && (r.Ok? <==> run.Completed?)
        && (r.Ok? ==> r.value == devices)
        && (r.Raise? ==> r.exc == run.exc)
      ensures forall k: nat :: k in js <==> k in old(js) || k < |devices|
      ensures forall k :: 0 <= k < |devices| ==> devices[k].id == k
      ensures forall k :: 0 <= k < |devices| ==> fresh(js[k])
      ensures forall k :: 0 <= k < |devices| ==> Listed(k, devices[k].name)
    {
      var names: seq<string> := [];
      var i := 0;
      while i < |sdlNames| && sdlNames[i].Some?
        invariant i == |devices| <= |sdlNames|
        invariant Enumerate(sdlNames[..i]) == Completed(devices)
        invariant names == NamesOf(devices)
        invariant dispatcherEnabled == old(dispatcherEnabled)
        invariant Listing()
        invariant forall k :: 0 <= k < |devices| ==> fresh(js[k])
      {
        var name := Deduplicated(names, sdlNames[i].value);
        names := names + [name];
        NamesOfAppend(devices, Device(i, name));
        EnumerateStep(sdlNames, i, devices);
        AddDevice(name);
        i := i + 1;
      }
      if i < |sdlNames| {
        EnumerateNull(sdlNames, i, devices);
        r := Raise(AttributeError);
      } else {
        assert sdlNames[..i] == sdlNames;
        r := Ok(devices);
      }
    }

    /** The invariant, with every `_JS` still as `devices` made it. */
    ghost predicate Listing()
      reads this, js.Values
    {
      && Valid()
      && forall k :: 0 <= k < |devices| ==> Listed(k, devices[k].name)
    }

    /** The `_JS` listed under `k` was made for index `k` under `name`
        and is still as made: empty lists, no handle, nothing queued. */
    ghost predicate Listed(k: nat, name: string)
      reads this, js.Values
    {
      && k in js && js[k].index == k && js[k].deviceName == name
      && js[k].axes.Length == 0 && js[k].buttons.Length == 0
      && js[k].queue == [] && js[k].handle.None?
    }

    /** The end of one pass of the loop in `devices`: the device listed
        under its chosen name and its `_JS` made. */
    method AddDevice(name: string)
      requires Listing()
      modifies this
      ensures Listing()
      ensures devices == old(devices) + [Device(|old(devices)|, name)]
      ensures dispatcherEnabled == old(dispatcherEnabled)
      ensures js.Keys == old(js).Keys + {|old(devices)|}
      ensures forall k :: k in old(js) && k != |old(devices)| ==> js[k] == old(js[k])
      ensures fresh(js[|old(devices)|])
      ensures forall k :: 0 <= k < |devices| ==> Listed(k, devices[k].name)
    {
      var i := |devices|;
      devices := devices + [Device(i, name)];
      var j := new Joystick(i, name);
      js := js[i := j];
      forall k | 0 <= k < |devices|
        ensures Listed(k, devices[k].name)
      {
        if k < i {
          assert devices[k] == old(devices)[k] && js[k] == old(js[k]);
        }
      }
    }
  }
}
