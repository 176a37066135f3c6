/** One logical controller (src/procon/mod.rs): one or two physical devices merged
    into one uinput virtual device, its player indicator, exclusive capture of its
    physical devices, and the relay of one event per device per tick. */
module Procon {
  import opened Evdev
  import opened Environment

  // ---------------------------------------------------------------------------
  // Decimal rendering of the player index (`format!("{}", player_led)`)
  // ---------------------------------------------------------------------------

  predicate IsDigit(c: char)
  {
    '0' <= c <= '9'
  }

  predicate AllDigits(s: string)
  {
    forall i :: 0 <= i < |s| ==> IsDigit(s[i])
  }

  function DigitChar(d: nat): (c: char)
    requires d < 10
    ensures IsDigit(c) && c as int - '0' as int == d
  {
    ('0' as int + d) as char
  }

  /** The decimal digits of `n`, most significant first, without leading zeros. */
  function Decimal(n: nat): (s: string)
    ensures 1 <= |s| && AllDigits(s)
    ensures |s| > 1 ==> s[0] != '0'
    ensures n < 10 <==> |s| == 1
    decreases n
  {
    if n < 10 then [DigitChar(n)] else Decimal(n / 10) + [DigitChar(n % 10)]
  }

  /** The number a string of decimal digits denotes. */
  function DecimalValue(s: string): nat
    requires AllDigits(s)
  {
    if s == [] then 0
    else DecimalValue(s[..|s| - 1]) * 10 + (s[|s| - 1] as int - '0' as int)
  }

  /** Reading back the rendered digits gives the number that was rendered. */
  lemma {:induction false} DecimalRoundTrip(n: nat)
    ensures DecimalValue(Decimal(n)) == n
    decreases n
  {
    if n >= 10 {
      var s := Decimal(n);
      assert s[..|s| - 1] == Decimal(n / 10);
      DecimalRoundTrip(n / 10);
    }
  }

  /** A `u8` player index is rendered with one to three digits. */
  lemma {:induction false} ByteDecimalLength(n: u8)
    ensures |Decimal(n)| <= 3
  {
    if n >= 10 {
      assert Decimal(n) == Decimal(n / 10) + [DigitChar(n % 10)];
      assert |Decimal(n / 10)| <= 2 by {
        if n / 10 >= 10 {
          assert n / 100 < 10;
          assert Decimal(n / 10) == Decimal(n / 100) + [DigitChar((n / 10) % 10)];
        }
      }
    }
  }

  // ---------------------------------------------------------------------------
  // Indicator path (`get_proc_base`) and indicator writes (`set_led`)
  // ---------------------------------------------------------------------------

  const LEFT_JOYCON_PREFIX := "Nintendo Switch Left JoyCon [controller "
  const RIGHT_JOYCON_PREFIX := "Nintendo Switch Right JoyCon [controller "
  const PROCON_PREFIX := "Nintendo Switch ProCon [controller "
  const PROC_BASE_PREFIX := "/proc/procon/controller"
  const LED_FILE := "/led"

  /** The length of the driver's name prefix of a recognised product. */
  function PrefixLength(product: u16): nat
  {
    if product == PRODUCT_LEFT_JOYCON then 40 else if product == PRODUCT_RIGHT_JOYCON then 41 else 35
  }

  /** The driver's name prefix for each recognised product. */
  function NamePrefix(product: u16): (p: string)
    requires product == PRODUCT_LEFT_JOYCON || product == PRODUCT_RIGHT_JOYCON || product == PRODUCT_PROCON
    ensures |p| == PrefixLength(product)
  {
    if product == PRODUCT_LEFT_JOYCON then LEFT_JOYCON_PREFIX
    else if product == PRODUCT_RIGHT_JOYCON then RIGHT_JOYCON_PREFIX
    else PROCON_PREFIX
  }

  /** The name is long enough for the slice `get_proc_base` takes of it (shorter
      names make the slice panic). Devices outside the identity set are never sliced. */
  predicate NameFits(d: Device)
  {
    Recognized(d.vendor, d.product) && d.name.Some? ==> |d.name.value| >= PrefixLength(d.product) + 1
  }

  /** The driver directory of the device: the name with the product's prefix and
      the last character cut off, after "/proc/procon/controller". The prefix text
      itself is not compared. */
  function ProcBase(d: Device): (r: Option<string>)
    requires NameFits(d)
    ensures r.Some? <==> Recognized(d.vendor, d.product) && d.name.Some?
    ensures r.Some? ==> r.value == PROC_BASE_PREFIX + d.name.value[PrefixLength(d.product)..|d.name.value| - 1]
  {
    if d.vendor == VENDOR_NINTENDO && d.name.Some? && d.product == PRODUCT_LEFT_JOYCON then
      Some(PROC_BASE_PREFIX + d.name.value[|LEFT_JOYCON_PREFIX|..|d.name.value| - 1])
    else if d.vendor == VENDOR_NINTENDO && d.name.Some? && d.product == PRODUCT_RIGHT_JOYCON then
      Some(PROC_BASE_PREFIX + d.name.value[|RIGHT_JOYCON_PREFIX|..|d.name.value| - 1])
    else if d.vendor == VENDOR_NINTENDO && d.name.Some? && d.product == PRODUCT_PROCON then
      Some(PROC_BASE_PREFIX + d.name.value[|PROCON_PREFIX|..|d.name.value| - 1])
    else
      None
  }

  /** For a name in the driver's format, prefix + index + "]", the directory is
      the controller directory of that index. */
  lemma DriverNameGivesIndexDirectory(d: Device, index: string)
    requires Recognized(d.vendor, d.product)
    requires d.name == Some(NamePrefix(d.product) + index + "]")
    ensures NameFits(d)
    ensures ProcBase(d) == Some(PROC_BASE_PREFIX + index)
  {
    var name := d.name.value;
    var k := |NamePrefix(d.product)|;
    assert name[k..|name| - 1] == index;
  }

  /** The prefix is never checked: two names of one length that differ only in
      their first |prefix| characters give the same directory. */
  lemma ProcBaseIgnoresPrefixText(d: Device, e: Device)
    requires Recognized(d.vendor, d.product) && d.vendor == e.vendor && d.product == e.product
    requires d.name.Some? && e.name.Some? && |d.name.value| == |e.name.value|
    requires NameFits(d)
    requires d.name.value[|NamePrefix(d.product)|..] == e.name.value[|NamePrefix(d.product)|..]
    ensures NameFits(e) && ProcBase(e) == ProcBase(d)
  {
    var k := |NamePrefix(d.product)|;
    var n := |d.name.value|;
    assert d.name.value[k..n - 1] == d.name.value[k..][..n - 1 - k];
    assert e.name.value[k..n - 1] == e.name.value[k..][..n - 1 - k];
  }

  /** The calls one operation made, in order, and what it returned. */
  datatype Outcome = Outcome(effects: seq<Effect>, result: Res<()>)

  /** `set_led`, with its call becoming log entry `at`: no directory gives
      NotFound and no call; otherwise one write of the decimal index to the
      directory's "led" file, whose failure is returned. */
  function SetLedSpec(h: Host, d: Device, led: u8, at: nat): Outcome
    requires NameFits(d)
  {
    match ProcBase(d)
    case None => Outcome([], Err(NotFound))
    case Some(base) =>
      Outcome([LedWrite(base + LED_FILE, Decimal(led), h.CallOk(at))], if h.CallOk(at) then Ok(()) else Err(Os))
  }

  /** What an indicator write puts in the file reads back as the player index,
      and it goes to "led" under the device's driver directory. */
  lemma SetLedWritesIndex(h: Host, d: Device, led: u8, at: nat)
    requires NameFits(d)
    ensures var o := SetLedSpec(h, d, led, at);
      && (ProcBase(d).None? <==> o.effects == [])
      && (ProcBase(d).None? ==> o.result == Err(NotFound))
      && (o.effects != [] ==>
            && |o.effects| == 1 && o.effects[0].LedWrite?
            && o.effects[0].path == ProcBase(d).value + LED_FILE
            && AllDigits(o.effects[0].text) && DecimalValue(o.effects[0].text) == led
            && (o.result.Ok? <==> o.effects[0].ok))
  {
    DecimalRoundTrip(led);
  }

  /** `set_all_leds`: the left device first; the right one only if it exists and
      the left write succeeded. */
  function AllLedsSpec(h: Host, left: Device, right: Option<Device>, led: u8, at: nat): Outcome
    requires NameFits(left) && (right.Some? ==> NameFits(right.value))
  {
    var l := SetLedSpec(h, left, led, at);
    if l.result.Err? || right.None? then l
    else
      var r := SetLedSpec(h, right.value, led, at + |l.effects|);
      Outcome(l.effects + r.effects, r.result)
  }

  /** `set_all_leds` succeeds exactly when every device it may write has an
      indicator directory and every write succeeds, and then it made one write
      per device, left first, each of the decimal index. */
  lemma AllLedsOutcome(h: Host, left: Device, right: Option<Device>, led: u8, at: nat)
    requires NameFits(left) && (right.Some? ==> NameFits(right.value))
    ensures var o := AllLedsSpec(h, left, right, led, at);
      && (o.result.Ok? <==>
            && ProcBase(left).Some? && h.CallOk(at)
            && (right.Some? ==> ProcBase(right.value).Some? && h.CallOk(at + 1)))
      && (o.result.Ok? ==>
            o.effects == [LedWrite(ProcBase(left).value + LED_FILE, Decimal(led), true)]
                         + (if right.Some? then [LedWrite(ProcBase(right.value).value + LED_FILE, Decimal(led), true)] else []))
      && (ProcBase(left).None? ==> o == Outcome([], Err(NotFound)))
  {
  }

  /** The calls of an operation include no grab or release. */
  predicate NoGrabCalls(effects: seq<Effect>)
  {
    forall i :: 0 <= i < |effects| ==> !effects[i].GrabCall?
  }

  lemma NoGrabCallsAppend(a: seq<Effect>, b: seq<Effect>)
    requires NoGrabCalls(a) && NoGrabCalls(b)
    ensures NoGrabCalls(a + b)
  {
    assert forall i :: 0 <= i < |a + b| ==> (a + b)[i] == if i < |a| then a[i] else b[i - |a|];
  }

  lemma AllLedsNoGrabCalls(h: Host, left: Device, right: Option<Device>, led: u8, at: nat)
    requires NameFits(left) && (right.Some? ==> NameFits(right.value))
    ensures NoGrabCalls(AllLedsSpec(h, left, right, led, at).effects)
  {
  }

  // ---------------------------------------------------------------------------
  // The virtual device's capability record (`from`)
  // ---------------------------------------------------------------------------

  datatype AbsInfo = AbsInfo(minimum: int, maximum: int, fuzz: int, flat: int, value: int, resolution: int)

  datatype VirtualDevice = VirtualDevice(
    name: string, bustype: u16, vendor: u16, product: u16,
    keys: seq<int>, axes: seq<(int, AbsInfo)>)

  const STICK_MAX := 32767
  const STICK_FUZZ := 1000
  const STICK_FLAT := 2000

  const HAT_INFO := AbsInfo(-1, 1, 0, 0, 0, 0)
  const STICK_INFO := AbsInfo(-STICK_MAX, STICK_MAX, STICK_FUZZ, STICK_FLAT, 0, 0)

  predicate IsHat(axis: int)
  {
    axis == ABS_HAT0X || axis == ABS_HAT0Y
  }

  /** The eleven buttons the virtual device enables. */
  predicate IsButton(k: int)
  {
    k == BTN_NORTH || k == BTN_SOUTH || k == BTN_EAST || k == BTN_WEST || k == BTN_START || k == BTN_SELECT
    || k == BTN_MODE || k == BTN_TR || k == BTN_TL || k == BTN_TR2 || k == BTN_TL2
  }

  /** The six axes the virtual device configures. */
  predicate IsAxis(a: int)
  {
    IsHat(a) || a == ABS_X || a == ABS_Y || a == ABS_RX || a == ABS_RY
  }

  /** The capability record built by `from`: eleven distinct buttons, six
      distinct axes, the hats in [-1, 1] and the sticks in [-32767, 32767] with
      fuzz 1000 and flat 2000, the bus of the left device, and no vendor or product. */
  function VirtualFor(left: Device): (v: VirtualDevice)
    ensures v.vendor == 0 && v.product == 0 && v.bustype == left.bustype
    ensures |v.keys| == 11 && (forall i :: 0 <= i < |v.keys| ==> IsButton(v.keys[i]))
    ensures forall i, j :: 0 <= i < j < |v.keys| ==> v.keys[i] != v.keys[j]
    ensures |v.axes| == 6 && (forall i :: 0 <= i < |v.axes| ==> IsAxis(v.axes[i].0))
    ensures forall i, j :: 0 <= i < j < |v.axes| ==> v.axes[i].0 != v.axes[j].0
    ensures forall i :: 0 <= i < |v.axes| ==> v.axes[i].1 == (if IsHat(v.axes[i].0) then HAT_INFO else STICK_INFO)
  {
    VirtualDevice(
      "ProConD Virtual Controller", left.bustype, 0, 0,
      [BTN_NORTH, BTN_SOUTH, BTN_EAST, BTN_WEST, BTN_START, BTN_SELECT, BTN_MODE,
       BTN_TR, BTN_TL, BTN_TR2, BTN_TL2],
      [(ABS_HAT0X, HAT_INFO), (ABS_HAT0Y, HAT_INFO),
       (ABS_X, STICK_INFO), (ABS_Y, STICK_INFO), (ABS_RX, STICK_INFO), (ABS_RY, STICK_INFO)])
  }

  // ---------------------------------------------------------------------------
  // Exclusive capture (`grab`, `ungrab`)
  // ---------------------------------------------------------------------------

  /** `grab` or `ungrab` on one unit, the first call becoming log entry `at`:
      the left device is called, and the right one if it exists and the left
      call succeeded. A left failure is returned; a right failure is returned
      when releasing and only reported when grabbing. */
  function UnitGrabSpec(h: Host, left: Device, right: Option<Device>, mode: GrabMode, at: nat): Outcome
  {
    if !h.CallOk(at) then Outcome([GrabCall(left.handle, mode, false)], Err(Os))
    else if right.None? then Outcome([GrabCall(left.handle, mode, true)], Ok(()))
    else
      Outcome([GrabCall(left.handle, mode, true), GrabCall(right.value.handle, mode, h.CallOk(at + 1))],
              if mode == Ungrab && !h.CallOk(at + 1) then Err(Os) else Ok(()))
  }

  /** A unit's calls are `mode` calls on its members, left first, one per member
      unless the left call failed; the result is an error exactly when the left
      call failed or, when releasing, the right one did. */
  lemma UnitGrabCalls(h: Host, left: Device, right: Option<Device>, mode: GrabMode, at: nat)
    ensures var o := UnitGrabSpec(h, left, right, mode, at);
      && 1 <= |o.effects| <= 2
      && o.effects[0] == GrabCall(left.handle, mode, h.CallOk(at))
      && (|o.effects| == 2 <==> h.CallOk(at) && right.Some?)
      && (|o.effects| == 2 ==> o.effects[1] == GrabCall(right.value.handle, mode, h.CallOk(at + 1)))
      && (o.result.Ok? <==> h.CallOk(at) && (mode == Ungrab && right.Some? ==> h.CallOk(at + 1)))
      && (o.result.Err? ==> o.result.error == Os)
  {
  }

  /** The asymmetry of the two policies: when the right device refuses, a grab of
      the unit still succeeds but a release of it fails. */
  lemma GrabReleaseAsymmetry(h: Host, left: Device, right: Device, at: nat)
    requires h.CallOk(at) && !h.CallOk(at + 1)
    ensures UnitGrabSpec(h, left, Some(right), Grab, at).result == Ok(())
    ensures UnitGrabSpec(h, left, Some(right), Ungrab, at).result == Err(Os)
    ensures UnitGrabSpec(h, left, Some(right), Grab, at).effects[1] == GrabCall(right.handle, Grab, false)
  {
  }

  // ---------------------------------------------------------------------------
  // One forwarding tick (`parse_single_event`)
  // ---------------------------------------------------------------------------

  /** What the environment does during one tick: the next event (or error) of
      each physical device, how many writes the virtual device accepts before one
      fails, and the wall clock, if it can be read. */
  datatype TickEnv = TickEnv(leftRead: Res<InputEvent>, rightRead: Res<InputEvent>, accepted: nat, clock: Option<TimeVal>)

  datatype Tick = Tick(emitted: seq<InputEvent>, result: Res<()>)

  function SynReport(t: TimeVal): InputEvent
  {
    InputEvent(t, EvSyn(SYN_REPORT), 0)
  }

  predicate ReadsOk(hasRight: bool, env: TickEnv)
  {
    env.leftRead.Ok? && (hasRight ==> env.rightRead.Ok?)
  }

  /** The events read in a tick, left first, to be relayed verbatim. */
  function Relays(hasRight: bool, env: TickEnv): seq<InputEvent>
    requires ReadsOk(hasRight, env)
  {
    [env.leftRead.value] + (if hasRight then [env.rightRead.value] else [])
  }

  /** The calls of `from`, the first becoming log entry `at`: the virtual
      device is created, then both indicators are set to 0; the first failure
      ends the sequence and is the result. */
  function FromSpec(h: Host, left: Device, right: Option<Device>, at: nat): Outcome
    requires NameFits(left) && (right.Some? ==> NameFits(right.value))
  {
    if !h.CallOk(at) then Outcome([CreateUinput(left.bustype, false)], Err(Os))
    else
      var leds := AllLedsSpec(h, left, right, 0, at + 1);
      Outcome([CreateUinput(left.bustype, true)] + leds.effects, leds.result)
  }

  /** One tick of one unit: both reads before any write; then the relays in
      order; then the clock; then the SYN_REPORT. The first failure ends it. */
  function TickSpec(hasRight: bool, env: TickEnv): (t: Tick)
    ensures !ReadsOk(hasRight, env) ==> t.emitted == [] && t.result.Err?
    ensures t.result.Ok? <==> ReadsOk(hasRight, env) && env.clock.Some? && env.accepted > |Relays(hasRight, env)|
    ensures t.result.Ok? ==> t.emitted == Relays(hasRight, env) + [SynReport(env.clock.value)]
    ensures ReadsOk(hasRight, env) && env.clock.None? && env.accepted >= |Relays(hasRight, env)| ==>
              t == Tick(Relays(hasRight, env), Err(Other))
    ensures ReadsOk(hasRight, env) ==> t.emitted <= Relays(hasRight, env) + (if env.clock.Some? then [SynReport(env.clock.value)] else [])
  {
    if env.leftRead.Err? then Tick([], Err(env.leftRead.error))
    else if hasRight && env.rightRead.Err? then Tick([], Err(env.rightRead.error))
    else
      var relays := Relays(hasRight, env);
      if env.accepted < |relays| then Tick(relays[..env.accepted], Err(Os))
      else if env.clock.None? then Tick(relays, Err(Other))
      else if env.accepted == |relays| then Tick(relays, Err(Os))
      else Tick(relays + [SynReport(env.clock.value)], Ok(()))
  }

  // ---------------------------------------------------------------------------
  // The controller object
  // ---------------------------------------------------------------------------

  class ProController {
    const left: Device
    const right: Option<Device>
    const virtualDevice: VirtualDevice
    var playerId: u8
    /** The events written to the virtual device so far, in order. */
    var emitted: seq<InputEvent>

    /** The indicator paths of both devices can be computed without a panic. */
    predicate NamesFit()
    {
      NameFits(left) && (right.Some? ==> NameFits(right.value))
    }

    /** `ProController::new`. */
    constructor (left: Device, right: Option<Device>, virtualDevice: VirtualDevice, playerId: u8)
      ensures this.left == left && this.right == right && this.virtualDevice == virtualDevice
      ensures this.playerId == playerId && emitted == []
    {
      this.left := left;
      this.right := right;
      this.virtualDevice := virtualDevice;
      this.playerId := playerId;
      emitted := [];
    }

    /** `ProController::from`: creates the virtual device, then sets both
        indicators to 0; a failure of either step is returned. */
    static method From(host: Host, left: Device, right: Option<Device>) returns (r: Res<ProController>)
      requires NameFits(left) && (right.Some? ==> NameFits(right.value))
      modifies host
      ensures host.log == old(host.log) + FromSpec(host, left, right, |old(host.log)|).effects
      ensures r.Ok? <==> FromSpec(host, left, right, |old(host.log)|).result.Ok?
      ensures r.Err? ==> r.error == FromSpec(host, left, right, |old(host.log)|).result.error
      ensures r.Ok? ==> && fresh(r.value) && r.value.left == left && r.value.right == right
                        && r.value.virtualDevice == VirtualFor(left)
                        && r.value.playerId == 0 && r.value.emitted == []
    {
      var created := host.CreateDevice(left.bustype);
      if !created {
        return Err(Os);
      }
      var controller := new ProController(left, right, VirtualFor(left), 0);
      var leds := controller.SetAllLeds(host, controller.playerId);
      if leds.Err? {
        return Err(leds.error);
      }
      r := Ok(controller);
    }

    /** `set_led`. */
    static method SetLed(host: Host, device: Device, playerLed: u8) returns (r: Res<()>)
      requires NameFits(device)
      modifies host
      ensures host.log == old(host.log) + SetLedSpec(host, device, playerLed, |old(host.log)|).effects
      ensures r == SetLedSpec(host, device, playerLed, |old(host.log)|).result
    {
      var base := ProcBase(device);
      if base.None? {
        return Err(NotFound);
      }
      var ok := host.WriteFile(base.value + LED_FILE, Decimal(playerLed));
      r := if ok then Ok(()) else Err(Os);
    }

    /** `set_all_leds`. */
    method SetAllLeds(host: Host, playerLed: u8) returns (r: Res<()>)
      requires NamesFit()
      modifies host
      ensures host.log == old(host.log) + AllLedsSpec(host, left, right, playerLed, |old(host.log)|).effects
      ensures r == AllLedsSpec(host, left, right, playerLed, |old(host.log)|).result
    {
      r := SetLed(host, left, playerLed);
      if r.Err? {
        return;
      }
      if right.Some? {
        r := SetLed(host, right.value, playerLed);
      }
    }

    /** `set_player_id`: the id is assigned before the indicators are written, so
        it holds the new value even when the write fails. */
    method SetPlayerId(host: Host, newId: u8) returns (r: Res<()>)
      requires NamesFit()
      modifies this`playerId, host
      ensures playerId == newId
      ensures host.log == old(host.log) + AllLedsSpec(host, left, right, newId, |old(host.log)|).effects
      ensures r == AllLedsSpec(host, left, right, newId, |old(host.log)|).result
    {
      playerId := newId;
      r := SetAllLeds(host, playerId);
    }

    /** `grab`: a failure on the left device is returned; one on the right
        device is only reported, and the result is still Ok. */
    method Grab(host: Host) returns (r: Res<()>)
      modifies host
      ensures host.log == old(host.log) + UnitGrabSpec(host, left, right, GrabMode.Grab, |old(host.log)|).effects
      ensures r == UnitGrabSpec(host, left, right, GrabMode.Grab, |old(host.log)|).result
    {
      var ok := host.GrabDevice(left.handle, GrabMode.Grab);
      if !ok {
        return Err(Os);
      }
      if right.Some? {
        var rightOk := host.GrabDevice(right.value.handle, GrabMode.Grab);
      }
      r := Ok(());
    }

    /** `ungrab`: a failure on either device is returned; after a failure on the
        left device the right one is not attempted. */
    method Ungrab(host: Host) returns (r: Res<()>)
      modifies host
      ensures host.log == old(host.log) + UnitGrabSpec(host, left, right, GrabMode.Ungrab, |old(host.log)|).effects
      ensures r == UnitGrabSpec(host, left, right, GrabMode.Ungrab, |old(host.log)|).result
    {
      var ok := host.GrabDevice(left.handle, GrabMode.Ungrab);
      if !ok {
        return Err(Os);
      }
      if right.Some? {
        ok := host.GrabDevice(right.value.handle, GrabMode.Ungrab);
        if !ok {
          return Err(Os);
        }
      }
      r := Ok(());
    }

    /** `parse_single_event`. */
    method ParseSingleEvent(env: TickEnv) returns (r: Res<()>)
      modifies this`emitted
      ensures emitted == old(emitted) + TickSpec(right.Some?, env).emitted
      ensures r == TickSpec(right.Some?, env).result
    {
      if env.leftRead.Err? {
        return Err(env.leftRead.error);
      }
      var leftEvent := env.leftRead.value;
      var rightEvent: Option<InputEvent> := None;
      if right.Some? {
        if env.rightRead.Err? {
          return Err(env.rightRead.error);
        }
        rightEvent := Some(env.rightRead.value);
      }
      // Each write_event succeeds while the virtual device still accepts writes.
      var written := 0;
      if written >= env.accepted {
        return Err(Os);
      }
      emitted, written := emitted + [leftEvent], written + 1;
      if rightEvent.Some? {
        if written >= env.accepted {
          return Err(Os);
        }
        emitted, written := emitted + [rightEvent.value], written + 1;
      }
      if env.clock.None? {
        return Err(Other);
      }
      if written >= env.accepted {
        return Err(Os);
      }
      emitted := emitted + [SynReport(env.clock.value)];
      r := Ok(());
    }
  }
}
