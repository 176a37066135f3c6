/** The three modes of the daemon and the two pipelines it runs in them
    (src/modes/mod.rs): `configure` (discovery, indicator reset, pairing,
    capture) and `operate` (one forwarding pass). */
module Modes {
  import opened Evdev
  import opened Environment
  import opened Procon
  import opened Configuring
  import opened Operating

  datatype ProconMode = OperatingMode | ConfiguringMode | DormantMode

  /** The text the mode is shown as. */
  function Display(m: ProconMode): string
  {
    match m
    case OperatingMode => "operating as usual"
    case ConfiguringMode => "configuring controllers"
    case DormantMode => "dormant, no controllers connected"
  }

  /** Each mode is shown by its own text, so the text tells the mode. */
  lemma DisplayIsInjective(a: ProconMode, b: ProconMode)
    ensures Display(a) == Display(b) <==> a == b
  {
    if a != b {
      assert |Display(a)| != |Display(b)|;
    }
  }

  // ---------------------------------------------------------------------------
  // The indicator reset of every discovered device (lines 31-37)
  // ---------------------------------------------------------------------------

  /** The calls made by setting each device's indicator to 0 in order, the
      first becoming log entry `at`; failures are only reported, so every
      device is attempted whatever happened to the earlier ones. */
  function ResetSpec(h: Host, devices: seq<Device>, at: nat): seq<Effect>
    requires forall d :: d in devices ==> NameFits(d)
  {
    if devices == [] then []
    else
      var done := ResetSpec(h, devices[..|devices| - 1], at);
      done + SetLedSpec(h, devices[|devices| - 1], 0, at + |done|).effects
  }

  /** The reset writes indicator files only, at most one per device. */
  lemma {:induction false} ResetWritesOnlyIndicators(h: Host, devices: seq<Device>, at: nat)
    requires forall d :: d in devices ==> NameFits(d)
    ensures |ResetSpec(h, devices, at)| <= |devices|
    ensures forall i :: 0 <= i < |ResetSpec(h, devices, at)| ==> ResetSpec(h, devices, at)[i].LedWrite?
    decreases |devices|
  {
    if devices != [] {
      var init := devices[..|devices| - 1];
      assert forall d :: d in init ==> d in devices;
      ResetWritesOnlyIndicators(h, init, at);
    }
  }

  /** When every device has an indicator directory, the write for device i
      is the one `set_led(device, 0)` makes as log entry `at + i`, whether or
      not the earlier writes failed. */
  lemma {:induction false} ResetWritesEveryDevice(h: Host, devices: seq<Device>, at: nat)
    requires forall d :: d in devices ==> NameFits(d) && ProcBase(d).Some?
    ensures |ResetSpec(h, devices, at)| == |devices|
    ensures forall i :: 0 <= i < |devices| ==>
              [ResetSpec(h, devices, at)[i]] == SetLedSpec(h, devices[i], 0, at + i).effects
    decreases |devices|
  {
    if devices != [] {
      var n := |devices| - 1;
      var init := devices[..n];
      assert forall d :: d in init ==> d in devices;
      ResetWritesEveryDevice(h, init, at);
      var prev := ResetSpec(h, init, at);
      assert devices[n] in devices;
      var s := ResetSpec(h, devices, at);
      assert s == prev + SetLedSpec(h, devices[n], 0, at + n).effects;
      forall i | 0 <= i < |devices|
        ensures [s[i]] == SetLedSpec(h, devices[i], 0, at + i).effects
      {
        if i < n {
          assert devices[i] == init[i];
        }
      }
    }
  }

  /** `devices.iter().for_each(|device| set_led(device, 0))`, the errors only
      reported. */
  method ResetLeds(host: Host, devices: seq<Device>)
    requires forall d :: d in devices ==> NameFits(d)
    modifies host
    ensures host.log == old(host.log) + ResetSpec(host, devices, |old(host.log)|)
  {
    ghost var at := |host.log|;
    var i := 0;
    while i < |devices|
      invariant i <= |devices|
      invariant host.log == old(host.log) + ResetSpec(host, devices[..i], at)
    {
      assert devices[..i + 1][..i] == devices[..i];
      assert forall d :: d in devices[..i] ==> d in devices;
      var ignored := ProController.SetLed(host, devices[i], 0);
      i := i + 1;
    }
    assert devices[..i] == devices;
  }

  // ---------------------------------------------------------------------------
  // The two pipelines
  // ---------------------------------------------------------------------------

  /** No call releases a captured device. */
  predicate NoReleaseCalls(effects: seq<Effect>)
  {
    forall i :: 0 <= i < |effects| ==> !(effects[i].GrabCall? && effects[i].mode == Ungrab)
  }

  /** How the pairing and the capture end, against the plan of the pairing
      whose calls start at log entry `at`: the pairing's calls are the plan's;
      a plan that stalls or fails is the result and nothing is captured; a plan
      that pairs every device forms `units` from the plan's devices, the
      capture pass over them follows, and its failure is the result. */
  predicate Captured(h: Host, plan: PairPlan, at: nat, r: Pairing, units: seq<ProController>, pairing: seq<Effect>, grabs: seq<Effect>)
  {
    && pairing == plan.effects
    && (plan.end.PairStalled? ==> r == Stalled && grabs == [])
    && (plan.end.PairFailed? ==> r == Failed(plan.end.error) && grabs == [])
    && (plan.end.AllPaired? ==>
          var o := GrabPass(h, units, Grab, at + |pairing|);
          && UnitPairs(units) == plan.pairs
          && grabs == o.effects
          && r == (if o.result.Ok? then Formed(units) else Failed(o.result.error)))
  }

  /** The bounds on the two stages: nothing to pair means no units and no
      call; the pairing makes no capture call and the capture makes only
      capture calls; a stall captures nothing; the only errors are the host's;
      and a success forms units that cover the devices exactly, with player
      numbers in order, and the capture pass that starts at log entry `at`
      makes one call per member and succeeds; a failed capture of a right
      device does not fail that pass. */
  ghost predicate StageBounds(h: Host, devices: seq<Device>, at: nat, r: Pairing, pairing: seq<Effect>, grabs: seq<Effect>)
    reads set c: ProController | r.Formed? && c in r.units
  {
    && (devices == [] ==> r == Formed([]) && pairing == grabs == [])
    && NoGrabCalls(pairing)
    && (forall i :: 0 <= i < |grabs| ==> grabs[i].GrabCall? && grabs[i].mode == Grab)
    && (r.Stalled? ==> grabs == [])
    && (r.Failed? ==> r.error == Os || r.error == NotFound)
    && (r.Formed? ==>
          && SameDevices(AllMembers(r.units), devices)
          && (forall k :: 0 <= k < |r.units| ==> WellFormedUnit(r.units[k], k))
          && var o := GrabPass(h, r.units, Grab, at + |pairing|);
             grabs == o.effects && o.result.Ok? && |grabs| == |AllMembers(r.units)|)
  }

  /** Everything the pairing and the capture of `devices`, whose calls start
      at log entry `at`, promise: `plan` is the pairing's plan, `Captured`
      relates it to the result, and `StageBounds` holds. */
  ghost predicate PairedAndCaptured(h: Host, devices: seq<Device>, passes: seq<Pass>, at: nat, r: Pairing,
                                    plan: PairPlan, units: seq<ProController>, pairing: seq<Effect>, grabs: seq<Effect>)
    requires forall d :: d in devices ==> NameFits(d)
    reads set c: ProController | r.Formed? && c in r.units
  {
    && plan == PairingSpec(h, devices, passes, 0, 0, at)
    && Captured(h, plan, at, r, units, pairing, grabs)
    && StageBounds(h, devices, at, r, pairing, grabs)
  }

  /** `configure`: discovery, then the indicator reset of every discovered
      device, then the pairing, then the capture of every unit. The calls of
      the three later stages are `resets`, `pairing` and `grabs`, in that
      order. An error of discovery is returned and skips every call; after a
      successful discovery the reset writes only indicators, its failures do
      not stop the pairing, and `PairedAndCaptured` holds of the rest.
      Nothing discovered means no units, and no call at all. */
  method Configure(host: Host, dir: Res<seq<DirEntry>>, passes: seq<Pass>)
    returns (r: Pairing, devices: seq<Device>, ghost plan: PairPlan, ghost units: seq<ProController>,
             ghost resets: seq<Effect>, ghost pairing: seq<Effect>, ghost grabs: seq<Effect>)
    requires dir.Ok? ==> forall d :: d in Discover(dir.value) ==> NameFits(d)
    modifies host
    ensures host.log == old(host.log) + resets + pairing + grabs
    ensures dir.Err? ==> r == Failed(dir.error) && resets == pairing == grabs == []
    ensures dir.Ok? ==> devices == Discover(dir.value)
    ensures dir.Ok? ==> resets == ResetSpec(host, devices, |old(host.log)|) && NoGrabCalls(resets)
    ensures dir.Ok? ==> PairedAndCaptured(host, devices, passes, |old(host.log)| + |resets|, r, plan, units, pairing, grabs)
    ensures dir.Ok? && devices == [] ==> resets == []
  {
    devices, plan, units, resets, pairing, grabs := [], PairPlan([], [], AllPaired), [], [], [], [];
    if dir.Err? {
      return Failed(dir.error), devices, plan, units, resets, pairing, grabs;
    }
    devices := Discover(dir.value);
    ResetLeds(host, devices);
    resets := ResetSpec(host, devices, |old(host.log)|);
    ResetWritesOnlyIndicators(host, devices, |old(host.log)|);
    r, plan, units, pairing, grabs := PairAndCapture(host, devices, passes, |old(host.log)| + |resets|);
    Regroup(old(host.log), resets, pairing);
  }

  /** The last two stages of `configure`: the pairing of the devices, whose
      error skips the capture, then the capture of every unit formed. */
  method PairAndCapture(host: Host, devices: seq<Device>, passes: seq<Pass>, ghost at: nat)
    returns (r: Pairing, ghost plan: PairPlan, ghost units: seq<ProController>, ghost pairing: seq<Effect>, ghost grabs: seq<Effect>)
    requires forall d :: d in devices ==> NameFits(d)
    requires at == |host.log|
    modifies host
    ensures host.log == old(host.log) + pairing + grabs
    ensures PairedAndCaptured(host, devices, passes, at, r, plan, units, pairing, grabs)
  {
    plan := PairingSpec(host, devices, passes, 0, 0, at);
    var made := MakePairings(host, devices, passes);
    pairing := host.log[|old(host.log)|..];
    units, grabs := [], [];
    assert host.log == old(host.log) + pairing;
    if !made.Formed? {
      return made, plan, units, pairing, grabs;
    }
    units := made.units;
    ghost var mid := |host.log|;
    var grabbed := GrabAllControllers(host, made.units);
    GrabPassBounds(host, made.units, mid);
    grabs := GrabPass(host, made.units, Grab, mid).effects;
    if grabbed.Err? {
      return Failed(grabbed.error), plan, units, pairing, grabs;
    }
    r := made;
  }

  /** A capture pass makes only capture calls, one per member when it
      succeeds, and fails only with the host's error. */
  lemma GrabPassBounds(h: Host, units: seq<ProController>, at: nat)
    ensures var o := GrabPass(h, units, Grab, at);
      && (forall i :: 0 <= i < |o.effects| ==> o.effects[i].GrabCall? && o.effects[i].mode == Grab)
      && (o.result.Ok? ==> |o.effects| == |AllMembers(units)|)
      && (o.result.Err? ==> o.result.error == Os)
  {
    GrabPassCalls(h, units, Grab, at);
    GrabPassResult(h, units, Grab, at);
  }

  /** `operate`: one forwarding pass, whose result it returns. */
  method Operate(units: seq<ProController>, envs: seq<TickEnv>) returns (r: Res<()>)
    requires |envs| == |units| && Distinct(units)
    modifies set c | c in units
    ensures var k := FirstFailedTick(units, envs);
      && (r.Ok? <==> k == |units|)
      && (r.Err? ==> r == TickSpec(units[k].right.Some?, envs[k]).result)
      && (forall i :: 0 <= i < |units| && i <= k ==>
            units[i].emitted == old(units[i].emitted) + TickSpec(units[i].right.Some?, envs[i]).emitted)
      && (forall i :: k < i < |units| ==> units[i].emitted == old(units[i].emitted))
    ensures forall i :: 0 <= i < |units| ==> units[i].playerId == old(units[i].playerId)
  {
    r := EmulateSingle(units, envs);
  }
}
