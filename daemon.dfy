/** The daemon's main loop (src/main.rs): the mode starts as configuring, and
    every iteration runs the branch of the current mode with a fresh, empty
    list of units. */
module Daemon {
  import opened Evdev
  import opened Environment
  import opened Procon
  import opened Configuring
  import opened Operating
  import opened Modes

  /** What the branch of one iteration observed: the result of `configure`,
      of `operate`, or of the discovery probe. */
  datatype Observation =
    | Configured(pairing: Pairing)
    | Operated(result: Res<()>)
    | Discovered(found: Res<seq<Device>>)

  /** The observation is the one the mode's branch makes. */
  predicate Matches(m: ProconMode, obs: Observation)
  {
    match m
    case ConfiguringMode => obs.Configured?
    case OperatingMode => obs.Operated?
    case DormantMode => obs.Discovered?
  }

  /** How an iteration ends: with the mode of the next one, with the error
      that ends `main`, or never, when the pairing waits for ever. */
  datatype Step = Continue(mode: ProconMode) | Stop(error: IoError) | Hang

  /** One iteration of the loop. */
  function Next(m: ProconMode, obs: Observation): Step
    requires Matches(m, obs)
  {
    match m
    case ConfiguringMode =>
      (match obs.pairing
       case Failed(e) => Stop(e)
       case Stalled => Hang
       case Formed(units) => if |units| == 0 then Continue(DormantMode) else Continue(OperatingMode))
    case OperatingMode =>
      if obs.result.Err? then Stop(obs.result.error) else Continue(OperatingMode)
    case DormantMode =>
      (match obs.found
       case Err(e) => Stop(e)
       case Ok(devices) => if |devices| > 0 then Continue(ConfiguringMode) else Continue(DormantMode))
  }

  /** The mode changes the loop can make. */
  predicate Allowed(m: ProconMode, n: ProconMode)
  {
    match m
    case ConfiguringMode => n == DormantMode || n == OperatingMode
    case OperatingMode => n == OperatingMode
    case DormantMode => n == ConfiguringMode || n == DormantMode
  }

  /** Every mode change of the loop is an allowed one. */
  lemma NextIsAllowed(m: ProconMode, obs: Observation)
    requires Matches(m, obs)
    ensures Next(m, obs).Continue? ==> Allowed(m, Next(m, obs).mode)
  {
  }

  /** Configuring goes dormant exactly when no unit was formed, and to
      operating exactly when some unit was. */
  lemma ConfiguringTransitions(p: Pairing)
    ensures Next(ConfiguringMode, Configured(p)) == Continue(DormantMode) <==> p.Formed? && |p.units| == 0
    ensures Next(ConfiguringMode, Configured(p)) == Continue(OperatingMode) <==> p.Formed? && |p.units| > 0
    ensures Next(ConfiguringMode, Configured(p)).Stop? <==> p.Failed?
    ensures p.Failed? ==> Next(ConfiguringMode, Configured(p)) == Stop(p.error)
    ensures Next(ConfiguringMode, Configured(p)) == Hang <==> p.Stalled?
  {
  }

  /** Operating never leaves operating: an iteration either stays or ends the
      loop with the pass's error. */
  lemma OperatingStays(obs: Observation)
    requires Matches(OperatingMode, obs)
    ensures Next(OperatingMode, obs) == Continue(OperatingMode) <==> obs.result.Ok?
    ensures Next(OperatingMode, obs) != Continue(OperatingMode) ==> Next(OperatingMode, obs) == Stop(obs.result.error)
  {
  }

  /** Dormant goes to configuring exactly when the probe finds a device, and
      stays dormant exactly when it finds none. */
  lemma DormantTransitions(found: Res<seq<Device>>)
    ensures Next(DormantMode, Discovered(found)) == Continue(ConfiguringMode) <==> found.Ok? && |found.value| > 0
    ensures Next(DormantMode, Discovered(found)) == Continue(DormantMode) <==> found == Ok([])
  {
  }

  /** A run of iterations: mode i observes obs[i] and leads to mode i + 1. */
  predicate Chained(modes: seq<ProconMode>, obs: seq<Observation>)
  {
    && |obs| >= |modes| - 1
    && forall i :: 0 <= i < |modes| - 1 ==> Matches(modes[i], obs[i]) && Next(modes[i], obs[i]) == Continue(modes[i + 1])
  }

  /** Once the loop is operating it is operating in every later iteration. */
  lemma {:induction false} OperatingIsAbsorbing(modes: seq<ProconMode>, obs: seq<Observation>, i: nat, j: nat)
    requires Chained(modes, obs)
    requires i <= j < |modes| && modes[i] == OperatingMode
    ensures modes[j] == OperatingMode
    decreases j - i
  {
    if i < j {
      assert Next(modes[i], obs[i]) == Continue(modes[i + 1]);
      OperatingIsAbsorbing(modes, obs, i + 1, j);
    }
  }

  /** The inputs of one iteration: the listing of the event-device directory
      and the scan passes the pairing would see. */
  datatype Round = Round(dir: Res<seq<DirEntry>>, passes: seq<Pass>)

  /** How the modelled run ends: `main` returns an error, the pairing waits
      for ever, or the given rounds are used up in some mode. */
  datatype RunEnd = Stopped(error: IoError) | Hung | RoundsUsed(mode: ProconMode)

  predicate DevicesFit(rounds: seq<Round>)
  {
    forall i, d :: 0 <= i < |rounds| && rounds[i].dir.Ok? && d in Discover(rounds[i].dir.value) ==> NameFits(d)
  }

  /** What the branch of mode `m` observes in a round whose calls start at
      log entry `at` of host `h`: an operating iteration
      passes an empty list to `operate`, so it succeeds; a dormant one
      observes the discovery of the round; a configuring one fails with the
      listing's error, forms no unit when the listing has no device of the
      identity set, and otherwise ends as `ConfigureRound` says. */
  ghost predicate Observed(h: Host, m: ProconMode, round: Round, at: nat, o: Observation)
    requires round.dir.Ok? ==> forall d :: d in Discover(round.dir.value) ==> NameFits(d)
  {
    && (m == OperatingMode ==> o.Operated? && o.result.Ok?)
    && (m == DormantMode ==> o == Discovered(GetDevices(round.dir)))
    && (m == ConfiguringMode && round.dir.Err? ==> o == Configured(Failed(round.dir.error)))
    && (m == ConfiguringMode && round.dir.Ok? && Discover(round.dir.value) == [] ==> o == Configured(Formed([])))
    && (m == ConfiguringMode && o.Configured? ==> ConfigureRound(h, round, at, o.pairing))
  }

  /** The log positions at which the rounds start: from `lo`, in order, and
      none past `hi`. */
  predicate StartsWithin(starts: seq<nat>, lo: nat, hi: nat)
  {
    && (|starts| > 0 ==> starts[0] == lo)
    && (forall i :: 0 <= i < |starts| ==> lo <= starts[i] <= hi)
    && (forall i :: 0 <= i < |starts| - 1 ==> starts[i] <= starts[i + 1])
  }

  /** How a pairing that follows `plan`, with calls from log entry `start`,
      ends once the capture has run: a stall or pairing error is the result;
      when every device is paired the result's units hold the plan's pairs,
      and the capture pass over those pairs decides between them and its
      error. */
  ghost predicate PlanEnds(h: Host, plan: PairPlan, start: nat, p: Pairing)
  {
    && (p.Stalled? <==> plan.end.PairStalled?)
    && (plan.end.PairFailed? ==> p == Failed(plan.end.error))
    && (p.Formed? ==> plan.end.AllPaired? && UnitPairs(p.units) == plan.pairs)
    && (plan.end.AllPaired? ==>
          var c := PairsPass(h, plan.pairs, Grab, start + |plan.effects|);
          && (p.Formed? <==> c.result.Ok?)
          && (p.Failed? ==> p.error == c.result.error))
  }

  /** The calls of such a pairing after `resets`: the plan's, then, when every
      device is paired, the capture pass's over the plan's pairs, and
      otherwise none. */
  ghost predicate PlanCalls(h: Host, plan: PairPlan, start: nat, resets: seq<Effect>, calls: seq<Effect>)
  {
    && resets + plan.effects <= calls
    && (!plan.end.AllPaired? ==> calls == resets + plan.effects)
    && (plan.end.AllPaired? ==>
          calls == resets + plan.effects + PairsPass(h, plan.pairs, Grab, start + |plan.effects|).effects)
  }

  /** How a configuring iteration whose calls start at log entry `at` ends
      after a successful discovery: the indicator reset of every device is
      followed, whatever failed, by the pairing of `PairingSpec` from the next
      log entry, and `PlanEnds` holds of it. */
  ghost predicate ConfigureRound(h: Host, round: Round, at: nat, p: Pairing)
    requires round.dir.Ok? ==> forall d :: d in Discover(round.dir.value) ==> NameFits(d)
  {
    round.dir.Ok? ==>
      var devices := Discover(round.dir.value);
      var start := at + |ResetSpec(h, devices, at)|;
      PlanEnds(h, PairingSpec(h, devices, round.passes, 0, 0, start), start, p)
  }

  /** The calls of such an iteration are the reset's followed by those of
      `PlanCalls`. */
  ghost predicate ConfigureCalls(h: Host, round: Round, at: nat, calls: seq<Effect>)
    requires round.dir.Ok? ==> forall d :: d in Discover(round.dir.value) ==> NameFits(d)
  {
    round.dir.Ok? ==>
      var devices := Discover(round.dir.value);
      var resets := ResetSpec(h, devices, at);
      var start := at + |resets|;
      PlanCalls(h, PairingSpec(h, devices, round.passes, 0, 0, start), start, resets, calls)
  }

  /** `main`, iteration k receiving `rounds[k]`. The modes start with
      configuring and follow `Next` on what each iteration observes; an
      operating iteration always passes an empty list to `operate`, so it
      always succeeds; a dormant one observes the discovery of its round; the
      loop ends only with an error or a pairing that waits for ever; and no
      call ever releases a device. */
  method Run(host: Host, rounds: seq<Round>)
    returns (end: RunEnd, ghost modes: seq<ProconMode>, ghost obs: seq<Observation>, ghost starts: seq<nat>)
    requires DevicesFit(rounds)
    modifies host
    ensures 1 <= |modes| <= |rounds| + 1 && modes[0] == ConfiguringMode
    ensures |modes| - 1 <= |obs| <= |modes| && |obs| <= |rounds| && Chained(modes, obs)
    ensures |starts| == |obs| && StartsWithin(starts, |old(host.log)|, |host.log|)
    ensures AllObserved(host, modes, rounds, starts, obs)
    ensures forall i :: 0 <= i < |modes| - 1 && modes[i] == ConfiguringMode && rounds[i].dir.Ok? && Discover(rounds[i].dir.value) == [] ==>
              modes[i + 1] == DormantMode
    ensures end.RoundsUsed? ==> |modes| == |rounds| + 1 && |obs| == |rounds| && end.mode == modes[|rounds|]
    ensures !end.RoundsUsed? ==>
              && |obs| == |modes|
              && Matches(modes[|modes| - 1], obs[|modes| - 1])
              && Next(modes[|modes| - 1], obs[|modes| - 1]) == (if end.Hung? then Hang else Stop(end.error))
              && modes[|modes| - 1] != OperatingMode
    ensures old(host.log) <= host.log && NoReleaseCalls(host.log[|old(host.log)|..])
  {
    var mode := ConfiguringMode;
    modes, obs, starts := [mode], [], [];
    ghost var written: seq<Effect> := [];
    var k := 0;
    while k < |rounds|
      invariant k <= |rounds| && |modes| == k + 1 && |obs| == k
      invariant modes[0] == ConfiguringMode && modes[k] == mode
      invariant Chained(modes, obs)
      invariant host.log == old(host.log) + written && NoReleaseCalls(written)
      invariant |starts| == k && StartsWithin(starts, |old(host.log)|, |host.log|)
      invariant k == 0 ==> written == []
      invariant AllObserved(host, modes, rounds, starts, obs)
    {
      ghost var at := |host.log|;
      var seen, calls := ObservedIteration(host, mode, rounds, k, modes, starts, obs);
      NoReleaseAppend(written, calls);
      written := written + calls;
      var step := Next(mode, seen);
      StartsWithinSnoc(starts, |old(host.log)|, at, |host.log|);
      starts, obs := starts + [at], obs + [seen];
      if !step.Continue? {
        end := if step.Hang? then Hung else Stopped(step.error);
        EmptyDiscoveryGoesDormant(host, modes, rounds, starts, obs);
        return;
      }
      ChainedSnoc(modes, obs, step.mode);
      ModesSnoc(host, modes, rounds, starts, obs, step.mode);
      mode := step.mode;
      modes := modes + [mode];
      k := k + 1;
    }
    EmptyDiscoveryGoesDormant(host, modes, rounds, starts, obs);
    end := RoundsUsed(mode);
  }

  /** An iteration observed by mode `m` adds a link to the chain. */
  lemma ChainedSnoc(modes: seq<ProconMode>, obs: seq<Observation>, m: ProconMode)
    requires |modes| > 0 && |obs| == |modes| && Chained(modes, obs[..|obs| - 1])
    requires Matches(modes[|modes| - 1], obs[|obs| - 1]) && Next(modes[|modes| - 1], obs[|obs| - 1]) == Continue(m)
    ensures Chained(modes + [m], obs)
  {
    assert forall i :: 0 <= i < |modes| - 1 ==> obs[..|obs| - 1][i] == obs[i];
  }

  /** A configuring iteration whose discovery finds nothing is followed by
      dormant mode. */
  lemma EmptyDiscoveryGoesDormant(h: Host, modes: seq<ProconMode>, rounds: seq<Round>, starts: seq<nat>, obs: seq<Observation>)
    requires Chained(modes, obs) && AllObserved(h, modes, rounds, starts, obs) && |modes| - 1 <= |obs|
    ensures forall i :: 0 <= i < |modes| - 1 && modes[i] == ConfiguringMode && rounds[i].dir.Ok? && Discover(rounds[i].dir.value) == [] ==>
              modes[i + 1] == DormantMode
  {
    forall i | 0 <= i < |modes| - 1 && modes[i] == ConfiguringMode && rounds[i].dir.Ok? && Discover(rounds[i].dir.value) == []
      ensures modes[i + 1] == DormantMode
    {
      assert Observed(h, modes[i], rounds[i], starts[i], obs[i]);
      assert Next(modes[i], obs[i]) == Continue(modes[i + 1]);
    }
  }

  /** The next round's start lies between the last one and the end of the log. */
  lemma StartsWithinSnoc(starts: seq<nat>, lo: nat, at: nat, hi: nat)
    requires StartsWithin(starts, lo, at) && lo <= at <= hi && (starts == [] ==> at == lo)
    ensures StartsWithin(starts + [at], lo, hi)
  {
  }

  /** Round i, started at log entry starts[i] in mode modes[i], observed
      obs[i]. */
  ghost predicate AllObserved(h: Host, modes: seq<ProconMode>, rounds: seq<Round>, starts: seq<nat>, obs: seq<Observation>)
  {
    && DevicesFit(rounds) && |starts| == |obs| && |obs| <= |modes| && |obs| <= |rounds|
    && forall i :: 0 <= i < |obs| ==> Observed(h, modes[i], rounds[i], starts[i], obs[i])
  }

  /** The next iteration's observation extends the observed rounds. */
  /** Iteration k of `main`, its observation added to those of the earlier
      iterations. */
  method ObservedIteration(host: Host, mode: ProconMode, rounds: seq<Round>, k: nat,
                           ghost modes: seq<ProconMode>, ghost starts: seq<nat>, ghost obs: seq<Observation>)
    returns (seen: Observation, ghost calls: seq<Effect>)
    requires k < |rounds| && |modes| == k + 1 && |obs| == k && modes[k] == mode
    requires AllObserved(host, modes, rounds, starts, obs)
    modifies host
    ensures host.log == old(host.log) + calls && NoReleaseCalls(calls)
    ensures Matches(mode, seen)
    ensures AllObserved(host, modes, rounds, starts + [|old(host.log)|], obs + [seen])
  {
    seen, calls := Iteration(host, mode, rounds[k]);
    ObservedSnoc(host, modes, rounds, starts, obs, |old(host.log)|, seen);
  }

  lemma ObservedSnoc(h: Host, modes: seq<ProconMode>, rounds: seq<Round>, starts: seq<nat>, obs: seq<Observation>, at: nat, seen: Observation)
    requires AllObserved(h, modes, rounds, starts, obs) && |obs| < |modes| && |obs| < |rounds|
    requires Observed(h, modes[|obs|], rounds[|obs|], at, seen)
    ensures AllObserved(h, modes, rounds, starts + [at], obs + [seen])
  {
    var starts', obs' := starts + [at], obs + [seen];
    forall i | 0 <= i < |obs'|
      ensures Observed(h, modes[i], rounds[i], starts'[i], obs'[i])
    {
      if i < |obs| {
        assert starts'[i] == starts[i] && obs'[i] == obs[i];
      }
    }
  }

  /** A further mode leaves the observed rounds as they were. */
  lemma ModesSnoc(h: Host, modes: seq<ProconMode>, rounds: seq<Round>, starts: seq<nat>, obs: seq<Observation>, m: ProconMode)
    requires AllObserved(h, modes, rounds, starts, obs)
    ensures AllObserved(h, modes + [m], rounds, starts, obs)
  {
    forall i | 0 <= i < |obs|
      ensures Observed(h, (modes + [m])[i], rounds[i], starts[i], obs[i])
    {
      assert (modes + [m])[i] == modes[i];
    }
  }

  /** The body of the loop: the branch of `mode`, run with a fresh, empty list
      of units. Configuring runs `configure`; operating passes the empty list
      to `operate`, which therefore succeeds without emitting anything; dormant
      runs the discovery. */
  method Iteration(host: Host, mode: ProconMode, round: Round) returns (seen: Observation, ghost calls: seq<Effect>)
    requires round.dir.Ok? ==> forall d :: d in Discover(round.dir.value) ==> NameFits(d)
    modifies host
    ensures Matches(mode, seen) && Observed(host, mode, round, |old(host.log)|, seen)
    ensures mode == ConfiguringMode ==> ConfigureCalls(host, round, |old(host.log)|, calls)
    ensures mode != ConfiguringMode || round.dir.Err? ==> calls == []
    ensures host.log == old(host.log) + calls && NoReleaseCalls(calls)
  {
    var controllers: seq<ProController> := [];
    calls := [];
    match mode {
      case ConfiguringMode =>
        var p, devices;
        ghost var plan, units, resets, pairing, grabs;
        p, devices, plan, units, resets, pairing, grabs := Configure(host, round.dir, round.passes);
        NoReleaseParts(resets, pairing, grabs);
        ConfigureGivesRound(host, round, |old(host.log)|, p, plan, units, resets, pairing, grabs);
        calls := resets + pairing + grabs;
        Regroup(old(host.log), resets + pairing, grabs);
        Regroup(old(host.log), resets, pairing);
        seen := Configured(p);
      case OperatingMode =>
        var res := Operate(controllers, []);
        seen := Operated(res);
      case DormantMode =>
        seen := Discovered(GetDevices(round.dir));
    }
  }

  /** What `Configure` promises about one successful discovery gives the
      round's `ConfigureRound`. */
  lemma ConfigureGivesRound(h: Host, round: Round, at: nat, r: Pairing, plan: PairPlan, units: seq<ProController>,
                            resets: seq<Effect>, pairing: seq<Effect>, grabs: seq<Effect>)
    requires round.dir.Ok? ==> forall d :: d in Discover(round.dir.value) ==> NameFits(d)
    requires round.dir.Ok? ==> resets == ResetSpec(h, Discover(round.dir.value), at)
    requires round.dir.Ok? ==> plan == PairingSpec(h, Discover(round.dir.value), round.passes, 0, 0, at + |resets|)
    requires round.dir.Ok? ==> Captured(h, plan, at + |resets|, r, units, pairing, grabs)
    ensures ConfigureRound(h, round, at, r) && ConfigureCalls(h, round, at, resets + pairing + grabs)
  {
    if round.dir.Ok? {
      var devices := Discover(round.dir.value);
      var start := at + |ResetSpec(h, devices, at)|;
      assert start == at + |resets|;
      assert plan == PairingSpec(h, devices, round.passes, 0, 0, start);
      CapturedEnds(h, plan, start, r, units, resets, pairing, grabs);
    }
  }

  /** What `Captured` says of a plan, with the capture pass stated over the
      plan's pairs instead of the units. */
  lemma CapturedEnds(h: Host, plan: PairPlan, start: nat, r: Pairing, units: seq<ProController>,
                     resets: seq<Effect>, pairing: seq<Effect>, grabs: seq<Effect>)
    requires Captured(h, plan, start, r, units, pairing, grabs)
    ensures PlanEnds(h, plan, start, r) && PlanCalls(h, plan, start, resets, resets + pairing + grabs)
  {
    assert resets + pairing <= resets + pairing + grabs;
    if plan.end.AllPaired? {
      GrabPassIsPairsPass(h, units, Grab, start + |pairing|);
    }
  }

  lemma NoReleaseParts(resets: seq<Effect>, pairing: seq<Effect>, grabs: seq<Effect>)
    requires NoGrabCalls(resets) && NoGrabCalls(pairing)
    requires forall i :: 0 <= i < |grabs| ==> grabs[i].GrabCall? && grabs[i].mode == Grab
    ensures NoReleaseCalls(resets + pairing + grabs)
  {
    var all := resets + pairing + grabs;
    forall i | 0 <= i < |all|
      ensures !(all[i].GrabCall? && all[i].mode == Ungrab)
    {
      if i < |resets| {
        assert all[i] == resets[i];
      } else if i < |resets| + |pairing| {
        assert all[i] == pairing[i - |resets|];
      } else {
        assert all[i] == grabs[i - |resets| - |pairing|];
      }
    }
  }

  lemma NoReleaseAppend(a: seq<Effect>, b: seq<Effect>)
    requires NoReleaseCalls(a) && NoReleaseCalls(b)
    ensures NoReleaseCalls(a + b)
  {
    assert forall i :: 0 <= i < |a + b| ==> (a + b)[i] == if i < |a| then a[i] else b[i - |a|];
  }
}
