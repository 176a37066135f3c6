/** One forwarding pass over the units (src/modes/operating.rs): every unit in
    list order relays one tick, and the first tick that fails ends the pass. */
module Operating {
  import opened Evdev
  import opened Procon

  /** The position of the first unit whose tick fails, or the number of units
      when every tick succeeds; `envs[i]` is what unit i meets in this pass. */
  function FirstFailedTick(units: seq<ProController>, envs: seq<TickEnv>): (k: nat)
    requires |envs| == |units|
    ensures k <= |units|
    ensures forall i :: 0 <= i < k ==> TickSpec(units[i].right.Some?, envs[i]).result.Ok?
    ensures k < |units| ==> TickSpec(units[k].right.Some?, envs[k]).result.Err?
    decreases |units|
  {
    if units == [] then 0
    else if TickSpec(units[0].right.Some?, envs[0]).result.Err? then 0
    else 1 + FirstFailedTick(units[1..], envs[1..])
  }

  /** The units are distinct objects, as the values owned by a `Vec` are. */
  predicate Distinct(units: seq<ProController>)
  {
    forall i, j :: 0 <= i < j < |units| ==> units[i] != units[j]
  }

  /** `emulate_single`: the units tick in list order up to and including the
      first one that fails, whose error is returned; the later units emit
      nothing. */
  method EmulateSingle(units: seq<ProController>, envs: seq<TickEnv>) returns (r: Res<()>)
    requires |envs| == |units| && Distinct(units)
    modifies set c | c in units
    ensures var k := FirstFailedTick(units, envs);
      && (r.Ok? <==> k == |units|)
      && (r.Err? ==> r == TickSpec(units[k].right.Some?, envs[k]).result)
      && (forall i :: 0 <= i < |units| && i <= k ==>
            units[i].emitted == old(units[i].emitted) + TickSpec(units[i].right.Some?, envs[i]).emitted)
      && (forall i :: k < i < |units| ==> units[i].emitted == old(units[i].emitted))
    ensures forall i :: 0 <= i < |units| ==> units[i].playerId == old(units[i].playerId)
  {
    ghost var k := FirstFailedTick(units, envs);
    var i := 0;
    while i < |units|
      invariant i <= k
      invariant forall j :: 0 <= j < i ==> units[j].emitted == old(units[j].emitted) + TickSpec(units[j].right.Some?, envs[j]).emitted
      invariant forall j :: i <= j < |units| ==> units[j].emitted == old(units[j].emitted)
      invariant forall j :: 0 <= j < |units| ==> units[j].playerId == old(units[j].playerId)
    {
      FirstFailedTickStops(units, envs, i);
      var tick := units[i].ParseSingleEvent(envs[i]);
      if tick.Err? {
        assert k == i;
        return tick;
      }
      i := i + 1;
    }
    r := Ok(());
  }

  /** The tick at a position before the first failure succeeds, and the
      first failure is the first position whose tick fails. */
  lemma {:induction false} FirstFailedTickStops(units: seq<ProController>, envs: seq<TickEnv>, i: nat)
    requires |envs| == |units| && i < |units|
    requires forall j :: 0 <= j < i ==> TickSpec(units[j].right.Some?, envs[j]).result.Ok?
    ensures i <= FirstFailedTick(units, envs)
    ensures TickSpec(units[i].right.Some?, envs[i]).result.Err? <==> FirstFailedTick(units, envs) == i
    decreases i
  {
    if i > 0 {
      FirstFailedTickStops(units[1..], envs[1..], i - 1);
    }
  }
}
