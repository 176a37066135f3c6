/** Discovery of the controllers and their pairing into logical units
    (src/modes/configuring.rs). */
module Configuring {
  import opened Evdev
  import opened Environment
  import opened Procon

  // ---------------------------------------------------------------------------
  // Discovery (`get_devices`)
  // ---------------------------------------------------------------------------

  /** What opening and probing one device node gave. */
  datatype Probe = OpenFailed | ProbeFailed | Probed(device: Device)

  /** One item of the input-device directory listing: an unreadable entry, or a
      node with the result of opening and probing it. */
  datatype DirEntry = BadEntry | Node(path: string, probe: Probe)

  predicate OpenedAs(e: DirEntry, d: Device)
  {
    e.Node? && e.probe == Probed(d)
  }

  /** The device an entry contributes to the discovered list, if any. */
  function Keep(e: DirEntry): seq<Device>
  {
    if e.Node? && e.probe.Probed? && Recognized(e.probe.device.vendor, e.probe.device.product)
    then [e.probe.device] else []
  }

  /** The filter chain over the directory listing: the devices that opened and
      probed and whose identity is in the identity set, in listing order. */
  function Discover(entries: seq<DirEntry>): (r: seq<Device>)
    ensures |r| <= |entries|
  {
    if entries == [] then [] else Keep(entries[0]) + Discover(entries[1..])
  }

  /** A device is discovered exactly when some entry opened and probed as it
      and its identity is in the identity set. */
  lemma {:induction false} DiscoverMembers(entries: seq<DirEntry>)
    ensures forall d :: d in Discover(entries) <==>
              Recognized(d.vendor, d.product) && exists i :: 0 <= i < |entries| && OpenedAs(entries[i], d)
  {
    if entries != [] {
      DiscoverMembers(entries[1..]);
      forall d
        ensures d in Discover(entries) <==>
                Recognized(d.vendor, d.product) && exists i :: 0 <= i < |entries| && OpenedAs(entries[i], d)
      {
        if Recognized(d.vendor, d.product) && OpenedAs(entries[0], d) {
          assert d in Keep(entries[0]);
        }
        if exists i :: 1 <= i < |entries| && OpenedAs(entries[i], d) {
          var i :| 1 <= i < |entries| && OpenedAs(entries[i], d);
          assert OpenedAs(entries[1..][i - 1], d);
        }
        if Recognized(d.vendor, d.product) && exists i :: 0 <= i < |entries[1..]| && OpenedAs(entries[1..][i], d) {
          var i :| 0 <= i < |entries[1..]| && OpenedAs(entries[1..][i], d);
          assert OpenedAs(entries[i + 1], d);
        }
      }
    }
  }

  /** Discovery over a concatenated listing is the concatenation of the two
      discoveries: together with Discover's contract, the order of the listing is
      kept and each entry contributes at most its own device. */
  lemma {:induction false} DiscoverAppend(a: seq<DirEntry>, b: seq<DirEntry>)
    ensures Discover(a + b) == Discover(a) + Discover(b)
    decreases |a|
  {
    if a == [] {
      assert a + b == b;
    } else {
      assert (a + b)[0] == a[0] && (a + b)[1..] == a[1..] + b;
      DiscoverAppend(a[1..], b);
      assert Discover(a + b) == Keep(a[0]) + (Discover(a[1..]) + Discover(b));
    }
  }

  /** `get_devices`: a failure to list the directory is returned; everything
      else is filtered. */
  function GetDevices(dir: Res<seq<DirEntry>>): (r: Res<seq<Device>>)
    ensures dir.Err? ==> r == Err(dir.error)
    ensures dir.Ok? ==> r.Ok? && |r.value| <= |dir.value|
    ensures dir.Ok? ==> forall d :: d in r.value <==>
              Recognized(d.vendor, d.product) && exists i :: 0 <= i < |dir.value| && OpenedAs(dir.value[i], d)
  {
    match dir
    case Err(e) => Err(e)
    case Ok(entries) => DiscoverMembers(entries); Ok(Discover(entries))
  }

  // ---------------------------------------------------------------------------
  // The candidate slots and one scan pass (lines 52-74)
  // ---------------------------------------------------------------------------

  /** The two candidate slots, each holding a pool index or nothing. */
  datatype Slots = Slots(left: Option<nat>, right: Option<nat>)

  /** What one scan pass reads: for each pool index, the event read from that
      device, or None when the read failed (no event was pending). Indices past
      the end of a pass read nothing. */
  type Pass = seq<Option<InputEvent>>

  function EventAt(pass: Pass, i: nat): Option<InputEvent>
  {
    if i < |pass| then pass[i] else None
  }

  /** The slot update for the event read from the device at `index`. */
  function Observe(s: Slots, index: nat, ev: Option<InputEvent>): (t: Slots)
    ensures IsRoleEvent(ev, LeftRole) ==> t == s.(left := if ev.value.value == 1 then Some(index) else None)
    ensures IsRoleEvent(ev, RightRole) ==> t == s.(right := if ev.value.value == 1 then Some(index) else None)
    ensures !IsRoleEvent(ev, LeftRole) && !IsRoleEvent(ev, RightRole) ==> t == s
  {
    match ev
    case None => s
    case Some(e) =>
      if e.code == EvKey(BTN_TL) then s.(left := if e.value == 1 then Some(index) else None)
      else if e.code == EvKey(BTN_TR) then s.(right := if e.value == 1 then Some(index) else None)
      else s
  }

  /** The slots after the devices at indices 0 .. i-1 of one pass were read. A
      slot that changed holds one of those indices. */
  function ScanUpTo(pass: Pass, s: Slots, i: nat): (t: Slots)
    ensures t.left.Some? ==> t.left == s.left || t.left.value < i
    ensures t.right.Some? ==> t.right == s.right || t.right.value < i
  {
    if i == 0 then s else Observe(ScanUpTo(pass, s, i - 1), i - 1, EventAt(pass, i - 1))
  }

  datatype Role = LeftRole | RightRole

  function RoleKey(role: Role): int
  {
    if role == LeftRole then BTN_TL else BTN_TR
  }

  function Slot(s: Slots, role: Role): Option<nat>
  {
    if role == LeftRole then s.left else s.right
  }

  predicate IsRoleEvent(ev: Option<InputEvent>, role: Role)
  {
    ev.Some? && ev.value.code == EvKey(RoleKey(role))
  }

  /** The last index below n at which the pass holds an event of the role's key. */
  function LastRoleEvent(pass: Pass, n: nat, role: Role): (k: Option<nat>)
    ensures k.Some? ==> k.value < n && IsRoleEvent(EventAt(pass, k.value), role)
    ensures k.Some? ==> forall j :: k.value < j < n ==> !IsRoleEvent(EventAt(pass, j), role)
    ensures k.None? ==> forall j :: 0 <= j < n ==> !IsRoleEvent(EventAt(pass, j), role)
  {
    if n == 0 then None
    else if IsRoleEvent(EventAt(pass, n - 1), role) then Some(n - 1)
    else LastRoleEvent(pass, n - 1, role)
  }

  /** After a pass a slot reflects the last event of its key in the pass: a
      press (value 1) puts that device's index in the slot, any other value
      empties it, whichever device held it; with no such event the slot keeps its
      value. Events of other codes and failed reads change nothing. */
  lemma {:induction false} ScanFollowsLastEvent(pass: Pass, s: Slots, n: nat, role: Role)
    ensures Slot(ScanUpTo(pass, s, n), role) ==
              match LastRoleEvent(pass, n, role)
              case None => Slot(s, role)
              case Some(i) => if EventAt(pass, i).value.value == 1 then Some(i) else None
  {
    if n > 0 {
      ScanFollowsLastEvent(pass, s, n - 1, role);
    }
  }

  /** The `for_each` over the pool in one pass. */
  method ScanPass(n: nat, pass: Pass, s: Slots) returns (t: Slots)
    ensures t == ScanUpTo(pass, s, n)
  {
    t := s;
    for i := 0 to n
      invariant t == ScanUpTo(pass, s, i)
    {
      var ev := if i < |pass| then pass[i] else None;
      if ev.Some? {
        var e := ev.value;
        if e.code == EvKey(BTN_TL) {
          t := t.(left := if e.value == 1 then Some(i) else None);
        } else if e.code == EvKey(BTN_TR) {
          t := t.(right := if e.value == 1 then Some(i) else None);
        }
      }
    }
  }

  // ---------------------------------------------------------------------------
  // One pairing attempt: waiting for both slots (lines 48-75)
  // ---------------------------------------------------------------------------

  predicate Ready(s: Slots)
  {
    s.left.Some? && s.right.Some?
  }

  /** The slots after the passes `from` .. `until` - 1, for an attempt that starts
      at pass `from` with both slots empty. Every index held is a pool index. */
  function SlotsBetween(n: nat, passes: seq<Pass>, from: nat, until: nat): (s: Slots)
    requires from <= until <= |passes|
    ensures s.left.Some? ==> s.left.value < n
    ensures s.right.Some? ==> s.right.value < n
    decreases until
  {
    if until == from then Slots(None, None) else ScanUpTo(passes[until - 1], SlotsBetween(n, passes, from, until - 1), n)
  }

  /** The inner `while`, for an attempt that starts at pass `from`: scan whole
      passes until a pass ends with both slots filled. The attempt fires after
      the first such pass and only then, and `end` is the pass after it; when
      the passes run out first, nothing fires. */
  method AwaitChord(n: nat, passes: seq<Pass>, from: nat) returns (chord: Option<(nat, nat)>, end: nat)
    requires from <= |passes|
    ensures from <= end <= |passes|
    ensures forall j :: from <= j < end ==> !Ready(SlotsBetween(n, passes, from, j))
    ensures chord.Some? <==> Ready(SlotsBetween(n, passes, from, end))
    ensures chord.Some? ==> && chord.value.0 == SlotsBetween(n, passes, from, end).left.value
                            && chord.value.1 == SlotsBetween(n, passes, from, end).right.value
                            && chord.value.0 < n && chord.value.1 < n && from < end
    ensures chord.None? ==> end == |passes|
    ensures chord.Some? ==> FirstReady(n, passes, from, from) == Some(end)
    ensures chord.None? ==> FirstReady(n, passes, from, from).None?
  {
    FirstReadyIsFirst(n, passes, from, from);
    var s := Slots(None, None);
    end := from;
    while s.left.None? || s.right.None?
      invariant from <= end <= |passes|
      invariant s == SlotsBetween(n, passes, from, end)
      invariant forall j :: from <= j < end ==> !Ready(SlotsBetween(n, passes, from, j))
      invariant end == from ==> s == Slots(None, None)
      decreases |passes| - end
    {
      if end == |passes| {
        return None, end;
      }
      s := ScanPass(n, passes[end], s);
      end := end + 1;
    }
    chord := Some((s.left.value, s.right.value));
  }

  /** Where an attempt that starts at pass `from` fires, searching from pass
      `j` on: the first end position whose passes leave both slots filled, or
      None when none up to the number of passes does. */
  function FirstReady(n: nat, passes: seq<Pass>, from: nat, j: nat): (u: Option<nat>)
    requires from <= j <= |passes|
    ensures u.Some? ==> j <= u.value <= |passes| && Ready(SlotsBetween(n, passes, from, u.value))
    ensures u.Some? ==> from < u.value
    decreases |passes| - j
  {
    if Ready(SlotsBetween(n, passes, from, j)) then Some(j)
    else if j == |passes| then None
    else FirstReady(n, passes, from, j + 1)
  }

  /** No end position before the one `FirstReady` gives fills both slots, and
      when it gives none, no end position up to the number of passes does. */
  lemma {:induction false} FirstReadyIsFirst(n: nat, passes: seq<Pass>, from: nat, j: nat)
    requires from <= j <= |passes|
    ensures var u := FirstReady(n, passes, from, j);
      && (u.Some? ==> forall e :: j <= e < u.value ==> !Ready(SlotsBetween(n, passes, from, e)))
      && (u.None? ==> forall e :: j <= e <= |passes| ==> !Ready(SlotsBetween(n, passes, from, e)))
    decreases |passes| - j
  {
    if !Ready(SlotsBetween(n, passes, from, j)) && j < |passes| {
      FirstReadyIsFirst(n, passes, from, j + 1);
    }
  }

  // ---------------------------------------------------------------------------
  // Taking the selected devices out of the pool (lines 77-86)
  // ---------------------------------------------------------------------------

  /** `Vec::swap_remove`: the element at i is returned and the last element
      takes its place. */
  function SwapRemove<T>(v: seq<T>, i: nat): (r: (T, seq<T>))
    requires i < |v|
    ensures r.0 == v[i] && |r.1| == |v| - 1
    ensures forall j :: 0 <= j < |r.1| ==> r.1[j] == (if j == i then v[|v| - 1] else v[j])
  {
    if i == |v| - 1 then (v[i], v[..i])
    else (v[i], v[..i] + [v[|v| - 1]] + v[i + 1..|v| - 1])
  }

  /** swap_remove loses no element and adds none. */
  lemma SwapRemoveKeepsElements<T>(v: seq<T>, i: nat)
    requires i < |v|
    ensures multiset(SwapRemove(v, i).1) + multiset{v[i]} == multiset(v)
  {
    if i == |v| - 1 {
      assert v == v[..i] + [v[i]];
    } else {
      assert v == v[..i] + [v[i]] + v[i + 1..|v| - 1] + [v[|v| - 1]];
    }
  }

  /** The devices taken for one attempt and the pool left behind. */
  datatype Taken = Taken(left: Device, right: Option<Device>, rest: seq<Device>)

  function Members(left: Device, right: Option<Device>): seq<Device>
  {
    [left] + (if right.Some? then [right.value] else [])
  }

  /** Lines 77-86 as written: `swap_remove(l)` first, then `swap_remove(r - 1)`
      when l < r and `swap_remove(r)` when l > r. */
  function TakeUnit(pool: seq<Device>, l: nat, r: nat): (t: Taken)
    requires l < |pool| && r < |pool|
    ensures t.left == pool[l]
    ensures t.right.None? <==> l == r
    ensures |t.rest| + |Members(t.left, t.right)| == |pool|
  {
    var first := SwapRemove(pool, l);
    if l == r then Taken(first.0, None, first.1)
    else
      var second := SwapRemove(first.1, if l < r then r - 1 else r);
      Taken(first.0, Some(second.0), second.1)
  }

  /** Which original pool position the right device comes from: r itself when
      l > r; when l < r, position r - 1, except that r - 1 == l names the element
      the first swap_remove moved there, the last one. */
  lemma RightDevicePosition(pool: seq<Device>, l: nat, r: nat)
    requires l < |pool| && r < |pool| && l != r
    ensures TakeUnit(pool, l, r).right ==
              Some(if l > r then pool[r] else if r - 1 == l then pool[|pool| - 1] else pool[r - 1])
  {
  }

  predicate DistinctHandles(pool: seq<Device>)
  {
    forall i, j :: 0 <= i < j < |pool| ==> pool[i].handle != pool[j].handle
  }

  /** In a pool of distinct devices, the right device taken is the one the right
      slot pointed to exactly when l > r, or when l and r are the last two
      positions in that order. */
  lemma RightDeviceIsSlotDeviceIff(pool: seq<Device>, l: nat, r: nat)
    requires l < |pool| && r < |pool| && l != r
    requires DistinctHandles(pool)
    ensures TakeUnit(pool, l, r).right == Some(pool[r]) <==> r < l || (l == |pool| - 2 && r == |pool| - 1)
  {
    RightDevicePosition(pool, l, r);
    if l < r {
      if r - 1 == l {
        assert r == |pool| - 1 || pool[|pool| - 1].handle != pool[r].handle;
      } else {
        assert pool[r - 1].handle != pool[r].handle;
      }
    }
  }

  /** A left shoulder press on the first of three devices and a right shoulder
      press on the last one take the middle device as the right device. */
  lemma ThreeDevicePoolTakesMiddleDevice(a: Device, b: Device, c: Device)
    requires DistinctHandles([a, b, c])
    ensures TakeUnit([a, b, c], 0, 2) == Taken(a, Some(b), [c])
    ensures TakeUnit([a, b, c], 0, 2).right != Some(c)
  {
    assert [a, b, c][0].handle != [a, b, c][2].handle;
  }

  // ---------------------------------------------------------------------------
  // The pairing loop (`make_pairings_into_controllers`)
  // ---------------------------------------------------------------------------

  /** A ProCon may only form a unit on its own. */
  predicate MixesProCon(left: Device, right: Option<Device>)
  {
    right.Some? && (left.product == PRODUCT_PROCON || right.value.product == PRODUCT_PROCON)
  }

  /** The physical devices of the units, unit by unit, left before right. */
  function AllMembers(units: seq<ProController>): seq<Device>
  {
    if units == [] then []
    else AllMembers(units[..|units| - 1]) + Members(units[|units| - 1].left, units[|units| - 1].right)
  }

  lemma AllMembersSnoc(units: seq<ProController>, c: ProController)
    ensures AllMembers(units + [c]) == AllMembers(units) + Members(c.left, c.right)
  {
    assert (units + [c])[..|units|] == units;
  }

  /** The result of pairing: the units, an error that ended it, or the passes
      ran out while waiting (where the daemon waits for ever). */
  datatype Pairing = Formed(units: seq<ProController>) | Failed(error: IoError) | Stalled

  /** The player index, an `i32` counter starting at 1, cast `as u8`. */
  function PlayerIndex(k: nat): (id: u8)
    ensures k < 255 ==> id as int == k + 1
    ensures id == 0 <==> k % 256 == 255
  {
    (k + 1) % 0x100
  }

  /** What every unit formed by the pairing loop satisfies; k is its position. */
  predicate WellFormedUnit(c: ProController, k: nat)
    reads c
  {
    && c.playerId == PlayerIndex(k)
    && !MixesProCon(c.left, c.right)
    && c.NamesFit()
    && c.virtualDevice == VirtualFor(c.left)
    && c.emitted == []
  }

  /** The calls of lines 116-117, the first becoming log entry `at`: the
      virtual device is created, both indicators are set to 0 (`from`), then to
      the player id (`set_player_id`); the first failure ends the sequence and is
      the result. */
  function FormUnitSpec(h: Host, left: Device, right: Option<Device>, id: u8, at: nat): Outcome
    requires NameFits(left) && (right.Some? ==> NameFits(right.value))
  {
    var made := FromSpec(h, left, right, at);
    if made.result.Err? then made
    else
      var assign := AllLedsSpec(h, left, right, id, at + |made.effects|);
      Outcome(made.effects + assign.effects, assign.result)
  }

  /** A member device's indicator write, succeeded, of index `led`. */
  function LedWritten(d: Device, led: u8): Effect
    requires NameFits(d) && ProcBase(d).Some?
  {
    LedWrite(ProcBase(d).value + LED_FILE, Decimal(led), true)
  }

  /** Forming a unit grabs nothing, and fails only with an error of the
      kernel or a missing indicator directory. */
  lemma FormUnitCalls(h: Host, left: Device, right: Option<Device>, id: u8, at: nat)
    requires NameFits(left) && (right.Some? ==> NameFits(right.value))
    ensures var o := FormUnitSpec(h, left, right, id, at);
      && NoGrabCalls(o.effects)
      && (o.result.Err? ==> o.result.error == Os || o.result.error == NotFound)
  {
    if h.CallOk(at) {
      var made := FromSpec(h, left, right, at);
      AllLedsNoGrabCalls(h, left, right, 0, at + 1);
      NoGrabCallsAppend([CreateUinput(left.bustype, true)], AllLedsSpec(h, left, right, 0, at + 1).effects);
      if made.result.Ok? {
        var assign := AllLedsSpec(h, left, right, id, at + |made.effects|);
        AllLedsNoGrabCalls(h, left, right, id, at + |made.effects|);
        NoGrabCallsAppend(made.effects, assign.effects);
      }
    }
  }

  /** Forming a unit succeeds exactly when the virtual device
      is created and every member has an indicator directory and all writes
      succeed, and then each member's indicator was set to 0 and then to the id;
      a member without a directory gives NotFound. */
  lemma FormUnitOutcome(h: Host, left: Device, right: Option<Device>, id: u8, at: nat)
    requires NameFits(left) && (right.Some? ==> NameFits(right.value))
    ensures var o := FormUnitSpec(h, left, right, id, at);
      && (h.CallOk(at) && ProcBase(left).None? ==> o.result == Err(NotFound))
      && (o.result.Ok? <==>
            && h.CallOk(at) && ProcBase(left).Some? && (right.Some? ==> ProcBase(right.value).Some?)
            && var w := if right.Some? then 2 else 1;
               forall i :: at + 1 <= i < at + 1 + 2 * w ==> h.CallOk(i))
      && (o.result.Ok? ==>
            o.effects == [CreateUinput(left.bustype, true), LedWritten(left, 0)]
                         + (if right.Some? then [LedWritten(right.value, 0)] else [])
                         + [LedWritten(left, id)]
                         + (if right.Some? then [LedWritten(right.value, id)] else []))
  {
    AllLedsOutcome(h, left, right, 0, at + 1);
    var reset := AllLedsSpec(h, left, right, 0, at + 1);
    AllLedsNoGrabCalls(h, left, right, 0, at + 1);
    AllLedsOutcome(h, left, right, id, at + 1 + |reset.effects|);
    AllLedsNoGrabCalls(h, left, right, id, at + 1 + |reset.effects|);
  }

  /** Lines 116-117: the unit at position k is created (`from`) and given the
      player id of that position (`set_player_id`), either error being returned.
      `calls` names the calls it made. */
  method FormUnit(host: Host, k: nat, left: Device, right: Option<Device>)
      returns (r: Res<ProController>, ghost calls: seq<Effect>)
    requires NameFits(left) && (right.Some? ==> NameFits(right.value)) && !MixesProCon(left, right)
    modifies host
    ensures var o := FormUnitSpec(host, left, right, PlayerIndex(k), |old(host.log)|);
      && calls == o.effects
      && (r.Ok? <==> o.result.Ok?)
      && (r.Err? ==> r.error == o.result.error)
    ensures host.log == old(host.log) + calls
    ensures r.Ok? ==> && fresh(r.value) && r.value.left == left && r.value.right == right
                      && WellFormedUnit(r.value, k)
  {
    var id := ((k + 1) % 0x100) as u8;
    calls := FormUnitSpec(host, left, right, id, |host.log|).effects;
    var made := ProController.From(host, left, right);
    if made.Err? {
      return Err(made.error), calls;
    }
    var procon := made.value;
    var idResult := procon.SetPlayerId(host, id);
    if idResult.Err? {
      return Err(idResult.error), calls;
    }
    r := Ok(procon);
  }

  /** Lines 116-118: the unit is formed and pushed onto the units formed so
      far; either error of `FormUnit` is returned. */
  method AddUnit(host: Host, units: seq<ProController>, left: Device, right: Option<Device>)
      returns (r: Res<seq<ProController>>, ghost calls: seq<Effect>)
    requires NameFits(left) && (right.Some? ==> NameFits(right.value)) && !MixesProCon(left, right)
    requires forall k :: 0 <= k < |units| ==> WellFormedUnit(units[k], k)
    modifies host
    ensures host.log == old(host.log) + calls && NoGrabCalls(calls)
    ensures var o := FormUnitSpec(host, left, right, PlayerIndex(|units|), |old(host.log)|);
      && calls == o.effects
      && (r.Ok? <==> o.result.Ok?)
      && (r.Err? ==> r.error == o.result.error)
    ensures r.Err? ==> r.error == Os || r.error == NotFound
    ensures r.Ok? ==> && |r.value| == |units| + 1 && r.value[..|units|] == units
                      && r.value[|units|].left == left && r.value[|units|].right == right
                      && (forall k :: 0 <= k < |r.value| ==> WellFormedUnit(r.value[k], k))
                      && AllMembers(r.value) == AllMembers(units) + Members(left, right)
  {
    FormUnitCalls(host, left, right, PlayerIndex(|units|), |host.log|);
    var made;
    made, calls := FormUnit(host, |units|, left, right);
    if made.Err? {
      return Err(made.error), calls;
    }
    AllMembersSnoc(units, made.value);
    r := Ok(units + [made.value]);
  }

  /** The devices taken and the pool left behind are the pool's devices. */
  lemma TakeUnitKeepsDevices(pool: seq<Device>, l: nat, r: nat)
    requires l < |pool| && r < |pool|
    ensures var t := TakeUnit(pool, l, r);
      multiset(t.rest) + multiset(Members(t.left, t.right)) == multiset(pool)
  {
    var first := SwapRemove(pool, l);
    SwapRemoveKeepsElements(pool, l);
    var t := TakeUnit(pool, l, r);
    if l == r {
      assert t.rest == first.1 && Members(t.left, t.right) == [pool[l]];
    } else {
      var second := SwapRemove(first.1, if l < r then r - 1 else r);
      SwapRemoveKeepsElements(first.1, if l < r then r - 1 else r);
      assert t.rest == second.1 && Members(t.left, t.right) == [pool[l], second.0];
      assert multiset([pool[l], second.0]) == multiset{pool[l]} + multiset{second.0};
    }
  }

  /** How often d occurs in s. */
  ghost function Count(s: seq<Device>, d: Device): nat
  {
    if s == [] then 0 else Count(s[..|s| - 1], d) + (if s[|s| - 1] == d then 1 else 0)
  }

  lemma {:induction false} CountIsMultiplicity(s: seq<Device>, d: Device)
    ensures Count(s, d) == multiset(s)[d]
  {
    if s != [] {
      CountIsMultiplicity(s[..|s| - 1], d);
      assert s == s[..|s| - 1] + [s[|s| - 1]];
    }
  }

  /** Every device of the listing is in the pool or in a unit, as often as it
      is listed. */
  ghost predicate Accounted(pool: seq<Device>, formed: seq<Device>, devices: seq<Device>)
  {
    forall d :: Count(pool, d) + Count(formed, d) == Count(devices, d)
  }

  lemma AccountedIsMultiset(pool: seq<Device>, formed: seq<Device>, devices: seq<Device>)
    ensures Accounted(pool, formed, devices) <==> multiset(pool) + multiset(formed) == multiset(devices)
  {
    forall d
      ensures Count(pool, d) == multiset(pool)[d] && Count(formed, d) == multiset(formed)[d]
      ensures Count(devices, d) == multiset(devices)[d]
    {
      CountIsMultiplicity(pool, d);
      CountIsMultiplicity(formed, d);
      CountIsMultiplicity(devices, d);
    }
    if multiset(pool) + multiset(formed) != multiset(devices) {
      var d :| (multiset(pool) + multiset(formed))[d] != multiset(devices)[d];
      assert Count(pool, d) + Count(formed, d) != Count(devices, d);
    }
  }

  /** The two listings hold the same devices, each as often. */
  ghost predicate SameDevices(a: seq<Device>, b: seq<Device>)
  {
    forall d :: Count(a, d) == Count(b, d)
  }

  /** Holding the same devices as often is being a permutation. */
  lemma SameDevicesIsPermutation(a: seq<Device>, b: seq<Device>)
    ensures SameDevices(a, b) <==> multiset(a) == multiset(b)
  {
    AccountedIsMultiset([], a, b);
    assert multiset([]) + multiset(a) == multiset(a);
    assert forall d :: Count([], d) == 0;
  }

  /** Taking a unit out of the pool keeps every device either in the pool or
      in a unit. */
  lemma TakeUnitAccounting(pool: seq<Device>, l: nat, r: nat, formed: seq<Device>, devices: seq<Device>)
    requires l < |pool| && r < |pool|
    requires Accounted(pool, formed, devices)
    ensures var t := TakeUnit(pool, l, r);
      Accounted(t.rest, formed + Members(t.left, t.right), devices)
  {
    var t := TakeUnit(pool, l, r);
    TakeUnitKeepsDevices(pool, l, r);
    AccountedIsMultiset(pool, formed, devices);
    AccountedIsMultiset(t.rest, formed + Members(t.left, t.right), devices);
  }

  /** Pushing both devices back after a rejection keeps every device either in
      the pool or in a unit. */
  lemma RejectionAccounting(pool: seq<Device>, l: nat, r: nat, formed: seq<Device>, devices: seq<Device>)
    requires l < |pool| && r < |pool| && l != r
    requires Accounted(pool, formed, devices)
    ensures var t := TakeUnit(pool, l, r);
      Accounted(t.rest + [t.left, t.right.value], formed, devices)
  {
    var t := TakeUnit(pool, l, r);
    var back := t.rest + [t.left, t.right.value];
    TakeUnitKeepsDevices(pool, l, r);
    AccountedIsMultiset(pool, formed, devices);
    AccountedIsMultiset(back, formed, devices);
    assert Members(t.left, t.right) == [t.left, t.right.value];
    assert multiset(back) == multiset(t.rest) + multiset(Members(t.left, t.right));
  }

  /** The devices taken and the pool left behind all come from the pool. */
  lemma TakenFromPool(pool: seq<Device>, l: nat, r: nat)
    requires l < |pool| && r < |pool|
    ensures var t := TakeUnit(pool, l, r);
      && t.left in pool && (t.right.Some? ==> t.right.value in pool)
      && forall d :: d in t.rest ==> d in pool
  {
    var t := TakeUnit(pool, l, r);
    TakeUnitKeepsDevices(pool, l, r);
    forall d | d in t.rest
      ensures d in pool
    {
      assert d in multiset(t.rest);
    }
    if t.right.Some? {
      assert t.right.value in multiset(Members(t.left, t.right));
    }
  }

  // ---------------------------------------------------------------------------
  // The pairing loop (lines 42-123)
  // ---------------------------------------------------------------------------

  /** The two devices of each unit, in unit order. */
  function UnitPairs(units: seq<ProController>): seq<(Device, Option<Device>)>
  {
    if units == [] then []
    else UnitPairs(units[..|units| - 1]) + [(units[|units| - 1].left, units[|units| - 1].right)]
  }

  lemma UnitPairsSnoc(units: seq<ProController>, c: ProController)
    ensures UnitPairs(units + [c]) == UnitPairs(units) + [(c.left, c.right)]
  {
    assert (units + [c])[..|units|] == units;
  }

  /** How the pairing loop ends: the pool is empty, a unit could not be formed,
      or the passes ran out while an attempt was waiting. */
  datatype PlanEnd = AllPaired | PairFailed(error: IoError) | PairStalled

  /** The units the pairing forms, as their devices, the calls it makes, and how
      it ends. */
  datatype PairPlan = PairPlan(pairs: seq<(Device, Option<Device>)>, effects: seq<Effect>, end: PlanEnd)

  /** The devices an attempt took and the pool it left all have names that
      fit a uinput name. */
  predicate TakenFits(t: Taken)
  {
    && NameFits(t.left) && (t.right.Some? ==> NameFits(t.right.value))
    && forall d :: d in t.rest ==> NameFits(d)
  }

  /** `make_pairings_into_controllers` from the pool `pool` and pass `from`
      on, with `k` units formed so far and the next call becoming log entry
      `at`: an empty pool ends it, otherwise an attempt is made. */
  function PairingSpec(h: Host, pool: seq<Device>, passes: seq<Pass>, from: nat, k: nat, at: nat): PairPlan
    requires from <= |passes|
    requires forall d :: d in pool ==> NameFits(d)
    decreases |passes| - from, 3
  {
    if pool == [] then PairPlan([], [], AllPaired) else AwaitSpec(h, pool, passes, from, k, at)
  }

  /** An attempt from pass `from`: it waits for the first end position that
      fills both slots, or stalls when there is none, and takes the devices of
      the slots out with `swap_remove` (`TakeUnit`). */
  function AwaitSpec(h: Host, pool: seq<Device>, passes: seq<Pass>, from: nat, k: nat, at: nat): PairPlan
    requires from <= |passes|
    requires pool != [] && forall d :: d in pool ==> NameFits(d)
    decreases |passes| - from, 2
  {
    match FirstReady(|pool|, passes, from, from)
    case None => PairPlan([], [], PairStalled)
    case Some(end) =>
      var s := SlotsBetween(|pool|, passes, from, end);
      TakenFromPool(pool, s.left.value, s.right.value);
      AttemptSpec(h, TakeUnit(pool, s.left.value, s.right.value), passes, end, k, at)
  }

  /** The attempt that took `t` and ended before pass `end`, and the pairing
      that follows it: a ProCon paired with another device is pushed back,
      left then right, and the pairing goes on; otherwise the unit is formed. */
  function AttemptSpec(h: Host, t: Taken, passes: seq<Pass>, end: nat, k: nat, at: nat): PairPlan
    requires end <= |passes| && TakenFits(t)
    decreases |passes| - end + 1, 1
  {
    if MixesProCon(t.left, t.right) then
      PairingSpec(h, t.rest + [t.left, t.right.value], passes, end, k, at)
    else
      FormSpec(h, t, passes, end, k, at)
  }

  /** The unit of `t` is formed with player index k + 1 and the pairing goes
      on from the rest of the pool; a failure to form it ends the pairing. */
  function FormSpec(h: Host, t: Taken, passes: seq<Pass>, end: nat, k: nat, at: nat): PairPlan
    requires end <= |passes| && TakenFits(t)
    decreases |passes| - end + 1, 0
  {
    var o := FormUnitSpec(h, t.left, t.right, PlayerIndex(k), at);
    if o.result.Err? then PairPlan([], o.effects, PairFailed(o.result.error))
    else
      var next := PairingSpec(h, t.rest, passes, end, k + 1, at + |o.effects|);
      PairPlan([(t.left, t.right)] + next.pairs, o.effects + next.effects, next.end)
  }

  /** No pair joins a ProCon with another device. */
  predicate NoMixedPairs(pairs: seq<(Device, Option<Device>)>)
  {
    forall i :: 0 <= i < |pairs| ==> !MixesProCon(pairs[i].0, pairs[i].1)
  }

  /** No unit of the plan pairs a ProCon with another device: a chord that
      would is always pushed back. */
  lemma {:induction false} PlanNeverMixes(h: Host, pool: seq<Device>, passes: seq<Pass>, from: nat, k: nat, at: nat)
    requires from <= |passes|
    requires forall d :: d in pool ==> NameFits(d)
    ensures NoMixedPairs(PairingSpec(h, pool, passes, from, k, at).pairs)
    decreases |passes| - from, 1
  {
    if pool != [] {
      match FirstReady(|pool|, passes, from, from)
      case None =>
      case Some(end) =>
        var s := SlotsBetween(|pool|, passes, from, end);
        TakenFromPool(pool, s.left.value, s.right.value);
        var t := TakeUnit(pool, s.left.value, s.right.value);
        assert PairingSpec(h, pool, passes, from, k, at) == AttemptSpec(h, t, passes, end, k, at);
        if MixesProCon(t.left, t.right) {
          PlanNeverMixes(h, t.rest + [t.left, t.right.value], passes, end, k, at);
        } else {
          FormNeverMixes(h, t, passes, end, k, at);
        }
    }
  }

  /** The unit formed from `t`, when `t` does not mix, is followed only by
      units that do not mix. */
  lemma {:induction false} FormNeverMixes(h: Host, t: Taken, passes: seq<Pass>, end: nat, k: nat, at: nat)
    requires end <= |passes| && TakenFits(t) && !MixesProCon(t.left, t.right)
    ensures NoMixedPairs(FormSpec(h, t, passes, end, k, at).pairs)
    decreases |passes| - end + 1, 0
  {
    var o := FormUnitSpec(h, t.left, t.right, PlayerIndex(k), at);
    if o.result.Ok? {
      var next := PairingSpec(h, t.rest, passes, end, k + 1, at + |o.effects|);
      PlanNeverMixes(h, t.rest, passes, end, k + 1, at + |o.effects|);
      var pairs := [(t.left, t.right)] + next.pairs;
      assert FormSpec(h, t, passes, end, k, at).pairs == pairs;
      forall i | 0 <= i < |pairs|
        ensures !MixesProCon(pairs[i].0, pairs[i].1)
      {
        if i > 0 {
          assert pairs[i] == next.pairs[i - 1];
        }
      }
    }
  }

  /** Regrouping a concatenation, stated on its own so that the pairing proofs
      need not search for it. */
  lemma Regroup<T>(a: seq<T>, b: seq<T>, c: seq<T>)
    ensures a + (b + c) == (a + b) + c
  {
  }

  /** `make_pairings_into_controllers`: attempts until the pool is empty, the
      passes run out, or a unit cannot be formed. The calls, the units and the
      way it ends are those of `PairingSpec`. */
  method MakePairings(host: Host, devices: seq<Device>, passes: seq<Pass>) returns (r: Pairing)
    requires forall d :: d in devices ==> NameFits(d)
    modifies host
    ensures old(host.log) <= host.log && NoGrabCalls(host.log[|old(host.log)|..])
    ensures devices == [] ==> r == Formed([]) && host.log == old(host.log)
    ensures r.Failed? ==> r.error == Os || r.error == NotFound
    ensures r.Formed? ==>
              && SameDevices(AllMembers(r.units), devices)
              && forall k :: 0 <= k < |r.units| ==> WellFormedUnit(r.units[k], k)
    ensures var p := PairingSpec(host, devices, passes, 0, 0, |old(host.log)|);
      && host.log == old(host.log) + p.effects
      && (r.Formed? <==> p.end.AllPaired?)
      && (r.Stalled? <==> p.end.PairStalled?)
      && (r.Failed? ==> p.end == PairFailed(r.error))
      && (r.Formed? ==> UnitPairs(r.units) == p.pairs)
  {
    var pool := devices;
    var devicesLeft := |pool|;
    var playerId := 1;
    var procons: seq<ProController> := [];
    var pos := 0;
    ghost var written: seq<Effect> := [];
    ghost var whole := PairingSpec(host, devices, passes, 0, 0, |host.log|);
    while devicesLeft > 0
      invariant devicesLeft == |pool| && pos <= |passes|
      invariant Accounted(pool, AllMembers(procons), devices)
      invariant playerId == |procons| + 1
      invariant forall k :: 0 <= k < |procons| ==> WellFormedUnit(procons[k], k)
      invariant host.log == old(host.log) + written && NoGrabCalls(written)
      invariant devices == [] ==> written == [] && procons == []
      invariant forall d :: d in pool ==> NameFits(d)
      invariant Tracks(host, whole, |old(host.log)|, written, pool, passes, pos, procons)
      decreases |passes| - pos
    {
      assert Count(pool, pool[|pool| - 1]) > 0;  // so the listing is not empty
      var taken, stop;
      pool, pos, procons, taken, stop, written := PairStep(host, devices, whole, old(host.log), written, pool, passes, pos, procons);
      if stop.Some? {
        return stop.value;
      }
      devicesLeft := devicesLeft - taken;
      playerId := |procons| + 1;
    }
    assert pool == [];
    assert forall d :: Count(pool, d) + Count(AllMembers(procons), d) == Count(AllMembers(procons), d);
    r := Formed(procons);
  }

  /** The pairing loop, at log entry `start` plus the calls `written` made so
      far, is on course for the plan `whole`: what is left to do from `pool`,
      the pass `pos` and the units `procons` completes it. */
  predicate Tracks(h: Host, whole: PairPlan, start: nat, written: seq<Effect>, pool: seq<Device>, passes: seq<Pass>, pos: nat, procons: seq<ProController>)
    requires pos <= |passes| && forall d :: d in pool ==> NameFits(d)
  {
    var now := PairingSpec(h, pool, passes, pos, |procons|, start + |written|);
    && whole.effects == written + now.effects
    && whole.pairs == UnitPairs(procons) + now.pairs
    && whole.end == now.end
  }

  /** One turn of the pairing loop's body, keeping the loop on course for
      `whole`; when the attempt ends the loop, the calls made are all of
      `whole`'s and the result is its end. */
  method PairStep(host: Host, ghost devices: seq<Device>, ghost whole: PairPlan, ghost log0: seq<Effect>, ghost written: seq<Effect>,
                  pool: seq<Device>, passes: seq<Pass>, pos: nat, procons: seq<ProController>)
      returns (pool': seq<Device>, pos': nat, procons': seq<ProController>, taken: nat, stop: Option<Pairing>, ghost written': seq<Effect>)
    requires pos <= |passes|
    requires pool != [] && forall d :: d in pool ==> NameFits(d)
    requires Accounted(pool, AllMembers(procons), devices)
    requires forall k :: 0 <= k < |procons| ==> WellFormedUnit(procons[k], k)
    requires host.log == log0 + written && NoGrabCalls(written)
    requires Tracks(host, whole, |log0|, written, pool, passes, pos, procons)
    modifies host
    ensures host.log == log0 + written' && NoGrabCalls(written') && |written'| >= |written|
    ensures stop.Some? ==>
      && whole.effects == written'
      && (stop.value.Stalled? <==> whole.end.PairStalled?)
      && (stop.value.Failed? ==> whole.end == PairFailed(stop.value.error))
      && (stop.value.Stalled? || stop.value.Failed?)
      && (stop.value.Failed? ==> stop.value.error == Os || stop.value.error == NotFound)
    ensures stop.None? ==>
      && pos < pos' <= |passes| && |pool'| == |pool| - taken
      && (forall d :: d in pool' ==> NameFits(d))
      && Accounted(pool', AllMembers(procons'), devices)
      && (forall k :: 0 <= k < |procons'| ==> WellFormedUnit(procons'[k], k))
      && Tracks(host, whole, |log0|, written', pool', passes, pos', procons')
  {
    ghost var calls;
    pool', pos', procons', taken, stop, calls := PairOnce(host, devices, pool, passes, pos, procons);
    NoGrabCallsAppend(written, calls);
    written' := written + calls;
    assert host.log == log0 + written';
    if stop.None? {
      ghost var after := PairingSpec(host, pool', passes, pos', |procons'|, |host.log|);
      Regroup(written, calls, after.effects);
    }
  }

  /** One attempt of the pairing loop (lines 48-119), from a non-empty pool and
      pass `pos`: wait for both slots, take the devices out, then push a mixed
      ProCon pair back or form the unit. `stop` is the loop's result when the
      attempt ends it; otherwise the loop goes on from the new pool, pass and
      units, with `taken` devices fewer left. */
  method PairOnce(host: Host, ghost devices: seq<Device>, pool: seq<Device>, passes: seq<Pass>, pos: nat, procons: seq<ProController>)
      returns (pool': seq<Device>, pos': nat, procons': seq<ProController>, taken: nat, stop: Option<Pairing>, ghost calls: seq<Effect>)
    requires pos <= |passes|
    requires pool != [] && forall d :: d in pool ==> NameFits(d)
    requires Accounted(pool, AllMembers(procons), devices)
    requires forall k :: 0 <= k < |procons| ==> WellFormedUnit(procons[k], k)
    modifies host
    ensures host.log == old(host.log) + calls && NoGrabCalls(calls)
    ensures stop.Some? ==> stop.value.Stalled? || (stop.value.Failed? && (stop.value.error == Os || stop.value.error == NotFound))
    ensures var before := PairingSpec(host, pool, passes, pos, |procons|, |old(host.log)|);
      && (stop == Some(Stalled) ==> calls == [] && before == PairPlan([], [], PairStalled))
      && (stop.Some? && stop.value.Failed? ==> before == PairPlan([], calls, PairFailed(stop.value.error)))
    ensures stop.None? ==>
      && pos < pos' <= |passes| && |pool'| == |pool| - taken
      && (forall d :: d in pool' ==> NameFits(d))
      && Accounted(pool', AllMembers(procons'), devices)
      && (forall k :: 0 <= k < |procons'| ==> WellFormedUnit(procons'[k], k))
      && var before := PairingSpec(host, pool, passes, pos, |procons|, |old(host.log)|);
         var after := PairingSpec(host, pool', passes, pos', |procons'|, |host.log|);
         && before.effects == calls + after.effects
         && UnitPairs(procons) + before.pairs == UnitPairs(procons') + after.pairs
         && before.end == after.end
  {
    pool', pos', procons', taken, stop, calls := pool, pos, procons, 0, None, [];
    ghost var at := |host.log|;
    // Both slots start empty for every attempt.
    var chord, end := AwaitChord(|pool|, passes, pos);
    if chord.None? {
      return pool', pos', procons', taken, Some(Stalled), calls;
    }
    pos' := end;
    var t := TakeUnit(pool, chord.value.0, chord.value.1);
    TakenFromPool(pool, chord.value.0, chord.value.1);
    assert PairingSpec(host, pool, passes, pos, |procons|, at) == AttemptSpec(host, t, passes, end, |procons|, at);

    // Sanity check: a ProCon binds only with itself.
    if MixesProCon(t.left, t.right) {
      RejectionAccounting(pool, chord.value.0, chord.value.1, AllMembers(procons), devices);
      pool' := t.rest + [t.left, t.right.value];
      return;
    }
    taken := 1;
    if t.right.Some? {
      taken := 2;
    }
    TakeUnitAccounting(pool, chord.value.0, chord.value.1, AllMembers(procons), devices);
    pool' := t.rest;
    procons', stop, calls := FormStep(host, devices, t, passes, end, procons);
  }

  /** Lines 101-119: the attempt took devices `t` that may form a unit; it is
      formed with the next player index and pushed, or its error ends the
      loop. */
  method FormStep(host: Host, ghost devices: seq<Device>, t: Taken, passes: seq<Pass>, end: nat, procons: seq<ProController>)
      returns (procons': seq<ProController>, stop: Option<Pairing>, ghost calls: seq<Effect>)
    requires end <= |passes| && TakenFits(t) && !MixesProCon(t.left, t.right)
    requires Accounted(t.rest, AllMembers(procons) + Members(t.left, t.right), devices)
    requires forall k :: 0 <= k < |procons| ==> WellFormedUnit(procons[k], k)
    modifies host
    ensures host.log == old(host.log) + calls && NoGrabCalls(calls)
    ensures stop.Some? ==> stop.value.Failed? && (stop.value.error == Os || stop.value.error == NotFound)
    ensures var plan := FormSpec(host, t, passes, end, |procons|, |old(host.log)|);
      && (stop.Some? ==> plan == PairPlan([], calls, PairFailed(stop.value.error)))
      && (stop.None? ==>
            && Accounted(t.rest, AllMembers(procons'), devices)
            && (forall k :: 0 <= k < |procons'| ==> WellFormedUnit(procons'[k], k))
            && var after := PairingSpec(host, t.rest, passes, end, |procons'|, |host.log|);
               && plan.effects == calls + after.effects
               && UnitPairs(procons) + plan.pairs == UnitPairs(procons') + after.pairs
               && plan.end == after.end)
  {
    ghost var at := |host.log|;
    procons', stop := procons, None;
    var made;
    made, calls := AddUnit(host, procons, t.left, t.right);
    if made.Err? {
      return procons', Some(Failed(made.error)), calls;
    }
    var unit := made.value[|procons|];
    UnitPairsSnoc(procons, unit);
    assert made.value == procons + [unit];
    procons' := made.value;
    assert |host.log| == at + |calls| && |procons'| == |procons| + 1;
    ghost var next := PairingSpec(host, t.rest, passes, end, |procons'|, |host.log|);
    assert FormSpec(host, t, passes, end, |procons|, at) == PairPlan([(t.left, t.right)] + next.pairs, calls + next.effects, next.end);
    Regroup(UnitPairs(procons), [(unit.left, unit.right)], next.pairs);
  }

  // ---------------------------------------------------------------------------
  // Exclusive capture of all units (`grab_all_controllers`, `ungrab_all_controllers`)
  // ---------------------------------------------------------------------------

  /** A pass of `grab` or `ungrab` over the units, the first call becoming log
      entry `at`, that stops at the first unit that fails and returns its error. */
  function GrabPass(h: Host, units: seq<ProController>, mode: GrabMode, at: nat): Outcome
  {
    if units == [] then Outcome([], Ok(()))
    else
      var done := GrabPass(h, units[..|units| - 1], mode, at);
      if done.result.Err? then done
      else
        var last := units[|units| - 1];
        var unit := UnitGrabSpec(h, last.left, last.right, mode, at + |done.effects|);
        Outcome(done.effects + unit.effects, unit.result)
  }

  /** The same pass over pairs of devices rather than units: a pass reads
      nothing of a unit but its two devices. */
  function PairsPass(h: Host, pairs: seq<(Device, Option<Device>)>, mode: GrabMode, at: nat): Outcome
  {
    if pairs == [] then Outcome([], Ok(()))
    else
      var done := PairsPass(h, pairs[..|pairs| - 1], mode, at);
      if done.result.Err? then done
      else
        var last := pairs[|pairs| - 1];
        var unit := UnitGrabSpec(h, last.0, last.1, mode, at + |done.effects|);
        Outcome(done.effects + unit.effects, unit.result)
  }

  /** A pass over units makes the calls, with the results, of the pass over
      their pairs of devices. */
  lemma {:induction false} GrabPassIsPairsPass(h: Host, units: seq<ProController>, mode: GrabMode, at: nat)
    ensures GrabPass(h, units, mode, at) == PairsPass(h, UnitPairs(units), mode, at)
    decreases |units|
  {
    if units != [] {
      var init := units[..|units| - 1];
      GrabPassIsPairsPass(h, init, mode, at);
      assert UnitPairs(units)[..|UnitPairs(units)| - 1] == UnitPairs(init);
    }
  }

  /** One more unit after a prefix that succeeded adds that unit's calls. */
  lemma GrabPassStep(h: Host, units: seq<ProController>, i: nat, mode: GrabMode, at: nat)
    requires i < |units|
    requires GrabPass(h, units[..i], mode, at).result.Ok?
    ensures var done := GrabPass(h, units[..i], mode, at);
      var unit := UnitGrabSpec(h, units[i].left, units[i].right, mode, at + |done.effects|);
      GrabPass(h, units[..i + 1], mode, at) == Outcome(done.effects + unit.effects, unit.result)
  {
    assert units[..i + 1][..i] == units[..i];
  }

  /** Once a prefix of the units fails, the rest of the units are not touched. */
  lemma {:induction false} GrabPassStopsAtFailure(h: Host, units: seq<ProController>, k: nat, mode: GrabMode, at: nat)
    requires k <= |units|
    requires GrabPass(h, units[..k], mode, at).result.Err?
    ensures GrabPass(h, units, mode, at) == GrabPass(h, units[..k], mode, at)
    decreases |units| - k
  {
    if k < |units| {
      assert units[..k + 1][..k] == units[..k];
      GrabPassStopsAtFailure(h, units, k + 1, mode, at);
    } else {
      assert units[..k] == units;
    }
  }

  /** The calls of a pass are `mode` calls on the members of the units, in
      unit order and left before right, the i-th becoming log entry at + i; a
      pass that succeeds called every member. */
  lemma {:induction false} GrabPassCalls(h: Host, units: seq<ProController>, mode: GrabMode, at: nat)
    ensures var o := GrabPass(h, units, mode, at);
      var members := AllMembers(units);
      && |o.effects| <= |members|
      && (forall i :: 0 <= i < |o.effects| ==> o.effects[i] == GrabCall(members[i].handle, mode, h.CallOk(at + i)))
      && (o.result.Ok? ==> |o.effects| == |members|)
    decreases |units|
  {
    if units != [] {
      var init := units[..|units| - 1];
      var c := units[|units| - 1];
      assert units == init + [c];
      GrabPassCalls(h, init, mode, at);
      AllMembersSnoc(init, c);
      var done := GrabPass(h, init, mode, at);
      if done.result.Ok? {
        var unit := UnitGrabSpec(h, c.left, c.right, mode, at + |done.effects|);
        UnitGrabCalls(h, c.left, c.right, mode, at + |done.effects|);
        var o := GrabPass(h, units, mode, at);
        var members := AllMembers(units);
        assert o.effects == done.effects + unit.effects;
        forall i | 0 <= i < |o.effects|
          ensures o.effects[i] == GrabCall(members[i].handle, mode, h.CallOk(at + i))
        {
          if i >= |done.effects| {
            assert o.effects[i] == unit.effects[i - |done.effects|];
            assert members[i] == Members(c.left, c.right)[i - |done.effects|];
          }
        }
      }
    }
  }

  /** A pass fails only with a kernel error, and its last call is the one that
      failed; a release pass that succeeds made only successful calls. */
  lemma {:induction false} GrabPassResult(h: Host, units: seq<ProController>, mode: GrabMode, at: nat)
    ensures var o := GrabPass(h, units, mode, at);
      && (o.result.Err? ==> o.result.error == Os && |o.effects| > 0 && !o.effects[|o.effects| - 1].ok)
      && (o.result.Ok? && mode == Ungrab ==> forall i :: 0 <= i < |o.effects| ==> o.effects[i].ok)
    decreases |units|
  {
    if units != [] {
      var init := units[..|units| - 1];
      var c := units[|units| - 1];
      GrabPassResult(h, init, mode, at);
      var done := GrabPass(h, init, mode, at);
      if done.result.Ok? {
        var unit := UnitGrabSpec(h, c.left, c.right, mode, at + |done.effects|);
        UnitGrabCalls(h, c.left, c.right, mode, at + |done.effects|);
        var o := GrabPass(h, units, mode, at);
        assert o.effects == done.effects + unit.effects;
        if o.result.Ok? && mode == Ungrab {
          forall i | 0 <= i < |o.effects|
            ensures o.effects[i].ok
          {
            if i >= |done.effects| {
              assert o.effects[i] == unit.effects[i - |done.effects|];
            }
          }
        }
      }
    }
  }

  /** `grab` or `ungrab` on one unit. */
  method UnitCall(host: Host, c: ProController, mode: GrabMode) returns (r: Res<()>)
    modifies host
    ensures host.log == old(host.log) + UnitGrabSpec(host, c.left, c.right, mode, |old(host.log)|).effects
    ensures r == UnitGrabSpec(host, c.left, c.right, mode, |old(host.log)|).result
  {
    if mode == GrabMode.Grab {
      r := c.Grab(host);
    } else {
      r := c.Ungrab(host);
    }
  }

  /** The loop shared by both functions: each unit in order, stopping at the
      first error. */
  method EachUnit(host: Host, controllers: seq<ProController>, mode: GrabMode) returns (r: Res<()>)
    modifies host
    ensures host.log == old(host.log) + GrabPass(host, controllers, mode, |old(host.log)|).effects
    ensures r == GrabPass(host, controllers, mode, |old(host.log)|).result
  {
    ghost var start := |host.log|;
    var i := 0;
    while i < |controllers|
      invariant i <= |controllers|
      invariant GrabPass(host, controllers[..i], mode, start).result.Ok?
      invariant host.log == old(host.log) + GrabPass(host, controllers[..i], mode, start).effects
    {
      ghost var before := host.log;
      ghost var done := GrabPass(host, controllers[..i], mode, start);
      var res := UnitCall(host, controllers[i], mode);
      GrabPassStep(host, controllers, i, mode, start);
      ghost var next := GrabPass(host, controllers[..i + 1], mode, start);
      assert host.log == old(host.log) + next.effects by {
        assert |before| == start + |done.effects|;
        assert next.effects == done.effects + (host.log[|before|..]);
      }
      if res.Err? {
        GrabPassStopsAtFailure(host, controllers, i + 1, mode, start);
        return res;
      }
      i := i + 1;
    }
    assert controllers[..i] == controllers;
    r := Ok(());
  }

  /** `grab_all_controllers`. */
  method GrabAllControllers(host: Host, controllers: seq<ProController>) returns (r: Res<()>)
    modifies host
    ensures host.log == old(host.log) + GrabPass(host, controllers, GrabMode.Grab, |old(host.log)|).effects
    ensures r == GrabPass(host, controllers, GrabMode.Grab, |old(host.log)|).result
  {
    r := EachUnit(host, controllers, GrabMode.Grab);
  }

  /** `ungrab_all_controllers`. */
  method UngrabAllControllers(host: Host, controllers: seq<ProController>) returns (r: Res<()>)
    modifies host
    ensures host.log == old(host.log) + GrabPass(host, controllers, GrabMode.Ungrab, |old(host.log)|).effects
    ensures r == GrabPass(host, controllers, GrabMode.Ungrab, |old(host.log)|).result
  {
    r := EachUnit(host, controllers, GrabMode.Ungrab);
  }
}
