/**
  The command that sets a group's fan duties: percentages to duties, model
  floors, the CL-series filter, right-attached reversal, slots and the payload.
 */
module Speed {
  import opened Types
  import Seqs

  const MAX_DUTY: Byte := 255
  const TOLERANCE: int := 5
  const EXACT_BELOW: Byte := 10

  /** The duty of `FLOOR_PERCENT`, the least a host can ask for. */
  const FLOOR_DUTY: Byte := 77

  function DutyFromPercent(percent: Byte): (duty: Byte)
    ensures percent == 0 <==> duty == 0
    ensures percent >= 100 <==> duty == MAX_DUTY
    ensures percent >= 30 <==> duty >= FLOOR_DUTY
    ensures percent <= 100 ==> -50 < 100 * duty - 255 * percent <= 50
  {
    (Min(percent, 100) * MAX_DUTY + 50) / 100
  }

  /** The first non-zero fan type byte. */
  function FirstFanType(types: seq<Byte>): Option<Byte> {
    if types == [] then None
    else if types[0] != 0 then Some(types[0])
    else FirstFanType(types[1..])
  }

  function Model(device: Device): Option<Byte> {
    var t := device.deviceType;
    if 1 <= t <= 11 || t == 65 || t == 66 || t == 88 then None
    else FirstFanType(device.fanTypes)
  }

  function MinPercent(device: Device): Byte {
    var t := device.deviceType;
    if 1 <= t <= 9 || t == 65 || t == 88 then 0
    else if t == 10 || t == 11 || t == 66 then 10
    else match Model(device)
      case None => 10
      case Some(m) =>
        if 20 <= m <= 26 || 59 <= m <= 62 then 14
        else if 28 <= m <= 31 || 36 <= m <= 39 || 51 <= m <= 58 then 11
        else if m == 63 then 8
        else 10
  }

  /** The lowest non-zero duty this device's fans run at. No model's floor reaches the engine's. */
  function MinDuty(device: Device): (floor: Byte)
    ensures floor <= 35
  {
    MinPercent(device) * MAX_DUTY / 100
  }

  predicate IsCooler(device: Device) {
    device.deviceType == 10 || device.deviceType == 11
  }

  predicate FiltersDuty(device: Device) {
    var model := Model(device);
    model.Some? && (40 <= model.value <= 42 || model.value == 126 || model.value == 127)
  }

  /** The device is of a type whose fans tell their model, and `model` is the first that is told. */
  ghost predicate HasModel(device: Device, model: Byte) {
    && !(1 <= device.deviceType <= 11) && device.deviceType !in {65, 66, 88}
    && model != 0
    && exists i :: 0 <= i < FANS_PER_GROUP && device.fanTypes[i] == model
         && forall j :: 0 <= j < i ==> device.fanTypes[j] == 0
  }

  lemma {:induction false} FirstFanTypeIs(types: seq<Byte>, model: Byte)
    ensures FirstFanType(types) == Some(model) <==>
      model != 0 && exists i :: 0 <= i < |types| && types[i] == model && forall j :: 0 <= j < i ==> types[j] == 0
  {
    if types != [] && types[0] == 0 {
      FirstFanTypeIs(types[1..], model);
      if i :| 0 <= i < |types| && types[i] == model && model != 0 && forall j :: 0 <= j < i ==> types[j] == 0 {
        assert types[1..][i - 1] == model && forall j :: 0 <= j < i - 1 ==> types[1..][j] == types[j + 1];
      }
      if i :| 0 <= i < |types[1..]| && types[1..][i] == model && forall j :: 0 <= j < i ==> types[1..][j] == 0 {
        assert types[i + 1] == model && forall j :: 1 <= j < i + 1 ==> types[j] == types[1..][j - 1];
      }
    }
  }

  lemma ModelIs(device: Device, model: Byte)
    ensures Model(device) == Some(model) <==> HasModel(device, model)
  {
    FirstFanTypeIs(device.fanTypes, model);
  }

  /** The CL series by its models: CL V1 and RL120, and CL V2. */
  lemma FiltersDutyIff(device: Device)
    ensures FiltersDuty(device) <==> exists m: Byte :: m in {40, 41, 42, 126, 127} && HasModel(device, m)
  {
    forall m: Byte ensures Model(device) == Some(m) <==> HasModel(device, m) {
      ModelIs(device, m);
    }
  }

  /** The floors by device type and model. */
  lemma FloorIs(device: Device)
    ensures MinDuty(device) == 0 <==> 1 <= device.deviceType <= 9 || device.deviceType in {65, 88}
    ensures MinDuty(device) == 35 <==> exists m: Byte :: (20 <= m <= 26 || 59 <= m <= 62) && HasModel(device, m)
    ensures MinDuty(device) == 28 <==>
      exists m: Byte :: (28 <= m <= 31 || 36 <= m <= 39 || 51 <= m <= 58) && HasModel(device, m)
    ensures MinDuty(device) == 20 <==> HasModel(device, 63)
    ensures MinDuty(device) in {0, 20, 25, 28, 35}
  {
    forall m: Byte ensures Model(device) == Some(m) <==> HasModel(device, m) {
      ModelIs(device, m);
    }
  }

  /** CL-series fans skip the duties 153 to 155. */
  function Filtered(device: Device, duty: Byte): Byte {
    if !FiltersDuty(device) then duty
    else if duty == 153 || duty == 154 then 152
    else if duty == 155 then 156
    else duty
  }

  function Raised(device: Device, duty: Byte): Byte {
    if 0 < duty < MinDuty(device) then MinDuty(device) else duty
  }

  /** Slots a device drives: its fans, and a cooler's pump in the last slot. */
  predicate InUse(device: Device, slot: nat) {
    slot < device.fanCount || (slot == FANS_PER_GROUP - 1 && IsCooler(device))
  }

  function Adjusted(device: Device, wanted: Quad, slot: nat): Byte
    requires slot < FANS_PER_GROUP
  {
    if InUse(device, slot) then Filtered(device, Raised(device, wanted[slot])) else 0
  }

  function Fans(device: Device): (fans: nat)
    ensures fans <= FANS_PER_GROUP
  {
    Min(device.fanCount, FANS_PER_GROUP)
  }

  /** Which wanted slot ends up in `slot`: right-attached chains take their fans in reverse. */
  function Source(device: Device, slot: nat): (source: nat)
    requires slot < FANS_PER_GROUP
    ensures source < FANS_PER_GROUP
    ensures source < Fans(device) <==> slot < Fans(device)
  {
    if device.rightAttach && slot < Fans(device) then Fans(device) - 1 - slot else slot
  }

  /** What a device is sent when `wanted` is asked of it. */
  function Prepared(device: Device, wanted: Quad): Quad {
    seq(FANS_PER_GROUP, slot requires 0 <= slot < FANS_PER_GROUP =>
      Adjusted(device, wanted, Source(device, slot)))
  }

  /** Turns the first `n` elements round, as a slice's `reverse` does. */
  method Reverse(a: array<Byte>, n: nat)
    requires n <= a.Length
    modifies a
    ensures forall k :: 0 <= k < n ==> a[k] == old(a[n - 1 - k])
    ensures forall k :: n <= k < a.Length ==> a[k] == old(a[k])
  {
    var i := 0;
    while i < n / 2
      invariant 0 <= i <= n / 2
      invariant forall k :: 0 <= k < i || n - i <= k < n ==> a[k] == old(a[n - 1 - k])
      invariant forall k :: i <= k < n - i || n <= k < a.Length ==> a[k] == old(a[k])
    {
      a[i], a[n - 1 - i] := a[n - 1 - i], a[i];
      i := i + 1;
    }
  }

  /** Edits the wanted duties slot by slot, then turns a right-attached prefix round in place. */
  method Prepare(device: Device, wanted: Quad) returns (result: Quad)
    ensures result == Prepared(device, wanted)
  {
    var duty := new Byte[FANS_PER_GROUP](i requires 0 <= i < FANS_PER_GROUP => wanted[i]);
    for slot := 0 to FANS_PER_GROUP
      invariant forall k :: 0 <= k < slot ==> duty[k] == Adjusted(device, wanted, k)
      invariant forall k :: slot <= k < FANS_PER_GROUP ==> duty[k] == wanted[k]
    {
      var pump := slot == FANS_PER_GROUP - 1 && IsCooler(device);
      if slot >= device.fanCount && !pump {
        duty[slot] := 0;
        continue;
      }
      if duty[slot] > 0 && duty[slot] < MinDuty(device) {
        duty[slot] := MinDuty(device);
      }
      if FiltersDuty(device) {
        duty[slot] := match duty[slot] case 153 => 152 case 154 => 152 case 155 => 156 case other => other;
      }
    }
    if device.rightAttach {
      var fans := Min(device.fanCount, FANS_PER_GROUP);
      if fans > 1 {
        Reverse(duty, fans);
      }
    }
    result := duty[..];
  }

  function UniformSlot(fanCount: Byte, percent: Byte, slot: nat): Byte {
    if slot < fanCount then DutyFromPercent(percent) else 0
  }

  /** The duties asked of a group for one percentage: the same on every fan it has. */
  function Uniform(fanCount: Byte, percent: Byte): Quad {
    seq(FANS_PER_GROUP, slot requires 0 <= slot < FANS_PER_GROUP => UniformSlot(fanCount, percent, slot))
  }

  /** A duty that keeps its fan running at the engine's floor or above, or leaves its slot unused. */
  predicate SafeDuty(duty: Byte) {
    duty == 0 || duty >= FLOOR_DUTY
  }

  /** Every one of the device's fans at the floor or above, every other slot off. */
  ghost predicate DrivesAllFans(device: Device, duty: Quad) {
    forall slot :: 0 <= slot < FANS_PER_GROUP ==>
      if slot < Fans(device) then duty[slot] >= FLOOR_DUTY else duty[slot] == 0
  }

  /** Neither the model floor, the CL filter nor the reversal takes a fan below the engine's floor. */
  lemma PreparedUniform(device: Device, percent: Byte)
    requires device.deviceType == 0 && percent >= 30
    ensures DrivesAllFans(device, Prepared(device, Uniform(device.fanCount, percent)))
    ensures forall slot :: 0 <= slot < Fans(device) ==>
      Prepared(device, Uniform(device.fanCount, percent))[slot] == Filtered(device, DutyFromPercent(percent))
  {
    var wanted := Uniform(device.fanCount, percent);
    forall slot | 0 <= slot < FANS_PER_GROUP
      ensures Prepared(device, wanted)[slot]
        == if slot < Fans(device) then Filtered(device, DutyFromPercent(percent)) else 0
    {
      assert wanted[Source(device, slot)] == if slot < Fans(device) then DutyFromPercent(percent) else 0;
    }
  }

  /**
    What any wanted duties become, slot by slot. Slots past the fans are off, but for a cooler's
    pump in the last; off stays off; less than the model's floor becomes the floor; the CL series
    gets 152 for 153 and 154, and 156 for 155; all else is as wanted. A right-attached chain has
    its fans in reverse.
   */
  lemma PreparedObeysModel(device: Device, wanted: Quad, slot: nat)
    requires slot < FANS_PER_GROUP
    ensures var fans := Min(device.fanCount, 4);
      var used := slot < fans || (slot == 3 && device.deviceType in {10, 11});
      var asked := wanted[if device.rightAttach && slot < fans then fans - 1 - slot else slot];
      var duty := Prepared(device, wanted)[slot];
      && (!used || asked == 0 ==> duty == 0)
      && (used && 0 < asked < MinDuty(device) ==> duty == MinDuty(device))
      && (used && asked >= MinDuty(device) ==>
            duty == if !FiltersDuty(device) || !(153 <= asked <= 155) then asked
                    else if asked == 155 then 156 else 152)
  {
    var source := Source(device, slot);
    assert InUse(device, source) <==> InUse(device, slot);
    assert Prepared(device, wanted)[slot] == Adjusted(device, wanted, source);
  }

  /** A fan's duty is as near as a byte can be to this percentage of full speed, up to what CL fans skip. */
  ghost predicate RunsAt(device: Device, duty: int, percent: int) {
    && (!FiltersDuty(device) ==> -50 < 100 * duty - 255 * percent <= 50)
    && (FiltersDuty(device) ==> -250 < 100 * duty - 255 * percent <= 150 && !(153 <= duty <= 155))
  }

  /** One percentage of 30 to 100 asked of a fan group is what all its fans run at. */
  lemma PreparedRunsAt(device: Device, percent: Byte, slot: nat)
    requires device.deviceType == 0 && 30 <= percent <= 100 && slot < FANS_PER_GROUP
    ensures var duty := Prepared(device, Uniform(device.fanCount, percent))[slot];
      if slot < Min(device.fanCount, 4) then RunsAt(device, duty, percent) else duty == 0
  {
    PreparedUniform(device, percent);
  }

  /** No two slots take from one: what is prepared rearranges the slots, it loses none. */
  lemma SourcesDiffer(device: Device, a: nat, b: nat)
    requires a < b < FANS_PER_GROUP
    ensures Source(device, a) != Source(device, b)
    ensures Source(device, Source(device, a)) == a
  {
  }

  lemma PreparedFullSpeed(device: Device)
    requires device.deviceType == 0
    ensures forall slot :: 0 <= slot < FANS_PER_GROUP ==>
      Prepared(device, Uniform(device.fanCount, 100))[slot] == if slot < Fans(device) then MAX_DUTY else 0
  {
    PreparedUniform(device, 100);
  }

  /** Preparing what was already prepared changes nothing but the direction of a right-attached chain. */
  lemma PreparedTwice(device: Device, wanted: Quad)
    ensures Prepared(device, Prepared(device, wanted)) == Prepared(device.(rightAttach := false), wanted)
  {
    var once, straight := Prepared(device, wanted), device.(rightAttach := false);
    assert Model(straight) == Model(device);
    forall slot | 0 <= slot < FANS_PER_GROUP
      ensures Prepared(device, once)[slot] == Prepared(straight, wanted)[slot]
    {
      var source := Source(device, slot);
      assert once[source] == Adjusted(device, wanted, slot);
      assert InUse(device, source) <==> InUse(device, slot);
      assert Source(straight, slot) == slot;
    }
  }

  predicate Near(reported: int, sent: int) {
    -TOLERANCE <= reported - sent <= TOLERANCE
  }

  function Apart(a: int, b: int): nat {
    if a >= b then a - b else b - a
  }

  /** The reported duties match those sent: within five of them, or exactly where ten or less was sent. */
  predicate Matches(reported: Quad, sent: Quad) {
    forall i :: 0 <= i < 4 ==>
      && (sent[i] <= 10 ==> reported[i] == sent[i])
      && (sent[i] > 10 ==> Apart(reported[i], sent[i]) <= 5)
  }

  lemma AcknowledgedIff(reported: Quad, sent: Quad)
    ensures Acknowledged(reported, sent) <==> Matches(reported, sent)
  {
  }

  /** Whether the duties a device reports match the ones sent to it. */
  predicate Acknowledged(reported: Quad, sent: Quad) {
    forall i :: 0 <= i < FANS_PER_GROUP ==>
      if sent[i] <= EXACT_BELOW then reported[i] == sent[i]
      else Near(reported[i], sent[i])
  }

  /** The 1-based position of `mac` among the devices bound to `master`, as a byte; 1 if it is not there. */
  function Slot(devices: seq<Device>, master: Mac, mac: Mac): Byte {
    var bound := Bound(devices, master);
    var index := Position(bound, mac);
    if index < |bound| then (index + 1) % 256 else 1
  }

  function BoundTo(master: Mac): Device -> bool {
    (d: Device) => d.masterMac == master
  }

  function Bound(devices: seq<Device>, master: Mac): seq<Device> {
    Seqs.Filter(devices, BoundTo(master))
  }

  function Position(devices: seq<Device>, mac: Mac): (index: nat)
    ensures index <= |devices|
    ensures index < |devices| ==> devices[index].mac == mac
    ensures forall k :: 0 <= k < index ==> devices[k].mac != mac
  {
    if devices == [] then 0 else if devices[0].mac == mac then 0 else 1 + Position(devices[1..], mac)
  }
}
