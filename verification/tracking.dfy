/** The tracking pass: the position controllers sent for every hand
    controller whose pose is usable. Controllers 1 and 2 carry the left
    hand's x and y, controllers 3 and 4 the right hand's. */
module Tracking {
  import opened Results
  import opened VrInput
  import opened Settings
  import opened Buttons
  import Midi
  import Normalize

  /** The controller numbers sent for a hand, in sending order. */
  function SelectControllers(e: ControllerEnablement, h: Hand): (r: seq<int>)
    ensures h == Left ==> forall i :: 0 <= i < |r| ==> r[i] == 1 || r[i] == 2
    ensures h == Right ==> forall i :: 0 <= i < |r| ==> r[i] == 3 || r[i] == 4
    ensures forall i, j :: 0 <= i < j < |r| ==> r[i] < r[j]
  {
    if h == Left then
      (if e == All || e == LeftX then [1] else []) + (if e == All || e == LeftY then [2] else [])
    else
      (if e == All || e == RightX then [3] else []) + (if e == All || e == RightY then [4] else [])
  }

  /** The flag that enables controller `n` in 1..4. */
  function ControllerBit(n: int): bv4
    requires 1 <= n <= 4
  {
    if n == 1 then 0x1 else if n == 2 then 0x2 else if n == 3 then 0x4 else 0x8
  }

  function HandOfController(n: int): Hand
    requires 1 <= n <= 4
  {
    if n <= 2 then Left else Right
  }

  /** Comparing the setting for equality selects exactly the controllers a
      bit test of its declared flags would select. */
  lemma SelectionMatchesMask(e: ControllerEnablement, n: int)
    requires 1 <= n <= 4
    ensures n in SelectControllers(e, HandOfController(n)) <==> Mask(e) & ControllerBit(n) != 0
  {
  }

  /** All enables the four controllers, none enables none, and each
      single-axis setting enables exactly its one controller. */
  lemma EnablementModes(e: ControllerEnablement)
    ensures var sent := SelectControllers(e, Left) + SelectControllers(e, Right);
            && (e == All ==> sent == [1, 2, 3, 4])
            && (e == NoControllers ==> sent == [])
            && (e == LeftX ==> sent == [1])
            && (e == LeftY ==> sent == [2])
            && (e == RightX ==> sent == [3])
            && (e == RightY ==> sent == [4])
  {
  }

  /** The pose of a device the tracking pass sends controllers for, if any:
      a connected controller whose state query succeeded, whose role is a
      hand and whose pose is connected and valid. */
  function UsablePose(d: Device): (r: Option<Pose>)
    ensures r.Some? <==>
              && d.deviceClass == Controller && d.connected && d.state.Some? && IsHand(d.role)
              && d.state.value.deviceIsConnected && d.state.value.poseIsValid
    ensures r.Some? ==> r == d.state
  {
    if d.deviceClass == Controller && d.connected then
      match d.state
      case None => None
      case Some(p) => if IsHand(d.role) && p.deviceIsConnected && p.poseIsValid then Some(p) else None
    else None
  }

  /** The value controller `n` carries for a pose: x controllers (odd) carry
      the mirrored x coordinate, y controllers (even) the plain y coordinate. */
  function AxisValue(s: Settings, p: Pose, n: int): (v: int)
    requires ValidSettings(s)
    ensures Midi.IsDataByte(v)
    ensures n % 2 == 1 ==> v == 127 - Normalize.NormalizeControllerValue(p.m3, s.minX, s.maxX)
    ensures n % 2 == 0 ==> v == Normalize.NormalizeControllerValue(p.m7, s.minY, s.maxY)
  {
    if n % 2 == 1 then Normalize.MirroredValue(p.m3, s.minX, s.maxX)
    else Normalize.NormalizeControllerValue(p.m7, s.minY, s.maxY)
  }

  /** Controller messages for the numbers `ns`, all with the pose's values. */
  function ControllerMessages(s: Settings, p: Pose, ns: seq<int>): (r: seq<Midi.Message>)
    requires ValidSettings(s)
    ensures |r| == |ns|
    ensures forall i :: 0 <= i < |r| ==> Midi.Interpret(r[i]) == Midi.ControlChanged(ns[i], AxisValue(s, p, ns[i]))
    ensures forall i :: 0 <= i < |r| ==> r[i].channel == s.channel
  {
    if ns == [] then []
    else [Midi.Controller(s.channel, ns[0], AxisValue(s, p, ns[0]))] + ControllerMessages(s, p, ns[1..])
  }

  /** The controller messages one entry of the device table produces. */
  function TrackDevice(s: Settings, d: Device): (r: seq<Midi.Message>)
    requires ValidSettings(s)
    ensures UsablePose(d).None? ==> r == []
    ensures UsablePose(d).Some? ==>
              var ns := SelectControllers(s.enablement, HandOf(d.role).value);
              && |r| == |ns|
              && forall i :: 0 <= i < |r| ==>
                   Midi.Interpret(r[i]) == Midi.ControlChanged(ns[i], AxisValue(s, UsablePose(d).value, ns[i]))
    ensures forall i :: 0 <= i < |r| ==> Midi.WellFormed(r[i]) && r[i].channel == s.channel
  {
    match UsablePose(d)
    case None => []
    case Some(p) =>
      var ns := SelectControllers(s.enablement, HandOf(d.role).value);
      var r := ControllerMessages(s, p, ns);
      assert forall i :: 0 <= i < |r| ==> Midi.WellFormed(r[i]) by {
        forall i | 0 <= i < |r| ensures Midi.WellFormed(r[i]) {
          assert r[i] == Midi.Controller(s.channel, ns[i], AxisValue(s, p, ns[i]));
        }
      }
      r
  }

  /** A usable left-hand pose sends only controllers 1 (x) then 2 (y), a
      right-hand pose only 3 (x) then 4 (y), every value within 0..127. */
  lemma TrackDeviceShape(s: Settings, d: Device, i: int)
    requires ValidSettings(s)
    requires 0 <= i < |TrackDevice(s, d)|
    ensures var m := Midi.Interpret(TrackDevice(s, d)[i]);
            && m.ControlChanged?
            && (d.role == LeftHand ==> m.number == 1 || m.number == 2)
            && (d.role == RightHand ==> m.number == 3 || m.number == 4)
            && Midi.IsDataByte(m.value)
            && (i > 0 ==> Midi.Interpret(TrackDevice(s, d)[i - 1]).number < m.number)
  {
    var ns := SelectControllers(s.enablement, HandOf(d.role).value);
    assert UsablePose(d).Some?;
    if i > 0 {
      assert ns[i - 1] < ns[i];
    }
  }

  /** The messages of the whole pass, device by device in table order. */
  function TrackingPass(s: Settings, devices: seq<Device>): (r: seq<Midi.Message>)
    requires ValidSettings(s)
    ensures |r| <= 2 * |devices|
    ensures forall i :: 0 <= i < |r| ==> Midi.WellFormed(r[i]) && Midi.Interpret(r[i]).ControlChanged?
    decreases |devices|
  {
    if devices == [] then []
    else
      var last := devices[|devices| - 1];
      TrackingPass(s, devices[..|devices| - 1]) + TrackDevice(s, last)
  }

  /** The pass as the program runs it: one loop over the device table. */
  method RunTrackingPass(s: Settings, devices: seq<Device>) returns (out: seq<Midi.Message>)
    requires ValidSettings(s)
    ensures out == TrackingPass(s, devices)
  {
    out := [];
    var id := 0;
    while id < |devices|
      invariant 0 <= id <= |devices|
      invariant out == TrackingPass(s, devices[..id])
    {
      assert devices[..id + 1][..id] == devices[..id];
      out := out + TrackDevice(s, devices[id]);
      id := id + 1;
    }
    assert devices[..id] == devices;
  }
}
