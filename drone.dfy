/**
 * The `DroneController` component: the fields the telemetry listener writes
 * and the frame update reads. `ListenForData` runs the receive loop over the
 * datagrams that arrive; `Update` makes one frame's control decision.
 */
module Drone {
  import opened Wrappers
  import opened Vectors
  import opened Text
  import opened Numbers
  import opened Telemetry
  import Control

  class DroneController {
    var speed: real
    var liftForce: real
    var rotationSpeed: real

    // The last values `float.TryParse` wrote.
    var viconX: real
    var viconY: real
    var viconZ: real

    // The four markers.
    var x1: real
    var x2: real
    var x3: real
    var x4: real
    var y1: real
    var y2: real
    var y3: real
    var y4: real
    var z1: real
    var z2: real
    var z3: real
    var z4: real

    var receivedData: string

    /**
     * The field initialisers: default tuning, every coordinate 0. The source
     * leaves `receivedData` null; every successful receive assigns it before
     * it is read, so the empty string stands in for it.
     */
    constructor ()
      ensures Tuning() == Control.DefaultTuning
      ensures Listener(0) == ListenerState(0, [Zero, Zero, Zero, Zero], Zero, "")
    {
      speed, liftForce, rotationSpeed := 5.0, 10.0, 100.0;
      viconX, viconY, viconZ := 0.0, 0.0, 0.0;
      x1, x2, x3, x4 := 0.0, 0.0, 0.0, 0.0;
      y1, y2, y3, y4 := 0.0, 0.0, 0.0, 0.0;
      z1, z2, z3, z4 := 0.0, 0.0, 0.0, 0.0;
      receivedData := "";
    }

    function Slots(): Slots
      reads this`x1, this`x2, this`x3, this`x4, this`y1, this`y2, this`y3, this`y4,
            this`z1, this`z2, this`z3, this`z4
    {
      [Vec3(x1, y1, z1), Vec3(x2, y2, z2), Vec3(x3, y3, z3), Vec3(x4, y4, z4)]
    }

    function Vicon(): Vec3
      reads this`viconX, this`viconY, this`viconZ
    {
      Vec3(viconX, viconY, viconZ)
    }

    /** The listener's state, with the loop counter `i` (a local of ListenForData) supplied. */
    function Listener(i: nat): ListenerState
      reads this`receivedData, this`viconX, this`viconY, this`viconZ,
            this`x1, this`x2, this`x3, this`x4, this`y1, this`y2, this`y3, this`y4,
            this`z1, this`z2, this`z3, this`z4
    {
      ListenerState(i, Slots(), Vicon(), receivedData)
    }

    function Tuning(): Control.Tuning
      reads this`speed, this`liftForce, this`rotationSpeed
    {
      Control.Tuning(speed, liftForce, rotationSpeed)
    }

    function Heights(): Control.Heights
      reads this`z1, this`z2, this`z3, this`z4
    {
      Control.Heights(z1, z2, z3, z4)
    }

    /**
     * The receive loop, over the datagrams that arrive in order. The counter
     * `i` starts at 0; each datagram is handled as Telemetry.Step describes.
     */
    method ListenForData(datagrams: seq<Datagram>)
      modifies this`receivedData, this`viconX, this`viconY, this`viconZ,
               this`x1, this`x2, this`x3, this`x4, this`y1, this`y2, this`y3, this`y4,
               this`z1, this`z2, this`z3, this`z4
      ensures var r := Run(old(Listener(0)), datagrams);
              Slots() == r.slots && Vicon() == r.vicon && receivedData == r.received
      ensures Tuning() == old(Tuning())
    {
      var i: nat := 0;
      for n := 0 to |datagrams|
        invariant i < 4
        invariant Listener(i) == Run(old(Listener(0)), datagrams[..n])
        invariant Tuning() == old(Tuning())
      {
        assert datagrams[..n + 1][..n] == datagrams[..n];
        i := HandleDatagram(i, datagrams[n]);
      }
      assert datagrams[..|datagrams|] == datagrams;
    }

    /** The body of the receive loop, for the datagram `d`, with the counter `i` before and `next` after. */
    method HandleDatagram(i: nat, d: Datagram) returns (next: nat)
      requires i < 4
      modifies this`receivedData, this`viconX, this`viconY, this`viconZ,
               this`x1, this`x2, this`x3, this`x4, this`y1, this`y2, this`y3, this`y4,
               this`z1, this`z2, this`z3, this`z4
      ensures next < 4
      ensures Listener(next) == Step(old(Listener(i)), d)
      ensures Tuning() == old(Tuning())
    {
      next := i;
      if d.ReceiveFailed? {
        return;  // the exception is caught and logged
      }
      StepReceived(Listener(i), d.text);
      receivedData := d.text;
      next := HandlePayload(i);
    }

    /**
     * Lines 118-167 for the payload in `receivedData`: check the prefix of
     * marker `i + 1`, strip it, trim, split, and parse and store the tokens.
     */
    method HandlePayload(i: nat) returns (next: nat)
      requires i < 4
      modifies this`viconX, this`viconY, this`viconZ,
               this`x1, this`x2, this`x3, this`x4, this`y1, this`y2, this`y3, this`y4,
               this`z1, this`z2, this`z3, this`z4
      ensures next < 4
      ensures Listener(next) == Commit(old(Listener(i)), receivedData, Decode(receivedData, i, old(Vicon())))
    {
      next := i;
      var markerPrefix := MarkerPrefix(i);
      if !StartsWith(receivedData, markerPrefix) {
        return;  // unexpected marker: skipped
      }
      var markerData := Trim(RemoveAll(receivedData, markerPrefix));
      var parts := Split(markerData, ' ');
      if |parts| != 3 {
        return;  // not three components: skipped
      }
      assert parts == Tokens(receivedData, i);
      next := ParseAndStore(i, parts);
    }

    /**
     * Lines 137-161 for the three tokens `parts`: parse each value into
     * viconX/Y/Z, and when all three parse store them in marker `i + 1`.
     */
    method ParseAndStore(i: nat, parts: seq<string>) returns (next: nat)
      requires i < 4 && |parts| == 3
      modifies this`viconX, this`viconY, this`viconZ,
               this`x1, this`x2, this`x3, this`x4, this`y1, this`y2, this`y3, this`y4,
               this`z1, this`z2, this`z3, this`z4
      ensures next < 4
      ensures Listener(next) == Commit(old(Listener(i)), receivedData, ParseFields(parts, old(Vicon())))
    {
      next := i;
      // float.TryParse(parts[k].Split('=')[1], out ...) for k = 0, 1, 2, joined by &&;
      // a token without '=' throws, and the exception is caught and logged.
      var f0 := FieldValue(parts[0]);
      if f0.None? {
        return;
      }
      var p0 := ParseNumber(f0.value);
      viconX := OrZero(p0);
      if p0.None? {
        return;
      }
      var f1 := FieldValue(parts[1]);
      if f1.None? {
        return;
      }
      var p1 := ParseNumber(f1.value);
      viconY := OrZero(p1);
      if p1.None? {
        return;
      }
      var f2 := FieldValue(parts[2]);
      if f2.None? {
        return;
      }
      var p2 := ParseNumber(f2.value);
      viconZ := OrZero(p2);
      if p2.None? {
        return;
      }
      next := Store(i);
    }

    /** Lines 142-161: `i++`, then `switch (i)` copies viconX/Y/Z into marker `i`; after marker 4, `i = 0`. */
    method Store(i: nat) returns (next: nat)
      requires i < 4
      modifies this`x1, this`x2, this`x3, this`x4, this`y1, this`y2, this`y3, this`y4,
               this`z1, this`z2, this`z3, this`z4
      ensures next == (i + 1) % 4
      ensures Slots() == old(Slots())[i := Vicon()]
    {
      next := i + 1;
      if next == 1 {
        x1, y1, z1 := viconX, viconY, viconZ;
      } else if next == 2 {
        x2, y2, z2 := viconX, viconY, viconZ;
      } else if next == 3 {
        x3, y3, z3 := viconX, viconY, viconZ;
      } else if next == 4 {
        x4, y4, z4 := viconX, viconY, viconZ;
        next := 0;  // reset after 4 markers
      }
    }

    /**
     * One frame: nothing is decided while the camera reference is missing;
     * otherwise the decision is taken from the current marker heights.
     */
    method Update(cameraPresent: bool, axisH: real, axisV: real) returns (cmd: Option<Control.Command>)
      ensures cameraPresent ==> cmd == Some(Control.Decide(Heights(), axisH, axisV, Tuning()))
      ensures !cameraPresent ==> cmd == None
    {
      if !cameraPresent {
        return None;
      }
      cmd := Some(Control.Decide(Heights(), axisH, axisV, Tuning()));
    }
  }
}
