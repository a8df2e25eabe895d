/** Hardware-independent force arithmetic: mixing a frame to one torque, encoding a
    torque as the motor byte, and the seven-byte lg4ff reports that carry it. */
module ForceCore {
  import opened Optional
  import opened GoMath

  type Byte = x: int | 0 <= x < 256

  type Report = seq<Byte>

  const NEUTRAL: Byte := 0x80

  datatype ForceFrame = ForceFrame(constant: real, spring: real, damper: real, transient: real)

  function ResolveForceFrame(f: ForceFrame, masterGain: real): (r: real)
    ensures -1.0 <= r <= 1.0
  {
    Clamp((f.constant + f.transient) * masterGain, -1.0, 1.0)
  }

  /** Constant and transient force count alike, spring and damper not at all; the sum is scaled
      by the gain and cut at full scale. */
  lemma ResolveIsScaledSum(a: real, b: real, spring: real, damper: real, gain: real)
    ensures var r := ResolveForceFrame(ForceFrame(a, spring, damper, b), gain);
            && r == ResolveForceFrame(ForceFrame(b, 0.0, 0.0, a), gain)
            && (-1.0 <= (a + b) * gain <= 1.0 ==> r == a * gain + b * gain)
            && ((a + b) * gain > 1.0 ==> r == 1.0) && ((a + b) * gain < -1.0 ==> r == -1.0)
  {
    ScaledSum(a, b, gain);
    ScaledSum(b, a, gain);
  }

  lemma ScaledSum(a: real, b: real, gain: real)
    ensures (a + b) * gain == a * gain + b * gain
  {
  }

  function ClampByte(v: int): (r: Byte) {
    ClampInt(v, 0, 255)
  }

  function TorqueToWheelByte(torque: real): (r: Byte) {
    ClampByte(RoundToEven(128.0 + Clamp(torque, -1.0, 1.0) * 127.0))
  }

  function ConstantForce(force: Byte): (r: Report) {
    [0x11, 0x08, force, 0x80, 0x00, 0x00, 0x00]
  }

  const STOP: Report := [0xF3, 0x00, 0x00, 0x00, 0x00, 0x00, 0x00]

  /** The force byte a report would download, if it is a constant-force report. */
  function ForceByteOf(r: Report): (b: Option<Byte>) {
    if |r| == 7 && r[0] == 0x11 && r[1] == 0x08 then Some(r[2]) else None
  }

  /** The byte of a torque t is the rounded line 128 + 127 t; nothing is cut off. */
  lemma WheelByteIsRounding(t: real)
    ensures TorqueToWheelByte(t) == RoundToEven(128.0 + Clamp(t, -1.0, 1.0) * 127.0)
    ensures 1 <= TorqueToWheelByte(t) <= 255
  {
    RoundToEvenUnique(1.0, 1);
    RoundToEvenUnique(255.0, 255);
    RoundToEvenMonotone(1.0, 128.0 + Clamp(t, -1.0, 1.0) * 127.0);
    RoundToEvenMonotone(128.0 + Clamp(t, -1.0, 1.0) * 127.0, 255.0);
  }

  lemma WheelByteMonotone(t: real, u: real)
    requires t <= u
    ensures TorqueToWheelByte(t) <= TorqueToWheelByte(u)
  {
    RoundToEvenMonotone(128.0 + Clamp(t, -1.0, 1.0) * 127.0, 128.0 + Clamp(u, -1.0, 1.0) * 127.0);
  }

  /** Opposite torques land symmetrically about the neutral byte. */
  lemma WheelByteReflects(t: real)
    ensures TorqueToWheelByte(t) + TorqueToWheelByte(-t) == 256
  {
    hide RoundToEven, TorqueToWheelByte;
    WheelByteIsRounding(t);
    WheelByteIsRounding(-t);
    var y := 128.0 + Clamp(t, -1.0, 1.0) * 127.0;
    assert 128.0 + Clamp(-t, -1.0, 1.0) * 127.0 == 256.0 - y;
    RoundToEvenReflect(y, 256);
  }

  lemma WheelByteLipschitz(t: real, u: real)
    ensures Abs((TorqueToWheelByte(t) - TorqueToWheelByte(u)) as real) <= 127.0 * Abs(t - u) + 1.0
  {
    WheelByteIsRounding(t);
    WheelByteIsRounding(u);
    var y, z := 128.0 + Clamp(t, -1.0, 1.0) * 127.0, 128.0 + Clamp(u, -1.0, 1.0) * 127.0;
    RoundToEvenLipschitz(y, z);
    assert Abs(y - z) <= 127.0 * Abs(t - u);
    hide TorqueToWheelByte, RoundToEven, Abs, Clamp;
  }

  /** The motor byte is neutral exactly for torques of at most half a byte step. */
  lemma WheelByteNeutral(t: real)
    ensures TorqueToWheelByte(t) == NEUTRAL <==> Abs(t) * 127.0 <= 0.5
  {
    WheelByteIsRounding(t);
    var y := 128.0 + Clamp(t, -1.0, 1.0) * 127.0;
    if Abs(t) * 127.0 <= 0.5 {
      RoundToEvenUnique(y, 128);
    }
  }

  /** A constant-force report names the effect, its slot and the force; neutral is half way. */
  lemma ReportsAsSent(b: Byte)
    ensures |ConstantForce(b)| == 7 && ConstantForce(b)[..4] == [0x11, 0x08, b, 128]
    ensures forall i | 4 <= i < 7 :: ConstantForce(b)[i] == 0
    ensures |STOP| == 7 && STOP[0] == 0xF3 && forall i | 1 <= i < 7 :: STOP[i] == 0
    ensures NEUTRAL == 128
  {
  }

  lemma ReportsDistinct(b: Byte, c: Byte)
    ensures ForceByteOf(ConstantForce(b)) == Some(b) && ForceByteOf(STOP) == None
    ensures ConstantForce(b) == ConstantForce(c) ==> b == c
  {
    assert ConstantForce(b)[2] == b && ConstantForce(c)[2] == c;
  }
}
