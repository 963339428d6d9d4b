/**
 * The logical commands the encoders of CommandUtils serve, and a decoder that
 * reads a frame back. The decoder is the encoders' inverse: it is how the model
 * states that every frame carries its command faithfully (after clamping) and
 * that different commands never share a frame.
 */
module Frames {
  import opened Wrappers
  import opened CommandUtils

  /** One logical command: power, colour, pattern, speed, brightness and the microphone options. */
  datatype Command =
    | Power(on: bool)
    | Color(red: Byte, green: Byte, blue: Byte)
    | Pattern(pattern: int)
    | Speed(speed: int)
    | Brightness(brightness: int)
    | MicPower(micOn: bool)
    | MicEq(eqMode: int)
    | MicSensitivity(sensitivity: int)

  /** The command as the device receives it: every numeric field clamped as its encoder clamps it. */
  function Normalize(c: Command): Command {
    match c
    case Pattern(p) => Pattern(Clamp(p, 0, 28))
    case Speed(s) => Speed(Clamp(s, 0, 100))
    case Brightness(b) => Brightness(Clamp(b, 0, 100))
    case MicEq(e) => MicEq(Clamp(e, 0, 3))
    case MicSensitivity(s) => MicSensitivity(Clamp(s, 0, 100))
    case _ => c
  }

  /** True when every numeric field already lies in its encoder's range. */
  predicate InRange(c: Command) {
    match c
    case Pattern(p) => 0 <= p <= 28
    case Speed(s) => 0 <= s <= 100
    case Brightness(b) => 0 <= b <= 100
    case MicEq(e) => 0 <= e <= 3
    case MicSensitivity(s) => 0 <= s <= 100
    case _ => true
  }

  /** The frame the matching CommandUtils encoder builds for a command. */
  function Encode(c: Command): (f: Frame)
    ensures IsNineByteFrame(f)
  {
    match c
    case Power(on) => OnOffCommand(on)
    case Color(r, g, b) => ColorCommand(r, g, b).value
    case Pattern(p) => PatternCommand(p)
    case Speed(s) => SpeedCommand(s)
    case Brightness(b) => BrightnessCommand(b)
    case MicPower(on) => MicOnOffCommand(on)
    case MicEq(e) => MicEqCommand(e)
    case MicSensitivity(s) => MicSensitivityCommand(s)
  }

  /** Bytes 4..7 of the speed, brightness, mic-sensitivity and mic on/off frames. */
  predicate HasLevelTail(f: Frame)
    requires |f| == 9
  {
    f[4] == 0xFF && f[5] == 0xFF && f[6] == 0xFF && f[7] == 0x00
  }

  /** Reads the command back from a frame; `None` for a frame no encoder produces. */
  function Decode(f: Frame): (r: Option<Command>)
    ensures r.Some? ==> IsNineByteFrame(f) && InRange(r.value)
  {
    if !IsNineByteFrame(f) then None
    else if f[1] == 0x04 && f[2] == PowerTag then
      if f[3] <= 1 && f[4] == 0x00 && f[5] == f[3] && f[6] == 0xFF && f[7] == 0x00
      then Some(Power(f[3] == 1)) else None
    else if f[1] == 0x07 && f[2] == 0x05 then
      if f[3] == 0x03 && f[7] == 0x10 then Some(Color(f[4], f[5], f[6])) else None
    else if f[1] == 0x05 && f[2] == 0x03 then
      if f[5] != 0xFF || f[6] != 0xFF || f[7] != 0x00 then None
      else if f[4] == 0x03 && 128 <= f[3] <= 156 then Some(Pattern(f[3] - 128))
      else if f[4] == 0x04 && 128 <= f[3] <= 131 then Some(MicEq(f[3] - 128))
      else None
    else if f[1] == 0x04 && HasLevelTail(f) then
      if f[2] == MicPowerTag then
        if f[3] <= 1 then Some(MicPower(f[3] == 1)) else None
      else if f[3] > 100 then None
      else if f[2] == SpeedTag then Some(Speed(f[3]))
      else if f[2] == BrightnessTag then Some(Brightness(f[3]))
      else if f[2] == MicSensitivityTag then Some(MicSensitivity(f[3]))
      else None
    else None
  }

  /** Decoding an encoded command gives the command back, clamped as the encoder clamps it. */
  lemma EncodeThenDecode(c: Command)
    ensures Decode(Encode(c)) == Some(Normalize(c))
    ensures InRange(c) ==> Decode(Encode(c)) == Some(c)
  {
  }

  /** Every frame the decoder accepts is exactly the encoding of what it decodes to. */
  lemma DecodeThenEncode(f: Frame)
    requires Decode(f).Some?
    ensures Encode(Decode(f).value) == f
  {
  }

  /** Two commands share a frame exactly when they agree once clamped. */
  lemma EncodeInjective(c1: Command, c2: Command)
    ensures Encode(c1) == Encode(c2) <==> Normalize(c1) == Normalize(c2)
  {
  }

  /** Distinct colours give distinct colour frames: indices 4, 5, 6 carry red, green and blue. */
  lemma ColorFrameRecoversColor(red: Byte, green: Byte, blue: Byte)
    ensures Decode(ColorCommand(red, green, blue).value) == Some(Color(red, green, blue))
    ensures forall r2: Byte, g2: Byte, b2: Byte ::
      ColorCommand(r2, g2, b2) == ColorCommand(red, green, blue) ==> r2 == red && g2 == green && b2 == blue
  {
  }
}
