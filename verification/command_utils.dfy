/**
 * The frame encoders of the LED controller's proprietary protocol
 * (class CommandUtils). Every encoder builds the frame Python's `bytes([...])`
 * would build; numeric fields are first clamped with `max(lo, min(hi, x))`.
 */
module CommandUtils {
  import opened Wrappers

  /** One element of a Python `bytes` object. */
  type Byte = x: int | 0 <= x < 0x100

  /** A command frame as sent over the write characteristic. */
  type Frame = seq<Byte>

  const Header: Byte := 0x7E
  const Footer: Byte := 0xEF

  /** Kind tags carried in byte 2 of the four-byte-payload frames. */
  const BrightnessTag: Byte := 0x01
  const SpeedTag: Byte := 0x02
  const PowerTag: Byte := 0x04
  const MicSensitivityTag: Byte := 0x06
  const MicPowerTag: Byte := 0x07

  /** The nine-byte frame shape: header marker first, footer marker last. */
  predicate IsNineByteFrame(f: Frame) {
    |f| == 9 && f[0] == Header && f[8] == Footer
  }

  /** Python's `max(lo, min(hi, x))`. */
  function Clamp(x: int, lo: int, hi: int): (r: int)
    requires lo <= hi
    ensures lo <= r <= hi
    ensures lo <= x <= hi ==> r == x
    ensures x < lo ==> r == lo
    ensures hi < x ==> r == hi
  {
    var m := if hi < x then hi else x;
    if m < lo then lo else m
  }

  /** The flag byte of the on/off frames: `0x01 if is_on else 0x00`. */
  function FlagByte(on: bool): (b: Byte)
    ensures b == 1 <==> on
    ensures b == 0 <==> !on
  {
    if on then 0x01 else 0x00
  }

  /** create_on_off_command: `7E 04 04 x 00 x FF 00 EF` with x the power flag. */
  function OnOffCommand(isOn: bool): (r: Frame)
    ensures IsNineByteFrame(r)
    ensures r[1] == 0x04 && r[2] == PowerTag
    ensures r[3] == r[5] == FlagByte(isOn)
    ensures r[4] == 0x00 && r[6] == 0xFF && r[7] == 0x00
  {
    [Header, 0x04, PowerTag, FlagByte(isOn), 0x00, FlagByte(isOn), 0xFF, 0x00, Footer]
  }

  /**
   * create_color_command: `7E 07 05 03 r g b 10 EF`. Python's `bytes` raises
   * ValueError when a component lies outside 0..255; that is `None` here.
   */
  function ColorCommand(red: int, green: int, blue: int): (r: Option<Frame>)
    ensures r.Some? <==> 0 <= red < 0x100 && 0 <= green < 0x100 && 0 <= blue < 0x100
    ensures r.Some? ==> IsNineByteFrame(r.value) && r.value[1..4] == [0x07, 0x05, 0x03] && r.value[7] == 0x10
    ensures r.Some? ==> r.value[4] == red && r.value[5] == green && r.value[6] == blue
  {
    if 0 <= red < 0x100 && 0 <= green < 0x100 && 0 <= blue < 0x100 then
      Some([Header, 0x07, 0x05, 0x03, red, green, blue, 0x10, Footer])
    else
      None
  }

  /**
   * create_color_command_bytes: the colour frame around an already decoded
   * byte string of any length (create_color_command_bytes does not check it holds three bytes).
   */
  function ColorCommandBytes(h: seq<Byte>): (r: Frame)
    ensures |r| == |h| + 6
    ensures r[0] == Header && r[|r| - 1] == Footer
    ensures r[1..4] == [0x07, 0x05, 0x03] && r[|r| - 2] == 0x10
    ensures r[4..|r| - 2] == h
    ensures |h| == 3 ==> Some(r) == ColorCommand(h[0], h[1], h[2])
  {
    var r := [Header, 0x07, 0x05, 0x03] + h + [0x10, Footer];
    assert r[4..|r| - 2] == h;
    assert |h| == 3 ==> r == [Header, 0x07, 0x05, 0x03, h[0], h[1], h[2], 0x10, Footer];
    r
  }

  /** create_pattern_command: `7E 05 03 p+128 03 FF FF 00 EF` with p clamped to 0..28. */
  function PatternCommand(pattern: int): (r: Frame)
    ensures IsNineByteFrame(r)
    ensures r[1] == 0x05 && r[2] == 0x03 && r[4] == 0x03
    ensures r[5] == 0xFF && r[6] == 0xFF && r[7] == 0x00
    ensures r[3] == Clamp(pattern, 0, 28) + 128
    ensures 128 <= r[3] <= 156
    ensures 0 <= pattern <= 28 ==> r[3] == pattern + 128
  {
    var p := Clamp(pattern, 0, 28);
    [Header, 0x05, 0x03, p + 128, 0x03, 0xFF, 0xFF, 0x00, Footer]
  }

  /**
   * The layout shared by the speed, brightness and mic-sensitivity frames:
   * `7E 04 tag v FF FF FF 00 EF`, where v is the level clamped to 0..100.
   */
  predicate IsLevelFrame(f: Frame, tag: Byte, level: int) {
    && IsNineByteFrame(f)
    && f[1] == 0x04 && f[2] == tag
    && f[3] == Clamp(level, 0, 100)
    && f[4] == 0xFF && f[5] == 0xFF && f[6] == 0xFF && f[7] == 0x00
  }

  /** create_speed_command: speed clamped to 0..100 under kind tag 0x02. */
  function SpeedCommand(speed: int): (r: Frame)
    ensures IsLevelFrame(r, SpeedTag, speed)
    ensures speed < 0 ==> r[3] == 0
    ensures 100 < speed ==> r[3] == 100
    ensures 0 <= speed <= 100 ==> r[3] == speed
  {
    var s := Clamp(speed, 0, 100);
    [Header, 0x04, SpeedTag, s, 0xFF, 0xFF, 0xFF, 0x00, Footer]
  }

  /** create_brightness_command: brightness clamped to 0..100 under kind tag 0x01. */
  function BrightnessCommand(brightness: int): (r: Frame)
    ensures IsLevelFrame(r, BrightnessTag, brightness)
    ensures brightness < 0 ==> r[3] == 0
    ensures 100 < brightness ==> r[3] == 100
    ensures 0 <= brightness <= 100 ==> r[3] == brightness
  {
    var b := Clamp(brightness, 0, 100);
    [Header, 0x04, BrightnessTag, b, 0xFF, 0xFF, 0xFF, 0x00, Footer]
  }

  /** create_mic_sensitivity_command: sensitivity clamped to 0..100 under kind tag 0x06. */
  function MicSensitivityCommand(sensitivity: int): (r: Frame)
    ensures IsLevelFrame(r, MicSensitivityTag, sensitivity)
    ensures sensitivity < 0 ==> r[3] == 0
    ensures 100 < sensitivity ==> r[3] == 100
    ensures 0 <= sensitivity <= 100 ==> r[3] == sensitivity
  {
    var s := Clamp(sensitivity, 0, 100);
    [Header, 0x04, MicSensitivityTag, s, 0xFF, 0xFF, 0xFF, 0x00, Footer]
  }

  /** create_mic_on_off_command: `7E 04 07 x FF FF FF 00 EF` with x the microphone flag. */
  function MicOnOffCommand(isOn: bool): (r: Frame)
    ensures IsNineByteFrame(r)
    ensures r[1] == 0x04 && r[2] == MicPowerTag
    ensures r[3] == FlagByte(isOn)
    ensures r[4] == 0xFF && r[5] == 0xFF && r[6] == 0xFF && r[7] == 0x00
  {
    [Header, 0x04, MicPowerTag, FlagByte(isOn), 0xFF, 0xFF, 0xFF, 0x00, Footer]
  }

  /**
   * create_mic_eq_command: `7E 05 03 e+128 04 FF FF 00 EF` with e clamped to 0..3.
   * It shares the header `7E 05 03` with the pattern frame and differs from it at byte 4.
   */
  function MicEqCommand(eqMode: int): (r: Frame)
    ensures IsNineByteFrame(r)
    ensures r[1] == 0x05 && r[2] == 0x03 && r[4] == 0x04
    ensures r[5] == 0xFF && r[6] == 0xFF && r[7] == 0x00
    ensures r[3] == Clamp(eqMode, 0, 3) + 128
    ensures 128 <= r[3] <= 131
  {
    var e := Clamp(eqMode, 0, 3);
    [Header, 0x05, 0x03, e + 128, 0x04, 0xFF, 0xFF, 0x00, Footer]
  }

  /** A pattern frame and a mic-EQ frame never coincide, whatever their arguments. */
  lemma PatternNeverMicEq(pattern: int, eqMode: int)
    ensures PatternCommand(pattern) != MicEqCommand(eqMode)
  {
  }
}
