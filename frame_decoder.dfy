/** Frame decoder: the EPS1 channel of a sample frame. Voltage is the
    little-endian unsigned integer in bytes 8..10 in units of 10 mV, current
    the one in bytes 10..12 in units of 100 mA. The slices follow Python, so
    a short read yields fewer bytes rather than an error. */
module FrameDecoder {
  import opened Common

  /** The channel read by the scripts (`i = 2`, named 'EPS1'). */
  const Channel: nat := 2

  /** `int.from_bytes(b, byteorder='little')` for an unsigned integer. */
  function FromBytesLE(b: seq<byte>): nat
  {
    if b == [] then 0 else b[0] + 256 * FromBytesLE(b[1..])
  }

  /** The inverse of FromBytesLE on two bytes: a 16-bit value little-endian. */
  function ToBytesLE16(v: nat): (b: seq<byte>)
    requires v < 65536
    ensures |b| == 2
  {
    [v % 256, v / 256]
  }

  /** `read_bytes[i*4 : i*4+2]` as an integer: voltage in hundredths of a volt. */
  function VoltageRaw(frame: seq<byte>): nat
  {
    FromBytesLE(Slice(frame, Channel * 4, Channel * 4 + 2))
  }

  /** `read_bytes[i*4+2 : i*4+4]` as an integer: current in tenths of an ampere. */
  function CurrentRaw(frame: seq<byte>): nat
  {
    FromBytesLE(Slice(frame, Channel * 4 + 2, Channel * 4 + 4))
  }

  /** Volts, `VoltageRaw * 0.01`, over exact rationals. */
  function Voltage(frame: seq<byte>): real
  {
    VoltageRaw(frame) as real / 100.0
  }

  /** Amperes, `CurrentRaw * 0.1`, over exact rationals. */
  function Current(frame: seq<byte>): real
  {
    CurrentRaw(frame) as real / 10.0
  }

  /** The little-endian value of 0, 1 and 2 bytes: 0, the byte, and
      b0 + 256*b1, which is below 65536. */
  lemma {:induction false} FromBytesLEBound(b: seq<byte>)
    ensures |b| == 0 ==> FromBytesLE(b) == 0
    ensures |b| == 1 ==> FromBytesLE(b) == b[0] < 256
    ensures |b| == 2 ==> FromBytesLE(b) == b[0] as int + 256 * b[1] as int < 65536
  {
    if b != [] {
      FromBytesLEBound(b[1..]);
    }
  }

  /** On a frame of at least 12 bytes both fields are whole 16-bit values. */
  lemma DecodeFullFrame(frame: seq<byte>)
    requires |frame| >= 12
    ensures VoltageRaw(frame) == frame[8] as int + 256 * frame[9] as int < 65536
    ensures CurrentRaw(frame) == frame[10] as int + 256 * frame[11] as int < 65536
    ensures Voltage(frame) == (frame[8] as int + 256 * frame[9] as int) as real / 100.0
    ensures Current(frame) == (frame[10] as int + 256 * frame[11] as int) as real / 10.0
  {
    FromBytesLEBound(Slice(frame, 8, 10));
    FromBytesLEBound(Slice(frame, 10, 12));
  }

  /** A short read is not an error: the bytes missing from a slice drop out,
      an empty slice decodes to 0 and a one-byte slice to that byte. */
  lemma DecodeShortFrame(frame: seq<byte>)
    requires |frame| < 12
    ensures |frame| <= 8 ==> VoltageRaw(frame) == 0
    ensures |frame| == 9 ==> VoltageRaw(frame) == frame[8]
    ensures |frame| >= 10 ==> VoltageRaw(frame) == frame[8] as int + 256 * frame[9] as int
    ensures |frame| <= 10 ==> CurrentRaw(frame) == 0
    ensures |frame| == 11 ==> CurrentRaw(frame) == frame[10]
  {
    FromBytesLEBound(Slice(frame, 8, 10));
    FromBytesLEBound(Slice(frame, 10, 12));
  }

  /** Writing two 16-bit values into bytes 8..12 of any frame of at least 12
      bytes and decoding them gives the values back. */
  lemma {:induction false} DecodeEncodedFields(frame: seq<byte>, volts100: nat, amps10: nat)
    requires |frame| >= 12 && volts100 < 65536 && amps10 < 65536
    ensures VoltageRaw(frame[..8] + ToBytesLE16(volts100) + ToBytesLE16(amps10) + frame[12..]) == volts100
    ensures CurrentRaw(frame[..8] + ToBytesLE16(volts100) + ToBytesLE16(amps10) + frame[12..]) == amps10
  {
    var f := frame[..8] + ToBytesLE16(volts100) + ToBytesLE16(amps10) + frame[12..];
    assert |f| == |frame|;
    assert f[8] == volts100 % 256 && f[9] == volts100 / 256;
    assert f[10] == amps10 % 256 && f[11] == amps10 / 256;
    DecodeFullFrame(f);
  }

  /** Conversely, re-encoding the decoded fields reproduces bytes 8..12. */
  lemma EncodeDecodedFields(frame: seq<byte>)
    requires |frame| >= 12
    ensures VoltageRaw(frame) < 65536 && CurrentRaw(frame) < 65536
    ensures ToBytesLE16(VoltageRaw(frame)) + ToBytesLE16(CurrentRaw(frame)) == frame[8..12]
  {
    DecodeFullFrame(frame);
  }

  /** Bytes 0x64 0x00 at offset 8 and 0x0A 0x00 at offset 10 read as 1 V and 1 A. */
  lemma DecodeOneVoltOneAmp(frame: seq<byte>)
    requires |frame| == 16
    requires frame[8] == 0x64 && frame[9] == 0x00 && frame[10] == 0x0A && frame[11] == 0x00
    ensures Voltage(frame) == 1.0 && Current(frame) == 1.0
  {
    DecodeFullFrame(frame);
  }
}
