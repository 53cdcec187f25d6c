/** Python's `int.to_bytes(length, 'big')` and `int.from_bytes(bytes, 'big')`, which the
    tester uses to send a channel number to the relay controller. */
module Relay {
  import opened Wrappers

  type byte = x: int | 0 <= x < 256

  /** `to_bytes` raises `OverflowError` for a negative value or one that needs more bytes. */
  datatype EncodeError = OverflowError

  function Pow256(n: nat): (p: nat)
    ensures p >= 1
  {
    if n == 0 then 1 else 256 * Pow256(n - 1)
  }

  /** The `length`-byte big-endian representation of `value`. */
  function BigEndian(value: nat, length: nat): (r: seq<byte>)
    requires value < Pow256(length)
    ensures |r| == length
  {
    if length == 0 then []
    else
      assert value / 256 < Pow256(length - 1) by {
        DivBound(value, Pow256(length - 1));
      }
      BigEndian(value / 256, length - 1) + [value % 256]
  }

  lemma DivBound(value: nat, p: nat)
    requires value < 256 * p
    ensures value / 256 < p
  {
  }

  function ToBytes(value: int, length: nat): (r: Result<seq<byte>, EncodeError>)
  {
    if value < 0 || value >= Pow256(length) then Failure(OverflowError)
    else Success(BigEndian(value, length))
  }

  function FromBytes(bytes: seq<byte>): (v: nat)
    ensures v < Pow256(|bytes|)
  {
    if bytes == [] then 0 else FromBytes(bytes[..|bytes| - 1]) * 256 + bytes[|bytes| - 1]
  }

  /** Decoding undoes encoding. */
  lemma {:induction false} BigEndianRoundTrip(value: nat, length: nat)
    requires value < Pow256(length)
    ensures FromBytes(BigEndian(value, length)) == value
  {
    if length > 0 {
      DivBound(value, Pow256(length - 1));
      var r := BigEndian(value, length);
      assert r[..|r| - 1] == BigEndian(value / 256, length - 1);
      BigEndianRoundTrip(value / 256, length - 1);
    }
  }

  /** Encoding undoes decoding: every byte string is the encoding of its value. */
  lemma {:induction false} FromBytesRoundTrip(bytes: seq<byte>)
    ensures BigEndian(FromBytes(bytes), |bytes|) == bytes
  {
    if bytes != [] {
      var init, last := bytes[..|bytes| - 1], bytes[|bytes| - 1];
      var v := FromBytes(bytes);
      assert v / 256 == FromBytes(init) && v % 256 == last;
      FromBytesRoundTrip(init);
      assert bytes == init + [last];
    }
  }

  /** One byte holds exactly the channels 0 to 255; that byte's value is the channel. */
  lemma ChannelByte(channel: int)
    ensures ToBytes(channel, 1).Success? <==> 0 <= channel <= 255
    ensures 0 <= channel <= 255 ==> ToBytes(channel, 1) == Success([channel as byte])
  {
    if 0 <= channel <= 255 {
      assert Pow256(1) == 256;
      assert channel / 256 == 0 && channel % 256 == channel;
      assert BigEndian(channel, 1) == BigEndian(0, 0) + [channel];
      assert BigEndian(channel, 1) == [channel as byte];
      assert ToBytes(channel, 1) == Success(BigEndian(channel, 1));
    }
  }
}
