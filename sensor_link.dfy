/** Sensor link: the single-byte command protocol of the ElmorLabs PMD-USB
    and one serial connection to it, as a trace of the writes and reads the
    scripts perform. */
module SensorLink {
  import opened Common

  /** One step on the wire: a command byte written, or a read of up to n bytes. */
  datatype Op = Write(command: byte) | Read(count: nat)

  const IdentifyCommand: byte := 0x00
  const DescriptorCommand: byte := 0x02
  const SampleCommand: byte := 0x03

  const WelcomeReadLength: nat := 18
  const DescriptorReadLength: nat := 100
  const FrameReadLength: nat := 16

  /** The bytes literal b'ElmorLabs PMD-USB' the identify reply is compared
      with, as ASCII codes: "ElmorLabs", a space, "PMD-USB". */
  const Welcome: seq<byte> :=
    [0x45, 0x6C, 0x6D, 0x6F, 0x72, 0x4C, 0x61, 0x62, 0x73,
     0x20,
     0x50, 0x4D, 0x44, 0x2D, 0x55, 0x53, 0x42]

  /** The full identify-then-descriptor exchange of `check_connection`. */
  const FullHandshake: seq<Op> :=
    [Write(IdentifyCommand), Read(WelcomeReadLength), Write(DescriptorCommand), Read(DescriptorReadLength)]

  /** One sample request of `get_new_sensor_values`. */
  const SampleRequest: seq<Op> := [Write(SampleCommand), Read(FrameReadLength)]

  /** The reply the device queues for the next read, empty once it is silent. */
  function NextReply(replies: seq<seq<byte>>): seq<byte>
  {
    if replies == [] then [] else replies[0]
  }

  function LaterReplies(replies: seq<seq<byte>>): seq<seq<byte>>
  {
    if replies == [] then [] else replies[1..]
  }

  /** One `with serial.Serial(**PMD_SETTINGS) as ser:` block. Whether the
      port opens and what the device answers to each read are given; the
      connection records every operation in `trace`. */
  class Connection {
    const opens: bool
    var replies: seq<seq<byte>>
    var trace: seq<Op>

    constructor (opens: bool, replies: seq<seq<byte>>)
      ensures this.opens == opens && this.replies == replies && trace == []
    {
      this.opens := opens;
      this.replies := replies;
      trace := [];
    }

    /** `ser.write(bytes([command])); ser.flush()` */
    method Write(command: byte)
      modifies this
      ensures trace == old(trace) + [Op.Write(command)]
      ensures replies == old(replies)
    {
      trace := trace + [Op.Write(command)];
    }

    /** `ser.read(count)`: the device's next reply, cut to `count` bytes. */
    method Read(count: nat) returns (got: seq<byte>)
      modifies this
      ensures got == Take(NextReply(old(replies)), count)
      ensures trace == old(trace) + [Op.Read(count)]
      ensures replies == LaterReplies(old(replies))
    {
      got := Take(NextReply(replies), count);
      trace := trace + [Op.Read(count)];
      replies := LaterReplies(replies);
    }
  }

  /** What the handshake does on the wire and how it ends: the operations
      performed and, when it fails, the exception that ends it. */
  datatype Handshake = Handshake(ops: seq<Op>, failure: Option<PyError>)

  /** The handshake of `check_connection` when the port opens or not and
      the device answers the identify command with `reply`. */
  function HandshakeOf(opens: bool, reply: seq<byte>): Handshake
  {
    if !opens then Handshake([], Some(SerialException))
    else if Take(reply, WelcomeReadLength) == Welcome then Handshake(FullHandshake, None)
    else Handshake(FullHandshake[..2], Some(AssertionError))
  }

  lemma WelcomeIs17Bytes()
    ensures |Welcome| == 17 < WelcomeReadLength
  {
  }

  /** Since the 18-byte read is compared with a 17-byte literal, the
      handshake succeeds exactly when the port opens and the device sends
      the literal and nothing more. */
  lemma HandshakeSucceedsIff(opens: bool, reply: seq<byte>)
    ensures HandshakeOf(opens, reply).failure == None <==> opens && reply == Welcome
  {
    if opens && Take(reply, WelcomeReadLength) == Welcome {
      assert |reply| == 17;
      assert Take(reply, WelcomeReadLength) == reply;
    }
  }

  /** A device that answers with 18 bytes or more, such as the literal with
      a trailing NUL, never passes the handshake. */
  lemma LongReplyRejected(reply: seq<byte>)
    requires |reply| >= WelcomeReadLength
    ensures HandshakeOf(true, reply) == Handshake([Write(IdentifyCommand), Read(WelcomeReadLength)], Some(AssertionError))
  {
    assert |Take(reply, WelcomeReadLength)| == 18;
  }

  /** The descriptor command 0x02 is written only after a matching welcome,
      and every handshake performs a prefix of the full exchange. */
  lemma DescriptorOnlyAfterWelcome(opens: bool, reply: seq<byte>)
    ensures HandshakeOf(opens, reply).ops <= FullHandshake
    ensures Op.Write(DescriptorCommand) in HandshakeOf(opens, reply).ops <==> opens && reply == Welcome
    ensures HandshakeOf(opens, reply).failure == None <==> HandshakeOf(opens, reply).ops == FullHandshake
  {
    HandshakeSucceedsIff(opens, reply);
    assert Op.Write(DescriptorCommand) !in FullHandshake[..2];
  }
}
