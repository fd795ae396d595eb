/** Framing of the Cadent-3 syringe pump's RS-232 protocol
    (imi_cadent3/cadent_com.py).

    An outgoing command is the device address `/1`, the command text and a
    carriage return.  A reply is read with `readline()` and cleaned of the
    filler byte 0xFF and of the end-of-text, CR, LF triple before it is
    logged; the ready-wait poll reads up to the four-byte terminator
    ETX CR LF 0xFF and dispatches on the first three bytes of the reply. */
module CadentFrame {
  import opened Text

  const LineFeed: byte := 0x0A
  const Filler: byte := 0xFF
  /** ETX, CR, LF: the end of a reply. */
  const EndOfReply: seq<byte> := [0x03, 0x0D, 0x0A]
  /** What the ready-wait poll reads up to: ETX, CR, LF, 0xFF. */
  const PollTerminator: seq<byte> := [0x03, 0x0D, 0x0A, 0xFF]
  /** "/0`": the device is ready. */
  const ReadyPrefix: seq<byte> := [0x2F, 0x30, 0x60]
  /** "/0i": the device reports an error. */
  const ErrorPrefix: seq<byte> := [0x2F, 0x30, 0x69]
  /** The status query the ready-wait sends on every iteration. */
  const PollFrame: string := "/1?\r"

  /** The frame `send_cmd` writes for `cmd`. */
  function Frame(cmd: string): (f: string)
    ensures |f| == |cmd| + 3
    ensures StartsWith(f, "/1") && EndsWith(f, "\r")
    ensures Unframe(f) == Some(cmd)
  {
    "/1" + cmd + "\r"
  }

  /** The command inside a frame: drop the address and the terminator. */
  function Unframe(f: string): Option<string>
  {
    if |f| >= 3 && StartsWith(f, "/1") && EndsWith(f, "\r") then Some(f[2..|f| - 1])
    else None
  }

  /** The two-step cleaning of `rec_rsp`: first every 0xFF, then every
      ETX CR LF triple, each removed in one left-to-right pass. */
  function Clean(reply: seq<byte>): (r: seq<byte>)
    ensures |r| <= |reply|
    ensures forall x :: x in r ==> x in reply
  {
    RemoveAllKeeps(reply, [Filler]);
    RemoveAllKeeps(RemoveAll(reply, [Filler]), EndOfReply);
    RemoveAll(RemoveAll(reply, [Filler]), EndOfReply)
  }

  /** A cleaned reply holds no filler byte. */
  lemma CleanHasNoFiller(reply: seq<byte>)
    ensures Filler !in Clean(reply)
  {
    RemoveAllSingle(reply, Filler);
    RemoveAllKeeps(RemoveAll(reply, [Filler]), EndOfReply);
  }

  /** A reply with neither a filler byte nor an ETX CR LF triple is logged as
      it came. */
  lemma CleanKeepsPlainReply(reply: seq<byte>)
    requires Filler !in reply && !Occurs(reply, EndOfReply)
    ensures Clean(reply) == reply
  {
    OccursSingle(reply, Filler);
    RemoveAllAbsent(reply, [Filler]);
    RemoveAllAbsent(reply, EndOfReply);
  }

  /** A reply in which removing one ETX CR LF joins its neighbours into another. */
  const Rebuilt: seq<byte> := [0x03, 0x03, 0x0D, 0x0A, 0x0D, 0x0A]

  /** One pass can build a new ETX CR LF out of the pieces around a removed
      one, so the cleaned reply may still hold the triple and cleaning twice
      differs from cleaning once. */
  lemma CleanCanLeaveEndOfReply()
    ensures Clean(Rebuilt) == EndOfReply
    ensures Clean(Clean(Rebuilt)) == []
  {
    var s := Rebuilt;
    var t: seq<byte> := [0x03, 0x0D, 0x0A, 0x0D, 0x0A];
    assert RemoveAll(s, [Filler]) == s by {
      OccursSingle(s, Filler);
      RemoveAllAbsent(s, [Filler]);
    }
    assert RemoveAll(t, EndOfReply) == [0x0D, 0x0A] by {
      assert t[..3] == EndOfReply;
      assert t[3..] == [0x0D, 0x0A];
    }
    assert RemoveAll(s, EndOfReply) == [0x03] + RemoveAll(t, EndOfReply) by {
      assert s[..3][1] == 0x03;
      assert s[1..] == t;
    }
    assert RemoveAll(EndOfReply, [Filler]) == EndOfReply by {
      OccursSingle(EndOfReply, Filler);
      RemoveAllAbsent(EndOfReply, [Filler]);
    }
    assert RemoveAll(EndOfReply, EndOfReply) == [] by {
      assert EndOfReply[..3] == EndOfReply;
      assert EndOfReply[3..] == [];
    }
  }

  /** `rsp.decode()`: each byte becomes the character with the same code,
      which is what UTF-8 decoding gives for the ASCII replies of the pump. */
  function Decode(b: seq<byte>): (r: string)
    ensures |r| == |b|
    ensures forall i :: 0 <= i < |b| ==> r[i] as int == b[i]
    decreases |b|
  {
    if b == [] then [] else [b[0] as char] + Decode(b[1..])
  }

  /** How the ready-wait reads one poll reply. */
  datatype Status = Ready | Failed | Busy

  /** The ready and error prefixes differ in their third byte, so a reply is
      ready exactly when it starts with "/0`", failed exactly when it starts
      with "/0i", and busy otherwise. */
  function Classify(reply: seq<byte>): (r: Status)
    ensures r == Ready <==> StartsWith(reply, ReadyPrefix)
    ensures r == Failed <==> StartsWith(reply, ErrorPrefix)
  {
    assert StartsWith(reply, ReadyPrefix) ==> reply[2] == 0x60;
    assert StartsWith(reply, ErrorPrefix) ==> reply[2] == 0x69;
    if StartsWith(reply, ReadyPrefix) then Ready
    else if StartsWith(reply, ErrorPrefix) then Failed
    else Busy
  }
}
