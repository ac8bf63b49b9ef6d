// Connected-mode frames, their two encoders and their decoder: pkg/ax25conn/frame.go
// and the frame half of pkg/ax25/frame.go. Loops and buffers are in the address
// block; what is left here appends parts one after the other.

module Frames {
  import opened Common
  import opened Control
  import A = Address

  // ax25conn.Frame
  datatype Frame = Frame(source: A.Address, dest: A.Address, path: seq<A.Address>, control: Control,
                         pid: U8, info: seq<U8>, isCommand: bool, mod128: bool)

  // ax25.Frame, the surface shared by UI and connected-mode senders
  datatype Surface = Surface(dest: A.Address, source: A.Address, path: seq<A.Address>, control: U8, pid: U8,
                             info: seq<U8>, commandResp: bool, connectedControl: seq<U8>, connectedHasInfo: bool)

  predicate HasInfo(k: FrameKind) {
    k.FrameI? || k.FrameUI? || k.FrameFRMR? || k.FrameXID? || k.FrameTEST?
  }

  predicate HasPID(k: FrameKind) {
    k.FrameI? || k.FrameUI?
  }

  predicate IsUI(control: U8) {
    control == 0x03 || control == 0x13
  }

  // ----- ax25conn -----

  function Tail(f: Frame): seq<U8> {
    (if HasPID(f.control.kind) then [f.pid] else []) + (if HasInfo(f.control.kind) then f.info else [])
  }

  function Encode(f: Frame): Result<seq<U8>> {
    if |f.path| > A.MAX_REPEATERS then Err
    else
      var addr :- A.EncodeBlock(f.source, f.dest, f.path, f.isCommand);
      var ctl :- EncodeControl(f.control, f.mod128);
      Ok(addr + ctl + Tail(f))
  }

  function DecodeTail(hdr: A.AddressBlock, c: Control, tail: seq<U8>, mod128: bool): Result<Frame> {
    if HasPID(c.kind) then
      if tail == [] then Err
      else Ok(Frame(hdr.source, hdr.dest, hdr.path, c, tail[0], tail[1..], hdr.isCommand, mod128))
    else
      Ok(Frame(hdr.source, hdr.dest, hdr.path, c, 0, if HasInfo(c.kind) then tail else [], hdr.isCommand, mod128))
  }

  function Decode(raw: seq<U8>, mod128: bool): Result<Frame> {
    var hdr :- A.DecodeBlock(raw);
    var off := hdr.addrLen;
    if off >= |raw| then Err
    else
      var ctlSize := Width(raw[off], mod128);
      if |raw| < off + ctlSize then Err
      else
        var c :- ParseControl(raw[off..off + ctlSize], mod128);
        DecodeTail(hdr, c, raw[off + ctlSize..], mod128)
  }

  function ToSurface(f: Frame): Result<Surface> {
    var ctl :- EncodeControl(f.control, f.mod128);
    Ok(Surface(f.dest, f.source, f.path, 0,
               if HasPID(f.control.kind) then f.pid else 0,
               if HasInfo(f.control.kind) then f.info else [],
               f.isCommand, ctl, HasInfo(f.control.kind)))
  }

  // ----- ax25 -----

  function EncodeSurface(s: Surface): Result<seq<U8>> {
    var addr :- A.EncodeBlock(s.source, s.dest, s.path, s.commandResp);
    if |s.connectedControl| > 0 then
      Ok(addr + s.connectedControl + (if s.connectedHasInfo then [s.pid] + s.info else []))
    else if !IsUI(s.control) then Err
    else Ok(addr + [s.control, s.pid] + s.info)
  }

  function DecodeSurface(raw: seq<U8>): Result<Surface> {
    var hdr :- A.DecodeBlock(raw);
    var off := hdr.addrLen;
    if off >= |raw| then Err
    else
      var s := Surface(hdr.dest, hdr.source, hdr.path, raw[off], 0, [], hdr.isCommand, [], false);
      if IsUI(raw[off]) then
        if off + 1 >= |raw| then Err
        else Ok(s.(pid := raw[off + 1], info := raw[off + 2..]))
      else Ok(s)
  }

  function ConnectedPassthrough(parsed: Surface, raw: seq<U8>): Result<Surface> {
    var hdr :- A.DecodeBlock(raw);
    if hdr.addrLen >= |raw| then Err
    else Ok(Surface(parsed.dest, parsed.source, parsed.path, 0, 0, [], parsed.commandResp, raw[hdr.addrLen..], false))
  }

  // ----- properties -----

  predicate WellFormedFrame(f: Frame) {
    && A.Valid(f.source) && A.Valid(f.dest) && !f.source.repeated && !f.dest.repeated
    && |f.path| <= A.MAX_REPEATERS && (forall i | 0 <= i < |f.path| :: A.Valid(f.path[i]))
    && WellFormed(f.control, f.mod128)
    && (!HasPID(f.control.kind) ==> f.pid == 0)
    && (!HasInfo(f.control.kind) ==> f.info == [])
  }

  lemma ControlWidthPositive(c: Control, mod128: bool)
    requires EncodeControl(c, mod128).Ok?
    ensures |EncodeControl(c, mod128).value| >= 1
  {
  }

  // A well-formed frame encodes, and decoding the octets under its own modulus gives
  // the frame back.
  lemma FrameRoundTrip(f: Frame)
    requires WellFormedFrame(f)
    ensures Encode(f).Ok?
    ensures Decode(Encode(f).value, f.mod128) == Ok(f)
  {
    hide ParseControl, EncodeControl, A.EncodeBlock, A.DecodeBlock;
    EncodeThenParse(f.control, f.mod128, []);
    ControlWidthPositive(f.control, f.mod128);
    var ctl := EncodeControl(f.control, f.mod128).value;
    A.BlockRoundTrip(f.source, f.dest, f.path, f.isCommand, ctl + Tail(f));
    var addr := A.EncodeBlock(f.source, f.dest, f.path, f.isCommand).value;
    var raw := addr + (ctl + Tail(f));
    assert Encode(f).value == raw;
    var off := |addr|;
    assert raw[off] == ctl[0];
    assert raw[off..off + |ctl|] == ctl == ctl + [];
    assert raw[off + |ctl|..] == Tail(f);
    DecodesTo(f, A.DecodeBlock(raw).value);
  }

  lemma DecodesTo(f: Frame, hdr: A.AddressBlock)
    requires WellFormedFrame(f)
    requires hdr == A.AddressBlock(f.source, f.dest, f.path, f.isCommand, hdr.addrLen)
    ensures DecodeTail(hdr, f.control, Tail(f), f.mod128) == Ok(f)
  {
    if HasPID(f.control.kind) {
      assert Tail(f)[1..] == f.info;
    } else if HasInfo(f.control.kind) {
      assert Tail(f) == f.info;
    }
  }

  // Which octets survive decoding and encoding: the address block has to be canonical
  // and a frame without an information field must end at its control field.
  lemma DecodeThenEncode(raw: seq<U8>, mod128: bool, f: Frame)
    requires Decode(raw, mod128) == Ok(f)
    ensures var hdr := A.DecodeBlock(raw).value;
            Encode(f) == Ok(raw) <==>
            && A.CanonicalBlock(raw, |hdr.path|)
            && (HasInfo(f.control.kind) || |raw| == hdr.addrLen + Width(raw[hdr.addrLen], mod128))
  {
    hide ParseControl, EncodeControl, A.EncodeBlock, A.DecodeBlock, A.CanonicalBlock;
    var hdr := A.DecodeBlock(raw).value;
    var off, w := hdr.addrLen, Width(raw[hdr.addrLen], mod128);
    assert raw[off..off + w][0] == raw[off];
    ParseThenEncode(raw[off..off + w], mod128, f.control);
    assert EncodeControl(f.control, mod128) == Ok(raw[off..off + w]) by {
      assert raw[off..off + w][..w] == raw[off..off + w];
    }
    A.BlockCanonical(raw);
    assert A.EncodeBlock(f.source, f.dest, f.path, f.isCommand).Ok? ==>
        |A.EncodeBlock(f.source, f.dest, f.path, f.isCommand).value| == off;
    TailRejoins(raw[off + w..], hdr, f, mod128);
    assert raw == raw[..off] + raw[off..off + w] + raw[off + w..];
    if Encode(f) == Ok(raw) {
      var addr := A.EncodeBlock(f.source, f.dest, f.path, f.isCommand).value;
      assert raw[..off] == addr;
      assert raw[off + w..] == Tail(f);
    }
  }

  lemma TailRejoins(tail: seq<U8>, hdr: A.AddressBlock, f: Frame, mod128: bool)
    requires DecodeTail(hdr, f.control, tail, mod128) == Ok(f)
    ensures Tail(f) == tail <==> HasInfo(f.control.kind) || tail == []
  {
    if HasPID(f.control.kind) {
      assert tail == [tail[0]] + tail[1..];
    }
  }

  // The transmit path's projection writes the same octets as Encode, except that the
  // information-bearing U-frames gain a PID octet on the way.
  lemma EncodersAgree(f: Frame)
    requires Encode(f).Ok?
    ensures ToSurface(f).Ok? && EncodeSurface(ToSurface(f).value).Ok?
    ensures EncodeSurface(ToSurface(f).value) == Encode(f)
            <==> !(f.control.kind.FrameFRMR? || f.control.kind.FrameXID? || f.control.kind.FrameTEST?)
  {
    hide EncodeControl, A.EncodeBlock;
    ControlWidthPositive(f.control, f.mod128);
    var ctl := EncodeControl(f.control, f.mod128).value;
    var addr := A.EncodeBlock(f.source, f.dest, f.path, f.isCommand).value;
    var s := ToSurface(f).value;
    var tail := if s.connectedHasInfo then [s.pid] + s.info else [];
    assert EncodeSurface(s) == Ok(addr + ctl + tail);
    if HasPID(f.control.kind) {
      assert tail == Tail(f);
    } else if HasInfo(f.control.kind) {
      assert |tail| == |Tail(f)| + 1;
    } else {
      assert tail == Tail(f);
    }
  }

  // A connected-mode frame relayed opaquely goes out octet for octet as it came in
  // exactly when its address block is canonical.
  lemma PassthroughVerbatim(raw: seq<U8>)
    requires DecodeSurface(raw).Ok?
    ensures var parsed := DecodeSurface(raw).value;
            && ConnectedPassthrough(parsed, raw).Ok?
            && (EncodeSurface(ConnectedPassthrough(parsed, raw).value) == Ok(raw)
                <==> A.CanonicalBlock(raw, |parsed.path|))
  {
    hide A.EncodeBlock, A.DecodeBlock, A.CanonicalBlock;
    var parsed := DecodeSurface(raw).value;
    var off := A.DecodeBlock(raw).value.addrLen;
    A.BlockCanonical(raw);
    assert raw == raw[..off] + raw[off..] + [];
    var e := EncodeSurface(ConnectedPassthrough(parsed, raw).value);
    if e == Ok(raw) {
      var addr := A.EncodeBlock(parsed.source, parsed.dest, parsed.path, parsed.commandResp).value;
      assert |addr| == off;
      assert raw[..off] == (addr + raw[off..] + [])[..off] == addr;
    }
  }
}
