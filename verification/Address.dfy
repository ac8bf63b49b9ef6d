// AX.25 addresses and the address block at the head of every frame:
// pkg/ax25/address.go and the address half of pkg/ax25/frame.go.

module Address {
  import opened Common

  // A callsign is a string of octets; an SSID is four bits; the H bit means
  // something only for a digipeater in the path.
  datatype Address = Address(call: seq<U8>, ssid: U8, repeated: bool)

  datatype AddressBlock = AddressBlock(source: Address, dest: Address, path: seq<Address>, isCommand: bool, addrLen: nat)

  const ADDR_LEN := 7
  const MAX_REPEATERS := 8
  const SPACE: U8 := 32

  predicate IsUpperAlnum(c: U8) {
    65 <= c <= 90 || 48 <= c <= 57
  }

  predicate Valid(a: Address) {
    && 1 <= |a.call| <= 6 && a.ssid < 16
    && forall i | 0 <= i < |a.call| :: IsUpperAlnum(a.call[i])
  }

  function Upper(c: U8): U8 {
    if 97 <= c <= 122 then c - 32 else c
  }

  function ToUpper(s: seq<U8>): (r: seq<U8>)
    ensures |r| == |s|
    ensures forall i | 0 <= i < |s| :: r[i] == Upper(s[i])
  {
    seq(|s|, i requires 0 <= i < |s| => Upper(s[i]))
  }

  function B(b: bool): int {
    if b then 1 else 0
  }

  // ----- one address -----

  // Octet i of an encoded callsign: left-justified, space-padded, shifted left by one.
  function CallOctet(call: seq<U8>, i: nat): U8 {
    ((if i < |call| then Upper(call[i]) else SPACE) * 2) % 256
  }

  function SsidOctet(a: Address, last: bool, isRepeater: bool, cBit: bool): U8 {
    0x60 + (a.ssid % 16) * 2 + 128 * B(if isRepeater then a.repeated else cBit) + B(last)
  }

  function EncodeAddr(a: Address, last: bool, isRepeater: bool, cBit: bool): (r: Result<seq<U8>>)
    ensures r.Ok? ==> |r.value| == ADDR_LEN
  {
    if |a.call| == 0 || |a.call| > 6 then Err
    else Ok(seq(6, i requires 0 <= i < 6 => CallOctet(a.call, i)) + [SsidOctet(a, last, isRepeater, cBit)])
  }

  // The octets of s other than spaces, each shifted right by one first.
  function Unshift(s: seq<U8>): (r: seq<U8>)
    ensures |r| <= |s|
  {
    if s == [] then []
    else (if s[0] / 2 == SPACE then [] else [s[0] / 2]) + Unshift(s[1..])
  }

  function DecodeAddr(b: seq<U8>): Address
    requires |b| == ADDR_LEN
  {
    Address(ToUpper(Unshift(b[..6])), (b[6] / 2) % 16, b[6] / 128 == 1)
  }

  predicate EndOfAddress(b: seq<U8>)
    requires |b| == ADDR_LEN
  {
    b[6] % 2 == 1
  }

  // Writes a into out[off..off+7]; nothing is written when the callsign is refused.
  method Encode(a: Address, out: array<U8>, off: nat, last: bool, isRepeater: bool, cBit: bool) returns (ok: bool)
    requires off + ADDR_LEN <= out.Length
    modifies out
    ensures ok == EncodeAddr(a, last, isRepeater, cBit).Ok?
    ensures ok ==> out[off..off + ADDR_LEN] == EncodeAddr(a, last, isRepeater, cBit).value
    ensures forall i | 0 <= i < out.Length && !(ok && off <= i < off + ADDR_LEN) :: out[i] == old(out[i])
  {
    if |a.call| == 0 || |a.call| > 6 {
      return false;
    }
    for i := 0 to 6
      invariant forall j | 0 <= j < i :: out[off + j] == CallOctet(a.call, j)
      invariant forall j | 0 <= j < out.Length && !(off <= j < off + i) :: out[j] == old(out[j])
    {
      var c: U8 := SPACE;
      if i < |a.call| {
        c := a.call[i];
        if 97 <= c <= 122 {
          c := c - 32;
        }
      }
      out[off + i] := (c * 2) % 256;
    }
    var ssid: int := 0x60 + (a.ssid % 16) * 2;
    if isRepeater {
      if a.repeated {
        ssid := ssid + 128;
      }
    } else if cBit {
      ssid := ssid + 128;
    }
    if last {
      ssid := ssid + 1;
    }
    out[off + 6] := ssid;
    ok := true;
  }

  lemma UnshiftSnoc(s: seq<U8>, c: U8)
    ensures Unshift(s + [c]) == Unshift(s) + (if c / 2 == SPACE then [] else [c / 2])
  {
    if s != [] {
      assert (s + [c])[1..] == s[1..] + [c];
    }
  }

  method Decode(b: seq<U8>) returns (a: Address, last: bool)
    requires |b| == ADDR_LEN
    ensures a == DecodeAddr(b) && last == EndOfAddress(b)
  {
    var call: seq<U8> := [];
    for i := 0 to 6
      invariant call == Unshift(b[..i])
    {
      var c := b[i] / 2;
      UnshiftSnoc(b[..i], b[i]);
      assert b[..i + 1] == b[..i] + [b[i]];
      if c != SPACE {
        call := call + [c];
      }
    }
    a := Address(ToUpper(call), (b[6] / 2) % 16, b[6] / 128 == 1);
    last := b[6] % 2 == 1;
  }

  lemma {:induction false} UnshiftPadding(n: nat, s: seq<U8>)
    requires |s| == n && forall i | 0 <= i < n :: s[i] == 64
    ensures Unshift(s) == []
  {
    if n > 0 {
      UnshiftPadding(n - 1, s[1..]);
    }
  }

  // Shifting a padded callsign back and dropping the spaces gives the callsign.
  lemma {:induction false} UnshiftShifted(call: seq<U8>, s: seq<U8>)
    requires |call| <= |s|
    requires forall i | 0 <= i < |call| :: IsUpperAlnum(call[i])
    requires forall i | 0 <= i < |s| :: s[i] == CallOctet(call, i)
    ensures Unshift(s) == call
  {
    if call == [] {
      UnshiftPadding(|s|, s);
    } else {
      UnshiftShifted(call[1..], s[1..]);
      assert s[0] == call[0] * 2;
      assert forall i | 0 <= i < |s| - 1 :: s[1..][i] == s[i + 1] == CallOctet(call, i + 1) == CallOctet(call[1..], i);
    }
  }

  lemma AddrRoundTrip(a: Address, last: bool, isRepeater: bool, cBit: bool)
    requires Valid(a)
    ensures EncodeAddr(a, last, isRepeater, cBit).Ok?
    ensures var b := EncodeAddr(a, last, isRepeater, cBit).value;
            && DecodeAddr(b) == a.(repeated := if isRepeater then a.repeated else cBit)
            && EndOfAddress(b) == last
  {
    var b := EncodeAddr(a, last, isRepeater, cBit).value;
    UnshiftShifted(a.call, b[..6]);
    assert ToUpper(a.call) == a.call;
    SsidFields(a, last, isRepeater, cBit);
  }

  lemma SsidFields(a: Address, last: bool, isRepeater: bool, cBit: bool)
    requires a.ssid < 16
    ensures var s := SsidOctet(a, last, isRepeater, cBit);
            && (s / 2) % 16 == a.ssid && (s % 2 == 1) == last
            && (s / 128 == 1) == (if isRepeater then a.repeated else cBit)
            && (s / 32) % 4 == 3
  {
    var s := SsidOctet(a, last, isRepeater, cBit);
    var top := if isRepeater then a.repeated else cBit;
    assert s == 128 * B(top) + 96 + 2 * a.ssid + B(last);
    assert s / 2 == 64 * B(top) + 48 + a.ssid;
    assert s / 32 == 4 * B(top) + 3;
  }

  // ----- the block -----

  function EncodePath(path: seq<Address>): (r: Result<seq<U8>>)
    ensures r.Ok? ==> |r.value| == ADDR_LEN * |path|
  {
    if path == [] then Ok([])
    else
      var h :- EncodeAddr(path[0], |path| == 1, true, false);
      var t :- EncodePath(path[1..]);
      Ok(h + t)
  }

  function EncodeBlock(src: Address, dst: Address, path: seq<Address>, isCommand: bool): (r: Result<seq<U8>>)
    ensures r.Ok? ==> |r.value| == ADDR_LEN * (2 + |path|)
  {
    if |path| > MAX_REPEATERS then Err
    else
      var d :- EncodeAddr(dst, false, false, isCommand);
      var s :- EncodeAddr(src, |path| == 0, false, !isCommand);
      var p :- EncodePath(path);
      Ok(d + s + p)
  }

  // The path found at the head of raw when n digipeaters have been read already.
  function DecodePath(raw: seq<U8>, n: nat): (r: Result<seq<Address>>)
    ensures r.Ok? ==> 1 <= |r.value| && |r.value| + n <= MAX_REPEATERS && ADDR_LEN * |r.value| <= |raw|
    decreases |raw|
  {
    if n >= MAX_REPEATERS then Err
    else if |raw| < ADDR_LEN then Err
    else
      var b := raw[..ADDR_LEN];
      if EndOfAddress(b) then Ok([DecodeAddr(b)])
      else
        var t :- DecodePath(raw[ADDR_LEN..], n + 1);
        Ok([DecodeAddr(b)] + t)
  }

  function DecodeBlock(raw: seq<U8>): (r: Result<AddressBlock>)
    ensures r.Ok? ==> |r.value.path| <= MAX_REPEATERS
    ensures r.Ok? ==> r.value.addrLen == ADDR_LEN * (2 + |r.value.path|) <= |raw|
  {
    if |raw| < 2 * ADDR_LEN then Err
    else
      var d := raw[..7];
      var s := raw[7..14];
      if EndOfAddress(d) then Err
      else
        var path :- if EndOfAddress(s) then Ok([]) else DecodePath(raw[14..], 0);
        Ok(AddressBlock(DecodeAddr(s).(repeated := false), DecodeAddr(d).(repeated := false), path,
                        d[6] / 128 == 1 && s[6] / 128 != 1, ADDR_LEN * (2 + |path|)))
  }

  // The source fills one buffer address by address.
  method EncodeAddressBlock(src: Address, dst: Address, path: seq<Address>, isCommand: bool) returns (r: Result<seq<U8>>)
    ensures r == EncodeBlock(src, dst, path, isCommand)
  {
    if |path| > MAX_REPEATERS {
      return Err;
    }
    var out := new U8[ADDR_LEN * (2 + |path|)];
    var ok := Encode(dst, out, 0, false, false, isCommand);
    if !ok {
      return Err;
    }
    ok := Encode(src, out, ADDR_LEN, |path| == 0, false, !isCommand);
    if !ok {
      return Err;
    }
    ghost var d := EncodeAddr(dst, false, false, isCommand).value;
    ghost var s := EncodeAddr(src, |path| == 0, false, !isCommand).value;
    ghost var head := d + s;
    assert out[..14] == head;
    ok := EncodePathInto(path, out);
    if !ok {
      return Err;
    }
    assert out[..] == out[..14] + out[14..];
    return Ok(out[..]);
  }

  method EncodePathInto(path: seq<Address>, out: array<U8>) returns (ok: bool)
    requires out.Length == ADDR_LEN * (2 + |path|)
    modifies out
    ensures ok == EncodePath(path).Ok?
    ensures ok ==> out[..14] == old(out[..14]) && out[14..] == EncodePath(path).value
  {
    for i := 0 to |path|
      invariant out[..14] == old(out[..14])
      invariant EncodePathFrom(path, 0, i).Ok?
      invariant out[14..14 + 7 * i] == EncodePathFrom(path, 0, i).value
    {
      ghost var before := out[..];
      EncodePathSnoc(path, 0, i);
      ok := Encode(path[i], out, (2 + i) * ADDR_LEN, i == |path| - 1, true, false);
      if !ok {
        EncodePathFails(path, i);
        return;
      }
      assert out[..14] == before[..14];
      assert out[14..14 + 7 * i] == before[14..14 + 7 * i];
      assert out[14..14 + 7 * (i + 1)] == out[14..14 + 7 * i] + out[(2 + i) * 7..(2 + i) * 7 + 7];
    }
    EncodePathWhole(path, 0);
    assert path[0..] == path;
    assert out[14..] == out[14..14 + 7 * |path|];
    ok := true;
  }

  // The octets of path[lo..hi], as parts of the whole path.
  ghost function EncodePathFrom(path: seq<Address>, lo: nat, hi: nat): (r: Result<seq<U8>>)
    requires lo <= hi <= |path|
    ensures r.Ok? ==> |r.value| == ADDR_LEN * (hi - lo)
    decreases hi - lo
  {
    if lo == hi then Ok([])
    else
      var h :- EncodeAddr(path[lo], lo == |path| - 1, true, false);
      var t :- EncodePathFrom(path, lo + 1, hi);
      Ok(h + t)
  }

  lemma {:induction false} EncodePathSnoc(path: seq<Address>, lo: nat, hi: nat)
    requires lo <= hi < |path| && EncodePathFrom(path, lo, hi).Ok?
    ensures var e := EncodeAddr(path[hi], hi == |path| - 1, true, false);
            EncodePathFrom(path, lo, hi + 1) ==
            if e.Ok? then Ok(EncodePathFrom(path, lo, hi).value + e.value) else Err
    decreases hi - lo
  {
    if lo < hi {
      EncodePathSnoc(path, lo + 1, hi);
      var e := EncodeAddr(path[hi], hi == |path| - 1, true, false);
      if e.Ok? {
        var h := EncodeAddr(path[lo], lo == |path| - 1, true, false).value;
        var m := EncodePathFrom(path, lo + 1, hi).value;
        assert (h + m) + e.value == h + (m + e.value);
      }
    } else {
      var e := EncodeAddr(path[hi], hi == |path| - 1, true, false);
      assert EncodePathFrom(path, hi + 1, hi + 1) == Ok([]);
      if e.Ok? {
        assert e.value + [] == [] + e.value;
      }
    }
  }

  lemma {:induction false} EncodePathWhole(path: seq<Address>, lo: nat)
    requires lo <= |path|
    ensures EncodePathFrom(path, lo, |path|) == EncodePath(path[lo..])
    decreases |path| - lo
  {
    if lo < |path| {
      EncodePathWhole(path, lo + 1);
      assert path[lo..][1..] == path[lo + 1..];
    }
  }

  lemma {:induction false} EncodePathFails(path: seq<Address>, i: nat)
    requires i < |path| && EncodeAddr(path[i], i == |path| - 1, true, false).Err?
    ensures EncodePath(path).Err?
  {
    if i > 0 {
      EncodePathFails(path[1..], i - 1);
    }
  }

  lemma {:induction false} PathRoundTrip(path: seq<Address>, n: nat, rest: seq<U8>)
    requires path != [] && |path| + n <= MAX_REPEATERS
    requires forall i | 0 <= i < |path| :: Valid(path[i])
    ensures EncodePath(path).Ok?
    ensures DecodePath(EncodePath(path).value + rest, n) == Ok(path)
  {
    hide Valid, EncodePath, DecodePath;
    if |path| == 1 {
      LastRoundTrip(path[0], n, rest);
      assert path == [path[0]];
    } else {
      PathRoundTrip(path[1..], n + 1, rest);
      MoreRoundTrip(path, n, EncodePath(path[1..]).value, rest);
    }
  }

  lemma LastRoundTrip(a: Address, n: nat, rest: seq<U8>)
    requires Valid(a) && n < MAX_REPEATERS
    ensures EncodePath([a]).Ok? && DecodePath(EncodePath([a]).value + rest, n) == Ok([a])
  {
    AddrRoundTrip(a, true, true, false);
    hide EncodeAddr, DecodeAddr, Valid;
    assert [a][1..] == [] && EncodePath([]) == Ok([]);
    var h := EncodeAddr(a, true, true, false).value;
    assert h + [] == h && (h + rest)[..7] == h;
  }

  lemma FrontAndRest(h: seq<U8>, t: seq<U8>, rest: seq<U8>)
    ensures (h + t + rest)[..|h|] == h && (h + t + rest)[|h|..] == t + rest
  {
    assert h + t + rest == h + (t + rest);
  }

  lemma MoreRoundTrip(path: seq<Address>, n: nat, t: seq<U8>, rest: seq<U8>)
    requires |path| > 1 && Valid(path[0]) && n < MAX_REPEATERS
    requires EncodePath(path[1..]) == Ok(t) && DecodePath(t + rest, n + 1) == Ok(path[1..])
    ensures EncodePath(path).Ok? && DecodePath(EncodePath(path).value + rest, n) == Ok(path)
  {
    AddrRoundTrip(path[0], false, true, false);
    hide EncodeAddr, DecodeAddr, Valid;
    var h := EncodeAddr(path[0], false, true, false).value;
    FrontAndRest(h, t, rest);
    assert [path[0]] + path[1..] == path;
  }

  lemma NoPath()
    ensures EncodePath([]) == Ok([])
  {
  }

  lemma StationRoundTrip(a: Address, last: bool, cBit: bool)
    requires Valid(a) && !a.repeated
    ensures EncodeAddr(a, last, false, cBit).Ok?
    ensures var e := EncodeAddr(a, last, false, cBit).value;
            && DecodeAddr(e).(repeated := false) == a && EndOfAddress(e) == last && (e[6] / 128 == 1) == cBit
  {
    AddrRoundTrip(a, last, false, cBit);
    SsidFields(a, last, false, cBit);
  }

  // Reading an encoded block gives the addresses back, whatever follows it.
  lemma BlockRoundTrip(src: Address, dst: Address, path: seq<Address>, isCommand: bool, rest: seq<U8>)
    requires Valid(src) && Valid(dst) && !src.repeated && !dst.repeated
    requires |path| <= MAX_REPEATERS && forall i | 0 <= i < |path| :: Valid(path[i])
    ensures EncodeBlock(src, dst, path, isCommand).Ok?
    ensures DecodeBlock(EncodeBlock(src, dst, path, isCommand).value + rest)
            == Ok(AddressBlock(src, dst, path, isCommand, ADDR_LEN * (2 + |path|)))
  {
    hide EncodeAddr, DecodeAddr, EncodePath, DecodePath, Valid, EndOfAddress;
    StationRoundTrip(dst, false, isCommand);
    StationRoundTrip(src, |path| == 0, !isCommand);
    NoPath();
    if path != [] {
      PathRoundTrip(path, 0, rest);
    }
    var d := EncodeAddr(dst, false, false, isCommand).value;
    var s := EncodeAddr(src, |path| == 0, false, !isCommand).value;
    var p := EncodePath(path).value;
    var raw := d + s + p + rest;
    assert EncodeBlock(src, dst, path, isCommand).value + rest == raw;
    assert raw[..7] == d && raw[7..14] == s && raw[14..] == p + rest;
  }

  ghost function Prepend(path: seq<Address>, r: Result<seq<Address>>): Result<seq<Address>> {
    if r.Ok? then Ok(path + r.value) else Err
  }

  method DecodeAddressBlock(raw: seq<U8>) returns (r: Result<AddressBlock>)
    ensures r == DecodeBlock(raw)
  {
    if |raw| < 2 * ADDR_LEN {
      return Err;
    }
    var dest, last := Decode(raw[..7]);
    var destCBit := raw[6] / 128 == 1;
    if last {
      return Err;
    }
    var src;
    src, last := Decode(raw[7..14]);
    var srcCBit := raw[13] / 128 == 1;
    var path: Result<seq<Address>> := Ok([]);
    if !last {
      path := DecodePathLoop(raw);
    }
    if path.Err? {
      return Err;
    }
    return Ok(AddressBlock(src.(repeated := false), dest.(repeated := false), path.value, destCBit && !srcCBit,
                           ADDR_LEN * (2 + |path.value|)));
  }

  lemma DecodePathStep(raw: seq<U8>, off: nat, path: seq<Address>)
    requires off + 7 <= |raw| && |path| < MAX_REPEATERS
    ensures var b := raw[off..off + 7];
            Prepend(path, DecodePath(raw[off..], |path|)) ==
            if EndOfAddress(b) then Ok(path + [DecodeAddr(b)])
            else Prepend(path + [DecodeAddr(b)], DecodePath(raw[off + 7..], |path| + 1))
  {
    var b := raw[off..off + 7];
    assert raw[off..][..7] == b && raw[off..][7..] == raw[off + 7..];
    var t := DecodePath(raw[off + 7..], |path| + 1);
    if t.Ok? && !EndOfAddress(b) {
      assert path + ([DecodeAddr(b)] + t.value) == (path + [DecodeAddr(b)]) + t.value;
    }
  }

  method DecodePathLoop(raw: seq<U8>) returns (r: Result<seq<Address>>)
    requires |raw| >= 2 * ADDR_LEN
    ensures r == DecodePath(raw[14..], 0)
  {
    var off := 14;
    var path: seq<Address> := [];
    var last := false;
    hide DecodeAddr, Unshift, ToUpper;
    ghost var whole := DecodePath(raw[14..], 0);
    assert whole.Ok? ==> [] + whole.value == whole.value;
    while !last
      invariant off == 14 + 7 * |path| <= |raw|
      invariant !last ==> DecodePath(raw[14..], 0) == Prepend(path, DecodePath(raw[off..], |path|))
      invariant last ==> DecodePath(raw[14..], 0) == Ok(path)
      decreases |raw| - off, !last
    {
      if |path| >= MAX_REPEATERS {
        return Err;
      }
      if off + 7 > |raw| {
        return Err;
      }
      var a, l := Decode(raw[off..off + 7]);
      DecodePathStep(raw, off, path);
      path := path + [a];
      last := l;
      off := off + 7;
    }
    return Ok(path);
  }

  // ----- canonical blocks: those the encoder can produce -----

  // A callsign field with n characters: even octets, no space and no lower case
  // among the first n, and only spaces after them.
  predicate CallShape(b: seq<U8>, n: nat)
    requires |b| == ADDR_LEN
  {
    forall i | 0 <= i < 6 ::
      if i < n then b[i] % 2 == 0 && b[i] != 64 && !(194 <= b[i] <= 244) else b[i] == 64
  }

  predicate CanonicalAddr(b: seq<U8>)
    requires |b| == ADDR_LEN
  {
    && (exists n | 1 <= n <= 6 :: CallShape(b, n))
    && (b[6] / 32) % 4 == 3
  }

  predicate CBit(b: seq<U8>)
    requires |b| == ADDR_LEN
  {
    b[6] / 128 == 1
  }

  predicate CanonicalPath(raw: seq<U8>, k: nat)
    requires |raw| >= ADDR_LEN * k
  {
    k == 0 || (CanonicalAddr(raw[..7]) && CanonicalPath(raw[7..], k - 1))
  }

  // Exactly one of the two C bits is set, and every address is canonical.
  predicate CanonicalBlock(raw: seq<U8>, k: nat)
    requires |raw| >= ADDR_LEN * (2 + k)
  {
    && CanonicalAddr(raw[..7]) && CanonicalAddr(raw[7..14])
    && CBit(raw[..7]) != CBit(raw[7..14])
    && CanonicalPath(raw[14..], k)
  }

  lemma {:induction false} UnshiftElements(s: seq<U8>)
    ensures forall i | 0 <= i < |Unshift(s)| :: Unshift(s)[i] != SPACE && Unshift(s)[i] < 128
  {
    if s != [] {
      UnshiftElements(s[1..]);
    }
  }

  // As UnshiftShifted, for any characters the field may hold.
  lemma {:induction false} UnshiftShape(call: seq<U8>, s: seq<U8>)
    requires |call| <= |s|
    requires forall i | 0 <= i < |s| ::
               if i < |call| then call[i] < 128 && s[i] == call[i] * 2 && call[i] != SPACE else s[i] == 64
    ensures Unshift(s) == call
  {
    if call == [] {
      UnshiftPadding(|s|, s);
    } else {
      assert forall i | 0 <= i < |s| - 1 :: s[1..][i] == s[i + 1] && (i + 1 < |call| ==> call[1..][i] == call[i + 1]);
      UnshiftShape(call[1..], s[1..]);
      assert s[0] / 2 == call[0];
    }
  }

  lemma SsidBits(x: U8)
    ensures x == 128 * (x / 128) + 32 * ((x / 32) % 4) + 2 * ((x / 2) % 16) + x % 2
    ensures 0 <= x / 128 < 2
  {
  }

  lemma SsidOctetRejoins(b: seq<U8>, isRepeater: bool, cBit: bool)
    requires |b| == ADDR_LEN
    ensures SsidOctet(DecodeAddr(b), EndOfAddress(b), isRepeater, cBit) == b[6]
            <==> (b[6] / 32) % 4 == 3 && (isRepeater || CBit(b) == cBit)
  {
    var x := b[6];
    SsidBits(x);
    var ssid := (x / 2) % 16;
    var want := if isRepeater then CBit(b) else cBit;
    assert SsidOctet(DecodeAddr(b), EndOfAddress(b), isRepeater, cBit) == 96 + 2 * ssid + 128 * B(want) + x % 2;
  }

  lemma CallRejoins(b: seq<U8>)
    requires |b| == ADDR_LEN
    ensures var call := DecodeAddr(b).call;
            (1 <= |call| <= 6 && forall i | 0 <= i < 6 :: CallOctet(call, i) == b[i])
            <==> exists n | 1 <= n <= 6 :: CallShape(b, n)
  {
    var call := DecodeAddr(b).call;
    if 1 <= |call| <= 6 && forall i | 0 <= i < 6 :: CallOctet(call, i) == b[i] {
      RejoinedShape(b);
    }
    if n :| 1 <= n <= 6 && CallShape(b, n) {
      ShapeRejoins(b, n);
    }
  }

  lemma RejoinedShape(b: seq<U8>)
    requires |b| == ADDR_LEN
    requires var call := DecodeAddr(b).call;
             1 <= |call| <= 6 && forall i | 0 <= i < 6 :: CallOctet(call, i) == b[i]
    ensures CallShape(b, |DecodeAddr(b).call|)
  {
    var call := DecodeAddr(b).call;
    UnshiftElements(b[..6]);
    forall i | 0 <= i < 6
      ensures if i < |call| then b[i] % 2 == 0 && b[i] != 64 && !(194 <= b[i] <= 244) else b[i] == 64
    {
      assert CallOctet(call, i) == b[i];
      if i < |call| {
        var u := Unshift(b[..6])[i];
        assert call[i] == Upper(u) && Upper(call[i]) == call[i];
      }
    }
  }

  lemma ShapeRejoins(b: seq<U8>, n: nat)
    requires |b| == ADDR_LEN && 1 <= n <= 6 && CallShape(b, n)
    ensures var call := DecodeAddr(b).call;
            |call| == n && forall i | 0 <= i < 6 :: CallOctet(call, i) == b[i]
  {
    var c: seq<U8> := seq(n, i requires 0 <= i < n => b[i] / 2);
    UnshiftShape(c, b[..6]);
    forall i | 0 <= i < n
      ensures Upper(c[i]) == c[i]
    {
    }
    assert ToUpper(c) == c;
  }

  // Decoding an address and encoding it again changes nothing exactly when the seven
  // octets are canonical and the C bit asked for is the one that was there.
  lemma AddrCanonical(b: seq<U8>, isRepeater: bool, cBit: bool)
    requires |b| == ADDR_LEN
    ensures EncodeAddr(DecodeAddr(b), EndOfAddress(b), isRepeater, cBit) == Ok(b)
            <==> CanonicalAddr(b) && (isRepeater || CBit(b) == cBit)
  {
    var a := DecodeAddr(b);
    CallRejoins(b);
    SsidOctetRejoins(b, isRepeater, cBit);
    var e := EncodeAddr(a, EndOfAddress(b), isRepeater, cBit);
    if e.Ok? {
      if e.value == b {
        assert forall i | 0 <= i < 6 :: CallOctet(a.call, i) == e.value[i];
        assert e.value[6] == b[6];
      }
    }
  }

  lemma {:induction false} PathCanonical(raw: seq<U8>, n: nat)
    requires DecodePath(raw, n).Ok?
    ensures var path := DecodePath(raw, n).value;
            EncodePath(path) == Ok(raw[..ADDR_LEN * |path|]) <==> CanonicalPath(raw, |path|)
    decreases |raw|
  {
    var path := DecodePath(raw, n).value;
    var b := raw[..7];
    AddrCanonical(b, true, false);
    var k := |path|;
    if EndOfAddress(b) {
      assert path[1..] == [] && EncodePath(path[1..]) == Ok([]);
      assert CanonicalPath(raw[7..], 0);
      assert b + [] == b;
    } else {
      PathCanonical(raw[7..], n + 1);
      assert path[1..] == DecodePath(raw[7..], n + 1).value;
      assert raw[7..][..7 * (k - 1)] == raw[7..7 * k];
      assert raw[..7 * k] == b + raw[7..7 * k];
    }
    if EncodePath(path) == Ok(raw[..7 * k]) {
      assert EncodePath(path).value[..7] == b && EncodePath(path).value[7..] == raw[7..7 * k];
    }
  }

  lemma SameParts(d: seq<U8>, s: seq<U8>, p: seq<U8>, d': seq<U8>, s': seq<U8>, p': seq<U8>)
    requires |d| == |d'| && |s| == |s'|
    ensures d + s + p == d' + s' + p' <==> d == d' && s == s' && p == p'
  {
    var a, b := d + s + p, d' + s' + p';
    if a == b {
      assert d == a[..|d|] && d' == b[..|d|];
      assert s == a[|d|..|d| + |s|] && s' == b[|d|..|d| + |s|];
      assert p == a[|d| + |s|..] && p' == b[|d| + |s|..];
    }
  }

  // One station of the head, whatever its H bit was read as.
  lemma StationCanonical(b: seq<U8>, last: bool, cBit: bool)
    requires |b| == ADDR_LEN && last == EndOfAddress(b)
    ensures EncodeAddr(DecodeAddr(b).(repeated := false), last, false, cBit) == Ok(b) <==> CanonicalAddr(b) && CBit(b) == cBit
  {
    AddrCanonical(b, false, cBit);
    assert EncodeAddr(DecodeAddr(b).(repeated := false), last, false, cBit)
           == EncodeAddr(DecodeAddr(b), EndOfAddress(b), false, cBit);
  }

  lemma TailCanonical(raw: seq<U8>, ended: bool)
    requires var path := if ended then Ok([]) else DecodePath(raw, 0); path.Ok?
    ensures var path := if ended then [] else DecodePath(raw, 0).value;
            ADDR_LEN * |path| <= |raw| && (EncodePath(path) == Ok(raw[..ADDR_LEN * |path|]) <==> CanonicalPath(raw, |path|))
  {
    if ended {
      assert EncodePath([]) == Ok([]) && raw[..0] == [];
    } else {
      PathCanonical(raw, 0);
    }
  }

  lemma BlockFields(raw: seq<U8>)
    requires DecodeBlock(raw).Ok?
    ensures var (ab, d, s) := (DecodeBlock(raw).value, raw[..7], raw[7..14]);
            && ab.dest == DecodeAddr(d).(repeated := false) && ab.source == DecodeAddr(s).(repeated := false)
            && !EndOfAddress(d) && EndOfAddress(s) == (|ab.path| == 0)
            && (if EndOfAddress(s) then ab.path == [] else DecodePath(raw[14..], 0) == Ok(ab.path))
            && (ab.isCommand <==> CBit(d) && !CBit(s))
  {
    hide DecodeAddr, DecodePath;
  }


  // Re-encoding a decoded address block gives the octets it was read from exactly
  // when the block is canonical.
  lemma BlockCanonical(raw: seq<U8>)
    requires DecodeBlock(raw).Ok?
    ensures var ab := DecodeBlock(raw).value;
            EncodeBlock(ab.source, ab.dest, ab.path, ab.isCommand) == Ok(raw[..ab.addrLen])
            <==> CanonicalBlock(raw, |ab.path|)
  {
    hide DecodeAddr, EncodeAddr, EncodePath, DecodePath, DecodeBlock, CanonicalAddr, CanonicalPath, CBit;
    var ab := DecodeBlock(raw).value;
    var d, s := raw[..7], raw[7..14];
    var k := |ab.path|;
    BlockFields(raw);
    StationCanonical(d, false, ab.isCommand);
    StationCanonical(s, k == 0, !ab.isCommand);
    TailCanonical(raw[14..], EndOfAddress(s));
    var p := raw[14..][..7 * k];
    assert raw[..7 * (2 + k)] == d + s + p;
    var de := EncodeAddr(ab.dest, false, false, ab.isCommand);
    var se := EncodeAddr(ab.source, k == 0, false, !ab.isCommand);
    var pe := EncodePath(ab.path);
    if de.Ok? && se.Ok? && pe.Ok? {
      SameParts(de.value, se.value, pe.value, d, s, p);
    }
  }
}
