// Deduplication keys and the text form of an address: pkg/ax25/frame.go:287-320 and
// pkg/ax25/address.go:96-107. None of their delimiters is escaped; that the keys are
// exact all the same rests on what a valid callsign may contain.

module DedupKeys {
  import opened Common
  import opened Frames
  import opened Address

  const DASH: U8 := 45
  const STAR: U8 := 42
  const COMMA: U8 := 44
  const COLON: U8 := 58
  const GREATER: U8 := 62
  const ZERO: U8 := 48

  // ----- the text form -----

  function Decimal(n: U8): seq<U8> {
    if n < 10 then [ZERO + n]
    else if n < 100 then [ZERO + n / 10, ZERO + n % 10]
    else [ZERO + n / 100, ZERO + n / 10 % 10, ZERO + n % 10]
  }

  // CALL[-SSID][*]
  function Text(a: Address): seq<U8> {
    a.call + (if a.ssid != 0 then [DASH] + Decimal(a.ssid) else []) + (if a.repeated then [STAR] else [])
  }

  // ----- the keys -----

  function DedupKey(f: Surface): seq<U8> {
    f.dest.call + [f.dest.ssid] + f.source.call + [f.source.ssid] + f.info
  }

  // One path element: its callsign and one octet for its SSID, '0' to '9' and on into
  // punctuation. Go adds in eight bits.
  function PathPart(a: Address): seq<U8> {
    [COMMA] + a.call + [DASH, ((ZERO + a.ssid) % 256) as U8]
  }

  function PathParts(path: seq<Address>): seq<U8> {
    if path == [] then [] else PathPart(path[0]) + PathParts(path[1..])
  }

  function PathDedupKey(f: Surface): seq<U8> {
    Text(f.source) + [GREATER] + Text(f.dest) + PathParts(f.path) + [COLON] + f.info
  }

  lemma {:induction false} PathPartsSnoc(path: seq<Address>, a: Address)
    ensures PathParts(path + [a]) == PathParts(path) + PathPart(a)
    decreases |path|
  {
    if path == [] {
      assert [a][1..] == [];
    } else {
      assert (path + [a])[1..] == path[1..] + [a];
      PathPartsSnoc(path[1..], a);
    }
  }

  method BuildPathDedupKey(f: Surface) returns (key: seq<U8>)
    ensures key == PathDedupKey(f)
  {
    hide Text;
    var head := Text(f.source) + [GREATER] + Text(f.dest);
    key := head;
    for i := 0 to |f.path|
      invariant key == head + PathParts(f.path[..i])
    {
      assert f.path[..i + 1] == f.path[..i] + [f.path[i]];
      PathPartsSnoc(f.path[..i], f.path[i]);
      var p := f.path[i];
      key := key + ([COMMA] + p.call + [DASH, (ZERO + p.ssid) % 256]);
    }
    assert f.path[..|f.path|] == f.path;
    key := key + [COLON] + f.info;
  }

  // ----- exactness -----

  // Two texts that both start with octets of a kind and then leave it fall apart the
  // same way.
  lemma {:induction false} SameSplit(kind: U8 -> bool, x: seq<U8>, s: seq<U8>, y: seq<U8>, t: seq<U8>)
    requires (forall i | 0 <= i < |x| :: kind(x[i])) && (forall i | 0 <= i < |y| :: kind(y[i]))
    requires (s != [] ==> !kind(s[0])) && (t != [] ==> !kind(t[0]))
    requires x + s == y + t
    ensures x == y && s == t
    decreases |x|
  {
    FirstOctet(x, s);
    FirstOctet(y, t);
    if x == [] && y == [] {
      assert [] + s == s && [] + t == t;
    } else if x == [] || y == [] {
      assert false;
    } else {
      assert (x + s)[1..] == x[1..] + s && (y + t)[1..] == y[1..] + t;
      SameSplit(kind, x[1..], s, y[1..], t);
    }
  }

  lemma FirstOctet(x: seq<U8>, s: seq<U8>)
    ensures x != [] ==> (x + s)[0] == x[0]
    ensures x == [] ==> x + s == s
  {
  }

  lemma SameCall(a: Address, s: seq<U8>, b: Address, t: seq<U8>)
    requires Valid(a) && Valid(b) && a.call + s == b.call + t
    requires (s != [] ==> !IsUpperAlnum(s[0])) && (t != [] ==> !IsUpperAlnum(t[0]))
    ensures a.call == b.call && s == t
  {
    SameSplit(IsUpperAlnum, a.call, s, b.call, t);
  }

  predicate SameStation(a: Address, b: Address) {
    a.call == b.call && a.ssid == b.ssid
  }

  // The frame-level key tells apart exactly the frames that differ in destination,
  // source or information field.
  lemma DedupKeyExact(f: Surface, g: Surface)
    requires Valid(f.source) && Valid(f.dest) && Valid(g.source) && Valid(g.dest)
    ensures DedupKey(f) == DedupKey(g) <==>
            SameStation(f.dest, g.dest) && SameStation(f.source, g.source) && f.info == g.info
  {
    if DedupKey(f) == DedupKey(g) {
      var fs, gs := f.source.call + ([f.source.ssid] + f.info), g.source.call + ([g.source.ssid] + g.info);
      assert DedupKey(f) == f.dest.call + ([f.dest.ssid] + fs);
      assert DedupKey(g) == g.dest.call + ([g.dest.ssid] + gs);
      SameCall(f.dest, [f.dest.ssid] + fs, g.dest, [g.dest.ssid] + gs);
      assert ([f.dest.ssid] + fs)[1..] == fs && ([g.dest.ssid] + gs)[1..] == gs;
      SameCall(f.source, [f.source.ssid] + f.info, g.source, [g.source.ssid] + g.info);
      assert ([f.source.ssid] + f.info)[1..] == f.info && ([g.source.ssid] + g.info)[1..] == g.info;
    }
  }

  function TextTail(a: Address): seq<U8> {
    (if a.ssid != 0 then [DASH] + Decimal(a.ssid) else []) + (if a.repeated then [STAR] else [])
  }

  lemma TailsDiffer(a: Address, b: Address)
    requires a.ssid < 16 && b.ssid < 16 && TextTail(a) == TextTail(b)
    ensures a.ssid == b.ssid && a.repeated == b.repeated
  {
    var s, t := TextTail(a), TextTail(b);
    assert a.ssid != 0 ==> s[0] == DASH && s[1] == Decimal(a.ssid)[0];
    assert b.ssid != 0 ==> t[0] == DASH && t[1] == Decimal(b.ssid)[0];
    assert a.ssid >= 10 ==> s[2] == Decimal(a.ssid)[1];
    assert b.ssid >= 10 ==> t[2] == Decimal(b.ssid)[1];
    assert a.repeated ==> s[|s| - 1] == STAR;
    assert b.repeated ==> t[|t| - 1] == STAR;
  }

  // The text form names exactly one address.
  lemma TextExact(a: Address, b: Address)
    requires Valid(a) && Valid(b) && Text(a) == Text(b)
    ensures a == b
  {
    assert Text(a) == a.call + TextTail(a) && Text(b) == b.call + TextTail(b);
    SameCall(a, TextTail(a), b, TextTail(b));
    TailsDiffer(a, b);
  }

  // Whose text is a's: a itself, or a callsign that holds a's suffix or mark in its own
  // letters, which nothing that decodes an address rules out.
  predicate ReadsAs(d: Address, a: Address) {
    || d == a
    || (d.ssid == 0 && d.repeated == a.repeated && a.ssid > 0 && d.call == a.call + [DASH] + Decimal(a.ssid))
    || (d.ssid == 0 && !d.repeated && a.repeated && d.call == Text(a))
  }

  lemma LastOctet(x: seq<U8>, s: seq<U8>)
    requires s != []
    ensures (x + s)[|x + s| - 1] == s[|s| - 1]
  {
  }

  // Without the mark, whatever octets d's callsign has: the one dash of a's text is where
  // d's suffix starts, unless d has none.
  lemma PlainTextIff(d: Address, a: Address)
    requires Valid(a) && d.ssid < 16 && !d.repeated && !a.repeated
    ensures Text(d) == Text(a) <==> ReadsAs(d, a)
  {
    var s, t := TextTail(d), TextTail(a);
    assert Text(d) == d.call + s && Text(a) == a.call + t;
    if Text(d) == Text(a) && d.ssid != 0 {
      DashesIn(d);
      assert Text(d)[|d.call|] == DASH && Text(a)[|d.call|] == DASH;
      OneDash(a, |d.call|);
      assert d.call == Text(d)[..|d.call|] == Text(a)[..|a.call|] == a.call;
      assert s == Text(d)[|d.call|..] == Text(a)[|a.call|..] == t;
      TailsDiffer(d, a);
    } else if d.ssid == 0 {
      assert Text(d) == d.call;
      assert a.call + t == if a.ssid == 0 then a.call else a.call + [DASH] + Decimal(a.ssid);
    }
  }

  lemma DashesIn(d: Address)
    requires d.ssid != 0
    ensures |d.call| < |Text(d)| && Text(d)[|d.call|] == DASH
  {
  }

  lemma OneDash(a: Address, k: nat)
    requires Valid(a) && !a.repeated && k < |Text(a)| && Text(a)[k] == DASH
    ensures k == |a.call|
  {
  }

  lemma TextMarked(a: Address)
    ensures Text(a) == Text(a.(repeated := false)) + if a.repeated then [STAR] else []
  {
    assert a.repeated || Text(a) + [] == Text(a);
  }

  lemma NoMark(a: Address)
    requires (Valid(a) || a.ssid != 0) && a.ssid < 16 && !a.repeated
    ensures Text(a) != [] && Text(a)[|Text(a)| - 1] != STAR
  {
  }

  // The text of any address at all is that of a valid one exactly so.
  lemma TextIff(d: Address, a: Address)
    requires Valid(a) && d.ssid < 16
    ensures Text(d) == Text(a) <==> ReadsAs(d, a)
  {
    var d', a' := d.(repeated := false), a.(repeated := false);
    PlainTextIff(d', a');
    TextMarked(d);
    TextMarked(a);
    if d.repeated && !a.repeated {
      NoMark(a);
    } else if a.repeated && !d.repeated {
      if d.ssid != 0 {
        NoMark(d);
      }
    } else if d.repeated {
      assert Text(d)[..|Text(d')|] == Text(d') && Text(a)[..|Text(a')|] == Text(a');
    }
  }

  predicate InText(c: U8) {
    IsUpperAlnum(c) || c == DASH || c == STAR
  }

  lemma TextKind(a: Address)
    requires Valid(a)
    ensures forall i | 0 <= i < |Text(a)| :: InText(Text(a)[i])
  {
    var t := TextTail(a);
    assert Text(a) == a.call + t;
    forall i | 0 <= i < |t|
      ensures InText(t[i])
    {
    }
    forall i | 0 <= i < |Text(a)|
      ensures InText(Text(a)[i])
    {
      if i >= |a.call| {
        assert Text(a)[i] == t[i - |a.call|];
      }
    }
  }

  predicate SamePath(p: seq<Address>, q: seq<Address>) {
    |p| == |q| && forall i | 0 <= i < |p| :: SameStation(p[i], q[i])
  }

  predicate AllValid(p: seq<Address>) {
    forall i | 0 <= i < |p| :: Valid(p[i])
  }

  lemma {:induction false} PathExact(p: seq<Address>, s: seq<U8>, q: seq<Address>, t: seq<U8>)
    requires AllValid(p) && AllValid(q)
    requires PathParts(p) + [COLON] + s == PathParts(q) + [COLON] + t
    ensures SamePath(p, q) && s == t
    decreases |p|
  {
    PathFirst(p, s);
    PathFirst(q, t);
    if p == [] && q == [] {
      assert (PathParts(p) + [COLON] + s)[1..] == s && (PathParts(q) + [COLON] + t)[1..] == t;
    } else if p == [] || q == [] {
      assert false;
    } else {
      hide PathParts;
      PathHead(p, s);
      PathHead(q, t);
      PathPeel(p[0], PathParts(p[1..]) + [COLON] + s, q[0], PathParts(q[1..]) + [COLON] + t);
      PathExact(p[1..], s, q[1..], t);
      assert forall i | 0 < i < |p| :: p[i] == p[1..][i - 1] && q[i] == q[1..][i - 1];
    }
  }

  lemma PathHead(p: seq<Address>, s: seq<U8>)
    requires p != []
    ensures PathParts(p) + [COLON] + s == PathPart(p[0]) + (PathParts(p[1..]) + [COLON] + s)
  {
    hide PathPart;
  }

  lemma PathPeel(a: Address, s: seq<U8>, b: Address, t: seq<U8>)
    requires Valid(a) && Valid(b) && PathPart(a) + s == PathPart(b) + t
    ensures SameStation(a, b) && s == t
  {
    var u, v: U8 := (ZERO + a.ssid) % 256, (ZERO + b.ssid) % 256;
    var x, y := [DASH, u] + s, [DASH, v] + t;
    assert PathPart(a) + s == [COMMA] + (a.call + x) && PathPart(b) + t == [COMMA] + (b.call + y);
    assert ([COMMA] + (a.call + x))[1..] == a.call + x && ([COMMA] + (b.call + y))[1..] == b.call + y;
    SameCall(a, x, b, y);
    assert x[1] == u && y[1] == v && x[2..] == s && y[2..] == t;
  }

  lemma PathFirst(p: seq<Address>, s: seq<U8>)
    ensures var k := PathParts(p) + [COLON] + s; k != [] && k[0] == if p == [] then COLON else COMMA
  {
    if p != [] {
      assert PathParts(p)[0] == COMMA;
    }
  }

  lemma {:induction false} PathPartsSame(p: seq<Address>, q: seq<Address>)
    requires SamePath(p, q)
    ensures PathParts(p) == PathParts(q)
    decreases |p|
  {
    if p != [] {
      PathPartsSame(p[1..], q[1..]);
    }
  }

  // The path-aware key tells apart exactly the frames that differ in source or
  // destination, H bits included, in some path callsign or SSID, or in the
  // information field; the H bits of the path do not count.
  lemma PathDedupKeyExact(f: Surface, g: Surface)
    requires Valid(f.source) && Valid(f.dest) && AllValid(f.path)
    requires Valid(g.source) && Valid(g.dest) && AllValid(g.path)
    ensures PathDedupKey(f) == PathDedupKey(g) <==>
            f.source == g.source && f.dest == g.dest && SamePath(f.path, g.path) && f.info == g.info
  {
    hide Text, PathParts;
    if PathDedupKey(f) == PathDedupKey(g) {
      var fp, gp := PathParts(f.path) + [COLON] + f.info, PathParts(g.path) + [COLON] + g.info;
      var fd, gd := Text(f.dest) + fp, Text(g.dest) + gp;
      assert PathDedupKey(f) == Text(f.source) + ([GREATER] + fd);
      assert PathDedupKey(g) == Text(g.source) + ([GREATER] + gd);
      TextKind(f.source);
      TextKind(g.source);
      SameSplit(InText, Text(f.source), [GREATER] + fd, Text(g.source), [GREATER] + gd);
      TextExact(f.source, g.source);
      assert ([GREATER] + fd)[1..] == fd && ([GREATER] + gd)[1..] == gd;
      TextKind(f.dest);
      TextKind(g.dest);
      PathFirst(f.path, f.info);
      PathFirst(g.path, g.info);
      SameSplit(InText, Text(f.dest), fp, Text(g.dest), gp);
      TextExact(f.dest, g.dest);
      PathExact(f.path, f.info, g.path, g.info);
    } else if SamePath(f.path, g.path) {
      PathPartsSame(f.path, g.path);
    }
  }
}
