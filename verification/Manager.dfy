// The table of live sessions: pkg/ax25conn/manager.go. Open, Remove, Close, CountFor,
// LastPath, Resolve and RecordPath are the sections that hold the manager's lock; a
// dispatch is several steps, and what holds when others come between is in Dispatch.dfy.

module Manager {
  import opened Common
  import opened Frames
  import opened DedupKeys
  import A = Address
  import LapbSpec

  datatype Key = Key(channel: int, local: seq<U8>, peer: seq<U8>)

  function KeyOf(channel: int, local: A.Address, peer: A.Address): Key {
    Key(channel, Text(local), Text(peer))
  }

  // Which headers lead to a session of two valid stations: those of its channel with its
  // stations, and those whose callsigns spell out what the stations' texts add to theirs.
  lemma KeyIff(channel: int, dest: A.Address, source: A.Address, c: int, local: A.Address, peer: A.Address)
    requires A.Valid(local) && A.Valid(peer) && dest.ssid < 16 && source.ssid < 16
    ensures KeyOf(channel, dest, source) == KeyOf(c, local, peer) <==>
            channel == c && ReadsAs(dest, local) && ReadsAs(source, peer)
  {
    hide Text, ReadsAs;
    TextIff(dest, local);
    TextIff(source, peer);
  }

  const INPUT_SIZE := 32

  // A session's bounded input queue drops what does not fit.
  function Enqueued(inbox: seq<LapbSpec.Event>, ev: LapbSpec.Event): seq<LapbSpec.Event> {
    if |inbox| < INPUT_SIZE then inbox + [ev] else inbox
  }

  // Submitting takes effect exactly while fewer than 32 events wait, and then at the end.
  lemma SubmitTakesIff(inbox: seq<LapbSpec.Event>, ev: LapbSpec.Event)
    ensures Enqueued(inbox, ev) != inbox <==> |inbox| < 32
    ensures |inbox| < 32 ==> Enqueued(inbox, ev) == inbox + [ev]
  {
    assert |inbox + [ev]| == |inbox| + 1;
  }

  function EnqueuedAll(inbox: seq<LapbSpec.Event>, evs: seq<LapbSpec.Event>): seq<LapbSpec.Event>
    decreases |evs|
  {
    if evs == [] then inbox else EnqueuedAll(Enqueued(inbox, evs[0]), evs[1..])
  }

  // Of events submitted while none is taken, a queue that was not over-full keeps the
  // first that fit, in order.
  lemma {:induction false} FirstFitStay(inbox: seq<LapbSpec.Event>, evs: seq<LapbSpec.Event>)
    requires |inbox| <= 32
    ensures var n := if |evs| < 32 - |inbox| then |evs| else 32 - |inbox|;
            EnqueuedAll(inbox, evs) == inbox + evs[..n]
    decreases |evs|
  {
    if evs != [] {
      FirstFitStay(Enqueued(inbox, evs[0]), evs[1..]);
    }
  }

  // The repeated head of a digipeater path, marks dropped.
  function Traversed(path: seq<A.Address>): seq<A.Address> {
    if path == [] || !path[0].repeated then [] else [path[0].(repeated := false)] + Traversed(path[1..])
  }

  lemma {:induction false} TraversedIsPrefix(path: seq<A.Address>)
    ensures var r := Traversed(path);
            && |r| <= |path| && (|r| < |path| ==> !path[|r|].repeated)
            && forall i | 0 <= i < |r| :: path[i].repeated && r[i] == path[i].(repeated := false)
    decreases |path|
  {
    if path != [] && path[0].repeated {
      TraversedIsPrefix(path[1..]);
    }
  }

  lemma {:induction false} TraversedSnoc(path: seq<A.Address>, a: A.Address)
    requires forall i | 0 <= i < |path| :: path[i].repeated
    ensures Traversed(path + [a]) == Traversed(path) + (if a.repeated then [a.(repeated := false)] else [])
    decreases |path|
  {
    if path == [] {
      assert [a][1..] == [];
      assert Traversed([]) == [];
    } else {
      assert (path + [a])[1..] == path[1..] + [a];
      TraversedSnoc(path[1..], a);
    }
  }

  lemma {:induction false} TraversedStops(path: seq<A.Address>, n: nat)
    requires n < |path| && !path[n].repeated && forall i | 0 <= i < n :: path[i].repeated
    ensures Traversed(path) == Traversed(path[..n])
    decreases n
  {
    if n > 0 {
      TraversedStops(path[1..], n - 1);
      assert path[..n][1..] == path[1..][..n - 1];
    }
  }

  method NormalizeInboundPath(path: seq<A.Address>) returns (out: seq<A.Address>)
    ensures out == Traversed(path)
    ensures |out| <= |path| && (|out| < |path| ==> !path[|out|].repeated)
    ensures forall i | 0 <= i < |out| :: path[i].repeated && out[i] == path[i].(repeated := false)
  {
    TraversedIsPrefix(path);
    out := [];
    for i := 0 to |path|
      invariant forall k | 0 <= k < i :: path[k].repeated
      invariant out == Traversed(path[..i])
    {
      if !path[i].repeated {
        TraversedStops(path, i);
        return;
      }
      TraversedSnoc(path[..i], path[i]);
      assert path[..i + 1] == path[..i] + [path[i]];
      out := out + [path[i].(repeated := false)];
    }
    assert path[..|path|] == path;
  }

  // The tables as values, a session standing as its id.
  datatype Table = Table(byKey: map<Key, nat>, byID: map<nat, Key>, nextID: nat, closed: bool)

  function Entered(t: Table, key: Key): Table {
    var id := t.nextID + 1;
    t.(byKey := t.byKey[key := id], byID := t.byID[id := key], nextID := id)
  }

  function Taken(t: Table, key: Key, id: nat): Table {
    t.(byKey := t.byKey - {key}, byID := t.byID - {id})
  }

  // Whatever the key and the id lead to is each other.
  predicate Paired(t: Table, key: Key, id: nat) {
    (key in t.byKey ==> t.byKey[key] == id) && (id in t.byID ==> t.byID[id] == key)
  }

  class ManagedSession {
    const id: nat
    const op: string
    ghost const key: Key
    var mod128: bool
    var inbox: seq<LapbSpec.Event>
    var lastPath: seq<A.Address>
    var cancelled: bool

    constructor (id: nat, op: string, ghost key: Key, mod128: bool)
      ensures this.id == id && this.op == op && this.key == key && this.mod128 == mod128
      ensures inbox == [] && lastPath == [] && !cancelled
    {
      this.id, this.op, this.key, this.mod128 := id, op, key, mod128;
      inbox, lastPath, cancelled := [], [], false;
    }

    // What another goroutine sees of a delivery.
    ghost function Seen(): (seq<LapbSpec.Event>, seq<A.Address>)
      reads this
    {
      (inbox, lastPath)
    }
  }

  datatype OpenError = ManagerClosed | ChannelAPRSOnly | MaxTotal | MaxPerOperator | SessionExists | BadConfig

  datatype OpenResult = Opened(session: ManagedSession) | Refused(error: OpenError)

  ghost function KeysOf(byKey: map<Key, ManagedSession>, op: string): set<Key> {
    set k | k in byKey && byKey[k].op == op
  }

  lemma KeySize(byKey: map<Key, ManagedSession>)
    ensures |byKey| == |byKey.Keys|
  {
  }

  lemma KeysNew(byKey: map<Key, ManagedSession>, key: Key, ms: ManagedSession, op: string)
    requires key !in byKey
    ensures KeysOf(byKey[key := ms], op) == KeysOf(byKey, op) + (if op == ms.op then {key} else {})
    ensures key !in KeysOf(byKey, op)
  {
  }

  lemma KeysGrow(byKey: map<Key, ManagedSession>, key: Key, ms: ManagedSession)
    requires key !in byKey
    ensures |byKey[key := ms]| == |byKey| + 1
    ensures forall op: string :: |KeysOf(byKey[key := ms], op)| == |KeysOf(byKey, op)| + (if op == ms.op then 1 else 0)
  {
    assert byKey[key := ms].Keys == byKey.Keys + {key};
    KeySize(byKey);
    KeySize(byKey[key := ms]);
    forall op: string
      ensures |KeysOf(byKey[key := ms], op)| == |KeysOf(byKey, op)| + (if op == ms.op then 1 else 0)
    {
      KeysNew(byKey, key, ms, op);
    }
  }

  lemma KeysShrink(byKey: map<Key, ManagedSession>, key: Key)
    requires key in byKey
    ensures |byKey - {key}| == |byKey| - 1
    ensures forall op: string :: |KeysOf(byKey - {key}, op)| <= |KeysOf(byKey, op)|
  {
    var ms := byKey[key];
    var less := byKey - {key};
    KeysGrow(less, key, ms);
    assert less[key := ms] == byKey;
  }

  ghost function TableOf(byKey: map<Key, ManagedSession>, byID: map<nat, ManagedSession>, nextID: nat, closed: bool): Table {
    Table(map k | k in byKey :: byKey[k].id, map i | i in byID :: byID[i].key, nextID, closed)
  }

  // Both tables hold the same sessions, each under its own key and id.
  ghost predicate Agree(byKey: map<Key, ManagedSession>, byID: map<nat, ManagedSession>, nextID: nat) {
    && (forall k | k in byKey :: byKey[k].key == k && byKey[k].id in byID && byID[byKey[k].id] == byKey[k])
    && (forall i | i in byID :: byID[i].id == i && byID[i].key in byKey && byKey[byID[i].key] == byID[i] && i <= nextID)
  }

  lemma EnteredAgree(byKey: map<Key, ManagedSession>, byID: map<nat, ManagedSession>, nextID: nat, closed: bool,
                     key: Key, ms: ManagedSession)
    requires Agree(byKey, byID, nextID) && key !in byKey && ms.key == key && ms.id == nextID + 1
    ensures Agree(byKey[key := ms], byID[ms.id := ms], ms.id) && ms.id !in byID
    ensures TableOf(byKey[key := ms], byID[ms.id := ms], ms.id, closed) == Entered(TableOf(byKey, byID, nextID, closed), key)
  {
  }

  lemma TakenView(byKey: map<Key, ManagedSession>, byID: map<nat, ManagedSession>, nextID: nat, closed: bool, key: Key, id: nat)
    ensures TableOf(byKey - {key}, byID - {id}, nextID, closed) == Taken(TableOf(byKey, byID, nextID, closed), key, id)
  {
  }

  lemma TakenAgree(byKey: map<Key, ManagedSession>, byID: map<nat, ManagedSession>, nextID: nat, closed: bool, key: Key, id: nat)
    requires Agree(byKey, byID, nextID)
    ensures Agree(byKey - {key}, byID - {id}, nextID) <==> Paired(TableOf(byKey, byID, nextID, closed), key, id)
  {
    if key in byKey && byKey[key].id != id {
      assert byKey[key].id in byID - {id};
    } else if id in byID && byID[id].key != key {
      assert byID[id].key in byKey - {key};
    }
  }

  class SessionManager {
    const maxPerOperator: int
    const maxTotal: int
    var byKey: map<Key, ManagedSession>
    var byID: map<nat, ManagedSession>
    var nextID: nat
    var closed: bool

    ghost function View(): Table
      reads this
    {
      TableOf(byKey, byID, nextID, closed)
    }

    // Both tables hold the same sessions, each under its own key and id; the caps hold,
    // over all and for every operator.
    ghost predicate Valid()
      reads this
    {
      && Agree(byKey, byID, nextID)
      && maxTotal > 0 && maxPerOperator > 0
      && |byKey| <= maxTotal
      && forall op: string :: |KeysOf(byKey, op)| <= maxPerOperator
    }

    // Caps of zero stand for the defaults.
    constructor (perOperator: int, total: int)
      requires perOperator >= 0 && total >= 0
      ensures Valid() && byKey == map[] && byID == map[] && !closed
      ensures maxPerOperator == (if perOperator == 0 then 4 else perOperator)
      ensures maxTotal == if total == 0 then 64 else total
    {
      maxPerOperator := if perOperator == 0 then 4 else perOperator;
      maxTotal := if total == 0 then 64 else total;
      byKey, byID, nextID, closed := map[], map[], 0, false;
      new;
      assert forall op: string :: KeysOf(map[], op) == {};
    }

    method CountFor(operator: string) returns (count: nat)
      ensures count == |KeysOf(byKey, operator)|
    {
      var left := byKey.Keys;
      count := 0;
      while left != {}
        invariant left <= byKey.Keys
        invariant count == |set k | k in byKey && k !in left && byKey[k].op == operator|
        decreases left
      {
        var k :| k in left;
        ghost var before := set j | j in byKey && j !in left && byKey[j].op == operator;
        left := left - {k};
        ghost var after := set j | j in byKey && j !in left && byKey[j].op == operator;
        assert after == if byKey[k].op == operator then before + {k} else before;
        if byKey[k].op == operator {
          count := count + 1;
        }
      }
      assert (set k | k in byKey && k !in left && byKey[k].op == operator) == KeysOf(byKey, operator);
    }

    // A session is opened exactly when the manager is open, the channel takes packet
    // connections, both caps leave room, the triple is free and the configuration is
    // complete; otherwise the first of these that fails is the error and nothing changes.
    method Open(channel: int, local: A.Address, peer: A.Address, mod128: bool, hasSink: bool, aprsOnly: bool,
                operator: string)
      returns (r: OpenResult)
      requires Valid()
      modifies this`byKey, this`byID, this`nextID
      ensures Valid()
      ensures r.Opened? <==>
              && !closed && !aprsOnly && |old(byKey)| < maxTotal && |KeysOf(old(byKey), operator)| < maxPerOperator
              && KeyOf(channel, local, peer) !in old(byKey) && hasSink && local.call != [] && peer.call != []
      ensures r.Opened? ==>
                var (ms, key) := (r.session, KeyOf(channel, local, peer));
                && fresh(ms) && ms.key == key && ms.op == operator && ms.mod128 == mod128 && ms.inbox == []
                && ms.id !in old(byID) && byKey == old(byKey)[key := ms] && byID == old(byID)[ms.id := ms]
      ensures r.Opened? ==> View() == Entered(old(View()), KeyOf(channel, local, peer)) && r.session.id == nextID
      ensures r.Refused? ==> byKey == old(byKey) && byID == old(byID) && View() == old(View())
      ensures r.Refused? ==>
                r.error == if closed then ManagerClosed else if aprsOnly then ChannelAPRSOnly
                           else if |old(byKey)| >= maxTotal then MaxTotal
                           else if |KeysOf(old(byKey), operator)| >= maxPerOperator then MaxPerOperator
                           else if KeyOf(channel, local, peer) in old(byKey) then SessionExists else BadConfig
    {
      hide KeysOf, KeyOf, Valid;
      if closed {
        return Refused(ManagerClosed);
      }
      if aprsOnly {
        return Refused(ChannelAPRSOnly);
      }
      if |byKey| >= maxTotal {
        return Refused(MaxTotal);
      }
      var count := CountFor(operator);
      if count >= maxPerOperator {
        return Refused(MaxPerOperator);
      }
      var key := KeyOf(channel, local, peer);
      if key in byKey {
        return Refused(SessionExists);
      }
      if !hasSink || local.call == [] || peer.call == [] {
        return Refused(BadConfig);
      }
      var ms := Bind(key, operator, mod128);
      r := Opened(ms);
    }

    // The last part of Open: a new session enters both tables.
    method Bind(key: Key, operator: string, mod128: bool) returns (ms: ManagedSession)
      requires Valid() && key !in byKey && |byKey| < maxTotal && |KeysOf(byKey, operator)| < maxPerOperator
      modifies this`byKey, this`byID, this`nextID
      ensures Valid() && fresh(ms) && ms.key == key && ms.op == operator && ms.mod128 == mod128 && ms.inbox == []
      ensures ms.id !in old(byID) && byKey == old(byKey)[key := ms] && byID == old(byID)[ms.id := ms]
      ensures View() == Entered(old(View()), key) && ms.id == nextID
    {
      hide KeysOf, Agree, TableOf;
      ghost var was, wasID, last := byKey, byID, nextID;
      nextID := nextID + 1;
      ms := new ManagedSession(nextID, operator, key, mod128);
      byKey := byKey[key := ms];
      byID := byID[nextID := ms];
      KeysGrow(was, key, ms);
      EnteredAgree(was, wasID, last, closed, key, ms);
      forall o: string
        ensures |KeysOf(byKey, o)| <= maxPerOperator
      {
        assert |KeysOf(was, o)| <= maxPerOperator;
        assert |KeysOf(was[key := ms], o)| == |KeysOf(was, o)| + (if o == ms.op then 1 else 0);
      }
    }

    // What a session's goroutine does once its run has ended. The tables still hold the
    // same sessions exactly when whatever the two arguments lead to is one session.
    method Remove(key: Key, id: nat)
      modifies this`byKey, this`byID
      ensures byKey == old(byKey) - {key} && byID == old(byID) - {id} && View() == Taken(old(View()), key, id)
      ensures old(Valid()) ==> (Valid() <==> Paired(old(View()), key, id))
    {
      hide KeysOf, Agree, TableOf, Paired;
      if key in byKey {
        KeysShrink(byKey, key);
      } else {
        assert byKey - {key} == byKey;
      }
      TakenView(byKey, byID, nextID, closed, key, id);
      if Agree(byKey, byID, nextID) {
        TakenAgree(byKey, byID, nextID, closed, key, id);
      }
      byKey := byKey - {key};
      byID := byID - {id};
    }

    // The first section of a dispatch, under the lock: the session the octets name.
    method Resolve(channel: int, hdr: A.AddressBlock) returns (found: Option<ManagedSession>)
      requires Valid()
      ensures var key := KeyOf(channel, hdr.dest, hdr.source);
              && (found.Some? <==> key in byKey)
              && (found.Some? ==> found.value == byKey[key] && found.value.key == key && found.value in byKey.Values)
    {
      var key := KeyOf(channel, hdr.dest, hdr.source);
      if key in byKey {
        assert byKey[key] in byKey.Values;
        found := Some(byKey[key]);
      } else {
        found := None;
      }
    }

    // Under the lock again; the session need not be in the tables any more.
    method RecordPath(ms: ManagedSession, f: Frame)
      modifies ms`lastPath
      ensures ms.lastPath == Traversed(f.path)
    {
      ms.lastPath := NormalizeInboundPath(f.path);
    }

    // Without the lock.
    method Submit(ms: ManagedSession, ev: LapbSpec.Event)
      modifies ms`inbox
      ensures ms.inbox == Enqueued(old(ms.inbox), ev)
    {
      ms.inbox := Enqueued(ms.inbox, ev);
    }

    method Deliver(ms: ManagedSession, f: Frame)
      modifies ms`lastPath, ms`inbox
      ensures ms.Seen() == (Enqueued(old(ms.inbox), LapbSpec.FrameRX(Some(f))), Traversed(f.path))
    {
      RecordPath(ms, f);
      Submit(ms, LapbSpec.FrameRX(Some(f)));
    }

    // Undisturbed, raw octets are decoded under the modulus of the session they name and
    // reach that session alone; octets that name none, or do not decode, reach none.
    method DispatchRaw(channel: int, raw: seq<U8>)
      requires Valid()
      modifies byKey.Values
      ensures Valid()
      ensures var hdr := A.DecodeBlock(raw);
              var key := if hdr.Ok? then KeyOf(channel, hdr.value.dest, hdr.value.source) else Key(channel, [], []);
              forall k | k in byKey ::
                var (ms, f) := (byKey[k], Decode(raw, old(byKey[k].mod128)));
                ms.Seen() == if hdr.Ok? && k == key && f.Ok?
                             then (Enqueued(old(ms.inbox), LapbSpec.FrameRX(Some(f.value))), Traversed(f.value.path))
                             else old(ms.Seen())
    {
      hide Decode;
      var hdr := A.DecodeAddressBlock(raw);
      if hdr.Err? {
        return;
      }
      var found := Resolve(channel, hdr.value);
      if found.None? {
        return;
      }
      var f := Decode(raw, found.value.mod128);
      if f.Err? {
        return;
      }
      Deliver(found.value, f.value);
    }

    method LastPath(sid: nat) returns (path: seq<A.Address>)
      ensures path == if sid in byID then byID[sid].lastPath else []
    {
      path := if sid in byID then byID[sid].lastPath else [];
    }

    // Cancels every live session; no session opens afterwards.
    method Close()
      requires Valid()
      modifies this`closed, byKey.Values
      ensures Valid() && closed
      ensures forall k | k in byKey ::
                byKey[k].cancelled == (old(byKey[k].cancelled) || !old(closed)) && byKey[k].Seen() == old(byKey[k].Seen())
    {
      if closed {
        return;
      }
      assert forall k, j | k in byKey && j in byKey && byKey[k] == byKey[j] :: k == j;
      hide Agree, KeysOf;
      closed := true;
      var left := byKey.Keys;
      while left != {}
        invariant left <= byKey.Keys && closed
        invariant forall k | k in byKey ::
                    byKey[k].cancelled == (old(byKey[k].cancelled) || k !in left) && byKey[k].Seen() == old(byKey[k].Seen())
        decreases left
      {
        var k :| k in left;
        assert byKey[k] in byKey.Values;
        byKey[k].cancelled := true;
        left := left - {k};
      }
    }
  }
}
