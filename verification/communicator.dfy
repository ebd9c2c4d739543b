/** The message buffers of a running task, keyed by protocol index: gathering a
    round, relaying it, and noticing that it is complete. */
module Communication {
  import opened Basics
  import opened Shares

  datatype ProtocolType = Gg18 | ElGamal | Frost | Musig2

  /** FROST numbers its participants from one. */
  function IndexOffset(p: ProtocolType): nat {
    match p
    case Gg18 | ElGamal | Musig2 => 0
    case Frost => 1
  }

  datatype ClientMessage = ClientMessage(broadcast: Option<Bytes>, unicasts: map<nat, Bytes>)

  /** What the server hands to a share; the encoding is an injective constructor. */
  datatype ServerMessage =
    | Relayed(protocol: ProtocolType, unicasts: map<nat, Bytes>, broadcasts: map<nat, Bytes>)
    | ProtocolInit(protocol: ProtocolType, indices: seq<nat>, index: nat, data: Bytes)
    | ProtocolGroupInit(protocol: ProtocolType, index: nat, parties: nat, threshold: nat)

  /** The value of a communicator. */
  datatype Comm = Comm(
    threshold: nat,
    protocol: ProtocolType,
    active: map<nat, Device>,
    input: map<nat, ClientMessage>,
    output: map<nat, ServerMessage>)

  /** The numbers of `s`, each moved up by `k`. */
  ghost function Shift(s: set<nat>, k: nat): (r: set<nat>)
    ensures |r| == |s|
    ensures forall i: nat :: i in r <==> i >= k && i - k in s
  {
    if s == {} then {} else
      var x :| x in s;
      Shift(s - {x}, k) + {x + k}
  }

  /** The protocol indices in use. */
  ghost function Indices(c: Comm): set<nat> {
    Shift(c.active.Keys, IndexOffset(c.protocol))
  }

  /** The device a protocol index belongs to. */
  ghost function OwnerOf(c: Comm, i: nat): Device
    requires i in Indices(c)
  {
    c.active[i - IndexOffset(c.protocol)]
  }

  /** The protocol indices of a device's active shares. */
  ghost function IndicesOf(c: Comm, id: Bytes): set<nat> {
    set i | i in Indices(c) && OwnerOf(c, i).id == id
  }

  function ActiveDevices(c: Comm): set<Bytes> {
    set i | i in c.active :: c.active[i].id
  }

  // ---------------------------------------------------- ascending sequences

  predicate Increasing(q: seq<nat>) {
    forall i, j | 0 <= i < j < |q| :: q[i] < q[j]
  }

  ghost function MaxOf(s: set<nat>): (m: nat)
    requires s != {}
    ensures m in s && forall x | x in s :: x <= m
  {
    var x :| x in s;
    if s == {x} then x else
      var y := MaxOf(s - {x});
      assert s == (s - {x}) + {x};
      if x > y then x else y
  }

  /** The elements of a set in ascending order. */
  ghost function Ascend(s: set<nat>): (q: seq<nat>)
    ensures Increasing(q) && |q| == |s|
    ensures forall x :: x in q <==> x in s
  {
    if s == {} then [] else
      var m := MaxOf(s);
      Ascend(s - {m}) + [m]
  }

  lemma {:induction false} AscendUnique(q: seq<nat>, r: seq<nat>)
    requires Increasing(q) && Increasing(r) && forall x :: x in q <==> x in r
    ensures q == r
  {
    if q == [] {
      if r != [] {
        HasHead(r);
        assert false;
      }
    } else {
      assert q[0] in r && (r != [] ==> r[0] in q);
      forall x ensures x in q[1..] <==> x in r[1..] {
        assert x in q <==> x == q[0] || x in q[1..];
        assert x in r <==> x == r[0] || x in r[1..];
        assert q[0] !in q[1..] && r[0] !in r[1..];
      }
      AscendUnique(q[1..], r[1..]);
      assert q == [q[0]] + q[1..] && r == [r[0]] + r[1..];
    }
  }

  lemma HasHead(r: seq<nat>)
    requires r != []
    ensures exists x :: x in r
  {
    assert r[0] in r;
  }

  function CountUp(a: nat, k: nat): (q: seq<nat>)
    ensures |q| == k && forall j | 0 <= j < k :: q[j] == a + j
  {
    seq(k, j requires 0 <= j => a + j)
  }

  /** An interval in ascending order counts up. */
  lemma AscendInterval(s: set<nat>, a: nat, k: nat)
    requires forall x: nat :: x in s <==> a <= x < a + k
    ensures Ascend(s) == CountUp(a, k)
  {
    var q := CountUp(a, k);
    forall x ensures x in q <==> x in Ascend(s) {
      if x in s {
        assert q[x - a] == x;
      }
    }
    AscendUnique(Ascend(s), q);
  }

  // ----------------------------------------------------------- pure model

  function Zip(idx: seq<nat>, msgs: seq<ClientMessage>): (m: map<nat, ClientMessage>)
    requires |idx| == |msgs|
    ensures forall i :: i in m <==> i in idx
  {
    if idx == [] then map[] else
      var n := |idx| - 1;
      assert idx == idx[..n] + [idx[n]];
      Zip(idx[..n], msgs[..n])[idx[n] := msgs[n]]
  }

  lemma {:induction false} ZipAt(idx: seq<nat>, msgs: seq<ClientMessage>, j: nat)
    requires |idx| == |msgs| && Increasing(idx) && j < |idx|
    ensures Zip(idx, msgs)[idx[j]] == msgs[j]
  {
    if j < |idx| - 1 {
      ZipAt(idx[..|idx| - 1], msgs[..|idx| - 1], j);
    }
  }

  predicate WellShaped(c: Comm, msg: ClientMessage) {
    msg.broadcast.Some? || |msg.unicasts| == c.threshold - 1
  }

  /** The wrong number of messages is refused, a misshapen message trips an
      assertion before anything is stored. */
  datatype Received = Dropped | Misshapen | Stored

  ghost function Receives(c: Comm, sender: Bytes, msgs: seq<ClientMessage>): Received {
    if msgs == [] || |IndicesOf(c, sender)| != |msgs| then Dropped
    else if exists m :: m in msgs && !WellShaped(c, m) then Misshapen
    else Stored
  }

  ghost function Gathered(c: Comm, sender: Bytes, msgs: seq<ClientMessage>): Comm {
    if |IndicesOf(c, sender)| == |msgs|
    then c.(input := c.input + Zip(Ascend(IndicesOf(c, sender)), msgs))
    else c
  }

  ghost predicate WaitingFor(c: Comm, id: Bytes) {
    exists i :: i in IndicesOf(c, id) && i !in c.input
  }

  predicate RoundReceived(c: Comm) {
    |c.input| == |c.active|
  }

  function BroadcastsFor(c: Comm, j: nat): map<nat, Bytes> {
    map i | i in c.input && i != j && c.input[i].broadcast.Some? :: c.input[i].broadcast.value
  }

  function UnicastsFor(c: Comm, j: nat): map<nat, Bytes> {
    map i | i in c.input && i != j && j in c.input[i].unicasts :: c.input[i].unicasts[j]
  }

  ghost function Relay(c: Comm): Comm {
    c.(input := map[],
       output := map j | j in Indices(c) :: Relayed(c.protocol, UnicastsFor(c, j), BroadcastsFor(c, j)))
  }

  ghost function SendAll(c: Comm, f: nat -> ServerMessage): Comm {
    c.(input := map[], output := map j | j in Indices(c) :: f(j))
  }

  function InputAt(c: Comm, i: nat): Option<ClientMessage> {
    if i in c.input then Some(c.input[i]) else None
  }

  function OutputAt(c: Comm, i: nat): Option<ServerMessage> {
    if i in c.output then Some(c.output[i]) else None
  }

  /** One entry per share of the device; nothing sent yet reads as no message. */
  ghost function MessagesFor(c: Comm, id: Bytes): (r: seq<Option<ServerMessage>>)
    ensures |r| == |IndicesOf(c, id)|
  {
    var idx := Ascend(IndicesOf(c, id));
    seq(|idx|, j requires 0 <= j < |idx| => OutputAt(c, idx[j]))
  }

  /** Answers come in per device: of each device's indices all or none. */
  ghost predicate DeviceClosed(c: Comm) {
    && c.input.Keys <= Indices(c)
    && forall id :: IndicesOf(c, id) <= c.input.Keys || IndicesOf(c, id) !! c.input.Keys
  }

  /** The protocol indices in use are the active ones, in FROST moved up by one. */
  lemma IndicesAre(c: Comm, i: nat)
    ensures var offset := if c.protocol == Frost then 1 else 0;
            && (i in Indices(c) <==> i >= offset && i - offset in c.active)
            && (i in Indices(c) ==> i >= offset && i - offset in c.active && OwnerOf(c, i) == c.active[i - offset])
  {
    ShiftHas(c.active.Keys, IndexOffset(c.protocol), i);
    hide Shift;
  }

  lemma ShiftHas(s: set<nat>, k: nat, i: nat)
    ensures i in Shift(s, k) <==> i >= k && i - k in s
  {
    hide Shift;
  }

  // -------------------------------------------------------- gathering

  /** A batch that is empty or of the wrong size is dropped.  Any other is stored if each
      of its messages has a broadcast, or one unicast fewer than the threshold; otherwise
      the call panics. */
  lemma ReceivesIff(c: Comm, sender: Bytes, msgs: seq<ClientMessage>)
    ensures var fits := msgs != [] && |msgs| == |IndicesOf(c, sender)|;
            var shaped := forall m | m in msgs :: m.broadcast.Some? || |m.unicasts| + 1 == c.threshold;
            && (Receives(c, sender, msgs) == Dropped <==> !fits)
            && (Receives(c, sender, msgs) == Stored <==> fits && shaped)
            && (Receives(c, sender, msgs) == Misshapen <==> fits && !shaped)
  {
    hide IndicesOf;
  }

  /** Where the threshold is the number of active shares, a message that addresses every
      other share once is one that gets stored. */
  lemma AddressingAllIsStored(c: Comm, sender: Bytes, msgs: seq<ClientMessage>)
    requires |c.active| == c.threshold && msgs != [] && |msgs| == |IndicesOf(c, sender)|
    requires forall m | m in msgs :: exists i :: i in Indices(c) && m.unicasts.Keys == Indices(c) - {i}
    ensures Receives(c, sender, msgs) == Stored
  {
    hide IndicesOf, Indices;
    ReceivesIff(c, sender, msgs);
    ManyIndices(c);
    forall m | m in msgs ensures |m.unicasts| + 1 == c.threshold {
      var i :| i in Indices(c) && m.unicasts.Keys == Indices(c) - {i};
      assert |m.unicasts| == |m.unicasts.Keys|;
    }
  }

  lemma ManyIndices(c: Comm)
    ensures |Indices(c)| == |c.active|
  {
    hide Shift;
    assert |c.active| == |c.active.Keys|;
  }

  lemma DeviceIndices(c: Comm, id: Bytes)
    ensures Shift((set i | i in c.active && c.active[i].id == id), IndexOffset(c.protocol)) == IndicesOf(c, id)
  {
    hide Increasing, Shift;
    var mine := set i | i in c.active && c.active[i].id == id;
    var k := IndexOffset(c.protocol);
    forall x: nat ensures x in Shift(mine, k) <==> x in IndicesOf(c, id) {
      if x >= k {
        assert x in Shift(mine, k) <==> x - k in mine;
      }
    }
  }

  lemma HasIndices(c: Comm, id: Bytes)
    ensures IndicesOf(c, id) != {} <==> id in ActiveDevices(c)
  {
    hide Shift;
    if id in ActiveDevices(c) {
      var i :| i in c.active && c.active[i].id == id;
      assert i + IndexOffset(c.protocol) in IndicesOf(c, id);
    }
  }

  /** Buffers do not affect who owns which index. */
  lemma SameOwners(c: Comm, c': Comm)
    requires c.active == c'.active && c.protocol == c'.protocol
    ensures Indices(c) == Indices(c') && ActiveDevices(c) == ActiveDevices(c')
    ensures forall id :: IndicesOf(c, id) == IndicesOf(c', id)
  {
    hide Shift;
  }

  /** Counting buffered messages detects exactly that no device is awaited. */
  lemma RoundReceivedIffNobodyAwaited(c: Comm)
    requires DeviceClosed(c)
    ensures RoundReceived(c) <==> forall id :: !WaitingFor(c, id)
    ensures RoundReceived(c) <==> c.input.Keys == Indices(c)
  {
    SubsetSameSize(c.input.Keys, Indices(c));
    assert |c.input| == |c.input.Keys|;
    if forall id :: !WaitingFor(c, id) {
      forall i | i in Indices(c) ensures i in c.input {
        assert !WaitingFor(c, OwnerOf(c, i).id);
      }
    }
  }

  /** An awaited device has given no answer at all this round. */
  lemma AwaitedIsSilent(c: Comm, id: Bytes)
    requires DeviceClosed(c)
    ensures WaitingFor(c, id) <==> id in ActiveDevices(c) && IndicesOf(c, id) !! c.input.Keys
  {
    HasIndices(c, id);
  }

  lemma GatheredKeys(c: Comm, sender: Bytes, msgs: seq<ClientMessage>)
    requires |IndicesOf(c, sender)| == |msgs|
    ensures Gathered(c, sender, msgs).input.Keys == c.input.Keys + IndicesOf(c, sender)
  {
    hide IndicesOf, Ascend, Zip;
    assert Zip(Ascend(IndicesOf(c, sender)), msgs).Keys == IndicesOf(c, sender);
  }

  lemma OwnersDisjoint(c: Comm, a: Bytes, b: Bytes)
    ensures IndicesOf(c, a) <= Indices(c)
    ensures a != b ==> IndicesOf(c, a) !! IndicesOf(c, b)
  {
  }

  /** Storing a batch answers for that device only, and for all of its shares. */
  lemma GatherKeepsClosed(c: Comm, sender: Bytes, msgs: seq<ClientMessage>)
    requires DeviceClosed(c) && |IndicesOf(c, sender)| == |msgs|
    ensures DeviceClosed(Gathered(c, sender, msgs))
    ensures Gathered(c, sender, msgs).input.Keys == c.input.Keys + IndicesOf(c, sender)
  {
    GatheredKeys(c, sender, msgs);
    var c' := Gathered(c, sender, msgs);
    SameOwners(c, c');
    OwnersDisjoint(c, sender, sender);
    hide Gathered, IndicesOf;
    forall id ensures IndicesOf(c', id) <= c'.input.Keys || IndicesOf(c', id) !! c'.input.Keys {
      OwnersDisjoint(c, id, sender);
      AllOrNone(IndicesOf(c, id), IndicesOf(c, sender), c.input.Keys);
    }
  }

  lemma AllOrNone(mine: set<nat>, theirs: set<nat>, keys: set<nat>)
    requires mine <= keys || mine !! keys
    requires mine == theirs || mine !! theirs
    ensures mine <= keys + theirs || mine !! keys + theirs
  {
  }

  // ---------------------------------------------------------- relaying

  /** Relaying is exact: `j` hears a broadcast of `i` if and only if `i` is
      another share that sent one, a unicast of `i` if and only if `i` is another
      share that addressed `j`; every active index gets one message and the
      inbox is empty afterwards. */
  lemma RelayIsExact(c: Comm, i: nat, j: nat)
    requires j in Indices(c)
    ensures Relay(c).output.Keys == Indices(c) && Relay(c).input == map[]
    ensures Relay(c).output[j].Relayed? && Relay(c).output[j].protocol == c.protocol
    ensures i in Relay(c).output[j].broadcasts <==> i in c.input && i != j && c.input[i].broadcast.Some?
    ensures i in Relay(c).output[j].unicasts <==> i in c.input && i != j && j in c.input[i].unicasts
    ensures i in Relay(c).output[j].broadcasts ==> Some(Relay(c).output[j].broadcasts[i]) == c.input[i].broadcast
    ensures i in Relay(c).output[j].unicasts ==> Relay(c).output[j].unicasts[i] == c.input[i].unicasts[j]
  {
  }

  /** Unicasts in a buffer, as (sender, recipient) pairs. */
  ghost function Addressed(c: Comm): set<(nat, nat)> {
    set i, j | i in c.input && j in Indices(c) && i != j && j in c.input[i].unicasts :: (i, j)
  }

  ghost function Delivered(c: Comm): set<(nat, nat)> {
    set j, i | j in c.output && c.output[j].Relayed? && i in c.output[j].unicasts :: (i, j)
  }

  /** No unicast between active shares is lost, duplicated or invented. */
  lemma RelayConserves(c: Comm)
    ensures Delivered(Relay(c)) == Addressed(c)
  {
    var r := Relay(c);
    forall i: nat, j: nat ensures (i, j) in Delivered(r) <==> (i, j) in Addressed(c) {
      if j in Indices(c) {
        RelayIsExact(c, i, j);
      }
    }
  }

  // ------------------------------------------------------- order of batches

  /** A device with `k` active shares exchanges its messages in the order of its
      indices: the `j`-th belongs to the `j`-th index of its stretch. */
  lemma BatchOrder(c: Comm, ps: seq<Participant>, counts: map<Bytes, nat>, p: Participant)
    requires DistinctIds(ps) && p in ps && CountOf(counts, p.device.id) <= p.shares
    requires c.active == ActiveMap(ps, counts)
    ensures var first := FirstIndex(SortById(ps), p.device.id) + IndexOffset(c.protocol);
            Ascend(IndicesOf(c, p.device.id)) == CountUp(first, CountOf(counts, p.device.id))
  {
    hide *;
    var first := FirstIndex(SortById(ps), p.device.id) + IndexOffset(c.protocol);
    forall x: nat ensures x in IndicesOf(c, p.device.id) <==> first <= x < first + CountOf(counts, p.device.id) {
      InStretch(c, ps, counts, p, x);
    }
    AscendInterval(IndicesOf(c, p.device.id), first, CountOf(counts, p.device.id));
  }

  lemma InStretch(c: Comm, ps: seq<Participant>, counts: map<Bytes, nat>, p: Participant, x: nat)
    requires DistinctIds(ps) && p in ps && CountOf(counts, p.device.id) <= p.shares
    requires c.active == ActiveMap(ps, counts)
    ensures var first := FirstIndex(SortById(ps), p.device.id) + IndexOffset(c.protocol);
            x in IndicesOf(c, p.device.id) <==> first <= x < first + CountOf(counts, p.device.id)
  {
    hide ActiveMap, FirstIndex, SortById, DistinctIds, Shift;
    if x >= IndexOffset(c.protocol) {
      ActiveStretch(ps, counts, p, x - IndexOffset(c.protocol));
    }
  }

  lemma BatchesAlign(c: Comm, ps: seq<Participant>, counts: map<Bytes, nat>, p: Participant,
                     msgs: seq<ClientMessage>, j: nat)
    requires DistinctIds(ps) && p in ps && j < CountOf(counts, p.device.id) <= p.shares
    requires c.active == ActiveMap(ps, counts) && |msgs| == CountOf(counts, p.device.id)
    ensures |IndicesOf(c, p.device.id)| == |msgs|
    ensures var i := FirstIndex(SortById(ps), p.device.id) + IndexOffset(c.protocol) + j;
            && MessagesFor(c, p.device.id)[j] == OutputAt(c, i)
            && InputAt(Gathered(c, p.device.id, msgs), i) == Some(msgs[j])
  {
    hide *;
    BatchOrder(c, ps, counts, p);
    GatheredAt(c, p.device.id, msgs, j);
  }

  lemma GatheredIs(c: Comm, id: Bytes, msgs: seq<ClientMessage>)
    requires |IndicesOf(c, id)| == |msgs|
    ensures var c', mine := Gathered(c, id, msgs), IndicesOf(c, id);
            && c'.input.Keys == c.input.Keys + mine
            && (forall k | 0 <= k < |msgs| :: InputAt(c', Ascend(mine)[k]) == Some(msgs[k]))
            && forall i | i !in mine :: InputAt(c', i) == InputAt(c, i)
  {
    hide IndicesOf, Ascend, Increasing, Zip, MessagesFor;
    GatheredKeys(c, id, msgs);
    forall k | 0 <= k < |msgs| ensures InputAt(Gathered(c, id, msgs), Ascend(IndicesOf(c, id))[k]) == Some(msgs[k]) {
      GatheredAt(c, id, msgs, k);
    }
  }

  lemma GatheredAt(c: Comm, id: Bytes, msgs: seq<ClientMessage>, j: nat)
    requires |IndicesOf(c, id)| == |msgs| && j < |msgs|
    ensures var i := Ascend(IndicesOf(c, id))[j];
            && MessagesFor(c, id)[j] == OutputAt(c, i)
            && InputAt(Gathered(c, id, msgs), i) == Some(msgs[j])
  {
    var idx := Ascend(IndicesOf(c, id));
    ZipAt(idx, msgs, j);
    assert idx[j] in idx;
  }

  // ----------------------------------------------------- the final message

  type Verifier = (Bytes, Bytes) -> Option<Bytes>

  datatype Final = NoMessage | Message(content: Bytes) | Panic

  /** What the sender's certificate vouches for, if anything. */
  ghost function Verified(verify: Verifier, c: Comm, i: nat): Option<Bytes>
    requires i in c.input && i in Indices(c) && c.input[i].broadcast.Some?
  {
    verify(c.input[i].broadcast.value, OwnerOf(c, i).certificate)
  }

  /** Walks the inbox in the given order. */
  ghost function FinalFrom(verify: Verifier, c: Comm, order: seq<nat>, prev: Option<Bytes>): Final
    requires c.input.Keys <= Indices(c) && forall i | i in order :: i in c.input
  {
    if order == [] then (if prev.None? then NoMessage else Message(prev.value))
    else if c.input[order[0]].broadcast.None? then Panic
    else
      var msg := Verified(verify, c, order[0]);
      if msg.None? then NoMessage
      else if prev.Some? && prev != msg then Panic
      else FinalFrom(verify, c, order[1..], msg)
  }

  ghost predicate Enumerates(order: seq<nat>, keys: set<nat>) {
    && (forall i, j | 0 <= i < j < |order| :: order[i] != order[j])
    && (forall i :: i in order <==> i in keys)
  }

  ghost predicate Vouches(verify: Verifier, c: Comm, i: nat, m: Bytes) {
    i in c.input && i in Indices(c) && c.input[i].broadcast.Some? && Verified(verify, c, i) == Some(m)
  }

  lemma {:induction false} FinalFromExact(verify: Verifier, c: Comm, order: seq<nat>, prev: Option<Bytes>, m: Bytes)
    requires c.input.Keys <= Indices(c) && forall i | i in order :: i in c.input
    ensures FinalFrom(verify, c, order, prev) == Message(m) <==>
              && (prev == Some(m) || (prev == None && order != []))
              && forall i | i in order :: Vouches(verify, c, i, m)
  {
    if order != [] {
      assert order[0] in order;
      assert forall i | i in order[1..] :: i in order;
      assert forall i | i in order :: i == order[0] || i in order[1..];
      if c.input[order[0]].broadcast.Some? {
        FinalFromExact(verify, c, order[1..], Verified(verify, c, order[0]), m);
      }
    }
  }

  lemma NonEmptyWalk(order: seq<nat>, keys: set<nat>)
    requires Enumerates(order, keys)
    ensures order != [] <==> keys != {}
  {
    if order != [] { assert order[0] in order; }
    if keys != {} {
      var i :| i in keys;
      assert i in order;
    }
  }

  /** A result is output if and only if every share signed that very result;
      the order in which the inbox is walked does not matter. */
  lemma FinalMessageExact(verify: Verifier, c: Comm, order: seq<nat>, m: Bytes)
    requires c.input.Keys <= Indices(c) && Enumerates(order, c.input.Keys)
    ensures FinalFrom(verify, c, order, None) == Message(m)
            <==> c.input != map[] && forall i | i in c.input :: Vouches(verify, c, i, m)
  {
    hide FinalFrom, Vouches, Indices;
    FinalFromExact(verify, c, order, None, m);
    NonEmptyWalk(order, c.input.Keys);
  }

  /** The walk comes to a broadcast that does not verify, after such as verify to `m`. */
  ghost predicate Unverified(verify: Verifier, c: Comm, order: seq<nat>, k: nat, m: Bytes)
    requires c.input.Keys <= Indices(c) && forall i | i in order :: i in c.input
  {
    && k < |order| && c.input[order[k]].broadcast.Some? && Verified(verify, c, order[k]) == None
    && forall j | 0 <= j < k :: Vouches(verify, c, order[j], m)
  }

  lemma {:induction false} UnverifiedFails(verify: Verifier, c: Comm, order: seq<nat>, prev: Option<Bytes>, k: nat,
                                           m: Bytes)
    requires c.input.Keys <= Indices(c) && (forall i | i in order :: i in c.input)
    requires Unverified(verify, c, order, k, m) && (prev.Some? ==> prev.value == m)
    ensures FinalFrom(verify, c, order, prev) == NoMessage
  {
    hide Indices, Verified;
    if k > 0 {
      assert Vouches(verify, c, order[0], m);
      assert forall j | 0 <= j < k - 1 :: order[1..][j] == order[j + 1];
      UnverifiedFails(verify, c, order[1..], Some(m), k - 1, m);
    }
  }

  lemma {:induction false} FailsUnverified(verify: Verifier, c: Comm, order: seq<nat>, prev: Option<Bytes>)
    returns (k: nat, m: Bytes)
    requires c.input.Keys <= Indices(c) && (forall i | i in order :: i in c.input)
    requires FinalFrom(verify, c, order, prev) == NoMessage && (order != [] || prev.Some?)
    ensures Unverified(verify, c, order, k, m) && (prev.Some? ==> prev.value == m)
  {
    hide Indices, Verified;
    assert order[0] in order;
    var first := Verified(verify, c, order[0]);
    if first.None? {
      k, m := 0, if prev.Some? then prev.value else [];
    } else {
      k, m := FailsUnverified(verify, c, order[1..], first);
      forall j | 0 <= j < k + 1 ensures Vouches(verify, c, order[j], m) {
        assert j > 0 ==> order[j] == order[1..][j - 1];
      }
      k := k + 1;
    }
  }

  /** No message comes out of a filled inbox if and only if the walk comes to a broadcast
      that does not verify before it comes to a missing or a differing one. */
  lemma NoMessageIff(verify: Verifier, c: Comm, order: seq<nat>)
    requires c.input.Keys <= Indices(c) && Enumerates(order, c.input.Keys) && c.input != map[]
    ensures FinalFrom(verify, c, order, None) == NoMessage <==> exists k, m :: Unverified(verify, c, order, k, m)
  {
    hide Indices, FinalFrom, Unverified;
    NonEmptyWalk(order, c.input.Keys);
    if FinalFrom(verify, c, order, None) == NoMessage {
      var k, m := FailsUnverified(verify, c, order, None);
    }
    if k, m :| Unverified(verify, c, order, k, m) {
      UnverifiedFails(verify, c, order, None, k, m);
    }
  }

  /** All broadcasts are there and those that verify agree. */
  ghost predicate Unanimous(verify: Verifier, c: Comm)
    requires c.input.Keys <= Indices(c)
  {
    && (forall i | i in c.input :: c.input[i].broadcast.Some?)
    && (forall i, j | i in c.input && j in c.input && Verified(verify, c, i).Some? && Verified(verify, c, j).Some? ::
          Verified(verify, c, i) == Verified(verify, c, j))
  }

  lemma {:induction false} UnanimousNeverPanics(verify: Verifier, c: Comm, order: seq<nat>, prev: Option<Bytes>)
    requires c.input.Keys <= Indices(c) && (forall i | i in order :: i in c.input) && Unanimous(verify, c)
    requires prev.Some? ==> exists i :: i in c.input && Verified(verify, c, i) == prev
    ensures FinalFrom(verify, c, order, prev) != Panic
  {
    if order != [] {
      assert order[0] in order;
      UnanimousNeverPanics(verify, c, order[1..], Verified(verify, c, order[0]));
    }
  }

  lemma ExtendEnumeration(prefix: seq<nat>, keys: set<nat>) returns (order: seq<nat>)
    requires (forall i | i in prefix :: i in keys) && (forall i, j | 0 <= i < j < |prefix| :: prefix[i] != prefix[j])
    ensures Enumerates(order, keys) && |order| >= |prefix| && order[..|prefix|] == prefix
  {
    var rest := Ascend(keys - set i | i in prefix);
    order := prefix + rest;
    assert order[..|prefix|] == prefix;
    forall i, j | 0 <= i < j < |order| ensures order[i] != order[j] {
      if i < |prefix| <= j {
        assert order[i] in prefix && order[j] in rest;
      }
    }
  }

  /** A walk that begins where a broadcast is missing panics. */
  lemma MissingPanics(verify: Verifier, c: Comm, order: seq<nat>)
    requires c.input.Keys <= Indices(c) && (forall i | i in order :: i in c.input)
    requires order != [] && c.input[order[0]].broadcast.None?
    ensures FinalFrom(verify, c, order, None) == Panic
  {
    hide Indices, Verified;
  }

  /** So does one whose first two broadcasts verify to different results. */
  lemma DifferencePanics(verify: Verifier, c: Comm, order: seq<nat>)
    requires c.input.Keys <= Indices(c) && (forall i | i in order :: i in c.input)
    requires |order| >= 2 && c.input[order[0]].broadcast.Some? && c.input[order[1]].broadcast.Some?
    requires Verified(verify, c, order[0]).Some? && Verified(verify, c, order[1]).Some?
    requires Verified(verify, c, order[0]) != Verified(verify, c, order[1])
    ensures FinalFrom(verify, c, order, None) == Panic
  {
    hide Indices, Verified;
    assert order[1..][0] == order[1];
    assert FinalFrom(verify, c, order[1..], Verified(verify, c, order[0])) == Panic;
  }

  /** No walk of the inbox panics if and only if the broadcasts are all there
      and those that verify agree. */
  lemma NoPanicIffUnanimous(verify: Verifier, c: Comm)
    requires c.input.Keys <= Indices(c)
    ensures Unanimous(verify, c)
            <==> forall order | Enumerates(order, c.input.Keys) :: FinalFrom(verify, c, order, None) != Panic
  {
    hide FinalFrom, Indices, Verified;
    if Unanimous(verify, c) {
      forall order | Enumerates(order, c.input.Keys) ensures FinalFrom(verify, c, order, None) != Panic {
        UnanimousNeverPanics(verify, c, order, None);
      }
    } else if i :| i in c.input && c.input[i].broadcast.None? {
      var order := ExtendEnumeration([i], c.input.Keys);
      assert order[0] == [i][0] == i;
      MissingPanics(verify, c, order);
    } else {
      var i, j :| i in c.input && j in c.input && Verified(verify, c, i).Some? && Verified(verify, c, j).Some?
                  && Verified(verify, c, i) != Verified(verify, c, j);
      var order := ExtendEnumeration([i, j], c.input.Keys);
      assert order[0] == [i, j][0] == i && order[1] == [i, j][1] == j;
      DifferencePanics(verify, c, order);
    }
  }

  // ------------------------------------------------------------ the object

  /** Puts an index where it belongs in an ascending list. */
  function InsertIndex(q: seq<nat>, x: nat): (r: seq<nat>)
    requires Increasing(q) && x !in q
    ensures Increasing(r)
    ensures forall y :: y in r <==> y == x || y in q
  {
    if q == [] then [x]
    else if x < q[0] then [x] + q
    else
      assert forall y :: y in q <==> y == q[0] || y in q[1..];
      var t := InsertIndex(q[1..], x);
      assert forall j | 0 <= j < |t| :: t[j] in t && q[0] < t[j];
      [q[0]] + t
  }

  /** The numbers of `s`, moved up, are in `r` and in order. */
  ghost predicate Holds(r: seq<nat>, s: set<nat>, offset: nat) {
    Increasing(r) && forall y: nat :: y in r <==> y >= offset && y - offset in s
  }

  lemma HoldsNone(offset: nat)
    ensures Holds([], {}, offset)
  {
  }

  lemma HoldsMore(r: seq<nat>, s: set<nat>, offset: nat, i: nat)
    requires Holds(r, s, offset) && i !in s
    ensures Increasing(r) && i + offset !in r && Holds(InsertIndex(r, i + offset), s + {i}, offset)
  {
    hide Increasing, InsertIndex;
  }

  lemma HoldsAll(r: seq<nat>, s: set<nat>, offset: nat)
    requires Holds(r, s, offset)
    ensures r == Ascend(Shift(s, offset))
  {
    hide Increasing, Ascend, Shift;
    AscendUnique(r, Ascend(Shift(s, offset)));
  }

  /** Moves every key up by the offset, in map order, and sorts the outcome. */
  method SortShifted(keys: set<nat>, offset: nat) returns (r: seq<nat>)
    ensures r == Ascend(Shift(keys, offset))
  {
    hide *;
    var left := keys;
    r := [];
    HoldsNone(offset);
    assert keys - left == {};
    while left != {}
      invariant left <= keys && Holds(r, keys - left, offset)
      decreases left
    {
      var i :| i in left;
      HoldsMore(r, keys - left, offset, i);
      assert keys - left + {i} == keys - (left - {i});
      r := InsertIndex(r, i + offset);
      left := left - {i};
    }
    assert keys - left == keys;
    HoldsAll(r, keys, offset);
  }

  ghost function Without(m: map<nat, Bytes>, left: set<nat>): map<nat, Bytes> {
    map i | i in m && i !in left :: m[i]
  }

  lemma WithoutStep(m: map<nat, Bytes>, left: set<nat>, i: nat)
    requires i in left
    ensures Without(m, left - {i}) == if i in m then Without(m, left)[i := m[i]] else Without(m, left)
  {
  }

  lemma WithoutNone(m: map<nat, Bytes>)
    ensures Without(m, {}) == m
  {
  }

  /** The map with `f(i)` at every listed index. */
  ghost function Table(idx: seq<nat>, f: nat -> ServerMessage): (m: map<nat, ServerMessage>)
    ensures forall i :: i in m <==> i in idx
    ensures forall i | i in m :: m[i] == f(i)
  {
    if idx == [] then map[] else
      var n := |idx| - 1;
      assert idx == idx[..n] + [idx[n]];
      Table(idx[..n], f)[idx[n] := f(idx[n])]
  }

  lemma TableNone(f: nat -> ServerMessage)
    ensures forall idx :: |idx| == 0 ==> Table(idx, f) == map[]
  {
  }

  lemma TableStep(idx: seq<nat>, k: nat, f: nat -> ServerMessage)
    requires k < |idx|
    ensures Table(idx[..k + 1], f) == Table(idx[..k], f)[idx[k] := f(idx[k])]
  {
    assert idx[..k + 1][..k] == idx[..k];
  }

  lemma TableAll(idx: seq<nat>, keys: set<nat>, f: nat -> ServerMessage)
    requires forall i :: i in idx <==> i in keys
    ensures Table(idx[..|idx|], f) == map i | i in keys :: f(i)
  {
    assert idx[..|idx|] == idx;
  }

  class Communicator {
    const threshold: nat
    const protocol: ProtocolType
    const active: map<nat, Device>
    var input: map<nat, ClientMessage>
    var output: map<nat, ServerMessage>

    function Value(): Comm
      reads this
    {
      Comm(threshold, protocol, active, input, output)
    }

    /** The constructor's assertions are demands on its caller. */
    constructor (threshold: nat, protocol: ProtocolType, active: map<nat, Device>)
      requires |active| > 1 && threshold <= |active|
      ensures Value() == Comm(threshold, protocol, active, map[], map[])
    {
      this.threshold := threshold;
      this.protocol := protocol;
      this.active := active;
      this.input := map[];
      this.output := map[];
    }

    constructor FromValue(c: Comm)
      ensures Value() == c
    {
      this.threshold := c.threshold;
      this.protocol := c.protocol;
      this.active := c.active;
      this.input := c.input;
      this.output := c.output;
    }

    method ClearInput()
      modifies this`input
      ensures Value() == old(Value()).(input := map[])
    {
      input := map[];
    }

    /** Collects a device's indices and sorts them. */
    method IdentifierToIndices(id: Bytes) returns (r: seq<nat>)
      ensures r == Ascend(IndicesOf(Value(), id))
    {
      var mine := set i | i in active && active[i].id == id;
      DeviceIndices(Value(), id);
      r := SortShifted(mine, IndexOffset(protocol));
    }

    method GetProtocolIndices() returns (r: seq<nat>)
      ensures r == Ascend(Indices(Value()))
    {
      r := SortShifted(active.Keys, IndexOffset(protocol));
    }

    /** Stores one message per active share of the sender. */
    method ReceiveMessages(sender: Bytes, msgs: seq<ClientMessage>) returns (r: Received)
      modifies this`input
      ensures r == Receives(old(Value()), sender, msgs)
      ensures Value() == if r.Stored? then Gathered(old(Value()), sender, msgs) else old(Value())
      ensures var mine := IndicesOf(old(Value()), sender);
              var fits := msgs != [] && |msgs| == |mine|;
              var shaped := forall m | m in msgs :: m.broadcast.Some? || |m.unicasts| + 1 == threshold;
              && (r == Stored <==> fits && shaped) && (r == Misshapen <==> fits && !shaped)
              && (r == Stored ==>
                    && input.Keys == old(input).Keys + mine
                    && (forall k | 0 <= k < |msgs| :: InputAt(Value(), Ascend(mine)[k]) == Some(msgs[k]))
                    && forall i | i !in mine :: InputAt(Value(), i) == InputAt(old(Value()), i))
    {
      hide Increasing, IndicesOf, Zip;
      ghost var before := Value();
      ReceivesIff(before, sender, msgs);
      if |msgs| == |IndicesOf(before, sender)| {
        GatheredIs(before, sender, msgs);
      }
      var idx := IdentifierToIndices(sender);
      if msgs == [] || |idx| != |msgs| {
        return Dropped;
      }
      var shaped := AllWellShaped(msgs);
      if !shaped {
        return Misshapen;
      }
      input := input + Zip(idx, msgs);
      return Stored;
    }

    method AllWellShaped(msgs: seq<ClientMessage>) returns (r: bool)
      ensures r <==> forall m | m in msgs :: WellShaped(Value(), m)
    {
      for k := 0 to |msgs|
        invariant forall j | 0 <= j < k :: WellShaped(Value(), msgs[j])
      {
        if !(msgs[k].broadcast.Some? || |msgs[k].unicasts| == threshold - 1) {
          assert msgs[k] in msgs && !WellShaped(Value(), msgs[k]);
          return false;
        }
      }
      return true;
    }

    method AwaitsDevice(id: Bytes) returns (r: bool)
      ensures r == WaitingFor(Value(), id)
    {
      hide Increasing, IndicesOf;
      var idx := IdentifierToIndices(id);
      for k := 0 to |idx|
        invariant forall j | 0 <= j < k :: idx[j] in input
      {
        if idx[k] !in input {
          assert idx[k] in idx;
          return true;
        }
      }
      return false;
    }

    method IsRoundReceived() returns (r: bool)
      ensures r == RoundReceived(Value())
    {
      r := |input| == |active|;
    }

    /** Fills every outbox from the inbox, then empties the inbox. */
    method RelayMessages()
      modifies this
      ensures Value() == Relay(old(Value()))
    {
      output := Bundles();
      ClearInput();
    }

    method Bundles() returns (out: map<nat, ServerMessage>)
      ensures out == Relay(Value()).output
    {
      hide Increasing, Indices, UnicastsFor, BroadcastsFor, IndexOffset, Ascend, Table;
      ghost var c := Value();
      ghost var f := (x: nat) => Relayed(c.protocol, UnicastsFor(c, x), BroadcastsFor(c, x));
      var idx := GetProtocolIndices();
      out := map[];
      TableNone(f);
      for k := 0 to |idx|
        invariant out == Table(idx[..k], f)
      {
        var unicasts, broadcasts := Bundle(idx[k]);
        TableStep(idx, k, f);
        out := out[idx[k] := Relayed(protocol, unicasts, broadcasts)];
      }
      TableAll(idx, Indices(c), f);
    }

    /** Everything the other shares sent to index `j`. */
    method Bundle(j: nat) returns (unicasts: map<nat, Bytes>, broadcasts: map<nat, Bytes>)
      ensures unicasts == UnicastsFor(Value(), j) && broadcasts == BroadcastsFor(Value(), j)
    {
      unicasts, broadcasts := map[], map[];
      ghost var u, b := UnicastsFor(Value(), j), BroadcastsFor(Value(), j);
      var left := input.Keys;
      assert Without(u, left) == Without(b, left) == map[];
      hide Without;
      while left != {}
        invariant left <= input.Keys
        invariant unicasts == Without(u, left)
        invariant broadcasts == Without(b, left)
        decreases left
      {
        var i :| i in left;
        WithoutStep(u, left, i);
        WithoutStep(b, left, i);
        left := left - {i};
        if i == j {
          continue;
        }
        if input[i].broadcast.Some? {
          broadcasts := broadcasts[i := input[i].broadcast.value];
        }
        if j in input[i].unicasts {
          unicasts := unicasts[i := input[i].unicasts[j]];
        }
      }
      WithoutNone(u);
      WithoutNone(b);
    }

    /** Sends every active share a message made for its index. */
    method SendToAll(f: nat -> ServerMessage)
      modifies this
      ensures Value() == SendAll(old(Value()), f)
    {
      output := Tabulate(f);
      ClearInput();
    }

    method Tabulate(f: nat -> ServerMessage) returns (out: map<nat, ServerMessage>)
      ensures out == SendAll(Value(), f).output
    {
      hide Increasing, Indices, IndexOffset, Ascend, Table;
      var idx := GetProtocolIndices();
      out := map[];
      TableNone(f);
      for k := 0 to |idx|
        invariant out == Table(idx[..k], f)
      {
        TableStep(idx, k, f);
        out := out[idx[k] := f(idx[k])];
      }
      TableAll(idx, Indices(Value()), f);
    }

    method GetMessages(id: Bytes) returns (r: seq<Option<ServerMessage>>)
      ensures r == MessagesFor(Value(), id)
    {
      hide Increasing, IndicesOf;
      var idx := IdentifierToIndices(id);
      r := [];
      for k := 0 to |idx|
        invariant |r| == k && forall j | 0 <= j < k :: r[j] == OutputAt(Value(), idx[j])
      {
        r := r + [if idx[k] in output then Some(output[idx[k]]) else None];
      }
    }

    /** Verifies every broadcast and checks that they all agree, walking the inbox
        in the given order. */
    method GetFinalMessage(verify: Verifier, order: seq<nat>) returns (r: Final)
      requires input.Keys <= Indices(Value()) && Enumerates(order, input.Keys)
      ensures r == FinalFrom(verify, Value(), order, None)
    {
      hide Shift;
      assert forall i | i in order :: i in input;
      hide Enumerates;
      var last: Option<Bytes> := None;
      for k := 0 to |order|
        invariant FinalFrom(verify, Value(), order, None) == FinalFrom(verify, Value(), order[k..], last)
      {
        var i := order[k];
        assert i in order;
        if input[i].broadcast.None? {
          return Panic;
        }
        var msg := verify(input[i].broadcast.value, active[i - IndexOffset(protocol)].certificate);
        if msg.None? {
          return NoMessage;
        }
        if last.Some? && last != msg {
          return Panic;
        }
        assert order[k..][1..] == order[k+1..];
        last := msg;
      }
      return if last.None? then NoMessage else Message(last.value);
    }
  }
}
