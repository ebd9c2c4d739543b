/** Protocol index assignment: which share of which device answers to which
    protocol index.

    The reference definition is the one of the architecture notes: lay the
    shares of all participants out in the order of their device ids, number
    them, and let a device with `k` active shares use the first `k` numbers of
    its stretch.  The server instead scans mutable index maps in whatever order
    the random choice or the database delivers the devices. */
module Shares {
  import opened Basics

  datatype Device = Device(id: Bytes, certificate: Bytes)

  datatype Participant = Participant(device: Device, shares: nat)

  predicate DistinctIds(ps: seq<Participant>) {
    forall i, j | 0 <= i < j < |ps| :: ps[i].device.id != ps[j].device.id
  }

  predicate Ascending(ps: seq<Participant>) {
    forall i, j | 0 <= i < j < |ps| :: Less(ps[i].device.id, ps[j].device.id)
  }

  function TotalShares(ps: seq<Participant>): nat {
    if ps == [] then 0 else ps[0].shares + TotalShares(ps[1..])
  }

  /** The shares of device `id`; zero when it is not a participant. */
  function SharesOf(ps: seq<Participant>, id: Bytes): nat {
    if ps == [] then 0
    else if ps[0].device.id == id then ps[0].shares
    else SharesOf(ps[1..], id)
  }

  function IdSet(ps: seq<Participant>): set<Bytes> {
    set p | p in ps :: p.device.id
  }

  /** The shares of every participant, by device id. */
  function Weights(ps: seq<Participant>): map<Bytes, nat> {
    map id | id in IdSet(ps) :: SharesOf(ps, id)
  }

  lemma RemoveAt<T>(s: seq<T>, k: nat)
    requires k < |s|
    ensures multiset(s[..k] + s[k+1..]) == multiset(s) - multiset{s[k]}
  {
    assert s == s[..k] + [s[k]] + s[k+1..];
  }

  lemma TailMultiset<T>(s: seq<T>)
    requires s != []
    ensures multiset(s[1..]) == multiset(s) - multiset{s[0]}
  {
    RemoveAt(s, 0);
    assert s[..0] + s[1..] == s[1..];
  }

  // ---------------------------------------------------------------- sorting

  function Insert(p: Participant, s: seq<Participant>): (r: seq<Participant>)
    ensures multiset(r) == multiset(s) + multiset{p}
  {
    if s == [] then [p]
    else if Less(p.device.id, s[0].device.id) then [p] + s
    else
      assert s == [s[0]] + s[1..];
      [s[0]] + Insert(p, s[1..])
  }

  /** The participants in ascending order of device id. */
  function SortById(ps: seq<Participant>): (r: seq<Participant>)
    ensures multiset(r) == multiset(ps)
  {
    if ps == [] then [] else
      assert ps == [ps[0]] + ps[1..];
      Insert(ps[0], SortById(ps[1..]))
  }

  lemma AscendingCons(p: Participant, t: seq<Participant>)
    requires Ascending(t) && forall q | q in t :: Less(p.device.id, q.device.id)
    ensures Ascending([p] + t)
  {
    hide Less;
  }

  lemma {:induction false} InsertAscending(p: Participant, s: seq<Participant>)
    requires Ascending(s) && forall q | q in s :: q.device.id != p.device.id
    ensures Ascending(Insert(p, s))
  {
    hide Less;
    var r := Insert(p, s);
    if s == [] {
    } else if Less(p.device.id, s[0].device.id) {
      forall j | 0 <= j < |s| ensures Less(p.device.id, s[j].device.id) {
        if j > 0 { LessTransitive(p.device.id, s[0].device.id, s[j].device.id); }
      }
      AscendingCons(p, s);
    } else {
      LessTotal(p.device.id, s[0].device.id);
      InsertAscending(p, s[1..]);
      var t := Insert(p, s[1..]);
      forall q | q in t ensures Less(s[0].device.id, q.device.id) {
        assert q in multiset(t);
      }
      hide Insert;
      AscendingCons(s[0], t);
    }
  }

  lemma {:induction false} SortAscending(ps: seq<Participant>)
    requires DistinctIds(ps)
    ensures Ascending(SortById(ps))
  {
    if ps != [] {
      SortAscending(ps[1..]);
      forall q | q in SortById(ps[1..]) ensures q.device.id != ps[0].device.id {
        assert q in multiset(SortById(ps[1..]));
      }
      InsertAscending(ps[0], SortById(ps[1..]));
    }
  }

  lemma AscendingDistinct(s: seq<Participant>)
    requires Ascending(s)
    ensures DistinctIds(s)
  {
    forall i, j | 0 <= i < j < |s| ensures s[i].device.id != s[j].device.id {
      LessIrreflexive(s[i].device.id);
    }
  }

  lemma LeastFirst(s: seq<Participant>, t: seq<Participant>)
    requires Ascending(s) && Ascending(t) && s != [] && t != []
    requires s[0] in t && t[0] in s
    ensures s[0] == t[0]
  {
    if s[0] != t[0] {
      LessTransitive(s[0].device.id, t[0].device.id, s[0].device.id);
      LessIrreflexive(s[0].device.id);
      assert false;
    }
  }

  /** Two ascending listings of the same participants are the same listing. */
  lemma {:induction false} AscendingUnique(s: seq<Participant>, t: seq<Participant>)
    requires Ascending(s) && Ascending(t) && multiset(s) == multiset(t)
    ensures s == t
  {
    if s == [] {
      assert |multiset(t)| == 0;
    } else {
      assert s[0] in multiset(t);
      assert t[0] in multiset(s);
      LeastFirst(s, t);
      TailMultiset(s);
      TailMultiset(t);
      AscendingUnique(s[1..], t[1..]);
      assert s == [s[0]] + s[1..] == t;
    }
  }

  lemma DistinctPermuted(ps: seq<Participant>, qs: seq<Participant>)
    requires DistinctIds(ps) && multiset(ps) == multiset(qs)
    ensures DistinctIds(qs)
  {
    forall i, j | 0 <= i < j < |qs| ensures qs[i].device.id != qs[j].device.id {
      assert qs[i] in multiset(ps) && qs[j] in multiset(ps);
      if qs[i].device.id == qs[j].device.id {
        assert qs == qs[..i] + [qs[i]] + qs[i+1..j] + [qs[j]] + qs[j+1..];
        assert qs[i] == qs[j];
        assert multiset(ps)[qs[i]] >= 2;
        OccursOnce(ps, qs[i]);
        assert false;
      }
    }
  }

  lemma {:induction false} OccursOnce(ps: seq<Participant>, p: Participant)
    requires DistinctIds(ps)
    ensures multiset(ps)[p] == if p in ps then 1 else 0
  {
    if ps != [] {
      assert ps == [ps[0]] + ps[1..];
      OccursOnce(ps[1..], p);
    }
  }

  /** Sorting lists the participants in the byte order of their ids, and forgets the order
      they were listed in. */
  lemma SortForgetsOrder(ps: seq<Participant>, qs: seq<Participant>)
    requires DistinctIds(ps) && multiset(ps) == multiset(qs)
    ensures SortById(ps) == SortById(qs) && multiset(SortById(ps)) == multiset(ps)
    ensures var r := SortById(ps); forall i, j | 0 <= i < j < |r| :: InByteOrder(r[i].device.id, r[j].device.id)
  {
    DistinctPermuted(ps, qs);
    SortAscending(ps);
    SortAscending(qs);
    AscendingUnique(SortById(ps), SortById(qs));
    hide Less, SortById, DistinctIds;
    var r := SortById(ps);
    forall i, j | 0 <= i < j < |r| ensures InByteOrder(r[i].device.id, r[j].device.id) {
      LessIsByteOrder(r[i].device.id, r[j].device.id);
    }
  }

  lemma {:induction false} SharesOfMember(ps: seq<Participant>, p: Participant)
    requires DistinctIds(ps) && p in ps
    ensures SharesOf(ps, p.device.id) == p.shares
  {
    if p != ps[0] {
      SharesOfMember(ps[1..], p);
    }
  }

  lemma {:induction false} SharesOfOutsider(ps: seq<Participant>, id: Bytes)
    requires id !in IdSet(ps)
    ensures SharesOf(ps, id) == 0
  {
    if ps != [] {
      assert ps[0].device.id in IdSet(ps);
      assert IdSet(ps[1..]) <= IdSet(ps);
      SharesOfOutsider(ps[1..], id);
    }
  }

  lemma SharesForgetOrder(ps: seq<Participant>, qs: seq<Participant>, id: Bytes)
    requires DistinctIds(ps) && multiset(ps) == multiset(qs)
    ensures DistinctIds(qs) && IdSet(ps) == IdSet(qs) && SharesOf(ps, id) == SharesOf(qs, id)
  {
    DistinctPermuted(ps, qs);
    assert forall p :: p in ps <==> p in multiset(ps);
    assert forall p :: p in qs <==> p in multiset(qs);
    if id in IdSet(ps) {
      var p :| p in ps && p.device.id == id;
      SharesOfMember(ps, p);
      SharesOfMember(qs, p);
    } else {
      SharesOfOutsider(ps, id);
      SharesOfOutsider(qs, id);
    }
  }

  lemma {:induction false} TotalForgetsOrder(ps: seq<Participant>, qs: seq<Participant>)
    requires multiset(ps) == multiset(qs)
    ensures TotalShares(ps) == TotalShares(qs)
  {
    if ps == [] {
      assert |multiset(qs)| == 0;
    } else {
      assert ps[0] in multiset(qs);
      var k :| 0 <= k < |qs| && qs[k] == ps[0];
      RemoveAt(qs, k);
      TailMultiset(ps);
      TotalForgetsOrder(ps[1..], qs[..k] + qs[k+1..]);
      TotalRemove(qs, k);
    }
  }

  lemma TotalRemove(qs: seq<Participant>, k: nat)
    requires k < |qs|
    ensures TotalShares(qs) == qs[k].shares + TotalShares(qs[..k] + qs[k+1..])
  {
    TotalConcat(qs[..k], qs[k+1..]);
    TotalConcat(qs[..k], qs[k..]);
    assert qs == qs[..k] + qs[k..];
  }

  lemma {:induction false} TotalConcat(a: seq<Participant>, b: seq<Participant>)
    ensures TotalShares(a + b) == TotalShares(a) + TotalShares(b)
  {
    if a == [] {
      assert a + b == b;
    } else {
      assert (a + b)[1..] == a[1..] + b;
      TotalConcat(a[1..], b);
    }
  }

  /** `d` is the device of one of the participants. */
  ghost predicate Owned(ps: seq<Participant>, d: Device) {
    exists p :: p in ps && p.device == d
  }

  // ------------------------------------------------- laying the shares out

  /** One entry per share, the shares of a participant next to each other. */
  function Expand(ps: seq<Participant>): (r: seq<Device>)
    ensures |r| == TotalShares(ps)
  {
    if ps == [] then [] else seq(ps[0].shares, _ => ps[0].device) + Expand(ps[1..])
  }

  /** Where the stretch of device `id` begins. */
  function FirstIndex(s: seq<Participant>, id: Bytes): nat {
    if s == [] || s[0].device.id == id then 0 else s[0].shares + FirstIndex(s[1..], id)
  }

  /** Index `i` belongs to the stretch of the device found there. */
  lemma {:induction false} ExpandAt(s: seq<Participant>, i: nat)
    requires DistinctIds(s) && i < |Expand(s)|
    ensures var d := Expand(s)[i];
            && d.id in IdSet(s)
            && FirstIndex(s, d.id) <= i < FirstIndex(s, d.id) + SharesOf(s, d.id)
            && Owned(s, d)
  {
    if i < s[0].shares {
      assert Expand(s)[i] == s[0].device && s[0] in s;
    } else {
      var d := Expand(s[1..])[i - s[0].shares];
      assert Expand(s)[i] == d;
      ExpandAt(s[1..], i - s[0].shares);
      var p :| p in s[1..] && p.device == d;
      assert p in s && p.device.id != s[0].device.id;
    }
  }

  /** The whole stretch of a participant holds that participant's device. */
  lemma {:induction false} ExpandStretch(s: seq<Participant>, p: Participant, j: nat)
    requires DistinctIds(s) && p in s && j < p.shares
    ensures var i := FirstIndex(s, p.device.id) + j;
            i < |Expand(s)| && Expand(s)[i] == p.device
  {
    if p != s[0] {
      ExpandStretch(s[1..], p, j);
      var i := FirstIndex(s[1..], p.device.id) + j;
      assert Expand(s)[s[0].shares + i] == Expand(s[1..])[i];
    }
  }

  /** The scan over a sorted list numbers the stretches. */
  lemma {:induction false} FirstIndexIsPrefixSum(s: seq<Participant>, k: nat)
    requires DistinctIds(s) && k < |s|
    ensures FirstIndex(s, s[k].device.id) == TotalShares(s[..k])
  {
    if k > 0 {
      FirstIndexIsPrefixSum(s[1..], k - 1);
      assert s[..k][1..] == s[1..][..k-1];
    }
  }

  function CountOf(counts: map<Bytes, nat>, id: Bytes): nat {
    if id in counts then counts[id] else 0
  }

  /** The owner of every index: what a group is established with. */
  function FullMap(ps: seq<Participant>): map<nat, Device> {
    var all := Expand(SortById(ps));
    map i: nat | 0 <= i < |all| :: all[i]
  }

  /** Is index `i` among the first `counts[d]` indices of its device's stretch? */
  predicate IsActive(s: seq<Participant>, counts: map<Bytes, nat>, i: nat)
    requires i < |Expand(s)|
  {
    i - FirstIndex(s, Expand(s)[i].id) < CountOf(counts, Expand(s)[i].id)
  }

  function ActiveOn(s: seq<Participant>, counts: map<Bytes, nat>): map<nat, Device> {
    map i: nat | 0 <= i < |Expand(s)| && IsActive(s, counts, i) :: Expand(s)[i]
  }

  /** The owners of the active indices, when device `d` has `counts[d]` active
      shares: the first `counts[d]` indices of its stretch. */
  function ActiveMap(ps: seq<Participant>, counts: map<Bytes, nat>): map<nat, Device> {
    ActiveOn(SortById(ps), counts)
  }

  /** The index map is a function of the per-device counts: neither the order
      of the participants nor the order of the choice matters. */
  lemma ActiveMapForgetsOrder(ps: seq<Participant>, qs: seq<Participant>, counts: map<Bytes, nat>)
    requires DistinctIds(ps) && multiset(ps) == multiset(qs)
    ensures ActiveMap(ps, counts) == ActiveMap(qs, counts) && FullMap(ps) == FullMap(qs)
  {
    SortForgetsOrder(ps, qs);
  }

  /** Indices used in a threshold task are the indices their devices had when
      the group was established. */
  lemma ActiveIsSubmap(ps: seq<Participant>, qs: seq<Participant>, counts: map<Bytes, nat>)
    requires DistinctIds(ps) && multiset(ps) == multiset(qs)
    ensures ActiveMap(qs, counts).Keys <= FullMap(ps).Keys
    ensures forall i | i in ActiveMap(qs, counts) :: ActiveMap(qs, counts)[i] == FullMap(ps)[i]
  {
    SortForgetsOrder(ps, qs);
  }

  /** The indices of a device are exactly the prefix of its stretch. */
  lemma ActiveStretch(ps: seq<Participant>, counts: map<Bytes, nat>, p: Participant, i: nat)
    requires DistinctIds(ps) && p in ps && CountOf(counts, p.device.id) <= p.shares
    ensures var first := FirstIndex(SortById(ps), p.device.id);
            && ((i in ActiveMap(ps, counts) && ActiveMap(ps, counts)[i].id == p.device.id)
                <==> first <= i < first + CountOf(counts, p.device.id))
            && (first <= i < first + CountOf(counts, p.device.id) ==>
                  i in ActiveMap(ps, counts) && ActiveMap(ps, counts)[i] == p.device)
  {
    hide SortById, Less, Ascending, FirstIndex, Expand, SharesOf, TotalShares, IdSet, DistinctIds;
    var s := SortById(ps);
    SortedListing(ps);
    var first := FirstIndex(s, p.device.id);
    if first <= i < first + CountOf(counts, p.device.id) {
      ExpandStretch(s, p, i - first);
    }
    if i in ActiveMap(ps, counts) && ActiveMap(ps, counts)[i].id == p.device.id {
      ExpandAt(s, i);
    }
  }

  /** Every active index belongs to some participant's stretch. */
  lemma ActiveOwner(ps: seq<Participant>, counts: map<Bytes, nat>, i: nat) returns (p: Participant)
    requires DistinctIds(ps) && i in ActiveMap(ps, counts)
    ensures p in ps && ActiveMap(ps, counts)[i] == p.device
    ensures i < TotalShares(ps)
    ensures FirstIndex(SortById(ps), p.device.id) <= i
            < FirstIndex(SortById(ps), p.device.id) + CountOf(counts, p.device.id)
  {
    var s := SortById(ps);
    SortAscending(ps);
    AscendingDistinct(s);
    ExpandAt(s, i);
    p :| p in s && p.device == Expand(s)[i];
    assert p in multiset(ps);
    TotalForgetsOrder(s, ps);
  }

  lemma {:induction false} ExpandOrdered(s: seq<Participant>, i: nat, j: nat)
    requires Ascending(s) && i < j < |Expand(s)| && Expand(s)[i].id != Expand(s)[j].id
    ensures Less(Expand(s)[i].id, Expand(s)[j].id)
  {
    hide Less;
    var n := s[0].shares;
    if j < n {
      assert false;
    } else if i >= n {
      ExpandOrdered(s[1..], i - n, j - n);
    } else {
      assert Expand(s)[i] == s[0].device && Expand(s)[j] == Expand(s[1..])[j - n];
      ExpandFrom(s[1..], j - n);
    }
  }

  lemma {:induction false} ExpandFrom(s: seq<Participant>, i: nat)
    requires i < |Expand(s)|
    ensures exists k :: 0 <= k < |s| && Expand(s)[i] == s[k].device
  {
    if i < s[0].shares {
      assert Expand(s)[i] == s[0].device;
    } else {
      ExpandFrom(s[1..], i - s[0].shares);
      var k :| 0 <= k < |s[1..]| && Expand(s[1..])[i - s[0].shares] == s[1..][k].device;
      assert Expand(s)[i] == s[k + 1].device;
    }
  }

  /** Of two active indices of different devices, the lower one belongs to the device
      whose id comes first byte by byte. */
  lemma IndicesInByteOrder(ps: seq<Participant>, counts: map<Bytes, nat>, i: nat, j: nat)
    requires DistinctIds(ps) && i in ActiveMap(ps, counts) && j in ActiveMap(ps, counts) && i < j
    requires ActiveMap(ps, counts)[i].id != ActiveMap(ps, counts)[j].id
    ensures InByteOrder(ActiveMap(ps, counts)[i].id, ActiveMap(ps, counts)[j].id)
  {
    hide Less, SortById, Expand, Ascending;
    SortAscending(ps);
    ExpandOrdered(SortById(ps), i, j);
    LessIsByteOrder(ActiveMap(ps, counts)[i].id, ActiveMap(ps, counts)[j].id);
  }

  // ------------------------------------------------------- counting a choice

  function Ids(ds: seq<Device>): (r: seq<Bytes>)
    ensures |r| == |ds|
  {
    seq(|ds|, i requires 0 <= i < |ds| => ds[i].id)
  }

  /** How many of the chosen shares each device got. */
  function Tally(ds: seq<Device>): map<Bytes, nat> {
    map id | id in multiset(Ids(ds)) :: multiset(Ids(ds))[id]
  }

  lemma TallySnoc(ds: seq<Device>, d: Device)
    ensures Tally(ds + [d]) == Tally(ds)[d.id := CountOf(Tally(ds), d.id) + 1]
    ensures multiset(Ids(ds + [d])) == multiset(Ids(ds)) + multiset{d.id}
  {
    assert Ids(ds + [d]) == Ids(ds) + [d.id];
  }

  lemma {:induction false} ExpandTally(ps: seq<Participant>, id: Bytes)
    requires DistinctIds(ps)
    ensures multiset(Ids(Expand(ps)))[id] == SharesOf(ps, id)
  {
    if ps == [] {
    } else {
      var block := seq(ps[0].shares, _ => ps[0].device);
      assert Ids(Expand(ps)) == Ids(block) + Ids(Expand(ps[1..]));
      ExpandTally(ps[1..], id);
      RepeatTally(ps[0].device, ps[0].shares, id);
      if id == ps[0].device.id {
        assert id !in IdSet(ps[1..]);
        SharesOfOutsider(ps[1..], id);
      }
    }
  }

  lemma {:induction false} RepeatTally(d: Device, n: nat, id: Bytes)
    ensures multiset(Ids(seq(n, _ => d)))[id] == if id == d.id then n else 0
  {
    if n > 0 {
      RepeatTally(d, n - 1, id);
      assert Ids(seq(n, _ => d)) == Ids(seq(n - 1, _ => d)) + [d.id];
    } else {
      assert Ids(seq(n, _ => d)) == [];
    }
  }

  lemma IdsRemove(pool: seq<Device>, k: nat)
    requires k < |pool|
    ensures multiset(Ids(pool)) == multiset(Ids(pool[..k] + pool[k+1..])) + multiset{pool[k].id}
  {
    RemoveAt(Ids(pool), k);
    assert Ids(pool[..k] + pool[k+1..]) == Ids(pool)[..k] + Ids(pool)[k+1..];
  }

  /** The pool without one occurrence of the first device drawn. */
  lemma SampleFirst(chosen: seq<Device>, pool: seq<Device>) returns (rest: seq<Device>)
    requires multiset(chosen) <= multiset(pool) && chosen != []
    ensures multiset(chosen[1..]) <= multiset(rest)
    ensures multiset(Ids(pool)) == multiset(Ids(rest)) + multiset{chosen[0].id}
  {
    hide Ids;
    assert chosen[0] in multiset(pool);
    var k :| 0 <= k < |pool| && pool[k] == chosen[0];
    RemoveAt(pool, k);
    TailMultiset(chosen);
    IdsRemove(pool, k);
    rest := pool[..k] + pool[k+1..];
  }

  lemma IdsTail(ds: seq<Device>)
    requires ds != []
    ensures multiset(Ids(ds)) == multiset(Ids(ds[1..])) + multiset{ds[0].id}
  {
    assert Ids(ds) == [ds[0].id] + Ids(ds[1..]);
  }

  lemma NoIds()
    ensures multiset(Ids([])) == multiset{}
  {
  }

  lemma {:induction false} SampleTally(chosen: seq<Device>, pool: seq<Device>)
    requires multiset(chosen) <= multiset(pool)
    ensures multiset(Ids(chosen)) <= multiset(Ids(pool))
    decreases |chosen|
  {
    hide Ids;
    if chosen == [] {
      NoIds();
    } else {
      var rest := SampleFirst(chosen, pool);
      SampleTally(chosen[1..], rest);
      IdsTail(chosen);
    }
  }

  /** No device is chosen more often than it has shares. */
  ghost predicate WithinShares(ps: seq<Participant>, counts: map<Bytes, nat>) {
    forall id | id in counts :: 0 < counts[id] <= SharesOf(ps, id)
  }

  /** What drawing `n` elements of `pool` at random may return. */
  ghost predicate Sample(pool: seq<Device>, n: nat, chosen: seq<Device>) {
    multiset(chosen) <= multiset(pool) && |chosen| == if n <= |pool| then n else |pool|
  }

  function Restrict(ps: seq<Participant>, ids: set<Bytes>): seq<Participant> {
    if ps == [] then []
    else if ps[0].device.id in ids then [ps[0]] + Restrict(ps[1..], ids)
    else Restrict(ps[1..], ids)
  }

  lemma {:induction false} RestrictShares(ps: seq<Participant>, ids: set<Bytes>, id: Bytes)
    requires DistinctIds(ps)
    ensures forall p :: p in Restrict(ps, ids) <==> p in ps && p.device.id in ids
    ensures DistinctIds(Restrict(ps, ids))
    ensures SharesOf(Restrict(ps, ids), id) == if id in ids then SharesOf(ps, id) else 0
  {
    if ps != [] {
      RestrictShares(ps[1..], ids, id);
      var r := Restrict(ps[1..], ids);
      forall j | 0 <= j < |r| ensures r[j].device.id != ps[0].device.id {
        assert r[j] in ps[1..];
      }
    }
  }

  /** A sample of the shares of some participants stays within their shares. */
  lemma SampleWithinShares(ps: seq<Participant>, ids: set<Bytes>, n: nat, chosen: seq<Device>)
    requires DistinctIds(ps) && Sample(Expand(Restrict(ps, ids)), n, chosen)
    ensures WithinShares(ps, Tally(chosen))
    ensures forall d | d in chosen :: Owned(ps, d)
  {
    var pool := Restrict(ps, ids);
    SampleTally(chosen, Expand(pool));
    forall id | id in Tally(chosen) ensures 0 < Tally(chosen)[id] <= SharesOf(ps, id) {
      RestrictShares(ps, ids, id);
      ExpandTally(pool, id);
    }
    forall d | d in chosen ensures Owned(ps, d) {
      assert d in multiset(chosen) && d in multiset(Expand(pool));
      RestrictShares(ps, ids, d.id);
      var i :| 0 <= i < |Expand(pool)| && Expand(pool)[i] == d;
      ExpandAt(pool, i);
    }
  }

  /** Handing one more share to `p` adds exactly the next index of its stretch. */
  lemma ActiveStep(s: seq<Participant>, counts: map<Bytes, nat>, p: Participant)
    requires DistinctIds(s) && p in s && CountOf(counts, p.device.id) < p.shares
    ensures var i := FirstIndex(s, p.device.id) + CountOf(counts, p.device.id);
            && i !in ActiveOn(s, counts)
            && ActiveOn(s, counts[p.device.id := CountOf(counts, p.device.id) + 1])
               == ActiveOn(s, counts)[i := p.device]
  {
    hide IsActive, FirstIndex, Expand, DistinctIds;
    var c := CountOf(counts, p.device.id);
    var counts' := counts[p.device.id := c + 1];
    var i := FirstIndex(s, p.device.id) + c;
    NextActive(s, counts, p);
    var a, b := ActiveOn(s, counts'), ActiveOn(s, counts)[i := p.device];
    forall j: nat | j < |Expand(s)| && j != i ensures IsActive(s, counts', j) == IsActive(s, counts, j) {
      OtherActive(s, counts, p.device.id, j);
    }
    assert forall j: nat :: j in a <==> j in b;
  }

  lemma NextActive(s: seq<Participant>, counts: map<Bytes, nat>, p: Participant)
    requires DistinctIds(s) && p in s && CountOf(counts, p.device.id) < p.shares
    ensures var c := CountOf(counts, p.device.id);
            var i := FirstIndex(s, p.device.id) + c;
            && i < |Expand(s)| && Expand(s)[i] == p.device
            && !IsActive(s, counts, i) && IsActive(s, counts[p.device.id := c + 1], i)
  {
    ExpandStretch(s, p, CountOf(counts, p.device.id));
  }

  lemma OtherActive(s: seq<Participant>, counts: map<Bytes, nat>, id: Bytes, j: nat)
    requires j < |Expand(s)| && j != FirstIndex(s, id) + CountOf(counts, id)
    ensures IsActive(s, counts[id := CountOf(counts, id) + 1], j) == IsActive(s, counts, j)
  {
  }

  lemma NothingActive(s: seq<Participant>)
    requires DistinctIds(s)
    ensures ActiveOn(s, map[]) == map[] && Tally([]) == map[]
  {
    assert Ids([]) == [];
    forall i: nat | i < |Expand(s)| ensures !IsActive(s, map[], i) {
      ExpandAt(s, i);
    }
  }

  /** Dropping the last chosen share keeps a choice within the shares. */
  lemma WithinSharesPrefix(ps: seq<Participant>, rest: seq<Device>, d: Device)
    requires DistinctIds(ps) && WithinShares(ps, Tally(rest + [d])) && Owned(ps, d)
    ensures WithinShares(ps, Tally(rest))
    ensures exists p :: p in ps && p.device == d && CountOf(Tally(rest), d.id) < p.shares
  {
    TallySnoc(rest, d);
    forall id | id in Tally(rest) ensures 0 < Tally(rest)[id] <= SharesOf(ps, id) {
      assert id in Tally(rest + [d]);
    }
    var p :| p in ps && p.device == d;
    SharesOfMember(ps, p);
    assert Tally(rest + [d])[d.id] == CountOf(Tally(rest), d.id) + 1;
  }

  /** As many indices are active as shares were chosen. */
  lemma {:induction false} ActiveCardinality(s: seq<Participant>, chosen: seq<Device>)
    requires DistinctIds(s) && WithinShares(s, Tally(chosen))
    requires forall d | d in chosen :: Owned(s, d)
    ensures |ActiveOn(s, Tally(chosen))| == |chosen|
  {
    hide ActiveOn, Tally, FirstIndex, DistinctIds, WithinShares, Owned;
    if chosen == [] {
      NothingActive(s);
    } else {
      var d, rest := chosen[|chosen| - 1], chosen[..|chosen| - 1];
      assert chosen == rest + [d] && d in chosen;
      WithinSharesPrefix(s, rest, d);
      ActiveCardinality(s, rest);
      TallySnoc(rest, d);
      var p :| p in s && p.device == d && CountOf(Tally(rest), d.id) < p.shares;
      ActiveStep(s, Tally(rest), p);
    }
  }

  /** The facts about the sorted listing that every scan relies on. */
  lemma SortedListing(ps: seq<Participant>)
    requires DistinctIds(ps)
    ensures Ascending(SortById(ps)) && DistinctIds(SortById(ps))
    ensures IdSet(SortById(ps)) == IdSet(ps)
    ensures forall p :: p in SortById(ps) <==> p in ps
    ensures forall id :: SharesOf(SortById(ps), id) == SharesOf(ps, id)
    ensures TotalShares(SortById(ps)) == TotalShares(ps)
  {
    var s := SortById(ps);
    SortAscending(ps);
    AscendingDistinct(s);
    assert forall p :: p in s <==> p in multiset(s);
    assert forall p :: p in ps <==> p in multiset(ps);
    forall id ensures SharesOf(s, id) == SharesOf(ps, id) {
      SharesForgetOrder(ps, s, id);
    }
    TotalForgetsOrder(ps, s);
  }

  // ------------------------------------------------- the server's two scans

  /** Numbers the stretches of the sorted participants by a running sum. */
  method FirstShareIndices(s: seq<Participant>) returns (first: map<Bytes, nat>)
    requires DistinctIds(s)
    ensures forall p | p in s :: p.device.id in first && first[p.device.id] == FirstIndex(s, p.device.id)
  {
    first := map[];
    var idx := 0;
    for k := 0 to |s|
      invariant idx == TotalShares(s[..k])
      invariant forall j | 0 <= j < k :: s[j].device.id in first
      invariant forall j | 0 <= j < k :: first[s[j].device.id] == FirstIndex(s, s[j].device.id)
    {
      FirstIndexIsPrefixSum(s, k);
      assert s[..k+1] == s[..k] + [s[k]];
      TotalConcat(s[..k], [s[k]]);
      first := first[s[k].device.id := idx];
      idx := idx + s[k].shares;
    }
  }

  /** Hands out indices device by device, advancing a mutable map of next free
      indices; the outcome depends on the per-device counts alone. */
  method AssignIndices(s: seq<Participant>, devices: seq<Device>) returns (active: map<nat, Device>)
    requires DistinctIds(s) && WithinShares(s, Tally(devices))
    requires forall d | d in devices :: Owned(s, d)
    ensures active == ActiveOn(s, Tally(devices))
    ensures |active| == |devices|
  {
    hide Tally, WithinShares, ActiveOn, FirstIndex, DistinctIds, Owned;
    var next := FirstShareIndices(s);
    active := map[];
    NothingActive(s);
    ghost var counts: map<Bytes, nat> := map[];
    for k := 0 to |devices|
      invariant counts == Tally(devices[..k])
      invariant forall p | p in s ::
          p.device.id in next && next[p.device.id] == FirstIndex(s, p.device.id) + CountOf(counts, p.device.id)
      invariant active == ActiveOn(s, counts)
    {
      var d := devices[k];
      ghost var p := NextShare(s, devices, k);
      ActiveStep(s, counts, p);
      active := active[next[d.id] := d];
      next := next[d.id := next[d.id] + 1];
      counts := counts[d.id := CountOf(counts, d.id) + 1];
    }
    assert devices[..|devices|] == devices;
    ActiveCardinality(s, devices);
  }

  /** When the scan reaches a device, that device still has a share to give. */
  lemma NextShare(ps: seq<Participant>, devices: seq<Device>, k: nat) returns (p: Participant)
    requires DistinctIds(ps) && WithinShares(ps, Tally(devices)) && k < |devices| && Owned(ps, devices[k])
    ensures p in ps && p.device == devices[k] && CountOf(Tally(devices[..k]), p.device.id) < p.shares
    ensures Tally(devices[..k+1]) == Tally(devices[..k])[devices[k].id := CountOf(Tally(devices[..k]), devices[k].id) + 1]
  {
    var d := devices[k];
    p :| p in ps && p.device == d;
    SharesOfMember(ps, p);
    TallyGrows(devices, k);
    assert Tally(devices)[d.id] <= SharesOf(ps, d.id);
  }

  lemma TallyGrows(devices: seq<Device>, k: nat)
    requires k < |devices|
    ensures var d := devices[k];
            && Tally(devices[..k+1]) == Tally(devices[..k])[d.id := CountOf(Tally(devices[..k]), d.id) + 1]
            && d.id in Tally(devices) && CountOf(Tally(devices[..k]), d.id) < Tally(devices)[d.id]
  {
    var d := devices[k];
    assert devices[..k+1] == devices[..k] + [d];
    TallySnoc(devices[..k], d);
    assert Ids(devices) == Ids(devices[..k+1]) + Ids(devices[k+1..]);
  }

  /** Counts how many shares each chosen device got. */
  method CountShares(ids: seq<Bytes>) returns (shares: map<Bytes, nat>)
    ensures shares == map id | id in multiset(ids) :: multiset(ids)[id]
  {
    shares := map[];
    for k := 0 to |ids|
      invariant shares == map id | id in multiset(ids[..k]) :: multiset(ids[..k])[id]
    {
      assert ids[..k+1] == ids[..k] + [ids[k]];
      shares := shares[ids[k] := CountOf(shares, ids[k]) + 1];
    }
    assert ids[..|ids|] == ids;
  }

  /** The devices `hydrate_communicator` lines up: sorted participants, each as
      often as its stored count says. */
  function Recounted(s: seq<Participant>, counts: map<Bytes, nat>): (r: seq<Participant>)
    ensures |r| == |s|
    ensures forall i | 0 <= i < |s| :: r[i] == Participant(s[i].device, CountOf(counts, s[i].device.id))
  {
    seq(|s|, i requires 0 <= i < |s| => Participant(s[i].device, CountOf(counts, s[i].device.id)))
  }

  lemma RecountedShares(s: seq<Participant>, counts: map<Bytes, nat>, id: Bytes)
    requires DistinctIds(s) && WithinShares(s, counts)
    ensures DistinctIds(Recounted(s, counts))
    ensures SharesOf(Recounted(s, counts), id) == CountOf(counts, id)
  {
    var q := Recounted(s, counts);
    if id in IdSet(s) {
      var i :| 0 <= i < |s| && s[i].device.id == id;
      assert q[i] in q;
      SharesOfMember(q, q[i]);
    } else {
      SharesOfOutsider(s, id);
      SharesOfOutsider(q, id);
    }
  }

  /** Lining the sorted participants up by stored counts reproduces the counts. */
  lemma RecountedTally(s: seq<Participant>, counts: map<Bytes, nat>)
    requires DistinctIds(s) && WithinShares(s, counts)
    ensures Tally(Expand(Recounted(s, counts))) == counts
    ensures forall d | d in Expand(Recounted(s, counts)) :: Owned(s, d)
  {
    var q := Recounted(s, counts);
    forall id ensures multiset(Ids(Expand(q)))[id] == CountOf(counts, id) {
      RecountedShares(s, counts, id);
      ExpandTally(q, id);
    }
    assert Tally(Expand(q)) == counts;
    forall d | d in Expand(q) ensures Owned(s, d) {
      RecountedOwned(s, counts, d);
    }
  }

  lemma RecountedOwned(s: seq<Participant>, counts: map<Bytes, nat>, d: Device)
    requires DistinctIds(s) && d in Expand(Recounted(s, counts))
    ensures Owned(s, d)
  {
    var q := Recounted(s, counts);
    var i :| 0 <= i < |Expand(q)| && Expand(q)[i] == d;
    ExpandAt(q, i);
    var r :| r in q && r.device == d;
    var k :| 0 <= k < |q| && q[k] == r;
    assert s[k] in s;
  }

  /** The index map rebuilt from the stored per-device counts. */
  method HydrateActiveShares(ps: seq<Participant>, counts: map<Bytes, nat>) returns (active: map<nat, Device>)
    requires DistinctIds(ps) && WithinShares(ps, counts)
    ensures active == ActiveMap(ps, counts)
  {
    SortedListing(ps);
    RecountedTally(SortById(ps), counts);
    active := AssignIndices(SortById(ps), Expand(Recounted(SortById(ps), counts)));
  }

  /** Choosing and storing counts, then rebuilding from the counts, gives the
      map the choice was given, for every participant order, every drawing order
      and every other order the participants are later read back in. */
  lemma RebuiltMapIsChosenMap(ps: seq<Participant>, qs: seq<Participant>, ids: set<Bytes>, n: nat, chosen: seq<Device>)
    requires DistinctIds(ps) && multiset(ps) == multiset(qs)
    requires Sample(Expand(Restrict(ps, ids)), n, chosen)
    ensures var rebuilt := Expand(Recounted(SortById(qs), Tally(chosen)));
            ActiveMap(qs, Tally(rebuilt)) == ActiveMap(ps, Tally(chosen))
  {
    SampleWithinShares(ps, ids, n, chosen);
    DistinctPermuted(ps, qs);
    forall id | id in Tally(chosen) ensures 0 < Tally(chosen)[id] <= SharesOf(qs, id) {
      SharesForgetOrder(ps, qs, id);
    }
    SortedListing(qs);
    RecountedTally(SortById(qs), Tally(chosen));
    ActiveMapForgetsOrder(ps, qs, Tally(chosen));
  }
}
