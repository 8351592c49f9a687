/**
 * The records the crawler hands to the persister, the write operations they
 * expand into, and the mapping switch of the persister loop
 * (pkg/db/postgresql/server.go, lines 222-295).
 *
 * The SQL text and arguments built by `UpsertHostInfo`, `UpdatePeerInfo`, ...
 * live in files that are not part of this model: an operation is a tag for the
 * statement plus the record (or the part of it) the statement is built from.
 */
module Records {

  /** models.PeerInfo, reduced to the identity of the remote peer. */
  datatype PeerInfo = PeerInfo(remotePeer: string)

  /** eth.BeaconStatusStamped */
  datatype BeaconStatus = BeaconStatus(peerId: string, timestamp: int)

  /** eth.BeaconMetadataStamped */
  datatype BeaconMetadata = BeaconMetadata(peerId: string, timestamp: int)

  /** *eth.EnrNode */
  datatype EnrNode = EnrNode(nodeId: string)

  /** The dynamic type of one value of `HostInfo.Attr`. */
  datatype AttrValue =
    | BeaconStatusAttr(status: BeaconStatus)
    | BeaconMetadataAttr(metadata: BeaconMetadata)
    | EnrNodeAttr(node: EnrNode)
    | UnrecognizedAttr(goType: string)

  /**
   * *models.HostInfo. `identified` is the answer of `IsHostIdentified()`,
   * whose definition is not part of this model.
   */
  datatype HostInfo = HostInfo(
    id: string,
    identified: bool,
    peerInfo: PeerInfo,
    attrs: map<string, AttrValue>)

  /** *models.ConnectionAttempt */
  datatype ConnAttempt = ConnAttempt(peerId: string, status: string)

  /** *models.ConnEvent */
  datatype ConnEvent = ConnEvent(peerId: string, connTime: int, discTime: int)

  /** models.IpInfo (a value, not a pointer, in the type switch) */
  datatype IpInfo = IpInfo(ip: string)

  /** The dynamic type of an item received from the persist channel. */
  datatype Record =
    | HostInfoRecord(host: HostInfo)
    | PeerInfoRecord(peer: PeerInfo)
    | ConnAttemptRecord(attempt: ConnAttempt)
    | ConnEventRecord(event: ConnEvent)
    | IpInfoRecord(info: IpInfo)
    | UnrecognizedRecord(goType: string)

  /** One queued statement of a pgx batch. */
  datatype Op =
    | UpsertHostInfo(host: HostInfo)
    | UpdatePeerInfo(peer: PeerInfo)
    | UpsertNodeStatus(status: BeaconStatus)
    | UpsertNodeMetadata(metadata: BeaconMetadata)
    | UpsertEnrInfo(node: EnrNode)
    | UpdateConnAttempt(attempt: ConnAttempt)
    | InsertConnEvent(event: ConnEvent)
    | UpdateLastActivity(peerId: string, discTime: int)
    | UpsertIpInfo(info: IpInfo)

  predicate Recognized(v: AttrValue) {
    !v.UnrecognizedAttr?
  }

  /** The statement queued for one attribute value (none for an unrecognized type). */
  function AttrOps(v: AttrValue): (ops: seq<Op>)
    ensures |ops| == if Recognized(v) then 1 else 0
  {
    match v
    case BeaconStatusAttr(s) => [UpsertNodeStatus(s)]
    case BeaconMetadataAttr(m) => [UpsertNodeMetadata(m)]
    case EnrNodeAttr(n) => [UpsertEnrInfo(n)]
    case UnrecognizedAttr(_) => []
  }

  /**
   * The statements queued for the attributes under `keys`, as a multiset:
   * Go visits the entries of a map in no defined order.
   */
  ghost function AttrBag(attrs: map<string, AttrValue>, keys: set<string>): multiset<Op>
    requires keys <= attrs.Keys
    decreases |keys|
  {
    if keys == {} then multiset{}
    else
      var k :| k in keys;
      AttrBag(attrs, keys - {k}) + multiset(AttrOps(attrs[k]))
  }

  /** The keys under which a recognized attribute is stored. */
  ghost function RecognizedKeys(attrs: map<string, AttrValue>, keys: set<string>): set<string>
    requires keys <= attrs.Keys
  {
    set k | k in keys && Recognized(attrs[k])
  }

  /** The statements that come before the attribute statements of a host-info record. */
  function HostHead(h: HostInfo): seq<Op> {
    [UpsertHostInfo(h)] + if h.identified then [UpdatePeerInfo(h.peerInfo)] else []
  }

  /**
   * `ops` is a sequence the mapping switch may queue for `r`: fixed statements
   * in a fixed order, except that the attribute statements of a host-info
   * record come in the map's iteration order.
   */
  ghost predicate IsExpansion(r: Record, ops: seq<Op>) {
    match r
    case HostInfoRecord(h) =>
      var head := HostHead(h);
      && |head| <= |ops|
      && ops[..|head|] == head
      && multiset(ops[|head|..]) == AttrBag(h.attrs, h.attrs.Keys)
    case PeerInfoRecord(p) => ops == [UpdatePeerInfo(p)]
    case ConnAttemptRecord(a) => ops == [UpdateConnAttempt(a)]
    case ConnEventRecord(e) => ops == [InsertConnEvent(e), UpdateLastActivity(e.peerId, e.discTime)]
    case IpInfoRecord(i) => ops == [UpsertIpInfo(i)]
    case UnrecognizedRecord(_) => ops == []
  }

  /** The number of statements a record expands into: 0, 1, 2 or 1 + identified + attributes. */
  ghost function FanOut(r: Record): nat {
    match r
    case HostInfoRecord(h) =>
      1 + (if h.identified then 1 else 0) + |RecognizedKeys(h.attrs, h.attrs.Keys)|
    case PeerInfoRecord(_) => 1
    case ConnAttemptRecord(_) => 1
    case ConnEventRecord(_) => 2
    case IpInfoRecord(_) => 1
    case UnrecognizedRecord(_) => 0
  }

  /** Concatenation of a sequence of statement lists, in order. */
  function Concat(ss: seq<seq<Op>>): (r: seq<Op>)
  {
    if ss == [] then [] else Concat(ss[..|ss| - 1]) + ss[|ss| - 1]
  }

  /**
   * The attribute loop of the host-info case: the statement of every
   * recognized attribute, visiting the keys in an unspecified order.
   */
  method AttributeOperations(attrs: map<string, AttrValue>) returns (added: seq<Op>)
    ensures multiset(added) == AttrBag(attrs, attrs.Keys)
  {
    added := [];
    var remaining := attrs.Keys;
    while remaining != {}
      invariant remaining <= attrs.Keys
      invariant multiset(added) == AttrBag(attrs, attrs.Keys - remaining)
      decreases remaining
    {
      var k :| k in remaining;
      var done := attrs.Keys - remaining;
      AttrBagRemove(attrs, done + {k}, k);
      assert done + {k} - {k} == done;
      assert attrs.Keys - (remaining - {k}) == done + {k};
      added := added + AttrOps(attrs[k]);
      remaining := remaining - {k};
    }
    assert attrs.Keys - remaining == attrs.Keys;
  }

  /**
   * The host-info case of the mapping switch: the host upsert, the peer
   * update when the host is identified, then one statement per recognized
   * attribute.
   */
  method QueueHostInfo(batch: seq<Op>, h: HostInfo) returns (result: seq<Op>)
    ensures |batch| <= |result| && result[..|batch|] == batch
    ensures IsExpansion(HostInfoRecord(h), result[|batch|..])
  {
    var head := batch + [UpsertHostInfo(h)];
    if h.identified {
      head := head + [UpdatePeerInfo(h.peerInfo)];
    }
    assert head == batch + HostHead(h);
    var added := AttributeOperations(h.attrs);
    result := head + added;
    assert result[|batch|..] == HostHead(h) + added;
  }

  /**
   * The mapping switch followed by `batchQueryFn`: appends the statements of
   * `r` to `batch`. The attribute loop visits the keys in an unspecified order.
   */
  method QueueOperations(batch: seq<Op>, r: Record) returns (result: seq<Op>)
    ensures |batch| <= |result| && result[..|batch|] == batch
    ensures IsExpansion(r, result[|batch|..])
  {
    match r
    case HostInfoRecord(h) =>
      result := QueueHostInfo(batch, h);
    case PeerInfoRecord(p) =>
      result := batch + [UpdatePeerInfo(p)];
      assert result[|batch|..] == [UpdatePeerInfo(p)];
    case ConnAttemptRecord(a) =>
      result := batch + [UpdateConnAttempt(a)];
      assert result[|batch|..] == [UpdateConnAttempt(a)];
    case ConnEventRecord(e) =>
      result := batch + [InsertConnEvent(e)];
      // the last-activity timestamp comes from the disconnection time
      result := result + [UpdateLastActivity(e.peerId, e.discTime)];
      assert result[|batch|..] == [InsertConnEvent(e), UpdateLastActivity(e.peerId, e.discTime)];
    case IpInfoRecord(i) =>
      result := batch + [UpsertIpInfo(i)];
      assert result[|batch|..] == [UpsertIpInfo(i)];
    case UnrecognizedRecord(_) =>
      // logged and dropped; the loop goes on
      result := batch;
      assert result[|batch|..] == [];
  }

  /** Any key may be taken out first: the bag does not depend on the visiting order. */
  lemma {:induction false} AttrBagRemove(attrs: map<string, AttrValue>, keys: set<string>, k: string)
    requires keys <= attrs.Keys && k in keys
    ensures AttrBag(attrs, keys) == AttrBag(attrs, keys - {k}) + multiset(AttrOps(attrs[k]))
    decreases |keys|
  {
    var j :| j in keys && AttrBag(attrs, keys) == AttrBag(attrs, keys - {j}) + multiset(AttrOps(attrs[j]));
    if j != k {
      AttrBagRemove(attrs, keys - {j}, k);
      AttrBagRemove(attrs, keys - {k}, j);
      assert keys - {j} - {k} == keys - {k} - {j};
    }
  }

  /** One statement per recognized attribute, none for the others. */
  lemma {:induction false} AttrBagSize(attrs: map<string, AttrValue>, keys: set<string>)
    requires keys <= attrs.Keys
    ensures |AttrBag(attrs, keys)| == |RecognizedKeys(attrs, keys)|
    decreases |keys|
  {
    if keys != {} {
      var k :| k in keys;
      AttrBagRemove(attrs, keys, k);
      AttrBagSize(attrs, keys - {k});
      if Recognized(attrs[k]) {
        assert RecognizedKeys(attrs, keys) == RecognizedKeys(attrs, keys - {k}) + {k};
      } else {
        assert RecognizedKeys(attrs, keys) == RecognizedKeys(attrs, keys - {k});
      }
    }
  }

  /** Every statement in the bag comes from a recognized attribute under one of the keys, and conversely. */
  lemma {:induction false} AttrBagMembers(attrs: map<string, AttrValue>, keys: set<string>, op: Op)
    requires keys <= attrs.Keys
    ensures op in AttrBag(attrs, keys) <==> exists k :: k in keys && op in AttrOps(attrs[k])
    decreases |keys|
  {
    if keys != {} {
      var k :| k in keys;
      AttrBagRemove(attrs, keys, k);
      AttrBagMembers(attrs, keys - {k}, op);
      if op in AttrBag(attrs, keys) && op !in AttrOps(attrs[k]) {
        assert op in AttrBag(attrs, keys - {k});
      }
      if exists j :: j in keys && op in AttrOps(attrs[j]) {
        var j :| j in keys && op in AttrOps(attrs[j]);
        if j != k {
          assert j in keys - {k};
        }
      }
    }
  }

  /** The fan-out of every record variant: the exact number of statements it queues. */
  lemma ExpansionSize(r: Record, ops: seq<Op>)
    requires IsExpansion(r, ops)
    ensures |ops| == FanOut(r)
  {
    if r.HostInfoRecord? {
      var h := r.host;
      var n := |HostHead(h)|;
      assert ops == ops[..n] + ops[n..];
      AttrBagSize(h.attrs, h.attrs.Keys);
      assert |ops[n..]| == |multiset(ops[n..])|;
    }
  }

  /** The first statement of a host-info record is its upsert, then the peer update when identified. */
  lemma HostInfoExpansion(h: HostInfo, ops: seq<Op>)
    requires IsExpansion(HostInfoRecord(h), ops)
    ensures |ops| >= 1 && ops[0] == UpsertHostInfo(h)
    ensures h.identified ==> |ops| >= 2 && ops[1] == UpdatePeerInfo(h.peerInfo)
    ensures forall i :: (if h.identified then 2 else 1) <= i < |ops| ==>
              exists k :: k in h.attrs && Recognized(h.attrs[k]) && ops[i] == AttrOps(h.attrs[k])[0]
  {
    var n := |HostHead(h)|;
    assert ops[..n][0] == ops[0];
    forall i | n <= i < |ops|
      ensures exists k :: k in h.attrs && Recognized(h.attrs[k]) && ops[i] == AttrOps(h.attrs[k])[0]
    {
      assert ops[n..][i - n] == ops[i];
      AttrStatementOrigin(h.attrs, ops[n..], ops[i]);
    }
  }

  /** A statement in the attribute part of an expansion comes from one recognized attribute. */
  lemma AttrStatementOrigin(attrs: map<string, AttrValue>, added: seq<Op>, op: Op)
    requires multiset(added) == AttrBag(attrs, attrs.Keys)
    requires op in added
    ensures exists k :: k in attrs && Recognized(attrs[k]) && op == AttrOps(attrs[k])[0]
  {
    assert op in multiset(added);
    AttrBagMembers(attrs, attrs.Keys, op);
    var k :| k in attrs.Keys && op in AttrOps(attrs[k]);
  }

  /** Two expansions of one record hold the same statements; they differ at most in attribute order. */
  lemma ExpansionUnique(r: Record, a: seq<Op>, b: seq<Op>)
    requires IsExpansion(r, a) && IsExpansion(r, b)
    ensures multiset(a) == multiset(b)
    ensures !r.HostInfoRecord? ==> a == b
    ensures r.HostInfoRecord? ==> a[..|HostHead(r.host)|] == b[..|HostHead(r.host)|]
  {
    if r.HostInfoRecord? {
      var n := |HostHead(r.host)|;
      assert a == a[..n] + a[n..];
      assert b == b[..n] + b[n..];
    }
  }

  lemma {:induction false} ConcatAppend(ss: seq<seq<Op>>, tt: seq<seq<Op>>)
    ensures Concat(ss + tt) == Concat(ss) + Concat(tt)
    decreases |tt|
  {
    if tt != [] {
      assert (ss + tt)[..|ss + tt| - 1] == ss + tt[..|tt| - 1];
      ConcatAppend(ss, tt[..|tt| - 1]);
    } else {
      assert ss + tt == ss;
    }
  }

  /** The total number of statements queued for a sequence of records is the sum of their fan-outs. */
  lemma {:induction false} ConcatSize(rs: seq<Record>, ss: seq<seq<Op>>)
    requires Expanded(rs, ss)
    ensures |Concat(ss)| == TotalFanOut(rs)
    decreases |rs|
  {
    if rs != [] {
      ExpansionSize(rs[|rs| - 1], ss[|ss| - 1]);
      ConcatSize(rs[..|rs| - 1], ss[..|ss| - 1]);
    }
  }

  /** `ss[i]` is an expansion of `rs[i]`, for every `i`. */
  ghost predicate Expanded(rs: seq<Record>, ss: seq<seq<Op>>)
    decreases |rs|
  {
    && |rs| == |ss|
    && (rs != [] ==>
          && Expanded(rs[..|rs| - 1], ss[..|ss| - 1])
          && IsExpansion(rs[|rs| - 1], ss[|ss| - 1]))
  }

  lemma ExpandedAppend(rs: seq<Record>, ss: seq<seq<Op>>, r: Record, ops: seq<Op>)
    requires Expanded(rs, ss) && IsExpansion(r, ops)
    ensures Expanded(rs + [r], ss + [ops])
  {
    assert (rs + [r])[..|rs|] == rs;
    assert (ss + [ops])[..|ss|] == ss;
  }

  ghost function TotalFanOut(rs: seq<Record>): nat {
    if rs == [] then 0 else TotalFanOut(rs[..|rs| - 1]) + FanOut(rs[|rs| - 1])
  }
}
