/**
 * The per-peer metrics record (src/metrics/peer.go): identity fields merged
 * from host-info reports, connection bookkeeping, attempt counters and the
 * per-topic message counters, with the aggregate queries over them.
 *
 * Times are nanoseconds since an arbitrary epoch. The helpers of the
 * `utils` package (client-type parsing, multiaddress parsing, geolocation,
 * error filtering, topic-name expansion) are not part of this model; their
 * answers are parameters.
 */
module Metrics {
  import opened GoInts
  import opened Options

  /** The error text of a peer that has not failed (or whose last attempt succeeded). */
  const NO_ERROR: string := "None"
  /** `ClientOS` is not derived yet: every host-info report sets this placeholder. */
  const CLIENT_OS_PLACEHOLDER: string := "TODO"
  /** The client name of an unparsed user agent, and the city of an unlocated address. */
  const UNKNOWN: string := "Unknown"

  /** The messages received on one topic. */
  datatype MessageMetric = MessageMetric(count: u64, firstMessageTime: int, lastMessageTime: int)

  /** The part of a host-info report that `FetchHostInfo` reads (round-trip time aside). */
  datatype BasicHostInfo = BasicHostInfo(
    peerId: string,
    nodeId: string,
    userAgent: string,
    pubKey: string,
    addrs: string,
    metadataRequest: bool,
    metadataSucceed: bool)

  /** The identity fields of a peer, those a host-info report may update. */
  datatype Identity = Identity(
    peerId: string,
    nodeId: string,
    userAgent: string,
    clientName: string,
    clientOS: string,
    clientVersion: string,
    pubkey: string,
    addrs: string,
    ip: string,
    country: string,
    city: string,
    metadataRequest: bool,
    metadataSucceed: bool)

  /**
   * The merge rules of `FetchHostInfo`: `client` is the parsed user agent
   * (name, version), `ip` the address parsed from the report's multiaddress
   * and `location` the (country, city) looked up for it.
   */
  function MergeHostInfo(p: Identity, h: BasicHostInfo, client: (string, string), ip: string, location: (string, string)): Identity
  {
    var kept := KeptClient((p.clientName, p.clientVersion), client);
    var place := KeptLocation((p.country, p.city), location);
    Identity(
      Reported(p.peerId, h.peerId),
      Reported(p.nodeId, h.nodeId),
      Reported(p.userAgent, h.userAgent),
      kept.0,
      CLIENT_OS_PLACEHOLDER,
      kept.1,
      Reported(p.pubkey, h.pubKey),
      Reported(p.addrs, h.addrs),
      Reported(p.ip, ip),
      place.0,
      place.1,
      p.metadataRequest || h.metadataRequest,
      p.metadataSucceed || h.metadataSucceed)
  }

  /** The recorded (name, version) of the client, kept once known and otherwise the parsed one. */
  function KeptClient(known: (string, string), parsed: (string, string)): (string, string) {
    if ClientKnown(known.0) then known else parsed
  }

  /** The recorded (country, city), or the looked-up one when `Relocates` allows it. */
  function KeptLocation(known: (string, string), found: (string, string)): (string, string) {
    if Relocates(known.1, found.1) then found else known
  }

  /** The client name is only ever filled in while it is unset or unparsed. */
  predicate ClientKnown(name: string) {
    name != "" && name != UNKNOWN
  }

  /** The location is replaced by a lookup that found a city, or when no city is known yet. */
  predicate Relocates(knownCity: string, foundCity: string) {
    (foundCity != "" && foundCity != UNKNOWN) || knownCity == ""
  }

  /** A reported value replaces the known one unless it is empty. */
  function Reported(known: string, incoming: string): string {
    if incoming != "" then incoming else known
  }

  /** The merge rules, field by field. */
  lemma MergeRules(p: Identity, h: BasicHostInfo, client: (string, string), ip: string, location: (string, string))
    ensures var q := MergeHostInfo(p, h, client, ip, location);
      // an empty incoming value never erases a known one, a non-empty one wins
      && (h.peerId == "" ==> q.peerId == p.peerId) && (h.peerId != "" ==> q.peerId == h.peerId)
      && (h.nodeId == "" ==> q.nodeId == p.nodeId) && (h.nodeId != "" ==> q.nodeId == h.nodeId)
      && (h.userAgent == "" ==> q.userAgent == p.userAgent) && (h.userAgent != "" ==> q.userAgent == h.userAgent)
      && (h.pubKey == "" ==> q.pubkey == p.pubkey) && (h.pubKey != "" ==> q.pubkey == h.pubKey)
      && (h.addrs == "" ==> q.addrs == p.addrs) && (h.addrs != "" ==> q.addrs == h.addrs)
      && (ip == "" ==> q.ip == p.ip) && (ip != "" ==> q.ip == ip)
    ensures var q := MergeHostInfo(p, h, client, ip, location);
      // the client is set while it is unknown, and kept once known
      && (p.clientName == "" || p.clientName == UNKNOWN ==> q.clientName == client.0 && q.clientVersion == client.1)
      && (p.clientName != "" && p.clientName != UNKNOWN ==> q.clientName == p.clientName && q.clientVersion == p.clientVersion)
      && q.clientOS == CLIENT_OS_PLACEHOLDER
    ensures var q := MergeHostInfo(p, h, client, ip, location);
      // a known city is only replaced by another known one; country and city change together
      && ((location.1 != "" && location.1 != UNKNOWN) || p.city == "" ==> q.country == location.0 && q.city == location.1)
      && (p.city != "" && (location.1 == "" || location.1 == UNKNOWN) ==> q.country == p.country && q.city == p.city)
    ensures var q := MergeHostInfo(p, h, client, ip, location);
      // the metadata flags never go from true to false
      && (p.metadataRequest ==> q.metadataRequest) && (p.metadataSucceed ==> q.metadataSucceed)
      && (q.metadataRequest <==> p.metadataRequest || h.metadataRequest)
      && (q.metadataSucceed <==> p.metadataSucceed || h.metadataSucceed)
  {
  }

  /** The counters after one message on `topic` at time `t`. */
  function CountMessage(m: map<string, MessageMetric>, topic: string, t: int): (m': map<string, MessageMetric>)
    ensures m'.Keys == m.Keys + {topic}
    // the topic's count rises by one (modulo 2^64) and its last time is `t`
    ensures m'[topic].count == AddU64(if topic in m then m[topic].count else 0, 1)
    ensures m'[topic].lastMessageTime == t
    // the first time is that of the message that created the entry
    ensures m'[topic].firstMessageTime == if topic in m then m[topic].firstMessageTime else t
    // every other topic is untouched
    ensures forall k :: k in m && k != topic ==> m'[k] == m[k]
  {
    var entry := if topic in m then m[topic] else MessageMetric(0, t, t);
    m[topic := MessageMetric(AddU64(entry.count, 1), entry.firstMessageTime, t)]
  }

  /** The exact (unbounded) sum of the counts of the topics in `keys`. */
  ghost function Sum(m: map<string, MessageMetric>, keys: set<string>): nat
    requires keys <= m.Keys
    decreases |keys|
  {
    if keys == {} then 0
    else
      var k :| k in keys;
      m[k].count + Sum(m, keys - {k})
  }

  /** Sum over all topics. */
  ghost function Total(m: map<string, MessageMetric>): nat {
    Sum(m, m.Keys)
  }

  /** The sum can be taken apart at any topic. */
  lemma {:induction false} SumRemove(m: map<string, MessageMetric>, keys: set<string>, k: string)
    requires keys <= m.Keys && k in keys
    ensures Sum(m, keys) == m[k].count + Sum(m, keys - {k})
    decreases |keys|
  {
    var j :| j in keys && Sum(m, keys) == m[j].count + Sum(m, keys - {j});
    if j != k {
      SumRemove(m, keys - {j}, k);
      SumRemove(m, keys - {k}, j);
      assert keys - {j} - {k} == keys - {k} - {j};
    }
  }

  /** The sum only depends on the counts of the topics summed. */
  lemma {:induction false} SumFrame(m: map<string, MessageMetric>, m': map<string, MessageMetric>, keys: set<string>)
    requires keys <= m.Keys && keys <= m'.Keys
    requires forall k :: k in keys ==> m[k].count == m'[k].count
    ensures Sum(m, keys) == Sum(m', keys)
    decreases |keys|
  {
    if keys != {} {
      var k :| k in keys;
      SumRemove(m, keys, k);
      SumRemove(m', keys, k);
      SumFrame(m, m', keys - {k});
    }
  }

  /** One topic's count never exceeds the total. */
  lemma TopicCountBounded(m: map<string, MessageMetric>, topic: string)
    requires topic in m
    ensures m[topic].count <= Total(m)
  {
    SumRemove(m, m.Keys, topic);
  }

  /** A message raises the total of all counters by exactly one, modulo 2^64 like the counters. */
  lemma CountMessageTotal(m: map<string, MessageMetric>, topic: string, t: int)
    ensures Total(CountMessage(m, topic, t)) % U64_MODULUS == (Total(m) + 1) % U64_MODULUS
  {
    var m' := CountMessage(m, topic, t);
    var rest := m.Keys - {topic};
    assert m'.Keys - {topic} == rest;
    SumRemove(m', m'.Keys, topic);
    SumFrame(m, m', rest);
    var before := if topic in m then m[topic].count else 0;
    if topic in m {
      SumRemove(m, m.Keys, topic);
    } else {
      assert rest == m.Keys;
    }
    assert Total(m) == before + Sum(m, rest);
    if before + 1 == U64_MODULUS {
      assert Total(m') == Sum(m, rest);
      ModuloShift(Total(m) + 1, 1);
    }
  }

  /** The first disconnection, from index `from` on, that is not earlier than the connection `c`. */
  function FirstNotBefore(c: int, discs: seq<int>, from: nat): (r: Option<nat>)
    requires from <= |discs|
    ensures r.Some? ==> from <= r.value < |discs| && discs[r.value] >= c
    ensures r.Some? ==> forall j :: from <= j < r.value ==> discs[j] < c
    ensures r.None? ==> forall j :: from <= j < |discs| ==> discs[j] < c
    decreases |discs| - from
  {
    if from == |discs| then None
    else if discs[from] >= c then Some(from)
    else FirstNotBefore(c, discs, from + 1)
  }

  /**
   * What one connection at `c` contributes to the connected time: the
   * interval up to the first disconnection not earlier than it (as
   * `time.Time.Sub` reports it), or nothing when there is none.
   */
  function Interval(c: int, discs: seq<int>): (d: int)
    ensures 0 <= d <= MAX_INT64
    ensures (exists j :: 0 <= j < |discs| && discs[j] >= c) <==> FirstNotBefore(c, discs, 0).Some?
    // a connection with no disconnection at or after it contributes nothing
    ensures FirstNotBefore(c, discs, 0).None? ==> d == 0
  {
    match FirstNotBefore(c, discs, 0)
    case None => 0
    case Some(j) => SaturateInt64(discs[j] - c)
  }

  /** The exact total connected time: the sum of each connection's interval. */
  function ConnectedTime(conns: seq<int>, discs: seq<int>): (total: int)
    ensures total >= 0
    ensures total <= |conns| * MAX_INT64
  {
    if conns == [] then 0
    else ConnectedTime(conns[..|conns| - 1], discs) + Interval(conns[|conns| - 1], discs)
  }

  /** A new connection adds its own interval and leaves the others alone. */
  lemma ConnectedTimeAppend(conns: seq<int>, discs: seq<int>, c: int)
    ensures ConnectedTime(conns + [c], discs) == ConnectedTime(conns, discs) + Interval(c, discs)
  {
    assert (conns + [c])[..|conns|] == conns;
  }

  /** A connection later than every recorded disconnection adds nothing yet. */
  lemma OpenConnectionAddsNothing(conns: seq<int>, discs: seq<int>, c: int)
    requires forall j :: 0 <= j < |discs| ==> discs[j] < c
    ensures ConnectedTime(conns + [c], discs) == ConnectedTime(conns, discs)
  {
    ConnectedTimeAppend(conns, discs, c);
  }

  /** A new disconnection never lowers a connection's interval: it is matched only by connections that had none. */
  lemma {:induction false} IntervalGrows(c: int, discs: seq<int>, d: int)
    ensures FirstNotBefore(c, discs, 0).Some? ==> Interval(c, discs + [d]) == Interval(c, discs)
    ensures Interval(c, discs) <= Interval(c, discs + [d])
  {
    match FirstNotBefore(c, discs, 0)
    case Some(j) =>
      FirstNotBeforeExtend(c, discs, d, 0);
    case None =>
      FirstNotBeforeExtend(c, discs, d, 0);
  }

  lemma {:induction false} FirstNotBeforeExtend(c: int, discs: seq<int>, d: int, from: nat)
    requires from <= |discs|
    ensures FirstNotBefore(c, discs, from).Some? ==> FirstNotBefore(c, discs + [d], from) == FirstNotBefore(c, discs, from)
    ensures FirstNotBefore(c, discs, from).None? ==>
              FirstNotBefore(c, discs + [d], from) == if d >= c then Some(|discs|) else None
    decreases |discs| - from
  {
    var e := discs + [d];
    assert e[|discs|] == d;
    if from < |discs| {
      assert e[from] == discs[from];
      if discs[from] < c {
        FirstNotBeforeExtend(c, discs, d, from + 1);
      }
    } else {
      assert FirstNotBefore(c, e, from + 1) == None;
    }
  }

  /** A disconnection event never lowers the exact connected time. */
  lemma {:induction false} ConnectedTimeMonotone(conns: seq<int>, discs: seq<int>, d: int)
    ensures ConnectedTime(conns, discs) <= ConnectedTime(conns, discs + [d])
    decreases |conns|
  {
    if conns != [] {
      ConnectedTimeMonotone(conns[..|conns| - 1], discs, d);
      IntervalGrows(conns[|conns| - 1], discs, d);
    }
  }

  /** `Peer` */
  class Peer {
    var peerId: string
    var nodeId: string
    var userAgent: string
    var clientName: string
    var clientOS: string
    var clientVersion: string
    var pubkey: string
    var addrs: string
    var ip: string
    var country: string
    var city: string

    var connectedDirection: string
    var isConnected: bool
    var attempted: bool
    var succeed: bool
    var attempts: u64
    var error: string
    var connectionTimes: seq<int>
    var disconnectionTimes: seq<int>

    var metadataRequest: bool
    var metadataSucceed: bool
    var lastExport: int

    var messageMetrics: map<string, MessageMetric>

    /** A counted attempt, and above all a successful one, implies an attempt was made. */
    ghost predicate Valid()
      reads this
    {
      && (attempts > 0 ==> attempted)
      && (succeed ==> attempted)
    }

    /** The identity fields as one value. */
    ghost function CurrentIdentity(): Identity
      reads this
    {
      Identity(peerId, nodeId, userAgent, clientName, clientOS, clientVersion,
                       pubkey, addrs, ip, country, city, metadataRequest, metadataSucceed)
    }

    /** `NewPeer`: only the identifier is known; no attempt, no connection, no message. */
    constructor (peerId: string)
      ensures Valid()
      ensures CurrentIdentity() == Identity(peerId, "", "", "", "", "", "", "", "", "", "", false, false)
      ensures connectedDirection == "" && !isConnected
      ensures !attempted && !succeed && attempts == 0 && error == NO_ERROR
      ensures connectionTimes == [] && disconnectionTimes == []
      ensures lastExport == 0 && messageMetrics == map[]
    {
      this.peerId := peerId;
      nodeId, userAgent, clientName, clientOS, clientVersion := "", "", "", "", "";
      pubkey, addrs, ip, country, city := "", "", "", "", "";
      connectedDirection, isConnected := "", false;
      attempted, succeed, attempts, error := false, false, 0, NO_ERROR;
      connectionTimes, disconnectionTimes := [], [];
      metadataRequest, metadataSucceed := false, false;
      lastExport := 0;
      messageMetrics := map[];
    }

    /** `ResetDynamicMetrics`: the attempt counter and the message counters start over; nothing else changes. */
    method ResetDynamicMetrics()
      requires Valid()
      modifies this`attempts, this`messageMetrics
      ensures Valid()
      ensures attempts == 0 && messageMetrics == map[]
    {
      attempts := 0;
      messageMetrics := map[];
    }

    /** `ConnectionEvent`: one more connection time; the disconnections are untouched. */
    method ConnectionEvent(direction: string, t: int)
      modifies this`connectionTimes, this`isConnected, this`connectedDirection
      ensures connectionTimes == old(connectionTimes) + [t]
      ensures isConnected && connectedDirection == direction
    {
      connectionTimes := connectionTimes + [t];
      isConnected := true;
      connectedDirection := direction;
    }

    /** `DisconnectionEvent`: one more disconnection time; the connections are untouched. */
    method DisconnectionEvent(t: int)
      modifies this`disconnectionTimes, this`isConnected, this`connectedDirection
      ensures disconnectionTimes == old(disconnectionTimes) + [t]
      ensures !isConnected && connectedDirection == ""
      ensures ConnectedTime(connectionTimes, old(disconnectionTimes)) <= ConnectedTime(connectionTimes, disconnectionTimes)
    {
      ConnectedTimeMonotone(connectionTimes, disconnectionTimes, t);
      disconnectionTimes := disconnectionTimes + [t];
      isConnected := false;
      connectedDirection := "";
    }

    /**
     * `ConnectionAttemptEvent`: one more attempt (the `uint64` counter wraps);
     * a success is remembered for good and clears the error, a failure records
     * the filtered error text.
     */
    method ConnectionAttemptEvent(succeeded: bool, err: string, filterError: string -> string)
      modifies this`attempts, this`attempted, this`succeed, this`error
      ensures Valid()
      ensures attempts == AddU64(old(attempts), 1) && attempted
      ensures succeed == (old(succeed) || succeeded)
      ensures error == if succeeded then NO_ERROR else filterError(err)
    {
      attempts := AddU64(attempts, 1);
      if !attempted {
        attempted := true;
      }
      if succeeded {
        succeed := true;
        error := NO_ERROR;
      } else {
        error := filterError(err);
      }
    }

    /**
     * `FetchHostInfo`: merges a host-info report into the identity fields.
     * `filterClientType`, `ipFromMultiaddress` and `locationFromIp` stand for
     * the helpers that parse the user agent, extract the address and look
     * up (country, city); a failing helper answers empty strings.
     */
    method FetchHostInfo(
      h: BasicHostInfo,
      filterClientType: string -> (string, string),
      ipFromMultiaddress: string -> string,
      locationFromIp: string -> (string, string))
      modifies this`peerId, this`nodeId, this`userAgent, this`clientName, this`clientOS, this`clientVersion
      modifies this`pubkey, this`addrs, this`ip, this`country, this`city, this`metadataRequest, this`metadataSucceed
      ensures CurrentIdentity() ==
                MergeHostInfo(old(CurrentIdentity()), h, filterClientType(h.userAgent),
                              ipFromMultiaddress(h.addrs), locationFromIp(ipFromMultiaddress(h.addrs)))
    {
      var client := filterClientType(h.userAgent);
      var foundIp := ipFromMultiaddress(h.addrs);
      var location := locationFromIp(foundIp);
      ghost var before := CurrentIdentity();
      MergeReportedIds(h);
      MergeClient(client);
      clientOS := CLIENT_OS_PLACEHOLDER;
      MergeReportedAddress(h, foundIp);
      MergeLocation(location);
      MergeMetadataFlags(h);
      assert CurrentIdentity() == MergeHostInfo(before, h, client, foundIp, location);
    }

    /** The parsed client replaces the recorded one only while that one is unset or unparsed. */
    method MergeClient(client: (string, string))
      modifies this`clientName, this`clientVersion
      ensures (clientName, clientVersion) == KeptClient((old(clientName), old(clientVersion)), client)
    {
      if !ClientKnown(clientName) {
        clientName := client.0;
        clientVersion := client.1;
      }
    }

    /** The looked-up (country, city) replaces the recorded ones when `Relocates` allows it. */
    method MergeLocation(location: (string, string))
      modifies this`country, this`city
      ensures (country, city) == KeptLocation((old(country), old(city)), location)
    {
      if Relocates(city, location.1) {
        city := location.1;
        country := location.0;
      }
    }

    /** Each metadata flag of the report is taken over only while the recorded one is false. */
    method MergeMetadataFlags(h: BasicHostInfo)
      modifies this`metadataRequest, this`metadataSucceed
      ensures metadataRequest == (old(metadataRequest) || h.metadataRequest)
      ensures metadataSucceed == (old(metadataSucceed) || h.metadataSucceed)
    {
      if !metadataRequest {
        metadataRequest := h.metadataRequest;
      }
      if !metadataSucceed {
        metadataSucceed := h.metadataSucceed;
      }
    }

    /** The identifiers and user agent of a report, each kept when the report leaves it empty. */
    method MergeReportedIds(h: BasicHostInfo)
      modifies this`peerId, this`nodeId, this`userAgent
      ensures peerId == Reported(old(peerId), h.peerId)
      ensures nodeId == Reported(old(nodeId), h.nodeId)
      ensures userAgent == Reported(old(userAgent), h.userAgent)
    {
      if h.peerId != "" {
        peerId := h.peerId;
      }
      if h.nodeId != "" {
        nodeId := h.nodeId;
      }
      if h.userAgent != "" {
        userAgent := h.userAgent;
      }
    }

    /** The key, the multiaddress and the parsed address of a report, each kept when empty. */
    method MergeReportedAddress(h: BasicHostInfo, foundIp: string)
      modifies this`pubkey, this`addrs, this`ip
      ensures pubkey == Reported(old(pubkey), h.pubKey)
      ensures addrs == Reported(old(addrs), h.addrs)
      ensures ip == Reported(old(ip), foundIp)
    {
      if h.pubKey != "" {
        pubkey := h.pubKey;
      }
      if h.addrs != "" {
        addrs := h.addrs;
      }
      if foundIp != "" {
        ip := foundIp;
      }
    }

    /** `MessageEvent`: counts one message on `topic` at time `t`. */
    method MessageEvent(topic: string, t: int)
      modifies this`messageMetrics
      ensures messageMetrics == CountMessage(old(messageMetrics), topic, t)
      ensures Total(messageMetrics) % U64_MODULUS == (Total(old(messageMetrics)) + 1) % U64_MODULUS
    {
      CountMessageTotal(messageMetrics, topic, t);
      var entry := if topic in messageMetrics then messageMetrics[topic] else MessageMetric(0, t, t);
      entry := entry.(lastMessageTime := t);
      entry := entry.(count := AddU64(entry.count, 1));
      messageMetrics := messageMetrics[topic := entry];
    }

    /**
     * `GetConnectedTime`, before its conversion to minutes: the `int64`
     * nanosecond total of each connection's interval to its first
     * disconnection not earlier than it.
     */
    method ConnectedTimeNanos() returns (total: int)
      ensures total == WrapInt64(ConnectedTime(connectionTimes, disconnectionTimes))
      // no wrap-around while the exact total fits an int64, and then it is never negative
      ensures ConnectedTime(connectionTimes, disconnectionTimes) <= MAX_INT64 ==>
                total == ConnectedTime(connectionTimes, disconnectionTimes) && total >= 0
    {
      var conns, discs := connectionTimes, disconnectionTimes;
      total := 0;
      var i := 0;
      while i < |conns|
        invariant 0 <= i <= |conns|
        invariant total == WrapInt64(ConnectedTime(conns[..i], discs))
      {
        var conTime := conns[i];
        ghost var before := ConnectedTime(conns[..i], discs);
        assert conns[..i + 1] == conns[..i] + [conTime];
        ConnectedTimeAppend(conns[..i], discs, conTime);
        WrapInt64Add(before, Interval(conTime, discs));
        total := AddFirstInterval(total, conTime, discs);
        i := i + 1;
      }
      assert conns[..i] == conns;
    }

    /** `GetNumOfMsgFromTopic`: the count of the topic that `shortToFullTopicName` expands `shortTopic` to, 0 without an entry. */
    function NumOfMsgFromTopic(shortTopic: string, shortToFullTopicName: string -> string): (n: u64)
      reads this
      ensures shortToFullTopicName(shortTopic) !in messageMetrics ==> n == 0
      ensures shortToFullTopicName(shortTopic) in messageMetrics ==> n == messageMetrics[shortToFullTopicName(shortTopic)].count
      ensures n <= Total(messageMetrics)
    {
      var full := shortToFullTopicName(shortTopic);
      if full in messageMetrics then
        TopicCountBounded(messageMetrics, full);
        messageMetrics[full].count
      else 0
    }

    /** `GetAllMessagesCount`: the `uint64` sum of every topic's count. */
    method GetAllMessagesCount() returns (totalMessages: u64)
      ensures totalMessages == Total(messageMetrics) % U64_MODULUS
    {
      var m := messageMetrics;
      totalMessages := 0;
      var remaining := m.Keys;
      while remaining != {}
        invariant remaining <= m.Keys
        invariant (totalMessages + Sum(m, remaining)) % U64_MODULUS == Total(m) % U64_MODULUS
        decreases |remaining|
      {
        var k :| k in remaining;
        SumRemove(m, remaining, k);
        var next := AddU64(totalMessages, m[k].count);
        if totalMessages + m[k].count >= U64_MODULUS {
          ModuloShift(totalMessages + m[k].count + Sum(m, remaining - {k}), 1);
        }
        totalMessages := next;
        remaining := remaining - {k};
      }
    }
  }

  /**
   * The inner loop of `GetConnectedTime`: scans the disconnections for the
   * first one not earlier than `conTime`, adds its saturated interval to the
   * `int64` total and breaks; adds nothing when there is none.
   */
  method AddFirstInterval(total: int, conTime: int, discs: seq<int>) returns (total': int)
    requires MIN_INT64 <= total <= MAX_INT64
    ensures total' == WrapInt64(total + Interval(conTime, discs))
  {
    total' := total;
    var j := 0;
    while j < |discs|
      invariant 0 <= j <= |discs|
      invariant forall l :: 0 <= l < j ==> discs[l] < conTime
      invariant total' == total
    {
      var single := SaturateInt64(discs[j] - conTime);
      if single >= 0 {
        FirstNotBeforeFrom(conTime, discs, 0, j);
        total' := WrapInt64(total' + single);
        return;
      }
      j := j + 1;
    }
    assert Interval(conTime, discs) == 0;
  }

  /** The first disconnection found by a scan that skipped only earlier ones is the first one not before. */
  lemma {:induction false} FirstNotBeforeFrom(c: int, discs: seq<int>, from: nat, k: nat)
    requires from <= k < |discs| && discs[k] >= c
    requires forall j :: from <= j < k ==> discs[j] < c
    ensures FirstNotBefore(c, discs, from) == Some(k)
    decreases k - from
  {
    if from < k {
      FirstNotBeforeFrom(c, discs, from + 1, k);
    }
  }

  /** Merging the same report twice changes nothing more than merging it once. */
  lemma MergeIdempotent(p: Identity, h: BasicHostInfo, client: (string, string), ip: string, location: (string, string))
    ensures var q := MergeHostInfo(p, h, client, ip, location);
            MergeHostInfo(q, h, client, ip, location) == q
  {
  }
}
