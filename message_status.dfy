/** The message status record the email service keeps for every send
    request, its three-state lifecycle, and the cache layout it is written
    under (one entry per message, keyed by message id). */
module MessageStatus {
  import opened Wrappers

  /** Delivery state of a message: the Status constants PENDING, SENT, FAILED. */
  datatype Status = Pending | Sent | Failed

  /** A reading of `new Date()`. The model passes timestamps through and never
      compares two of them. */
  type Timestamp = int

  /** What the mail handler's `send` did: it returned normally, or it threw an
      exception with the given message (Java allows that message to be null). */
  datatype SendOutcome = Delivered | Threw(message: Option<string>)

  /** The contents of a MessageStatusResponseDto at the moment it is written
      to the cache. */
  datatype StatusRecord = StatusRecord(
    messageId: string,
    channel: string,
    status: Status,
    updatedAt: Timestamp,
    errorMessage: Option<string>)

  /** The status cache: key to (record, TTL it was written with). */
  type CacheMap = map<string, (StatusRecord, int)>

  const KeyPrefix: string := "message_status_"

  /** The cache key of a message: the fixed prefix followed by the id. */
  function CacheKey(messageId: string): (key: string)
    ensures |key| == |KeyPrefix| + |messageId|
    ensures key[..|KeyPrefix|] == KeyPrefix
    ensures key[|KeyPrefix|..] == messageId
  {
    KeyPrefix + messageId
  }

  /** The message id a status key belongs to: the inverse of CacheKey, None
      for a key without the status prefix. */
  function MessageIdOf(key: string): (id: Option<string>)
    ensures id.Some? ==> CacheKey(id.value) == key
  {
    if |KeyPrefix| <= |key| && key[..|KeyPrefix|] == KeyPrefix then Some(key[|KeyPrefix|..]) else None
  }

  /** Reading the id back out of a message's key gives that id. */
  lemma MessageIdOfCacheKey(messageId: string)
    ensures MessageIdOf(CacheKey(messageId)) == Some(messageId)
  {
  }

  /** Distinct message ids give distinct cache keys, and equal ids equal keys. */
  lemma CacheKeyInjective(a: string, b: string)
    ensures CacheKey(a) == CacheKey(b) <==> a == b
  {
  }

  /** A key that MessageIdOf rejects is the key of no message at all. */
  lemma ForeignKeyIsNoMessageKey(key: string)
    requires MessageIdOf(key).None?
    ensures forall messageId :: CacheKey(messageId) != key
  {
  }

  /** The lifecycle's transition relation: PENDING moves to SENT or to FAILED,
      and no other state moves. */
  predicate Step(from: Status, to: Status)
  {
    from == Pending && to != Pending
  }

  /** The record createMessageStatus builds: a new id, the request's channel,
      PENDING, no error message. */
  function Opened(messageId: string, channel: string, at: Timestamp): StatusRecord
  {
    StatusRecord(messageId, channel, Pending, at, None)
  }

  /** setMessageStatusSent on a record value. */
  function MarkSent(r: StatusRecord, at: Timestamp): StatusRecord
  {
    r.(status := Sent, updatedAt := at)
  }

  /** setMessageStatusFailed on a record value. */
  function MarkFailed(r: StatusRecord, message: Option<string>, at: Timestamp): StatusRecord
  {
    r.(status := Failed, errorMessage := message, updatedAt := at)
  }

  /** The record a send leaves behind, given what the handler did: the same
      message, moved out of PENDING by one step, FAILED exactly when the
      handler threw, and then carrying the exception's message. */
  function Finish(r: StatusRecord, outcome: SendOutcome, at: Timestamp): (s: StatusRecord)
    ensures s.messageId == r.messageId && s.channel == r.channel && s.updatedAt == at
    ensures s.status != Pending
    ensures r.status == Pending ==> Step(r.status, s.status)
    ensures s.status == Failed <==> outcome.Threw?
    ensures s.errorMessage == if outcome.Threw? then outcome.message else r.errorMessage
  {
    match outcome
    case Delivered => MarkSent(r, at)
    case Threw(message) => MarkFailed(r, message, at)
  }

  /** storeStatus on the cache contents: forget the record's key, then set it
      to the record with the TTL configured for its status. Only that key
      changes. */
  function Store(cache: CacheMap, r: StatusRecord, ttl: Status -> int): (c: CacheMap)
    ensures CacheKey(r.messageId) in c && c[CacheKey(r.messageId)] == (r, ttl(r.status))
    ensures forall k :: k != CacheKey(r.messageId) ==> (k in c <==> k in cache)
    ensures forall k :: k in cache && k != CacheKey(r.messageId) ==> c[k] == cache[k]
  {
    var key := CacheKey(r.messageId);
    (cache - {key})[key := (r, ttl(r.status))]
  }

  /** A later write for the same message replaces an earlier one entirely. */
  lemma StoreOverwrites(cache: CacheMap, first: StatusRecord, second: StatusRecord, ttl: Status -> int)
    requires first.messageId == second.messageId
    ensures Store(Store(cache, first, ttl), second, ttl) == Store(cache, second, ttl)
  {
  }

  /** One sendTemplateEmail call as seen by the cache: the id it generated,
      the request's channel, what the handler did, and the two timestamps. */
  datatype Dispatch = Dispatch(
    messageId: string,
    channel: string,
    createdAt: Timestamp,
    outcome: SendOutcome,
    finishedAt: Timestamp)

  /** The record a dispatch ends with. */
  function Final(d: Dispatch): StatusRecord
  {
    Finish(Opened(d.messageId, d.channel, d.createdAt), d.outcome, d.finishedAt)
  }

  /** The cache after a sequence of dispatches, each writing its PENDING record
      and then its final record. */
  function Dispatched(cache: CacheMap, ds: seq<Dispatch>, ttl: Status -> int): CacheMap
    decreases |ds|
  {
    if ds == [] then cache
    else
      var d := ds[0];
      Dispatched(Store(Store(cache, Opened(d.messageId, d.channel, d.createdAt), ttl), Final(d), ttl), ds[1..], ttl)
  }

  predicate DistinctIds(ds: seq<Dispatch>)
  {
    forall i, j :: 0 <= i < j < |ds| ==> ds[i].messageId != ds[j].messageId
  }

  /** Dispatches for other messages leave a key exactly as it was. */
  lemma {:induction false} DispatchedLeavesOthers(cache: CacheMap, ds: seq<Dispatch>, ttl: Status -> int, key: string)
    requires forall i :: 0 <= i < |ds| ==> CacheKey(ds[i].messageId) != key
    ensures key in Dispatched(cache, ds, ttl) <==> key in cache
    ensures key in cache ==> Dispatched(cache, ds, ttl)[key] == cache[key]
    decreases |ds|
  {
    if ds != [] {
      var d := ds[0];
      var next := Store(Store(cache, Opened(d.messageId, d.channel, d.createdAt), ttl), Final(d), ttl);
      assert CacheKey(d.messageId) != key;
      DispatchedLeavesOthers(next, ds[1..], ttl, key);
    }
  }

  /** When every dispatch has its own id, the cache ends up holding each
      message's final record, never its PENDING one, under that message's
      key, with the TTL of the final status. */
  lemma {:induction false} DispatchedKeepsFinal(cache: CacheMap, ds: seq<Dispatch>, ttl: Status -> int, i: nat)
    requires DistinctIds(ds) && i < |ds|
    ensures CacheKey(ds[i].messageId) in Dispatched(cache, ds, ttl)
    ensures Dispatched(cache, ds, ttl)[CacheKey(ds[i].messageId)] == (Final(ds[i]), ttl(Final(ds[i]).status))
    ensures Dispatched(cache, ds, ttl)[CacheKey(ds[i].messageId)].0.status != Pending
    decreases |ds|
  {
    var d := ds[0];
    var next := Store(Store(cache, Opened(d.messageId, d.channel, d.createdAt), ttl), Final(d), ttl);
    if i == 0 {
      var key := CacheKey(d.messageId);
      forall j | 0 <= j < |ds[1..]|
        ensures CacheKey(ds[1..][j].messageId) != key
      {
        assert ds[1..][j] == ds[j + 1];
        CacheKeyInjective(ds[j + 1].messageId, d.messageId);
      }
      DispatchedLeavesOthers(next, ds[1..], ttl, key);
    } else {
      assert DistinctIds(ds[1..]) by {
        forall a, b | 0 <= a < b < |ds[1..]|
          ensures ds[1..][a].messageId != ds[1..][b].messageId
        {
          assert ds[1..][a] == ds[a + 1] && ds[1..][b] == ds[b + 1];
        }
      }
      DispatchedKeepsFinal(next, ds[1..], ttl, i - 1);
    }
  }
}
