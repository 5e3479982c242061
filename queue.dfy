/**
 Namespaced FIFO job queues: `enqueue` and `dequeue` of common.py.

 The backing store (Redis) is a `Server` object whose state is a map from key to
 list of encoded payloads. `enqueue` encodes a payload and RPUSHes it to the tail
 of the list at `namespace + queueName`; `dequeue` BLPOPs the head of that list and
 decodes it. Redis never keeps an empty list: popping the last element deletes the
 key. The JSON codec is a pair of functions supplied by the caller, and the
 blocking of BLPOP is the precondition that the list is not empty.
 */
module Queue {

  datatype Option<T> = None | Some(value: T)

  /** A job payload: JSON values plus two of the extended types of bson's `json_util`. */
  datatype Json =
    | Null
    | Bool(b: bool)
    | Number(n: int)
    | Str(s: string)
    | Array(items: seq<Json>)
    | Object(fields: seq<(string, Json)>)
    | Date(millis: int)
    | ObjectId(id: string)

  /** The outcome of decoding a dequeued item. */
  datatype Decoded = Ok(payload: Json) | MalformedPayload

  /** `dumps(..., default=json_util.default)` and `loads(..., object_hook=json_util.object_hook)`;
      `decode` gives `None` on text it cannot parse. */
  datatype Codec = Codec(encode: Json -> string, decode: string -> Option<Json>)

  /** The codec restores each of the payloads `ps` from its encoding. The real codec does
      so only for payloads free of duplicate object keys and of objects shaped like
      extended types, so the hypothesis is stated per payload, not for every `Json`. */
  ghost predicate LosslessOn(c: Codec, ps: seq<Json>) {
    forall i :: 0 <= i < |ps| ==> c.decode(c.encode(ps[i])) == Some(ps[i])
  }

  /** Decoding one dequeued item; a failure is reported, the item is gone either way. */
  function DecodeItem(c: Codec, raw: string): (r: Decoded)
    ensures r.Ok? <==> c.decode(raw).Some?
    ensures r.Ok? ==> c.decode(raw) == Some(r.payload)
  {
    match c.decode(raw)
    case Some(p) => Ok(p)
    case None => MalformedPayload
  }

  lemma DecodeEncoded(c: Codec, p: Json)
    requires LosslessOn(c, [p])
    ensures DecodeItem(c, c.encode(p)) == Ok(p)
  {
    assert [p][0] == p;
  }

  /** The store's lists, by key. */
  type Lists = map<string, seq<string>>

  /** The list at `key`; a missing key reads as the empty list, as in Redis. */
  function ListAt(m: Lists, key: string): seq<string> {
    if key in m then m[key] else []
  }

  /** Redis keeps no empty list. */
  ghost predicate NoEmptyLists(m: Lists) {
    forall k :: k in m ==> m[k] != []
  }

  /** `REDIS_NAMESPACE + queue_name`. */
  function QueueKey(namespace: string, queueName: string): (key: string)
    ensures |key| == |namespace| + |queueName|
    ensures key[..|namespace|] == namespace && key[|namespace|..] == queueName
  {
    namespace + queueName
  }

  /** Within one namespace, distinct queue names never share a key. */
  lemma QueueKeyInjective(namespace: string, q1: string, q2: string)
    ensures QueueKey(namespace, q1) == QueueKey(namespace, q2) <==> q1 == q2
  {
  }

  /** Across namespaces the prefix alone does not isolate: two deployments can share a key. */
  lemma NamespacesCanCollide()
    ensures QueueKey("feeds", ":jobs") == QueueKey("feeds:", "jobs")
  {
  }

  /** RPUSH: the list at `key` gains `v` at its tail (a missing key starts empty);
      every other key keeps its list. */
  function Pushed(m: Lists, key: string, v: string): (r: Lists)
    ensures key in r && ListAt(r, key) == ListAt(m, key) + [v]
    ensures forall k :: k != key ==> (k in r <==> k in m) && ListAt(r, k) == ListAt(m, k)
    ensures NoEmptyLists(m) ==> NoEmptyLists(r)
  {
    m[key := ListAt(m, key) + [v]]
  }

  /** The removal half of BLPOP: the list at `key` loses its head, and the key is
      deleted once its list is empty; every other key keeps its list. */
  function Popped(m: Lists, key: string): (r: Lists)
    requires ListAt(m, key) != []
    ensures ListAt(r, key) == ListAt(m, key)[1..]
    ensures key in r <==> |ListAt(m, key)| > 1
    ensures forall k :: k != key ==> (k in r <==> k in m) && ListAt(r, k) == ListAt(m, k)
    ensures NoEmptyLists(m) ==> NoEmptyLists(r)
  {
    if |m[key]| == 1 then m - {key} else m[key := m[key][1..]]
  }

  /** A push onto a missing key followed by a pop of that key restores the store exactly. */
  lemma PushThenPopRestores(m: Lists, key: string, v: string)
    requires key !in m
    ensures ListAt(Pushed(m, key, v), key) == [v]
    ensures Popped(Pushed(m, key, v), key) == m
  {
    var r := Popped(Pushed(m, key, v), key);
    assert r.Keys == m.Keys;
  }

  /** Two pushes onto a missing key followed by two pops of that key restore the store exactly. */
  lemma PushTwicePopTwiceRestores(m: Lists, key: string, v1: string, v2: string)
    requires key !in m
    ensures ListAt(Pushed(Pushed(m, key, v1), key, v2), key) == [v1, v2]
    ensures Popped(Popped(Pushed(Pushed(m, key, v1), key, v2), key), key) == m
  {
    var m2 := Pushed(Pushed(m, key, v1), key, v2);
    assert ListAt(m2, key) == [v1, v2];
    var m3 := Popped(m2, key);
    assert ListAt(m3, key) == [v2];
    var r := Popped(m3, key);
    assert r.Keys == m.Keys;
  }

  /** The position in `keys` of the first key whose list is not empty, or `|keys|` when
      all are empty: the key a BLPOP over `keys` serves. */
  function FirstNonEmpty(m: Lists, keys: seq<string>): (i: nat)
    ensures i <= |keys|
    ensures forall j :: 0 <= j < i ==> ListAt(m, keys[j]) == []
    ensures i < |keys| ==> ListAt(m, keys[i]) != []
    decreases |keys|
  {
    if keys == [] || ListAt(m, keys[0]) != [] then 0 else 1 + FirstNonEmpty(m, keys[1..])
  }

  /** The Redis server: one map from key to list that every client call updates. */
  class Server {
    var lists: Lists

    ghost predicate Valid()
      reads this
    {
      NoEmptyLists(lists)
    }

    constructor ()
      ensures Valid() && lists == map[]
    {
      lists := map[];
    }

    /** RPUSH key value; answers the length of the list afterwards. */
    method RPush(key: string, value: string) returns (length: nat)
      requires Valid()
      modifies this
      ensures Valid()
      ensures lists == Pushed(old(lists), key, value)
      ensures length == |old(ListAt(lists, key))| + 1
    {
      lists := Pushed(lists, key, value);
      length := |ListAt(lists, key)|;
    }

    /** BLPOP key [key ...] 0, once one of the lists has an element: the first key in
        order whose list is not empty is served; answers that key and its popped head. */
    method BLPop(keys: seq<string>) returns (k: string, value: string)
      requires Valid()
      requires FirstNonEmpty(lists, keys) < |keys|
      modifies this
      ensures Valid()
      ensures k == keys[FirstNonEmpty(old(lists), keys)]
      ensures value == old(ListAt(lists, k))[0]
      ensures lists == Popped(old(lists), k)
    {
      k := keys[FirstNonEmpty(lists, keys)];
      value := lists[k][0];
      lists := Popped(lists, k);
    }
  }

  /** `enqueue(server, queue_name, data)`: the encoded payload goes to the tail of the
      namespaced list, nothing else changes, and the new length is answered. */
  method Enqueue(server: Server, namespace: string, queueName: string, codec: Codec, data: Json)
    returns (length: nat)
    requires server.Valid()
    modifies server
    ensures server.Valid()
    ensures server.lists == Pushed(old(server.lists), QueueKey(namespace, queueName), codec.encode(data))
    ensures ListAt(server.lists, QueueKey(namespace, queueName))
            == old(ListAt(server.lists, QueueKey(namespace, queueName))) + [codec.encode(data)]
    ensures length == |ListAt(server.lists, QueueKey(namespace, queueName))|
  {
    length := server.RPush(QueueKey(namespace, queueName), codec.encode(data));
  }

  /** The second key `dequeue` watches: aioredis reads `blpop(key, 0)` as
      `blpop(key, *keys, timeout=0)`, so the `0` is a key, not the timeout. */
  const FallbackKey: string := "0"

  /** `dequeue(server, queue_name)`: BLPOP over the namespaced key and then the key `0`.
      When the namespaced list has an element, its head is removed and decoded;
      otherwise the head of the list at `0` is. A payload that does not decode is
      still consumed. */
  method Dequeue(server: Server, namespace: string, queueName: string, codec: Codec)
    returns (r: Decoded)
    requires server.Valid()
    requires ListAt(server.lists, QueueKey(namespace, queueName)) != [] || ListAt(server.lists, FallbackKey) != []
    modifies server
    ensures server.Valid()
    ensures old(ListAt(server.lists, QueueKey(namespace, queueName))) != [] ==>
              server.lists == Popped(old(server.lists), QueueKey(namespace, queueName))
              && ListAt(server.lists, QueueKey(namespace, queueName))
                 == old(ListAt(server.lists, QueueKey(namespace, queueName)))[1..]
              && r == DecodeItem(codec, old(ListAt(server.lists, QueueKey(namespace, queueName)))[0])
    ensures old(ListAt(server.lists, QueueKey(namespace, queueName))) == [] ==>
              server.lists == Popped(old(server.lists), FallbackKey)
              && r == DecodeItem(codec, old(ListAt(server.lists, FallbackKey))[0])
  {
    var keys := [QueueKey(namespace, queueName), FallbackKey];
    assert keys[0] == QueueKey(namespace, queueName) && keys[1] == FallbackKey;
    var _, data := server.BLPop(keys);
    r := DecodeItem(codec, data);
  }

  /** A payload enqueued on an empty queue is the one the next dequeue returns, and
      the store is left as it was. */
  method EnqueueThenDequeue(server: Server, namespace: string, queueName: string, codec: Codec, data: Json)
    returns (r: Decoded)
    requires server.Valid() && LosslessOn(codec, [data])
    requires ListAt(server.lists, QueueKey(namespace, queueName)) == []
    modifies server
    ensures server.Valid()
    ensures r == Ok(data)
    ensures server.lists == old(server.lists)
  {
    ghost var before := server.lists;
    var _ := Enqueue(server, namespace, queueName, codec, data);
    r := Dequeue(server, namespace, queueName, codec);
    DecodeEncoded(codec, data);
    PushThenPopRestores(before, QueueKey(namespace, queueName), codec.encode(data));
  }

  /** Two payloads enqueued on an empty queue come back in the order they went in. */
  method EnqueueTwiceDequeueTwice(server: Server, namespace: string, queueName: string, codec: Codec,
                                  p1: Json, p2: Json)
    returns (r1: Decoded, r2: Decoded)
    requires server.Valid() && LosslessOn(codec, [p1, p2])
    requires ListAt(server.lists, QueueKey(namespace, queueName)) == []
    modifies server
    ensures server.Valid()
    ensures r1 == Ok(p1) && r2 == Ok(p2)
    ensures ListAt(server.lists, QueueKey(namespace, queueName)) == []
    ensures server.lists == old(server.lists)
  {
    ghost var before := server.lists;
    assert [p1, p2][0] == p1 && [p1, p2][1] == p2;
    var len1 := Enqueue(server, namespace, queueName, codec, p1);
    var len2 := Enqueue(server, namespace, queueName, codec, p2);
    r1 := Dequeue(server, namespace, queueName, codec);
    r2 := Dequeue(server, namespace, queueName, codec);
    PushTwicePopTwiceRestores(before, QueueKey(namespace, queueName), codec.encode(p1), codec.encode(p2));
  }

  // A sequential trace of queue calls, for ordering properties over many calls.

  datatype Op = EnqueueOp(queueName: string, data: Json) | DequeueOp(queueName: string)

  /** The store after running `ops` one after the other, with the result of every
      dequeue paired with its queue name; `None` when some dequeue finds its own list
      empty, where `Dequeue` would block or fall back to the list at `FallbackKey`.
      Each step is what `Enqueue` and `Dequeue` do to the store. */
  function Run(m: Lists, namespace: string, codec: Codec, ops: seq<Op>): (r: Option<(Lists, seq<(string, Decoded)>)>)
    ensures r.Some? ==> |r.value.1| == Dequeues(ops)
    decreases |ops|
  {
    if ops == [] then Some((m, []))
    else match ops[0]
      case EnqueueOp(q, p) =>
        Run(Pushed(m, QueueKey(namespace, q), codec.encode(p)), namespace, codec, ops[1..])
      case DequeueOp(q) =>
        var key := QueueKey(namespace, q);
        if ListAt(m, key) == [] then None
        else match Run(Popped(m, key), namespace, codec, ops[1..])
          case None => None
          case Some((m', outs)) => Some((m', [(q, DecodeItem(codec, ListAt(m, key)[0]))] + outs))
  }

  /** How many dequeues there are in `ops`, on any queue. */
  function Dequeues(ops: seq<Op>): nat
    decreases |ops|
  {
    if ops == [] then 0 else (if ops[0].DequeueOp? then 1 else 0) + Dequeues(ops[1..])
  }

  /** The payloads enqueued on queue `q` in `ops`, in order. */
  function Enqueued(ops: seq<Op>, q: string): seq<Json>
    decreases |ops|
  {
    if ops == [] then []
    else (if ops[0].EnqueueOp? && ops[0].queueName == q then [ops[0].data] else []) + Enqueued(ops[1..], q)
  }

  /** How many dequeues on queue `q` there are in `ops`. */
  function DequeueCount(ops: seq<Op>, q: string): nat
    decreases |ops|
  {
    if ops == [] then 0
    else (if ops[0].DequeueOp? && ops[0].queueName == q then 1 else 0) + DequeueCount(ops[1..], q)
  }

  /** The dequeue results of queue `q`, in order. */
  function ResultsFor(outs: seq<(string, Decoded)>, q: string): seq<Decoded>
    decreases |outs|
  {
    if outs == [] then []
    else (if outs[0].0 == q then [outs[0].1] else []) + ResultsFor(outs[1..], q)
  }

  /** Every payload of `ps`, as a successful dequeue result. */
  function AllOk(ps: seq<Json>): (r: seq<Decoded>)
    ensures |r| == |ps|
    decreases |ps|
  {
    if ps == [] then [] else [Ok(ps[0])] + AllOk(ps[1..])
  }

  /** What dequeuing each payload of `ps` gives once it has been encoded, in order. */
  function DecodeAll(c: Codec, ps: seq<Json>): (r: seq<Decoded>)
    ensures |r| == |ps|
    decreases |ps|
  {
    if ps == [] then [] else [DecodeItem(c, c.encode(ps[0]))] + DecodeAll(c, ps[1..])
  }

  /** When the codec restores each payload of `ps`, every one decodes back to itself. */
  lemma {:induction false} DecodeAllLossless(c: Codec, ps: seq<Json>)
    requires LosslessOn(c, ps)
    ensures DecodeAll(c, ps) == AllOk(ps)
    decreases |ps|
  {
    if ps != [] {
      assert c.decode(c.encode(ps[0])) == Some(ps[0]);
      assert forall i :: 0 <= i < |ps| - 1 ==> ps[1..][i] == ps[i + 1];
      DecodeAllLossless(c, ps[1..]);
    }
  }

  /** The encodings of `ps`, in order. */
  function EncodeAll(c: Codec, ps: seq<Json>): (r: seq<string>)
    ensures |r| == |ps|
    decreases |ps|
  {
    if ps == [] then [] else [c.encode(ps[0])] + EncodeAll(c, ps[1..])
  }

  lemma {:induction false} EncodeAllAppend(c: Codec, ps: seq<Json>, p: Json)
    ensures EncodeAll(c, ps + [p]) == EncodeAll(c, ps) + [c.encode(p)]
    decreases |ps|
  {
    if ps == [] {
      assert [] + [p] == [p];
    } else {
      assert (ps + [p])[1..] == ps[1..] + [p];
      EncodeAllAppend(c, ps[1..], p);
    }
  }

  lemma AppendAssoc(a: seq<Json>, b: seq<Json>, c: seq<Json>)
    ensures (a + b) + c == a + (b + c)
  {
  }

  lemma HeadAndTailOfAppend(a: seq<Json>, b: seq<Json>, all: seq<Json>)
    requires a != [] && all == a + b
    ensures all != [] && all[0] == a[0] && all[1..] == a[1..] + b
  {
  }

  lemma AppendEmpty(a: seq<Json>)
    ensures a + [] == a && a[..0] == [] && a[0..] == a
  {
  }

  lemma ResultsForCons(q': string, d: Decoded, outs: seq<(string, Decoded)>, q: string)
    ensures q' == q ==> ResultsFor([(q', d)] + outs, q) == [d] + ResultsFor(outs, q)
    ensures q' != q ==> ResultsFor([(q', d)] + outs, q) == ResultsFor(outs, q)
  {
    assert ([(q', d)] + outs)[1..] == outs;
    if q' != q {
      assert ResultsFor([(q', d)] + outs, q) == [] + ResultsFor(outs, q);
    }
  }

  /** The sequence bookkeeping of a dequeue step on `q`. */
  lemma DequeueStepSplit(c: Codec, all: seq<Json>, n1: nat)
    requires n1 + 1 <= |all|
    ensures [DecodeItem(c, c.encode(all[0]))] + DecodeAll(c, all[1..][..n1]) == DecodeAll(c, all[..n1 + 1])
    ensures all[1..][n1..] == all[n1 + 1..]
  {
    assert all[..n1 + 1][0] == all[0];
    assert all[..n1 + 1][1..] == all[1..][..n1];
  }

  /** FIFO for queue `q` of a run that does not block, against the payloads `all` the
      list of `q` holds or is given over the run: there are at most `|all|` dequeues of
      `q`, the N-th returns the decoding of the encoding of `all[N]`, and the encodings
      of the rest of `all` stay in the list. */
  ghost predicate FifoHolds(m: Lists, namespace: string, codec: Codec, ops: seq<Op>, q: string, all: seq<Json>)
    requires Run(m, namespace, codec, ops).Some?
  {
    var r := Run(m, namespace, codec, ops).value;
    DequeueCount(ops, q) <= |all|
    && ResultsFor(r.1, q) == DecodeAll(codec, all[..DequeueCount(ops, q)])
    && ListAt(r.0, QueueKey(namespace, q)) == EncodeAll(codec, all[DequeueCount(ops, q)..])
  }

  /** FIFO, generalised and for any codec: if the list of `q` holds the encodings of
      `pending`, and `all` is `pending` followed by what the run enqueues on `q`, a run
      that does not block makes the N-th dequeue of `q` return the decoding of the
      encoding of `all[N]`, and leaves the encodings of the rest of `all` in the list. */
  lemma {:induction false} RunIsFifo(m: Lists, namespace: string, codec: Codec, ops: seq<Op>,
                                     q: string, pending: seq<Json>, all: seq<Json>)
    requires ListAt(m, QueueKey(namespace, q)) == EncodeAll(codec, pending)
    requires Run(m, namespace, codec, ops).Some?
    requires all == pending + Enqueued(ops, q)
    ensures FifoHolds(m, namespace, codec, ops, q, all)
    decreases |ops|, 2
  {
    if ops == [] {
      AppendEmpty(pending);
    } else if ops[0].EnqueueOp? && ops[0].queueName == q {
      RunEnqueueSameQueue(m, namespace, codec, ops, q, pending, all);
    } else if ops[0].EnqueueOp? {
      RunEnqueueOtherQueue(m, namespace, codec, ops, q, pending, all);
    } else if ops[0].queueName == q {
      RunDequeueSameQueue(m, namespace, codec, ops, q, pending, all);
    } else {
      RunDequeueOtherQueue(m, namespace, codec, ops, q, pending, all);
    }
  }

  /** `RunIsFifo` when the run starts with an enqueue on `q`. */
  lemma {:induction false} RunEnqueueSameQueue(m: Lists, namespace: string, codec: Codec, ops: seq<Op>,
                                               q: string, pending: seq<Json>, all: seq<Json>)
    requires ListAt(m, QueueKey(namespace, q)) == EncodeAll(codec, pending)
    requires Run(m, namespace, codec, ops).Some?
    requires all == pending + Enqueued(ops, q)
    requires ops != [] && ops[0].EnqueueOp? && ops[0].queueName == q
    ensures FifoHolds(m, namespace, codec, ops, q, all)
    decreases |ops|, 1
  {
    var p, rest := ops[0].data, ops[1..];
    RunEnqueueUnfold(m, namespace, codec, ops, q);
    EnqueueSameOrOther(m, namespace, codec, q, p, q, pending);
    AppendAssoc(pending, [p], Enqueued(rest, q));
    RunIsFifo(Pushed(m, QueueKey(namespace, q), codec.encode(p)), namespace, codec, rest, q, pending + [p], all);
  }

  /** `RunIsFifo` when the run starts with an enqueue on another queue. */
  lemma {:induction false} RunEnqueueOtherQueue(m: Lists, namespace: string, codec: Codec, ops: seq<Op>,
                                                q: string, pending: seq<Json>, all: seq<Json>)
    requires ListAt(m, QueueKey(namespace, q)) == EncodeAll(codec, pending)
    requires Run(m, namespace, codec, ops).Some?
    requires all == pending + Enqueued(ops, q)
    requires ops != [] && ops[0].EnqueueOp? && ops[0].queueName != q
    ensures FifoHolds(m, namespace, codec, ops, q, all)
    decreases |ops|, 1
  {
    var q', p := ops[0].queueName, ops[0].data;
    RunEnqueueUnfold(m, namespace, codec, ops, q);
    EnqueueSameOrOther(m, namespace, codec, q', p, q, pending);
    RunIsFifo(Pushed(m, QueueKey(namespace, q'), codec.encode(p)), namespace, codec, ops[1..], q, pending, all);
  }

  /** One enqueue step of a run, seen from queue `q`. */
  lemma RunEnqueueUnfold(m: Lists, namespace: string, codec: Codec, ops: seq<Op>, q: string)
    requires ops != [] && ops[0].EnqueueOp?
    ensures Run(m, namespace, codec, ops)
            == Run(Pushed(m, QueueKey(namespace, ops[0].queueName), codec.encode(ops[0].data)),
                   namespace, codec, ops[1..])
    ensures ops[0].queueName == q ==> Enqueued(ops, q) == [ops[0].data] + Enqueued(ops[1..], q)
    ensures ops[0].queueName != q ==> Enqueued(ops, q) == Enqueued(ops[1..], q)
    ensures DequeueCount(ops, q) == DequeueCount(ops[1..], q)
  {
    if ops[0].queueName != q {
      assert Enqueued(ops, q) == [] + Enqueued(ops[1..], q);
    }
  }

  /** After a push for queue `q'`, the list of `q` holds the encodings of `pending`,
      extended by the pushed payload exactly when `q'` is `q`. */
  lemma EnqueueSameOrOther(m: Lists, namespace: string, codec: Codec, q': string, p: Json,
                           q: string, pending: seq<Json>)
    requires ListAt(m, QueueKey(namespace, q)) == EncodeAll(codec, pending)
    ensures q' == q ==> ListAt(Pushed(m, QueueKey(namespace, q'), codec.encode(p)), QueueKey(namespace, q))
                        == EncodeAll(codec, pending + [p])
    ensures q' != q ==> ListAt(Pushed(m, QueueKey(namespace, q'), codec.encode(p)), QueueKey(namespace, q))
                        == EncodeAll(codec, pending)
  {
    QueueKeyInjective(namespace, q, q');
    if q' == q {
      EncodeAllAppend(codec, pending, p);
    }
  }

  /** One dequeue step of a run that does not block. */
  lemma RunDequeueUnfold(m: Lists, namespace: string, codec: Codec, ops: seq<Op>)
    requires Run(m, namespace, codec, ops).Some?
    requires ops != [] && ops[0].DequeueOp?
    ensures ListAt(m, QueueKey(namespace, ops[0].queueName)) != []
    ensures Run(Popped(m, QueueKey(namespace, ops[0].queueName)), namespace, codec, ops[1..]).Some?
    ensures var key' := QueueKey(namespace, ops[0].queueName);
      Run(m, namespace, codec, ops).value.0 == Run(Popped(m, key'), namespace, codec, ops[1..]).value.0
    ensures var key' := QueueKey(namespace, ops[0].queueName);
      Run(m, namespace, codec, ops).value.1
        == [(ops[0].queueName, DecodeItem(codec, ListAt(m, key')[0]))]
           + Run(Popped(m, key'), namespace, codec, ops[1..]).value.1
  {
  }

  /** A dequeue at the front of `ops`, counted for queue `q`. */
  lemma DequeueCounts(ops: seq<Op>, q: string)
    requires ops != [] && ops[0].DequeueOp?
    ensures Enqueued(ops, q) == Enqueued(ops[1..], q)
    ensures ops[0].queueName == q ==> DequeueCount(ops, q) == 1 + DequeueCount(ops[1..], q)
    ensures ops[0].queueName != q ==> DequeueCount(ops, q) == DequeueCount(ops[1..], q)
  {
    assert Enqueued(ops, q) == [] + Enqueued(ops[1..], q);
  }

  /** `RunIsFifo` when the run starts with a dequeue of `q`. */
  lemma {:induction false} RunDequeueSameQueue(m: Lists, namespace: string, codec: Codec, ops: seq<Op>,
                                               q: string, pending: seq<Json>, all: seq<Json>)
    requires ListAt(m, QueueKey(namespace, q)) == EncodeAll(codec, pending)
    requires Run(m, namespace, codec, ops).Some?
    requires all == pending + Enqueued(ops, q)
    requires ops != [] && ops[0].DequeueOp? && ops[0].queueName == q
    ensures FifoHolds(m, namespace, codec, ops, q, all)
    decreases |ops|, 1
  {
    var rest, key := ops[1..], QueueKey(namespace, q);
    RunDequeueUnfold(m, namespace, codec, ops);
    DequeueCounts(ops, q);
    var m1 := Popped(m, key);
    var r1 := Run(m1, namespace, codec, rest).value;
    var d := DecodeItem(codec, ListAt(m, key)[0]);
    DequeueSameQueue(m, key, codec, pending);
    HeadAndTailOfAppend(pending, Enqueued(rest, q), all);
    RunIsFifo(m1, namespace, codec, rest, q, pending[1..], all[1..]);
    DequeueSameTransfer(codec, q, key, d, Run(m, namespace, codec, ops).value, r1, all,
                        DequeueCount(rest, q), DequeueCount(ops, q));
  }

  /** The conclusion of `RunIsFifo` for a run that starts with a dequeue of `q`, from
      its conclusion for the rest of the run. */
  lemma DequeueSameTransfer(c: Codec, q: string, key: string, d: Decoded,
                            out: (Lists, seq<(string, Decoded)>), r1: (Lists, seq<(string, Decoded)>),
                            all: seq<Json>, n: nat, count: nat)
    requires n + 1 <= |all| && count == n + 1
    requires d == DecodeItem(c, c.encode(all[0]))
    requires out.0 == r1.0 && out.1 == [(q, d)] + r1.1
    requires ResultsFor(r1.1, q) == DecodeAll(c, all[1..][..n])
    requires ListAt(r1.0, key) == EncodeAll(c, all[1..][n..])
    ensures count <= |all|
    ensures ResultsFor(out.1, q) == DecodeAll(c, all[..count])
    ensures ListAt(out.0, key) == EncodeAll(c, all[count..])
  {
    ResultsForCons(q, d, r1.1, q);
    DequeueStepSplit(c, all, n);
  }

  /** `RunIsFifo` when the run starts with a dequeue of another queue. */
  lemma {:induction false} RunDequeueOtherQueue(m: Lists, namespace: string, codec: Codec, ops: seq<Op>,
                                                q: string, pending: seq<Json>, all: seq<Json>)
    requires ListAt(m, QueueKey(namespace, q)) == EncodeAll(codec, pending)
    requires Run(m, namespace, codec, ops).Some?
    requires all == pending + Enqueued(ops, q)
    requires ops != [] && ops[0].DequeueOp? && ops[0].queueName != q
    ensures FifoHolds(m, namespace, codec, ops, q, all)
    decreases |ops|, 1
  {
    var q' := ops[0].queueName;
    RunDequeueOtherUnfold(m, namespace, codec, ops, q);
    DequeueCounts(ops, q);
    RunIsFifo(Popped(m, QueueKey(namespace, q')), namespace, codec, ops[1..], q, pending, all);
  }

  /** A run that starts with a dequeue of another queue, seen from queue `q`: the list
      of `q` and the results for `q` are those of the rest of the run. */
  lemma RunDequeueOtherUnfold(m: Lists, namespace: string, codec: Codec, ops: seq<Op>, q: string)
    requires Run(m, namespace, codec, ops).Some?
    requires ops != [] && ops[0].DequeueOp? && ops[0].queueName != q
    ensures ListAt(m, QueueKey(namespace, ops[0].queueName)) != []
    ensures ListAt(Popped(m, QueueKey(namespace, ops[0].queueName)), QueueKey(namespace, q))
            == ListAt(m, QueueKey(namespace, q))
    ensures Run(Popped(m, QueueKey(namespace, ops[0].queueName)), namespace, codec, ops[1..]).Some?
    ensures var r1 := Run(Popped(m, QueueKey(namespace, ops[0].queueName)), namespace, codec, ops[1..]).value;
      ResultsFor(Run(m, namespace, codec, ops).value.1, q) == ResultsFor(r1.1, q)
      && ListAt(Run(m, namespace, codec, ops).value.0, QueueKey(namespace, q)) == ListAt(r1.0, QueueKey(namespace, q))
  {
    var q' := ops[0].queueName;
    var key' := QueueKey(namespace, q');
    RunDequeueUnfold(m, namespace, codec, ops);
    var r1 := Run(Popped(m, key'), namespace, codec, ops[1..]).value;
    ResultsForCons(q', DecodeItem(codec, ListAt(m, key')[0]), r1.1, q);
    PopOtherKeepsList(m, namespace, q', q);
  }

  /** A pop for queue `q'` leaves the list of every other queue `q` of the namespace alone. */
  lemma PopOtherKeepsList(m: Lists, namespace: string, q': string, q: string)
    requires ListAt(m, QueueKey(namespace, q')) != [] && q' != q
    ensures ListAt(Popped(m, QueueKey(namespace, q')), QueueKey(namespace, q)) == ListAt(m, QueueKey(namespace, q))
  {
    QueueKeyInjective(namespace, q, q');
  }

  /** Popping a list of encodings yields what the first payload decodes to and leaves
      the encodings of the rest. */
  lemma DequeueSameQueue(m: Lists, key: string, codec: Codec, pending: seq<Json>)
    requires ListAt(m, key) == EncodeAll(codec, pending) != []
    ensures pending != []
    ensures DecodeItem(codec, ListAt(m, key)[0]) == DecodeItem(codec, codec.encode(pending[0]))
    ensures ListAt(Popped(m, key), key) == EncodeAll(codec, pending[1..])
  {
    assert EncodeAll(codec, pending)[1..] == EncodeAll(codec, pending[1..]);
  }

  /** FIFO from an empty queue: the N-th dequeue of `q` returns what the N-th payload
      enqueued on `q` decodes to, and under a lossless codec that payload itself. */
  lemma RunFromEmptyIsFifo(m: Lists, namespace: string, codec: Codec, ops: seq<Op>, q: string)
    requires ListAt(m, QueueKey(namespace, q)) == []
    requires Run(m, namespace, codec, ops).Some?
    ensures DequeueCount(ops, q) <= |Enqueued(ops, q)|
    ensures ResultsFor(Run(m, namespace, codec, ops).value.1, q)
            == DecodeAll(codec, Enqueued(ops, q)[..DequeueCount(ops, q)])
    ensures LosslessOn(codec, Enqueued(ops, q)) ==>
              ResultsFor(Run(m, namespace, codec, ops).value.1, q)
              == AllOk(Enqueued(ops, q)[..DequeueCount(ops, q)])
  {
    RunIsFifo(m, namespace, codec, ops, q, [], Enqueued(ops, q));
    if LosslessOn(codec, Enqueued(ops, q)) {
      var e, n := Enqueued(ops, q), DequeueCount(ops, q);
      assert forall i :: 0 <= i < n ==> e[..n][i] == e[i];
      DecodeAllLossless(codec, e[..n]);
    }
  }

  /** A run keeps the store free of empty lists. */
  lemma {:induction false} RunKeepsNoEmptyLists(m: Lists, namespace: string, codec: Codec, ops: seq<Op>)
    requires NoEmptyLists(m)
    requires Run(m, namespace, codec, ops).Some?
    ensures NoEmptyLists(Run(m, namespace, codec, ops).value.0)
    decreases |ops|
  {
    if ops != [] {
      match ops[0]
      case EnqueueOp(q, p) =>
        RunKeepsNoEmptyLists(Pushed(m, QueueKey(namespace, q), codec.encode(p)), namespace, codec, ops[1..]);
      case DequeueOp(q) =>
        RunKeepsNoEmptyLists(Popped(m, QueueKey(namespace, q)), namespace, codec, ops[1..]);
    }
  }

  /** A run that starts with an enqueue continues from the pushed store. */
  lemma RunEnqueueFirst(m: Lists, namespace: string, codec: Codec, q: string, p: Json, rest: seq<Op>)
    ensures Run(m, namespace, codec, [EnqueueOp(q, p)] + rest)
            == Run(Pushed(m, QueueKey(namespace, q), codec.encode(p)), namespace, codec, rest)
  {
    assert ([EnqueueOp(q, p)] + rest)[1..] == rest;
  }

  /** A run that starts with a dequeue of a non-empty list reports the decoded head first. */
  lemma RunDequeueFirst(m: Lists, namespace: string, codec: Codec, q: string, rest: seq<Op>)
    requires ListAt(m, QueueKey(namespace, q)) != []
    requires Run(Popped(m, QueueKey(namespace, q)), namespace, codec, rest).Some?
    ensures var key := QueueKey(namespace, q);
      var r1 := Run(Popped(m, key), namespace, codec, rest).value;
      Run(m, namespace, codec, [DequeueOp(q)] + rest)
        == Some((r1.0, [(q, DecodeItem(codec, ListAt(m, key)[0]))] + r1.1))
  {
    assert ([DequeueOp(q)] + rest)[1..] == rest;
  }

  /** Round trip: enqueue then dequeue on an empty queue returns the payload and leaves the store as it was. */
  lemma RoundTrip(m: Lists, namespace: string, codec: Codec, q: string, p: Json)
    requires LosslessOn(codec, [p]) && NoEmptyLists(m)
    requires ListAt(m, QueueKey(namespace, q)) == []
    ensures Run(m, namespace, codec, [EnqueueOp(q, p), DequeueOp(q)]) == Some((m, [(q, Ok(p))]))
  {
    var key := QueueKey(namespace, q);
    PushThenPopRestores(m, key, codec.encode(p));
    DecodeEncoded(codec, p);
    var m1 := Pushed(m, key, codec.encode(p));
    assert Popped(m1, key) == m && ListAt(m1, key)[0] == codec.encode(p);
    RunDequeueFirst(m1, namespace, codec, q, []);
    assert [DequeueOp(q)] + [] == [DequeueOp(q)];
    assert [(q, Ok(p))] + [] == [(q, Ok(p))];
    assert Run(m1, namespace, codec, [DequeueOp(q)]) == Some((m, [(q, Ok(p))]));
    RunEnqueueFirst(m, namespace, codec, q, p, [DequeueOp(q)]);
    assert [EnqueueOp(q, p)] + [DequeueOp(q)] == [EnqueueOp(q, p), DequeueOp(q)];
  }

  /** FIFO of two: enqueue p1, enqueue p2, dequeue, dequeue on an empty queue returns p1
      then p2 and empties the queue again. */
  lemma FifoOfTwo(m: Lists, namespace: string, codec: Codec, q: string, p1: Json, p2: Json)
    requires LosslessOn(codec, [p1, p2])
    requires ListAt(m, QueueKey(namespace, q)) == []
    ensures var r := Run(m, namespace, codec, [EnqueueOp(q, p1), EnqueueOp(q, p2), DequeueOp(q), DequeueOp(q)]);
      r.Some? && r.value.1 == [(q, Ok(p1)), (q, Ok(p2))] && ListAt(r.value.0, QueueKey(namespace, q)) == []
  {
    var key := QueueKey(namespace, q);
    var m1 := Pushed(m, key, codec.encode(p1));
    var m2 := Pushed(m1, key, codec.encode(p2));
    assert ListAt(m2, key) == [codec.encode(p1), codec.encode(p2)];
    DequeueTwice(m2, namespace, codec, q, p1, p2);
    RunEnqueueFirst(m1, namespace, codec, q, p2, [DequeueOp(q), DequeueOp(q)]);
    assert [EnqueueOp(q, p2)] + [DequeueOp(q), DequeueOp(q)] == [EnqueueOp(q, p2), DequeueOp(q), DequeueOp(q)];
    RunEnqueueFirst(m, namespace, codec, q, p1, [EnqueueOp(q, p2), DequeueOp(q), DequeueOp(q)]);
    assert [EnqueueOp(q, p1)] + [EnqueueOp(q, p2), DequeueOp(q), DequeueOp(q)]
           == [EnqueueOp(q, p1), EnqueueOp(q, p2), DequeueOp(q), DequeueOp(q)];
  }

  /** Two dequeues of a list holding the encodings of p1 and p2 return p1 then p2 and empty it. */
  lemma DequeueTwice(m: Lists, namespace: string, codec: Codec, q: string, p1: Json, p2: Json)
    requires LosslessOn(codec, [p1, p2])
    requires ListAt(m, QueueKey(namespace, q)) == [codec.encode(p1), codec.encode(p2)]
    ensures var r := Run(m, namespace, codec, [DequeueOp(q), DequeueOp(q)]);
      r.Some? && r.value.1 == [(q, Ok(p1)), (q, Ok(p2))] && ListAt(r.value.0, QueueKey(namespace, q)) == []
  {
    var key := QueueKey(namespace, q);
    assert [p1, p2][0] == p1 && [p1, p2][1] == p2;
    var m1 := Popped(m, key);
    assert ListAt(m1, key) == [codec.encode(p2)];
    RunDequeueFirst(m1, namespace, codec, q, []);
    assert [DequeueOp(q)] + [] == [DequeueOp(q)];
    RunDequeueFirst(m, namespace, codec, q, [DequeueOp(q)]);
    assert [DequeueOp(q)] + [DequeueOp(q)] == [DequeueOp(q), DequeueOp(q)];
  }
}
