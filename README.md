# Job coordination core of a feed fetcher, in Dafny

This project models the coordination layer of a newsfeed fetcher (`common.py`). It has two parts.

- **Feed identifiers** (module `SafeId`, `safe_id.dfy`). `safe_id` turns a feed URL into a storage-safe ID. It takes the network location and the path, turns every `/` in the path into `_` and every `+` into `-`, and strips trailing `_` and `-`. When the URL has parameters or a query, it first appends one hex character: the seventh character of the URL's SHA-1 hex digest. The URL arrives already split into its `urlparse` fragments (`UrlParts`). The digest arrives as a parameter that must be 40 lower-case hex characters.
- **Job queues** (module `Queue`, `queue.dfy`). `enqueue` RPUSHes an encoded payload onto the Redis list at `namespace + queue_name`. `dequeue` calls `blpop(namespace + queue_name, 0)` and decodes what comes back. aioredis reads that call as `blpop(key, *keys, timeout=0)`, so the `0` is a second key to watch, `FallbackKey`, not the timeout: BLPOP serves the namespaced list when it has an element, and otherwise the list at key `0`. The Redis server is a `Server` object whose field `lists` maps keys to lists of encoded payloads. Like Redis, it keeps no empty list (`Valid()`): popping the last element deletes the key. The pure functions `Pushed` and `Popped` state what one RPUSH or one BLPOP does to the store. The methods are proved against them. `Run` applies a sequence of enqueue/dequeue calls to the store. It returns `None` when a dequeue finds its own list empty: from there the call would either block forever or serve the list at key `0`, and `Run` does not follow either. The FIFO and round-trip properties are proved about `Run`, and also about client methods that call `Enqueue` and `Dequeue` directly.

Inputs the code takes from outside:
- `REDIS_NAMESPACE` is imported but defined nowhere, so it is the `namespace` parameter of `Enqueue` and `Dequeue`.
- The JSON codec (`dumps`/`loads` with `bson.json_util`) is a `Codec` value: a pair of functions supplied by the caller. `decode` answers `None` on text it cannot parse. The FIFO theorem holds for any codec: the N-th dequeue gives what the N-th payload decodes to after encoding. `LosslessOn(codec, ps)` ("decode restores each payload of `ps` from its encoding") is a hypothesis, about the payloads in question only, of the lemmas that conclude the payload itself comes back.
- Payloads are a tagged `Json` datatype. Besides the JSON values, it keeps two of the extended types `json_util` handles: dates and object ids.

Where what the code does falls short of what it is meant to do, the model follows the code:
- The docstring of `safe_id` (common.py:18) promises a URL-safe ID; the path rewrite on line 20 shows this means an ID with no `/` and no `+`. The code rewrites only the path, so a `+` in the network location stays (`SafeId.NetlocPlusSurvives`). The ID is free of `/` and `+` if and only if the network location is (`SafeId.SafeIdHasNoSlashOrPlus`), and the same holds for each of the two characters alone (`SafeId.SafeIdHasCharIff`). Since `urlparse` ends the network location at the first `/`, a real URL's ID never holds a `/`; only a `+` already in the network location gets through.
- A feed ID is meant to name its feed, yet a non-empty URL can give the empty ID: `http:///` has an empty network location and a root path (`SafeId.EmptyNetlocGivesEmptyId`).
- The namespace prefix is meant to keep deployments apart. Plain concatenation lets two namespaces share a key (`Queue.NamespacesCanCollide`). Inside one namespace, distinct queue names never share a key (`Queue.QueueKeyInjective`).
- `dequeue` (common.py:36-38) is meant as a blocking dequeue of one queue. Because aioredis takes the `0` as a key, an empty queue is instead served from a non-empty list at key `0`, if one exists (`Queue.Dequeue`, its second `ensures`).
- A payload that does not decode makes `loads` raise whatever error it raises (common.py:39). The model returns `MalformedPayload`, and the item is consumed either way.

## Model

| member | source | states |
|---|---|---|
| `SafeId.Replace` | common.py:20 | `str.replace` of one character by another: same length, and each position holds the replacement exactly where the input had the replaced character |
| `SafeId.SafePath` | common.py:20 | the path rewrite: same length; `/` becomes `_`, `+` becomes `-`, all else is kept; no `/` or `+` remains |
| `SafeId.SafePathOfSimplePath` | common.py:20 | a path of one leading `/` and no other `/` or `+` becomes `_` followed by the rest |
| `SafeId.RStrip` | common.py:24 | `rstrip('_-')`: the result is a prefix of the input, does not end in `_` or `-`, and everything removed is `_` or `-` |
| `SafeId.RStripKeepsPrefix` | common.py:24 | a prefix that does not end in `_` or `-` survives the strip |
| `SafeId.SafeIdOf` | common.py:17-24 | `safe_id`, built from `Base` (netloc + safe path, line 20) and `HasQuery` (line 21): the ID never ends with `_` or `-` |
| `SafeId.SafeIdWithoutQuery` | common.py:20-24 | with no params and no query, the ID is netloc + safe path with its trailing `_`/`-` removed, and only those removed |
| `SafeId.SafeIdWithoutQueryCleanEnd` | common.py:20-24 | with no params and no query, a netloc + safe path that does not end in `_` or `-` is the ID unchanged |
| `SafeId.SafeIdWithQuery` | common.py:21-24 | with params or a query, the ID is exactly the unstripped netloc + safe path followed by the seventh digest character; it is one character longer and ends in a hex digit |
| `SafeId.SafeIdPathIsClean` | common.py:20-24 | no position past the netloc holds `/` or `+` |
| `SafeId.SafeIdKeepsNetloc` | common.py:20-24 | a netloc not ending in `_`/`-` is copied unchanged to the front of the ID |
| `SafeId.SafeIdKeepsStrippedNetloc` | common.py:20-24 | for every netloc, the netloc with its own trailing `_`/`-` stripped is a prefix of the ID (netloc `a_` with path `/b` keeps all of `a_`, since `a__b` is the ID) |
| `SafeId.RStripOfPrefix` | common.py:24 | `rstrip('_-')` of `a` is a prefix of `rstrip('_-')` of `a + b` |
| `SafeId.SafeIdHasNoSlashOrPlus` | common.py:18-24 | the ID contains no `/` and no `+` if and only if the netloc contains none, whatever the netloc ends with |
| `SafeId.SafeIdHasCharIff` | common.py:18-24 | for `c` either `/` or `+`: the ID contains `c` if and only if the netloc does |
| `SafeId.NetlocSlashOrPlusReachesId` | common.py:20-24 | a `/` or `+` at position `j` of the netloc is at position `j` of the ID |
| `SafeId.RStripKeepsNonSeparator` | common.py:24 | a character other than `_` and `-` stops `rstrip('_-')`: it stays at its position |
| `SafeId.NetlocPlusSurvives` | common.py:20 | netloc `me+feeds@example.com` with path `/rss` gives `me+feeds@example.com_rss`, which keeps the `+` |
| `SafeId.RootPathGivesNetloc` | common.py:20-24 | with path `/` or empty, no query, and a netloc that does not end in `_` or `-`, the ID is the netloc |
| `SafeId.EmptyNetlocGivesEmptyId` | common.py:20-24 | empty netloc, path `/`, no query gives the empty ID |
| `SafeId.ExampleFeed` | common.py:17-24 | `http://example.com/feed.xml` gives `example.com_feed.xml` |
| `SafeId.ExampleFeedWithQuery` | common.py:17-24 | `http://example.com/feed.xml?x=1` gives `example.com_feed.xml` and one hex digit |
| `SafeId.SchemeAndFragmentIgnored` | common.py:19-23 | without params or query, the scheme, the fragment and the digest do not affect the ID |
| `Queue.DecodeItem` | common.py:39 | decoding succeeds exactly when the codec parses the text, and then yields the codec's value |
| `Queue.DecodeEncoded` | common.py:34-39 | when the codec restores `p` from its encoding, decoding the encoded `p` gives `Ok(p)` |
| `Queue.QueueKey` | common.py:34 | the key is the namespace followed by the queue name, split exactly at the namespace's length |
| `Queue.QueueKeyInjective` | common.py:34-38 | in one namespace, two queue names share a key if and only if they are equal |
| `Queue.NamespacesCanCollide` | common.py:34 | namespaces `feeds` and `feeds:` map queues `:jobs` and `jobs` to the same key |
| `Queue.Pushed` | common.py:34 | RPUSH: the list at the key gains the value at its tail (a missing key starts empty); every other key keeps its presence and its list; no empty list appears |
| `Queue.Popped` | common.py:38 | the removal half of BLPOP: the list at the key loses its head; the key stays only if elements remain; every other key is unchanged; no empty list appears |
| `Queue.PushThenPopRestores` | common.py:34-38 | pushing onto a missing key and popping it again restores the store exactly |
| `Queue.PushTwicePopTwiceRestores` | common.py:34-38 | pushing two values onto a missing key and popping twice restores the store exactly |
| `Queue.Server.RPush` | common.py:34 | the store becomes `Pushed` of the old store; answers the new length, one more than before |
| `Queue.FirstNonEmpty` | common.py:38 | the position of the first watched key whose list is not empty (every key before it has an empty list), or the number of keys when all are empty |
| `Queue.Server.BLPop` | common.py:38 | BLPOP over several keys, once one has an element: answers the first key in order with a non-empty list and that list's old head; the store becomes `Popped` of the old store at that key |
| `Queue.Enqueue` | common.py:32-34 | the encoded payload is appended to the tail of the list at `namespace + queueName`; every other key is unchanged (through `Pushed`); answers the new length |
| `Queue.Dequeue` | common.py:36-39 | BLPOP over the namespaced key and key `0`, when one of them has an element: if the namespaced list is non-empty its head is removed (the key too, if the list becomes empty), every other key is unchanged, and the result is the decoded head, or `MalformedPayload` with the item still consumed; otherwise the same happens to the list at key `0` |
| `Queue.EnqueueThenDequeue` | common.py:32-39 | on an empty queue, with a codec that restores `data` from its encoding, enqueue then dequeue returns `data` and leaves the store as it was |
| `Queue.EnqueueTwiceDequeueTwice` | common.py:32-39 | on an empty queue, with a codec that restores `p1` and `p2`, enqueueing `p1` and `p2` and dequeuing twice returns `p1` then `p2`, leaves the queue empty and the whole store as it was |
| `Queue.Run` | common.py:32-39 | a sequential run of enqueue and dequeue calls: each enqueue step is `Pushed` of the encoded payload, each dequeue step is `Popped` with the `DecodeItem` of the head, as in the `Enqueue` and `Dequeue` contracts; `None` where a dequeue finds its own list empty (BLPOP would then block, or serve key `0`); otherwise one result per dequeue |
| `Queue.DecodeAllLossless` | common.py:34-39 | when the codec restores each payload of a sequence, every one of them, encoded and decoded, comes back as itself |
| `Queue.RunIsFifo` | common.py:34-38 | `FifoHolds`: for any codec and any run that does not block, with the encodings of `pending` in the list of queue `q` and `all` = `pending` followed by the payloads the run enqueues on `q`: there are at most `\|all\|` dequeues of `q`; the N-th of them returns the decoding of the encoding of `all[N]`; the encodings of the rest of `all` remain in the list |
| `Queue.RunFromEmptyIsFifo` | common.py:34-39 | from an empty queue there are never more dequeues of `q` than enqueues; the N-th dequeue returns the decoding of the encoding of the N-th payload enqueued on `q`; when the codec restores every payload enqueued on `q`, that is the payload itself |
| `Queue.RunKeepsNoEmptyLists` | common.py:34-38 | a run keeps the store free of empty lists |
| `Queue.RoundTrip` | common.py:34-39 | in a store with no empty lists, with a codec that restores `p`, enqueue then dequeue on an empty queue returns `p` and restores the store |
| `Queue.FifoOfTwo` | common.py:34-39 | with a codec that restores `p1` and `p2`: enqueue `p1`, enqueue `p2`, dequeue, dequeue on an empty queue returns `p1` then `p2` and empties the queue |
| `Queue.DequeueTwice` | common.py:36-39 | with a codec that restores `p1` and `p2`, two dequeues of a list holding their encodings return `p1` then `p2` and empty it |

## Left out

- `connect_redis` (common.py:26-30) opens a network connection on an event loop; it is I/O. Connection failure (the connectivity error) is therefore not modelled.
- `publish` and `subscribe` (common.py:41-48) pass straight through to the Redis pub/sub client. Fan-out and ephemeral delivery belong to that library, not to this code.
- `urlparse` is a library call. The model takes its fragments as input, so the parse-failure error of an unparsable URL is not modelled.
- SHA-1 is not modelled. The digest is a parameter, required to be 40 lower-case hex characters, as `hexdigest()` returns.
- The JSON encoding and `json_util` hooks are not modelled. The codec is a parameter, and its round trip on given payloads is the `LosslessOn` hypothesis rather than a proved fact.
- The real codec does not restore every `Json` value: `loads` keeps only the last of duplicate object keys, and `object_hook` turns an object shaped like an extended type (such as `{"$date": 0}`) into that type and rejects a malformed `{"$oid": ...}`. Which payloads it does restore is not characterised here. The FIFO order (`Queue.RunIsFifo`) needs no such hypothesis; the lemmas that conclude the payload itself comes back assume `LosslessOn` of just the payloads they mention.
- Of the extended types `json_util` handles, only dates and object ids are in `Json`. Binary, DBRef, Regex, Code, Timestamp, MinKey/MaxKey, Decimal128, UUID and Int64 are not modelled.
- `Json.Number` holds an integer. JSON floating-point numbers are not modelled.
- Redis stores bytes. The model stores `string`. Keys holding non-list values (the WRONGTYPE error) are not modelled: the store holds only lists, though the same Redis also holds a hash at `REDIS_NAMESPACE + 'status'` (web.py:44), and a queue name `status` would meet it.
- Queue.Dequeue: BLPOP with timeout 0 blocks until an element arrives on one of its keys. The model requires one of the two watched lists to be non-empty, so the wait itself is not modelled.
- Queue.Run: a dequeue whose own list is empty ends the run with `None`, so the traces `Run` covers never take an item from key `0`; `Queue.Dequeue` does model that fallback.
- Concurrency is not modelled: several workers popping the same list at once, and the atomicity of BLPOP. Runs are sequential, so "exactly one worker receives each item" is covered only in the sequential form of `Queue.RunIsFifo`.
- `web.py` (HTTP routes, templates, MongoDB queries, caching) and `config.py` (environment defaults, logging setup) are not part of this model.
- Determinism of `safe_id` needs no lemma: `SafeId.SafeIdOf` is a function.
