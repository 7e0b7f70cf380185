# Crypto Market MCP: the TTL cache and the pub/sub request broker

This project models and proves properties of the two components of the
Crypto Market MCP server that hold real logic:

- `TTLCache` (module `Cache`, `cache.dfy`) is the in-memory cache that the
  exchange client uses to absorb repeated market-data calls. Every entry
  expires `ttl` seconds after it is stored. Each `get` and `set` first sweeps
  out the expired entries. When the store is full, `set` evicts the single
  entry that expires soonest. The store is a `map` field of a class, and the
  methods update it in place. Time is an integer instant `now` passed to each
  call. `get_or_set` takes two instants: `now` for its `get`, and `later` for
  the `set` that follows the factory call.
- `RedisPubSub` (module `PubSub`, `pubsub.dfy`) is the request/response
  broker that lets front ends hand tool calls to workers over two shared
  channels. The class `Broker` keeps the pending-request table, the handler
  table, the lazy response subscription and the request channel. One step of
  the response listener settles a waiting caller. It acts only when the
  response's id is pending, and it acts at most once per id. One step of the
  worker loop turns a decoded request into exactly one response envelope.
  That rule is the pure function `Dispatch`.

`wrappers.dfy` holds the `Option` type, which stands for Python's `None`.

Redis, asyncio and JSON are not modelled. A channel is a sequence of events
that were already decoded. `Message(None)` is a payload that does not decode,
and `Control` is a pub/sub event whose type is not `"message"`. A handler is
a function from arguments to `Returned(value)` or `Raised(message)`.

The proved properties are:

- after a purge, no entry with `expires_at <= now` remains and every fresh
  entry is unchanged;
- `get` returns a value exactly when the entry is fresh, and it never adds
  keys;
- a value that `set` stores at `t` is read back before `t + ttl` and is gone
  from then on;
- with `maxsize >= 1`, the size bound holds after every call;
- eviction removes exactly one entry, and that entry has the smallest expiry;
- `get_or_set` calls its factory only on a miss, once, as the `Factory`
  object's call counter shows;
- the pending table is popped once per id, so duplicate, unknown and
  malformed responses are ignored;
- every decodable request gets one response carrying its id;
- a full round trip gives the caller the handler's result, the handler's
  error, or `Unknown tool: <tool>`.

Three facts about the code shape the model:

- `register_handler` may run at any time, also after the worker loop has
  started; the handler table is not fixed at startup.
- There is no selection between the Redis cache and the in-memory cache: the
  exchange client always builds a `TTLCache` (exchange_client.py:42).
- The listener accepts any decoded object as a response. When it has an
  `error` key, the error wins over `result`. When it has neither, the caller
  gets `None`.

## Model

| member | source | states |
|---|---|---|
| `Cache.Purged` | crypto_market_mcp/cache.py:30-34 | the purge keeps exactly the entries with `expires_at > now`, unchanged, and adds no key |
| `Cache.TTLCache.PurgeExpired` | crypto_market_mcp/cache.py:30-34 | the sweep loop that pops each expired key leaves the store equal to `Purged(old store, now)` |
| `Cache.PurgeShrinks` | crypto_market_mcp/cache.py:30-34 | the purge never makes the store larger |
| `Cache.PurgeIdempotent` | crypto_market_mcp/cache.py:30-34 | a second purge at the same instant changes nothing |
| `Cache.TTLCache.Get` | crypto_market_mcp/cache.py:36-45 | `get` purges the store; it returns the stored value exactly when the key is present with `expires_at > now`, otherwise None; it adds no key and keeps the size bound |
| `Cache.GetIsFresh` | crypto_market_mcp/cache.py:36-45 | no stale read: a value is returned if and only if the key's entry expires after `now`, and it is that entry's value |
| `Cache.OldestKey` | crypto_market_mcp/cache.py:52 | the `min` scan returns a key whose `expires_at` is not later than any other's; it finds no key exactly when the store is empty, where `min` raises |
| `Cache.TTLCache.Set` | crypto_market_mcp/cache.py:47-54 | `set` purges; if the store is full it evicts one oldest survivor; it then maps the key to the value with expiry `now + ttl`; with nothing to evict (`maxsize <= 0`, empty store) it fails as `min` raises; with `maxsize >= 1` it keeps the size bound |
| `Cache.SetKeepsBound` | crypto_market_mcp/cache.py:50-54 | if `maxsize >= 1` and the store holds at most `maxsize` entries before `set`, it holds at most `maxsize` after |
| `Cache.SetChangesOnlyKeyAndVictim` | crypto_market_mcp/cache.py:49-54 | after `set` the key holds the new entry; the evicted key is an oldest survivor and is gone; every other survivor of the purge is unchanged; no other key appears |
| `Cache.SetThenGet` | crypto_market_mcp/cache.py:42-54 | a value stored at `now` is read back at any `later < now + ttl` and is absent from `now + ttl` on |
| `Cache.PurgeLater` | crypto_market_mcp/cache.py:30-34 | with a clock that does not go back, a purge at `now` then one at `later` equals one purge at `later` |
| `Cache.TTLCache.GetOrSet` | crypto_market_mcp/cache.py:56-62 | on a hit it returns the cached value, leaves the factory's call count unchanged and only purges; on a miss the call count goes up by exactly one, and the store is what `set` at `later` makes of the purged store: one oldest victim evicted when full, the factory's value stored under the key with expiry `later + ttl`, every other survivor unchanged; when `set` raises, the result is None and the store is the purged one |
| `Cache.TTLCache.constructor` | crypto_market_mcp/cache.py:24-28 | a new cache has the given ttl and maxsize, 10 and 1024 when they are not given, and an empty store |
| `Cache.Factory.Call` | crypto_market_mcp/cache.py:60 | calling the `get_or_set` factory returns its value and raises its call count by exactly one |
| `PubSub.Broker.constructor` | crypto_market_mcp/pubsub.py:19-27 | a new broker has no pending ids, no handlers and no subscription |
| `PubSub.Broker.PublishRequest` | crypto_market_mcp/pubsub.py:66-87 | the new id joins the pending table; the response subscription exists afterwards, and a listener task is started only when there was no subscription yet, so there is exactly one; the published envelope is exactly `{id, tool, arguments}` |
| `PubSub.Broker.OnTimeout` | crypto_market_mcp/pubsub.py:93-95 | on timeout the id leaves the pending table and the caller gets a TimeoutError whose message names the id |
| `PubSub.TimeoutMessage` | crypto_market_mcp/pubsub.py:95 | the timeout message is `Request <id> timed out after <timeout>s` |
| `PubSub.Broker.OnResponse` | crypto_market_mcp/pubsub.py:99-111 | one listener iteration changes the pending table and settles a future exactly as `ListenStep` says, and nothing else |
| `PubSub.ResponseSettlesPending` | crypto_market_mcp/pubsub.py:104-109 | a response with a pending id removes exactly that id; the future fails with the `error` string when that key is present and gets `result` otherwise |
| `PubSub.UnmatchedEventIgnored` | crypto_market_mcp/pubsub.py:100-111 | a non-"message" event, an undecodable payload or an id that is not pending leaves the table unchanged and settles nothing |
| `PubSub.DuplicateResponseIgnored` | crypto_market_mcp/pubsub.py:104-105 | replaying a response after it was handled is a no-op |
| `PubSub.Broker.ListenResponses` | crypto_market_mcp/pubsub.py:97-111 | the listener loop over received events yields the table and settled futures given by `Listen` |
| `PubSub.ListenSettlesAtMostOnce` | crypto_market_mcp/pubsub.py:97-111 | over any traffic, only pending ids are settled, none twice, and the table keeps exactly the pending ids not settled |
| `PubSub.Broker.RegisterHandler` | crypto_market_mcp/pubsub.py:113-120 | the name maps to the new handler (last registration wins) and other names are unchanged |
| `PubSub.Dispatch` | crypto_market_mcp/pubsub.py:133-156 | the worker's reply to one decoded request carries the request's id; for a registered tool its outcome is the handler's outcome on the request's arguments, or on an empty mapping when `arguments` is missing; for a missing or unregistered tool it is the error `Unknown tool: <tool>` |
| `PubSub.UnknownToolMessage` | crypto_market_mcp/pubsub.py:143 | the error text is `Unknown tool: ` followed by the tool name, or `None` when the request has no tool |
| `PubSub.DispatchUnknownTool` | crypto_market_mcp/pubsub.py:139-144 | a request for an unregistered tool gets `{id, error: "Unknown tool: <tool>"}` |
| `PubSub.DispatchKnownTool` | crypto_market_mcp/pubsub.py:145-156 | for a registered tool the response carries the request's id and the handler's outcome, encoded with `error` exactly when the handler raised and `result` exactly when it returned |
| `PubSub.DispatchDefaultsArguments` | crypto_market_mcp/pubsub.py:136 | a request without `arguments` is handled as one with an empty mapping |
| `PubSub.OneReplyPerRequest` | crypto_market_mcp/pubsub.py:130-164 | the worker loop publishes exactly one response per decodable request, in order, each carrying that request's id; other events produce nothing and do not stop the loop |
| `PubSub.Broker.RunWorker` | crypto_market_mcp/pubsub.py:130-164 | the worker loop's published responses are the dispatches of the decodable requests, one each, in order |
| `PubSub.RoundTrip` | crypto_market_mcp/pubsub.py:66-164 | a pending request answered by a worker pops exactly its id, and the caller gets the handler's result, the handler's error or `Unknown tool: <tool>` |

## Left out

- Redis connection, subscription and publishing (`connect` and `disconnect` at pubsub.py:31-50, `subscribe` and `publish` at pubsub.py:78-87 and 158-162, `listen` at pubsub.py:99 and 130) are I/O. A channel is a sequence of received events, and publishing appends to the `requests` field or to a returned sequence.
- asyncio (`Future`, `wait_for`, `create_task`) is not modelled. Each listener or worker iteration is one atomic step. Waiting is the gap between `PublishRequest` and the step that settles the id, either `OnResponse` or `OnTimeout`. The source loops forever; the model runs a loop over a finite sequence of received events.
- JSON encoding and decoding are not modelled. Decoded envelopes are datatypes, and every decoding failure (bad JSON, a non-object payload, an unhashable tool) is `Message(None)`.
- Non-string request ids are not modelled. The worker echoes any id back without hashing it; only the listener's `in` test at pubsub.py:104 needs it hashable.
- `PubSub.Broker.PublishRequest`: the uuid4 id is a parameter, and the model does not assume it is fresh. In the source, an id reused while still pending replaces the first caller's future (pubsub.py:75). That caller can then never be settled, and its timeout pop (pubsub.py:94) removes the second caller's entry. A `set` of ids shows neither.
- `PubSub.Broker.PublishRequest`: publishing always succeeds. In the source, if `subscribe` or `publish` raises after the insert at pubsub.py:75, the error reaches the caller, and the id stays pending forever, because only the timeout branch pops it.
- `PubSub.OneReplyPerRequest`: handler results are JSON values, so every reply can be encoded and published. In the source, if `json.dumps(response)` or `publish` fails (pubsub.py:159-162), the outer `except` at pubsub.py:163-164 drops the reply, and the caller times out.
- `PubSub.Dispatch`: a handler is a pure function of its arguments. Its side effects and its `await` are not modelled. An `arguments` value that is present but not a mapping is not modelled either. That includes `"arguments": null`, where `request.get("arguments", {})` gives None and `handler(**None)` raises, so the reply is `{id, error}`.
- `PubSub.TimeoutMessage`: the timeout is taken as the text Python prints for the float.
- `PubSub.ResponseFields`: the `error` field is a string. The source passes any JSON value to `Exception(...)`.
- `Cache.TTLCache.Get`: the clock is read once per call. Because of that, the second expiry check at cache.py:42-44 never fires: the purge already removed every entry with `expires_at <= now`. When the clock moves between the two reads, the source can pop one more entry. The model does not capture that.
- `Cache.TTLCache.Set`: the clock is read once per call. The source reads it in the purge (cache.py:31) and again for the new entry's expiry (cache.py:54), so the entry expires at the second reading plus ttl. The model gives it `now + ttl`, with `now` the purge instant.
- `Cache.TTLCache.Set`: ties for the oldest entry may go to any tied key. The source picks the first in dict order.
- `Cache.TTLCache.GetOrSet`: `get` and `set` take the lock separately, and the factory runs between them without it. Other calls may run in that gap; then two callers can both miss and both call the factory. The model runs the three steps back to back and does not capture that interleaving.
- `Cache.TTLCache.GetOrSet`: values are abstract. The source treats a stored Python `None` as a miss, because it tests `cached is not None`, and that case is not modelled. A factory that raises is also not modelled. Its exception propagates before `set`, so nothing changes.
- `threading.Lock` is replaced by atomic methods. Float timestamps from `time.time()` are integers.
- `RedisCache` (cache.py:65-122) wraps the redis client. Its `get_or_set` is the same as `TTLCache`'s.
- The exchange client, the MCP server, the chatbot, the worker entry point, configuration and error classes are not part of this model.
