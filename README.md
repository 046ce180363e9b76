# Flow-controlled relay and handshake counter of the TLS proxy benchmark

This project models the part of the TLS proxy benchmark that has state and rules:

- the relay class `Pipe`, which moves decrypted chunks from a source stream to a backend sink;
- the single `proxyPipe` instance that every proxied connection shares;
- the `secured` handshake counter that `warnWhenSecure` maintains.

`lib/combined-tls.js` and `lib/proxy-tls.js` contain the same `Pipe`, `proxyPipe` and
`warnWhenSecure`. They are modelled once, and the table below cites both files.

The model is split across five files:

- `chunks.dfy` (module `Chunks`): bytes, chunks, and two measures of a run of chunks. Those are
  the byte count (`TotalLength`) and the byte stream it carries (`Concat`).
- `relay.dfy` (module `Relay`): what each `Pipe` handler does to the relay's three fields and to one
  attached source/sink pair. There are three step functions, one each for the `readable`, `data` and
  `drain` notifications. Their contracts state the relay's promises: every notification counts, and
  `piped` grows by exactly the bytes written. Chunks are neither lost, duplicated nor reordered.
  Pausing and draining gate forwarding.
- `streams.dfy` (module `Streams`): the imperative model. `Source` holds a queue of buffered chunks
  and the flag that `pause()`/`resume()` set. `Sink` holds every chunk written to it. `Pipe` has the
  fields `piped`, `events`, `paused`, the fixed `mode`, and `links`, the pairs that `pipe(first, second)`
  attached. Each handler method is proved equal to its step function.
- `proxy.dfy` (module `Proxy`): the shared `proxyPipe` over many sessions. A run is a sequence of
  notifications, each for one session. Lemmas prove properties over whole runs:
  - per-session conservation and order;
  - `piped` equals the bytes written to all backends, and `events` matches each mode's counting rule;
  - in readable mode, one `paused` flag stalls every session until some sink drains;
  - in data mode, a paused source stalls only its own session;
  - with no backpressure, chunks are delivered in order.
- `handshake.dfy` (module `Handshake`): the two `once` listeners per socket, the counter class, and a
  trace semantics. Each distinct notification is counted exactly once. A socket adds at most two.
  Progress lines are logged exactly at 100, 200, ….

The sink's answer to a write (accepted, or backpressure) cannot be seen by the model. It is an input
to every handler. The arrival of decrypted data at a source is the `Arrive` event.

- Every connection is attached to the single `proxyPipe` (lib/combined-tls.js:62, 105, 110), so in
  readable mode its one `paused` flag is shared; see `Proxy.SharedPauseStallsAll`.
- The handler tests `!data`, so only a `null` read stops forwarding. A zero-length buffer would be
  forwarded and counted as 0 bytes.
- The marker packet is the 32-byte string at lib/combined-tls.js:11.

## Model

| member | source | states |
|---|---|---|
| `Relay.ReadableStep` | lib/proxy-tls.js:33-42 | the `readable` handler adds exactly 1 to `events` in every case. When paused, or when `read()` yields nothing, it changes nothing else: no read, no write, `piped` and `paused` unchanged. Otherwise it forwards the oldest buffered chunk unchanged and adds its length to `piped`. `paused` then holds exactly when the write returned false. Sink plus source hold the same chunks in the same order |
| `Relay.DataStep` | lib/proxy-tls.js:45-51 | the `data` handler adds 1 to `events` and the chunk's length to `piped`, and appends that chunk to the sink. The source is paused exactly when the write returned false. The relay's own `paused` is untouched |
| `Relay.DrainStep` | lib/proxy-tls.js:43-52 | `drain` clears `paused` in readable mode, or resumes the source in data mode. Counters and stream contents are unchanged |
| `Streams.Pipe.constructor` | lib/combined-tls.js:30-34 | a new `Pipe` has `piped = 0`, `events = 0`, `paused = false` and no attached pairs |
| `Streams.Pipe.Attach` | lib/combined-tls.js:36-37 | `pipe(first, second)` adds the pair to the attached pairs and changes nothing else |
| `Streams.Pipe.OnReadable` | lib/combined-tls.js:38-47 | the new fields and pair state are exactly `ReadableStep` of the old ones |
| `Streams.Pipe.OnData` | lib/combined-tls.js:50-56 | the new fields and pair state are exactly `DataStep` of the old ones. The result is true exactly when the write returned false and the source was paused |
| `Streams.Pipe.OnDrain` | lib/combined-tls.js:48-57 | the new fields and pair state are exactly `DrainStep` of the old ones. In data mode `paused` stays false |
| `Streams.Source.Read` | lib/combined-tls.js:41-42 | `read()` yields nothing on an empty buffer. Otherwise it yields the oldest chunk and removes it |
| `Streams.Sink.Write` | lib/combined-tls.js:44 | a write appends the chunk to the sink and returns the sink's accept flag |
| `Streams.Source.Pause` | lib/combined-tls.js:54 | `pause()` stops the source emitting `data` |
| `Streams.Source.Resume` | lib/combined-tls.js:57 | `resume()` lets the source emit `data` again |
| `Proxy.Start` | lib/combined-tls.js:62 | the shared `proxyPipe` starts at zero counters, not paused, with every attached backend empty |
| `Proxy.Step` | lib/combined-tls.js:105-110 | one notification for one session of the shared relay leaves every other session's streams untouched. Per session, sink plus source gain exactly the arrived chunk, and the sink only grows |
| `Proxy.Run` | lib/proxy-tls.js:81-86 | a run of notifications keeps the mode and the set of attached sessions |
| `Proxy.StepAccounting` | lib/combined-tls.js:39-52 | one notification never lowers `piped` or `events`. It moves `piped` by exactly the bytes newly written to backends. In data mode it moves `events` by exactly the chunks newly written. In readable mode it moves `events` by 1 per `readable` for an attached session, and never by less than the chunks written |
| `Proxy.RunConserves` | lib/combined-tls.js:41-53 | after any run, each session's backend and source together hold what the source held at the start followed by every later arrival. Nothing is lost, duplicated or reordered, and backends only grow |
| `Proxy.RunPiped` | lib/combined-tls.js:43-52 | over any run `piped` and `events` never decrease. `piped` grows by exactly the bytes written to all backends |
| `Proxy.RunDataEvents` | lib/combined-tls.js:50-56 | in data mode, `events` grows by exactly the number of chunks written, and the relay's `paused` flag is never set |
| `Proxy.RunReadableEvents` | lib/combined-tls.js:38-42 | in readable mode, `events` grows by exactly the number of `readable` notifications, even paused or empty ones. It never grows by less than the chunks written |
| `Proxy.SharedPauseStallsAll` | lib/proxy-tls.js:35-43 | in readable mode, once `paused` is set, a run with no `drain` on any attached sink writes nothing to any session's backend. `piped` stays the same and `paused` stays set |
| `Proxy.PausedSourceStalls` | lib/proxy-tls.js:48-52 | in data mode, a paused source stays paused and writes nothing to its backend until that backend drains |
| `Proxy.AcceptingSinkDeliversInOrder` | lib/combined-tls.js:50-56 | in data mode, with a backend that never pushes back, k `data` notifications deliver exactly the next k buffered chunks, in order. The source stays flowing |
| `Proxy.ProxyPipeTotals` | lib/proxy-tls.js:57-86 | from a fresh shared relay, `piped` equals the sum over sessions of the bytes each backend received. In data mode `events` equals the sum of the chunks each backend received. In readable mode `events` equals the number of `readable` notifications. Each backend's bytes followed by its source's buffered bytes are that session's byte stream. |
| `Proxy.BackendBytesBounded` | lib/combined-tls.js:43-44 | from a fresh shared relay, each backend's share of `piped` is the length of the byte stream it received, and never more than the bytes its session's source ever held |
| `Proxy.ScenarioTenPackets` | lib/combined-tls.js:50-56 | ten `data` notifications carrying the 32-byte marker packet, with no backpressure, deliver the ten packets in order. `piped` is then 320 and `events` 10 |
| `Handshake.Watch.constructor` | lib/combined-tls.js:120-127 | `warnWhenSecure` leaves both `once` listeners of the socket armed and not yet run |
| `Handshake.Tracker.constructor` | lib/combined-tls.js:15 | `secured` starts at 0 |
| `Handshake.Tracker.Notify` | lib/combined-tls.js:121-132 | a notification whose listener already ran changes nothing and logs nothing. Otherwise it adds 1 to `secured` and marks the listener run, and it logs exactly when the new value is a multiple of 100. The socket's other listener is untouched |
| `Handshake.CountsDistinctNotifications` | lib/proxy-tls.js:95-108 | after any sequence of notifications, `secured` is the number of distinct (socket, notification kind) pairs that fired |
| `Handshake.SocketContributes` | lib/combined-tls.js:120-133 | `secured` is the count from all other sockets plus 1 for each of this socket's `secure` and `secureConnect` that fired. A socket's share is therefore 0, 1 or 2, and 2 when both fired |
| `Handshake.LogsAtDueLines` | lib/combined-tls.js:123-130 | the logged counter values are exactly the multiples of 100 that the counter has reached, in increasing order |
| `Handshake.DueLinesAreMultiples` | lib/proxy-tls.js:98-105 | when the counter is at n, there are exactly n / 100 progress lines, and the k-th is at 100·(k+1) |

## Left out

- TLS itself is not modelled: the TLS socket, the secure pair, the secure context, certificate checks and PEM loading (lib/combined-tls.js:24-26, 87-110). These are library calls whose behaviour is not visible here. Decrypted data reaching a relay's source is the `Arrive` event.
- Sockets and servers are not modelled: `net.createServer`, `net.connect`, `listen`, `unref` and the error-logging handlers. These are I/O. A backend's answer to a write is an input.
- `cluster.fork` and the worker processes (lib/combined-tls.js:174-193) are not modelled. This is concurrency across processes with no shared state.
- `stdio.getopt` option parsing is not modelled. The readable/data choice is the `mode` parameter of a `Pipe` and of a run.
- `getTraffic`, `getRate` and `showEvery` are not modelled. They do floating-point formatting and `Date.now`/`setInterval` timing.
- The client loops (`createClient`, `sendPacket`) and the byte-counting backend server (`createServer`) are not modelled. They are load-generation and sink harnesses. The marker packet appears only in `Proxy.ScenarioTenPackets`.
- The second pair of `Pipe` objects in secure-pair mode (lib/combined-tls.js:98-99) has no model of its own. Each is a fresh `Streams.Pipe` attached to one pair, and the model does not compose two relays through the TLS engine.
- `Streams.Source.Read` yields one buffered chunk per call. Node's `read()` without a size can return everything buffered as one buffer. The model's conservation properties are stated over chunk sequences and byte streams, so they do not depend on chunk grouping.
- `Streams.Pipe.OnData` requires that the source is flowing and holds a chunk, because a stream emits `data` only then. In a run (`Proxy.Step`), such a notification is simply not delivered.
- After `drain` in readable mode, whether the stream fires `readable` again is up to the stream. A run can contain any order of notifications, and the model does not say when the event loop delivers them.
- `piped`, `events` and `secured` are JavaScript numbers, exact only up to 2^53; the model counts with unbounded naturals and does not model the loss of precision beyond that.
