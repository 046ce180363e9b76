/** What one notification does to a relay (`Pipe`) and to the source/sink
    pair the notification belongs to. These step functions are the
    specification the `Pipe` class in module Streams is proved against, and
    the building blocks of the many-session semantics in module Proxy. */
module Relay {
  import opened Chunks

  /** The notification the relay subscribes to: `readable` (the relay pulls
      with `read()`) or `data` (the source pushes chunks). */
  datatype Mode = ReadableEvents | DataEvents

  /** The three fields of a `Pipe` object. */
  datatype Counters = Counters(piped: nat, events: nat, paused: bool)

  /** One attached source/sink pair: the chunks the source still buffers, in
      arrival order; the chunks already written to the sink, in write order;
      and whether `pause()` has stopped the source from emitting `data`. */
  datatype Flow = Flow(pending: seq<Chunk>, written: seq<Chunk>, sourcePaused: bool)

  /** A freshly constructed `Pipe`. */
  const Initial: Counters := Counters(0, 0, false)

  /** The `readable` handler: count the notification; unless paused, read one
      chunk and, if there was one, count its bytes, write it, and pause when the
      write reports backpressure. */
  function ReadableStep(c: Counters, f: Flow, writeOk: bool): (r: (Counters, Flow))
    // every notification counts, paused or not, data or not
    ensures r.0.events == c.events + 1
    // nothing is lost, duplicated or reordered between source and sink
    ensures r.1.written + r.1.pending == f.written + f.pending
    // `piped` grows by exactly the bytes that reached the sink
    ensures r.0.piped + TotalLength(f.written) == c.piped + TotalLength(r.1.written)
    ensures r.1.sourcePaused == f.sourcePaused
    // paused, or nothing to read: no read, no write, no other change
    ensures c.paused || f.pending == [] ==>
              r.1 == f && r.0.piped == c.piped && r.0.paused == c.paused
    // otherwise the oldest chunk is forwarded, and the relay is paused
    // afterwards exactly when the sink refused it
    ensures !c.paused && f.pending != [] ==>
              r.1.written == f.written + [f.pending[0]] && r.1.pending == f.pending[1..] &&
              (r.0.paused <==> !writeOk)
  {
    var c := c.(events := c.events + 1);
    if c.paused || f.pending == [] then (c, f)
    else
      var data := f.pending[0];
      TotalLengthAppend(f.written, [data]);
      assert f.pending == [data] + f.pending[1..];
      (c.(piped := c.piped + |data|, paused := c.paused || !writeOk),
       f.(pending := f.pending[1..], written := f.written + [data]))
  }

  /** The source emits `data` only while flowing and holding a chunk. */
  predicate DataEnabled(f: Flow)
  {
    !f.sourcePaused && f.pending != []
  }

  /** The `data` handler: count the notification and the chunk's bytes, write
      the chunk, and pause the source when the write reports backpressure. */
  function DataStep(c: Counters, f: Flow, writeOk: bool): (r: (Counters, Flow))
    requires DataEnabled(f)
    ensures r.0.events == c.events + 1
    ensures r.1.written + r.1.pending == f.written + f.pending
    ensures r.1.written == f.written + [f.pending[0]]
    ensures r.0.piped + TotalLength(f.written) == c.piped + TotalLength(r.1.written)
    // backpressure pauses the source, not the relay
    ensures r.1.sourcePaused <==> !writeOk
    ensures r.0.paused == c.paused
  {
    var data := f.pending[0];
    TotalLengthAppend(f.written, [data]);
    assert f.pending == [data] + f.pending[1..];
    (Counters(c.piped + |data|, c.events + 1, c.paused),
     Flow(f.pending[1..], f.written + [data], f.sourcePaused || !writeOk))
  }

  /** The sink's `drain` handler: clear `paused` (readable mode) or resume the
      source (data mode). */
  function DrainStep(m: Mode, c: Counters, f: Flow): (r: (Counters, Flow))
    ensures r.0.piped == c.piped && r.0.events == c.events
    ensures r.1.pending == f.pending && r.1.written == f.written
    ensures m == ReadableEvents ==> !r.0.paused && r.1 == f
    ensures m == DataEvents ==> !r.1.sourcePaused && r.0 == c
  {
    match m
    case ReadableEvents => (c.(paused := false), f)
    case DataEvents => (c, f.(sourcePaused := false))
  }
}
