/** The `Pipe` class and the two stream ends it connects. A `Pipe` object is
    attached to any number of source/sink pairs (`pipe(first, second)`); each
    handler method is what runs when the event loop delivers that notification
    for one attached pair, and is proved equal to the matching step function of
    module Relay. */
module Streams {
  import opened Chunks
  import opened Relay

  /** The readable side of a connection: chunks buffered and not yet handed
      out, oldest first, and whether `pause()` stopped it emitting `data`. */
  class Source {
    var pending: seq<Chunk>
    var paused: bool

    constructor (buffered: seq<Chunk>)
      ensures pending == buffered && !paused
    {
      pending := buffered;
      paused := false;
    }

    /** Bytes arrive from the connection below and are buffered. */
    method Arrive(chunk: Chunk)
      modifies this
      ensures pending == old(pending) + [chunk] && paused == old(paused)
    {
      pending := pending + [chunk];
    }

    /** `read()`: the oldest buffered chunk, or nothing when the buffer is empty. */
    method Read() returns (data: Option<Chunk>)
      modifies this`pending
      ensures old(pending) == [] ==> data == None && pending == []
      ensures old(pending) != [] ==> data == Some(old(pending)[0]) && pending == old(pending)[1..]
    {
      if pending == [] {
        data := None;
      } else {
        data := Some(pending[0]);
        pending := pending[1..];
      }
    }

    /** `pause()`: stop emitting `data`. */
    method Pause()
      modifies this`paused
      ensures paused
    {
      paused := true;
    }

    /** `resume()`: emit `data` again. */
    method Resume()
      modifies this`paused
      ensures !paused
    {
      paused := false;
    }
  }

  /** The writable side of a connection: every chunk written, in order. A write
      the sink cannot take without buffering is still kept (and reported as
      `false`), so `written` is complete either way. */
  class Sink {
    var written: seq<Chunk>

    constructor ()
      ensures written == []
    {
      written := [];
    }

    /** `write(data)`: whether the sink accepted without backpressure is an
        input, as it depends on the peer. */
    method Write(data: Chunk, accepted: bool) returns (ok: bool)
      modifies this
      ensures written == old(written) + [data] && ok == accepted
    {
      written := written + [data];
      ok := accepted;
    }
  }

  /** The state one attached pair contributes to the step functions. */
  function FlowOf(first: Source, second: Sink): Flow
    reads first, second
  {
    Flow(first.pending, second.written, first.paused)
  }

  class Pipe {
    /** `opts.readable`, fixed for the process. */
    const mode: Mode
    var piped: nat
    var events: nat
    var paused: bool
    /** The pairs `pipe(first, second)` has attached handlers to. */
    var links: seq<(Source, Sink)>

    /** `paused` is only ever set by the `readable` handler. */
    ghost predicate Valid()
      reads this
    {
      mode == DataEvents ==> !paused
    }

    function State(): Counters
      reads this
    {
      Counters(piped, events, paused)
    }

    constructor (mode: Mode)
      ensures Valid() && this.mode == mode && State() == Initial && links == []
    {
      this.mode := mode;
      piped, events, paused := 0, 0, false;
      links := [];
    }

    /** `pipe(first, second)`: subscribe this relay's handlers for the pair. */
    method Attach(first: Source, second: Sink)
      requires Valid()
      modifies this`links
      ensures Valid() && links == old(links) + [(first, second)]
    {
      links := links + [(first, second)];
    }

    /** `first` fired `readable`. */
    method OnReadable(first: Source, second: Sink, writeOk: bool)
      requires Valid() && mode == ReadableEvents && (first, second) in links
      modifies this, first, second
      ensures Valid() && links == old(links)
      ensures (State(), FlowOf(first, second)) == ReadableStep(old(State()), old(FlowOf(first, second)), writeOk)
    {
      events := events + 1;
      if paused {
        return;
      }
      var data := first.Read();
      if data.None? {
        return;
      }
      piped := piped + |data.value|;
      var ok := second.Write(data.value, writeOk);
      if !ok {
        paused := true;
      }
    }

    /** `first` emitted its next chunk as `data`; the result is whether the
        source is now paused. */
    method OnData(first: Source, second: Sink, writeOk: bool) returns (sourcePaused: bool)
      requires Valid() && mode == DataEvents && (first, second) in links
      requires DataEnabled(FlowOf(first, second))
      modifies this, first, second
      ensures Valid() && links == old(links)
      ensures (State(), FlowOf(first, second)) == DataStep(old(State()), old(FlowOf(first, second)), writeOk)
      ensures sourcePaused <==> !writeOk
    {
      var data := first.Read();
      events := events + 1;
      piped := piped + |data.value|;
      var ok := second.Write(data.value, writeOk);
      if !ok {
        first.Pause();
      }
      sourcePaused := first.paused;
    }

    /** `second` fired `drain`. */
    method OnDrain(first: Source, second: Sink)
      requires Valid() && (first, second) in links
      modifies this, first
      ensures Valid() && links == old(links)
      ensures (State(), FlowOf(first, second)) == DrainStep(mode, old(State()), old(FlowOf(first, second)))
    {
      if mode == ReadableEvents {
        paused := false;
      } else {
        first.Resume();
      }
    }
  }
}
