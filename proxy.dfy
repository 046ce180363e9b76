/** The single `proxyPipe` that every proxied connection is attached to. Each
    session contributes one source/sink pair (the decrypted stream and the
    backend connection); the relay's counters and, in readable mode, its
    `paused` flag are shared by all of them. A run of the proxy is a sequence
    of notifications, each for one session, applied in order. */
module Proxy {
  import opened Chunks
  import opened Relay

  /** One notification delivered by the event loop, for session `session`. */
  datatype Event =
    | Readable(session: nat, writeOk: bool)
    | Data(session: nat, writeOk: bool)
    | Drain(session: nat)
    | Arrive(session: nat, chunk: Chunk)

  /** The shared relay and the pairs attached to it, in attach order. */
  datatype World = World(mode: Mode, relay: Counters, flows: seq<Flow>)

  /** A fresh `proxyPipe` attached to sessions whose sources buffer `buffered`
      and whose backend sinks are empty. */
  function Start(mode: Mode, buffered: seq<seq<Chunk>>): (w: World)
    ensures w.mode == mode && w.relay == Initial && |w.flows| == |buffered|
    ensures forall i :: 0 <= i < |buffered| ==> w.flows[i] == Flow(buffered[i], [], false)
  {
    World(mode, Initial, seq(|buffered|, i requires 0 <= i < |buffered| => Flow(buffered[i], [], false)))
  }

  /** The chunk `e` adds to the source of session `j`, if any. */
  function ArrivedAt(e: Event, j: nat): seq<Chunk>
  {
    if e.Arrive? && e.session == j then [e.chunk] else []
  }

  /** One notification. A notification for no attached session, one of the
      kind this relay did not subscribe to, and `data` from a source that is
      paused or has nothing buffered are never delivered and change nothing. */
  function Step(w: World, e: Event): (r: World)
    ensures r.mode == w.mode && |r.flows| == |w.flows|
    // other sessions' streams are untouched
    ensures forall j :: 0 <= j < |w.flows| && j != e.session ==> r.flows[j] == w.flows[j]
    // per session, nothing is lost, duplicated or reordered, and the sink only grows
    ensures forall j :: 0 <= j < |w.flows| ==>
              r.flows[j].written + r.flows[j].pending == w.flows[j].written + w.flows[j].pending + ArrivedAt(e, j)
    ensures forall j :: 0 <= j < |w.flows| ==> w.flows[j].written <= r.flows[j].written
  {
    var i := e.session;
    if i >= |w.flows| then w
    else
      match e
      case Readable(_, ok) =>
        if w.mode == ReadableEvents then
          var (c, f) := ReadableStep(w.relay, w.flows[i], ok);
          World(w.mode, c, w.flows[i := f])
        else w
      case Data(_, ok) =>
        if w.mode == DataEvents && DataEnabled(w.flows[i]) then
          var (c, f) := DataStep(w.relay, w.flows[i], ok);
          World(w.mode, c, w.flows[i := f])
        else w
      case Drain(_) =>
        var (c, f) := DrainStep(w.mode, w.relay, w.flows[i]);
        World(w.mode, c, w.flows[i := f])
      case Arrive(_, chunk) =>
        var f := w.flows[i];
        World(w.mode, w.relay, w.flows[i := f.(pending := f.pending + [chunk])])
  }

  /** The world after the notifications `t`, in order. */
  function Run(w: World, t: seq<Event>): (r: World)
    ensures r.mode == w.mode && |r.flows| == |w.flows|
  {
    if t == [] then w else Step(Run(w, t[..|t| - 1]), t[|t| - 1])
  }

  /** Chunks `t` delivers to the source of session `j`, in order. */
  function Arrivals(t: seq<Event>, j: nat): seq<Chunk>
  {
    if t == [] then [] else Arrivals(t[..|t| - 1], j) + ArrivedAt(t[|t| - 1], j)
  }

  /** `readable` notifications in `t` for attached sessions (of `n`). */
  function ReadableCount(t: seq<Event>, n: nat): nat
  {
    if t == [] then 0
    else ReadableCount(t[..|t| - 1], n) + (if t[|t| - 1].Readable? && t[|t| - 1].session < n then 1 else 0)
  }

  /** No `drain` in `t` for session `j`. */
  predicate NoDrainOf(t: seq<Event>, j: nat)
  {
    forall k :: 0 <= k < |t| ==> !(t[k].Drain? && t[k].session == j)
  }

  /** No `drain` in `t` for any attached session (of `n`). */
  predicate NoDrainBelow(t: seq<Event>, n: nat)
  {
    forall k :: 0 <= k < |t| ==> !(t[k].Drain? && t[k].session < n)
  }

  function WrittenBytes(f: Flow): nat
  {
    TotalLength(f.written)
  }

  function WrittenChunks(f: Flow): nat
  {
    |f.written|
  }

  /** The sum of `m` over all sessions. */
  function Total(fs: seq<Flow>, m: Flow -> nat): nat
  {
    if fs == [] then 0 else Total(fs[..|fs| - 1], m) + m(fs[|fs| - 1])
  }

  /** Changing one session changes the sum by that session's difference. */
  lemma {:induction false} TotalUpdate(fs: seq<Flow>, i: nat, f: Flow, m: Flow -> nat)
    requires i < |fs|
    ensures Total(fs[i := f], m) + m(fs[i]) == Total(fs, m) + m(f)
  {
    var n := |fs| - 1;
    if i < n {
      assert fs[i := f][..n] == fs[..n][i := f];
      TotalUpdate(fs[..n], i, f, m);
    } else {
      assert fs[i := f][..n] == fs[..n];
    }
  }

  lemma {:induction false} TotalZero(fs: seq<Flow>, m: Flow -> nat)
    requires forall j :: 0 <= j < |fs| ==> m(fs[j]) == 0
    ensures Total(fs, m) == 0
  {
    if fs != [] {
      TotalZero(fs[..|fs| - 1], m);
    }
  }

  /** A step moves `piped` by exactly the bytes newly written to sinks; in data
      mode `events` moves by exactly the chunks newly written; in readable mode
      `events` moves by one per `readable` notification for an attached session,
      and at least as much as the chunks newly written. */
  lemma StepAccounting(w: World, e: Event)
    ensures var r := Step(w, e);
      && w.relay.piped <= r.relay.piped && w.relay.events <= r.relay.events
      && r.relay.piped + Total(w.flows, WrittenBytes) == w.relay.piped + Total(r.flows, WrittenBytes)
      && (w.mode == DataEvents ==>
            r.relay.events + Total(w.flows, WrittenChunks) == w.relay.events + Total(r.flows, WrittenChunks))
      && (w.mode == ReadableEvents ==>
            r.relay.events == w.relay.events + (if e.Readable? && e.session < |w.flows| then 1 else 0) &&
            Total(r.flows, WrittenChunks) + w.relay.events <= Total(w.flows, WrittenChunks) + r.relay.events)
      && (w.mode == DataEvents && !w.relay.paused ==> !r.relay.paused)
  {
    var r := Step(w, e);
    var i := e.session;
    if i < |w.flows| {
      assert r.flows == w.flows[i := r.flows[i]];
      TotalUpdate(w.flows, i, r.flows[i], WrittenBytes);
      TotalUpdate(w.flows, i, r.flows[i], WrittenChunks);
    }
  }

  /** Per session, the sink and the source together hold exactly what the
      source held at the start followed by what arrived since, in order. */
  lemma {:induction false} RunConserves(w: World, t: seq<Event>, j: nat)
    requires j < |w.flows|
    ensures Run(w, t).flows[j].written + Run(w, t).flows[j].pending
            == w.flows[j].written + w.flows[j].pending + Arrivals(t, j)
    ensures w.flows[j].written <= Run(w, t).flows[j].written
  {
    if t != [] {
      RunConserves(w, t[..|t| - 1], j);
    }
  }

  /** `piped` only grows, and by exactly the bytes written to all sinks. */
  lemma {:induction false} RunPiped(w: World, t: seq<Event>)
    ensures Run(w, t).relay.piped + Total(w.flows, WrittenBytes) == w.relay.piped + Total(Run(w, t).flows, WrittenBytes)
    ensures w.relay.piped <= Run(w, t).relay.piped && w.relay.events <= Run(w, t).relay.events
  {
    if t != [] {
      var p := Run(w, t[..|t| - 1]);
      RunPiped(w, t[..|t| - 1]);
      StepAccounting(p, t[|t| - 1]);
    }
  }

  /** In data mode `events` moves by exactly the chunks written, and the
      shared `paused` flag is never set. */
  lemma {:induction false} RunDataEvents(w: World, t: seq<Event>)
    requires w.mode == DataEvents
    ensures Run(w, t).relay.events + Total(w.flows, WrittenChunks) == w.relay.events + Total(Run(w, t).flows, WrittenChunks)
    ensures !w.relay.paused ==> !Run(w, t).relay.paused
  {
    if t != [] {
      RunDataEvents(w, t[..|t| - 1]);
      StepAccounting(Run(w, t[..|t| - 1]), t[|t| - 1]);
    }
  }

  /** In readable mode `events` moves by one per `readable` notification, read
      or not, and at least as much as the chunks written. */
  lemma {:induction false} RunReadableEvents(w: World, t: seq<Event>)
    requires w.mode == ReadableEvents
    ensures Run(w, t).relay.events == w.relay.events + ReadableCount(t, |w.flows|)
    ensures Total(Run(w, t).flows, WrittenChunks) + w.relay.events <= Total(w.flows, WrittenChunks) + Run(w, t).relay.events
  {
    if t != [] {
      RunReadableEvents(w, t[..|t| - 1]);
      StepAccounting(Run(w, t[..|t| - 1]), t[|t| - 1]);
    }
  }

  /** In readable mode the one `paused` flag is shared: once any session's
      write has reported backpressure, no session's sink receives anything and
      `piped` stands still until some attached session's sink drains. */
  lemma {:induction false} SharedPauseStallsAll(w: World, t: seq<Event>)
    requires w.mode == ReadableEvents && w.relay.paused && NoDrainBelow(t, |w.flows|)
    ensures Run(w, t).relay.paused && Run(w, t).relay.piped == w.relay.piped
    ensures forall j :: 0 <= j < |w.flows| ==> Run(w, t).flows[j].written == w.flows[j].written
  {
    if t != [] {
      var s := t[..|t| - 1];
      assert NoDrainBelow(s, |w.flows|) by {
        forall k | 0 <= k < |s| ensures !(s[k].Drain? && s[k].session < |w.flows|) {
          assert s[k] == t[k];
        }
      }
      SharedPauseStallsAll(w, s);
      assert !(t[|t| - 1].Drain? && t[|t| - 1].session < |w.flows|);
    }
  }

  /** In data mode pausing is per session: a paused source delivers nothing to
      its sink until that sink drains. */
  lemma {:induction false} PausedSourceStalls(w: World, t: seq<Event>, j: nat)
    requires w.mode == DataEvents && j < |w.flows| && w.flows[j].sourcePaused && NoDrainOf(t, j)
    ensures Run(w, t).flows[j].sourcePaused && Run(w, t).flows[j].written == w.flows[j].written
  {
    if t != [] {
      var s := t[..|t| - 1];
      assert NoDrainOf(s, j) by {
        forall k | 0 <= k < |s| ensures !(s[k].Drain? && s[k].session == j) {
          assert s[k] == t[k];
        }
      }
      PausedSourceStalls(w, s, j);
      assert !(t[|t| - 1].Drain? && t[|t| - 1].session == j);
    }
  }

  /** `data` notifications for a flowing session whose sink never reports
      backpressure deliver its next buffered chunks, one per notification, in
      order. */
  lemma {:induction false} AcceptingSinkDeliversInOrder(w: World, j: nat, t: seq<Event>)
    requires w.mode == DataEvents && j < |w.flows| && !w.flows[j].sourcePaused
    requires |t| <= |w.flows[j].pending|
    requires forall k :: 0 <= k < |t| ==> t[k] == Data(j, true)
    ensures Run(w, t).flows[j].written == w.flows[j].written + w.flows[j].pending[..|t|]
    ensures Run(w, t).flows[j].pending == w.flows[j].pending[|t|..]
    ensures !Run(w, t).flows[j].sourcePaused
  {
    var n := |t|;
    if n > 0 {
      var s := t[..n - 1];
      AcceptingSinkDeliversInOrder(w, j, s);
      var q := Run(w, s);
      var p := w.flows[j].pending;
      assert t[n - 1] == Data(j, true);
      assert DataEnabled(q.flows[j]);
      assert p[..n] == p[..n - 1] + [p[n - 1]];
      assert p[n - 1..] == [p[n - 1]] + p[n..];
    }
  }

  /** The shared `proxyPipe` from the start: its counters are the totals of
      what every attached session contributed, and every backend received its
      session's byte stream as a prefix, in order. */
  lemma ProxyPipeTotals(mode: Mode, buffered: seq<seq<Chunk>>, t: seq<Event>)
    ensures var r := Run(Start(mode, buffered), t);
      && r.relay.piped == Total(r.flows, WrittenBytes)
      && (mode == DataEvents ==> r.relay.events == Total(r.flows, WrittenChunks) && !r.relay.paused)
      && (mode == ReadableEvents ==>
            r.relay.events == ReadableCount(t, |buffered|) && Total(r.flows, WrittenChunks) <= r.relay.events)
      && forall j :: 0 <= j < |buffered| ==>
           Concat(r.flows[j].written) + Concat(r.flows[j].pending) == Concat(buffered[j] + Arrivals(t, j))
  {
    var w := Start(mode, buffered);
    var r := Run(w, t);
    TotalZero(w.flows, WrittenBytes);
    TotalZero(w.flows, WrittenChunks);
    RunPiped(w, t);
    if mode == DataEvents {
      RunDataEvents(w, t);
    } else {
      RunReadableEvents(w, t);
    }
    forall j | 0 <= j < |buffered|
      ensures Concat(r.flows[j].written) + Concat(r.flows[j].pending) == Concat(buffered[j] + Arrivals(t, j))
    {
      RunConserves(w, t, j);
      assert [] + buffered[j] == buffered[j];
      ConcatAppend(r.flows[j].written, r.flows[j].pending);
    }
  }

  /** A backend's share of `piped` is the length of the byte stream it
      received, and never more than its session's source ever received. */
  lemma BackendBytesBounded(mode: Mode, buffered: seq<seq<Chunk>>, t: seq<Event>, j: nat)
    requires j < |buffered|
    ensures var f := Run(Start(mode, buffered), t).flows[j];
      && WrittenBytes(f) == |Concat(f.written)|
      && WrittenBytes(f) <= TotalLength(buffered[j] + Arrivals(t, j))
  {
    var f := Run(Start(mode, buffered), t).flows[j];
    ProxyPipeTotals(mode, buffered, t);
    ConcatLength(f.written);
    ConcatLength(buffered[j] + Arrivals(t, j));
  }

  /** The marker the load-test clients send over and over: the ASCII bytes of
      "xzvzcvz4239472398472383294dasfad". */
  const Packet: Chunk := [120, 122, 118, 122, 99, 118, 122, 52, 50, 51, 57, 52, 55, 50, 51, 57,
                          56, 52, 55, 50, 51, 56, 51, 50, 57, 52, 100, 97, 115, 102, 97, 100]

  lemma {:induction false} TotalLengthCopies(c: Chunk, k: nat)
    ensures TotalLength(seq(k, _ => c)) == k * |c|
  {
    if k > 0 {
      assert seq(k, _ => c)[..k - 1] == seq(k - 1, _ => c);
      TotalLengthCopies(c, k - 1);
    }
  }

  /** One session, data mode, ten marker packets buffered and a backend that
      never reports backpressure: ten `data` notifications forward all ten
      packets in order, with `piped` at 320 bytes and `events` at 10. */
  lemma ScenarioTenPackets()
    ensures var r := Run(Start(DataEvents, [seq(10, _ => Packet)]), seq(10, _ => Data(0, true)));
      && r.flows[0].written == seq(10, _ => Packet)
      && r.relay.piped == 320 && r.relay.events == 10
  {
    var packets := seq(10, _ => Packet);
    var w := Start(DataEvents, [packets]);
    var t := seq(10, _ => Data(0, true));
    AcceptingSinkDeliversInOrder(w, 0, t);
    var r := Run(w, t);
    assert packets[..10] == packets;
    ProxyPipeTotals(DataEvents, [packets], t);
    assert r.flows == [r.flows[0]];
    assert Total(r.flows, WrittenBytes) == WrittenBytes(r.flows[0]);
    assert Total(r.flows, WrittenChunks) == WrittenChunks(r.flows[0]);
    TotalLengthCopies(Packet, 10);
  }
}
