/** The process-wide count of secured sockets (`secured`) kept by
    `warnWhenSecure`. That function puts two `once` listeners on a socket, one
    for `secure` and one for `secureConnect`; each bumps the counter the first
    time its notification fires and logs a progress line when the new count is
    a multiple of 100. */
module Handshake {

  /** A progress line is logged every this many counted notifications. */
  const ProgressEvery: nat := 100

  datatype Kind = Secure | SecureConnect

  /** One listener running on a counter at `secured`: the new counter and
      whether it logs. A `once` listener that already ran has been removed, so
      the notification changes nothing. */
  function Fire(secured: nat, alreadyFired: bool): (nat, bool)
  {
    if alreadyFired then (secured, false)
    else (secured + 1, (secured + 1) % ProgressEvery == 0)
  }

  /** The two `once` listeners `warnWhenSecure(socket)` registers on one
      socket, each remembering whether it has run. */
  class Watch {
    var secureFired: bool
    var secureConnectFired: bool

    /** `warnWhenSecure(socket)`: both listeners are in place, neither has run. */
    constructor ()
      ensures !secureFired && !secureConnectFired
    {
      secureFired, secureConnectFired := false, false;
    }

    function Fired(kind: Kind): bool
      reads this
    {
      match kind
      case Secure => secureFired
      case SecureConnect => secureConnectFired
    }
  }

  /** Holder of the module-level `secured` counter. */
  class Tracker {
    var secured: nat

    constructor ()
      ensures secured == 0
    {
      secured := 0;
    }

    /** The socket watched by `w` fired `kind`; the result is whether the
        progress line is logged. */
    method Notify(w: Watch, kind: Kind) returns (logged: bool)
      modifies this, w
      ensures (secured, logged) == Fire(old(secured), old(w.Fired(kind)))
      ensures w.Fired(kind)
      ensures forall other: Kind :: other != kind ==> w.Fired(other) == old(w.Fired(other))
    {
      logged := false;
      if w.Fired(kind) {
        return;
      }
      match kind {
        case Secure => w.secureFired := true;
        case SecureConnect => w.secureConnectFired := true;
      }
      secured := secured + 1;
      if secured % ProgressEvery == 0 {
        logged := true;
      }
    }
  }

  /** A notification of `kind` on the socket numbered `socket`. */
  datatype Notification = Notification(socket: nat, kind: Kind)

  /** The counter, which listeners have run, and the counter values at which a
      progress line was logged, in order. */
  datatype Progress = Progress(secured: nat, fired: set<Notification>, lines: seq<nat>)

  /** The tracker after the notifications `t`, from process start. */
  function Track(t: seq<Notification>): Progress
  {
    if t == [] then Progress(0, {}, [])
    else
      var p := Track(t[..|t| - 1]);
      var n := t[|t| - 1];
      var (secured, logged) := Fire(p.secured, n in p.fired);
      Progress(secured, p.fired + {n}, if logged then p.lines + [secured] else p.lines)
  }

  /** The distinct notifications in `t`. */
  function Distinct(t: seq<Notification>): set<Notification>
  {
    set n | n in t
  }

  /** One more notification: it joins the fired set, and counts when new. */
  lemma TrackLast(t: seq<Notification>)
    requires t != []
    ensures var p, n := Track(t[..|t| - 1]), t[|t| - 1];
      && Track(t).fired == p.fired + {n}
      && Track(t).secured == if n in p.fired then p.secured else p.secured + 1
  {
  }

  /** The counter counts each distinct notification exactly once: repeats of a
      notification on the same socket are not counted. */
  lemma {:induction false} CountsDistinctNotifications(t: seq<Notification>)
    ensures Track(t).fired == Distinct(t)
    ensures Track(t).secured == |Distinct(t)|
  {
    if t != [] {
      var s, n := t[..|t| - 1], t[|t| - 1];
      assert t == s + [n];
      CountsDistinctNotifications(s);
      TrackLast(t);
      DistinctSnoc(s, n);
    }
  }

  lemma DistinctSnoc(s: seq<Notification>, n: Notification)
    ensures Distinct(s + [n]) == Distinct(s) + {n}
    ensures |Distinct(s + [n])| == if n in Distinct(s) then |Distinct(s)| else |Distinct(s)| + 1
  {
    forall x ensures x in Distinct(s + [n]) <==> x in Distinct(s) + {n} {
      assert x in s + [n] <==> x in s || x == n;
    }
    if n in Distinct(s) {
      assert Distinct(s) + {n} == Distinct(s);
    }
  }

  /** The values 1..n at which a progress line is due, in increasing order. */
  function DueLines(n: nat): seq<nat>
  {
    if n == 0 then [] else DueLines(n - 1) + (if n % ProgressEvery == 0 then [n] else [])
  }

  /** A line is logged exactly at each multiple of 100 the counter has reached. */
  lemma {:induction false} LogsAtDueLines(t: seq<Notification>)
    ensures Track(t).lines == DueLines(Track(t).secured)
  {
    if t != [] {
      LogsAtDueLines(t[..|t| - 1]);
    }
  }

  /** The due lines are exactly 100, 200, ..., one for each whole hundred. */
  lemma {:induction false} DueLinesAreMultiples(n: nat)
    ensures |DueLines(n)| == n / ProgressEvery
    ensures forall k :: 0 <= k < |DueLines(n)| ==> DueLines(n)[k] == ProgressEvery * (k + 1)
  {
    if n > 0 {
      DueLinesAreMultiples(n - 1);
      if n % ProgressEvery == 0 {
        assert n / ProgressEvery == (n - 1) / ProgressEvery + 1;
        assert n == ProgressEvery * ((n - 1) / ProgressEvery + 1);
      } else {
        assert n / ProgressEvery == (n - 1) / ProgressEvery;
      }
    }
  }

  /** The notifications of one socket in `t`. */
  function OfSocket(t: seq<Notification>, socket: nat): set<Notification>
  {
    set n | n in t && n.socket == socket
  }

  /** One socket adds one to the counter for each of its two notifications
      that fired, on top of what all other sockets add: so at most two, and
      two when both fired. */
  lemma SocketContributes(t: seq<Notification>, socket: nat)
    ensures |OfSocket(t, socket)| ==
            (if Notification(socket, Secure) in t then 1 else 0) +
            (if Notification(socket, SecureConnect) in t then 1 else 0)
    ensures |OfSocket(t, socket)| <= 2
    ensures Track(t).secured ==
            |Distinct(t) - OfSocket(t, socket)| +
            (if Notification(socket, Secure) in t then 1 else 0) +
            (if Notification(socket, SecureConnect) in t then 1 else 0)
  {
    CountsDistinctNotifications(t);
    assert OfSocket(t, socket) <= Distinct(t);
    assert Distinct(t) == (Distinct(t) - OfSocket(t, socket)) + OfSocket(t, socket);
    assert (Distinct(t) - OfSocket(t, socket)) * OfSocket(t, socket) == {};
    var a, b := Notification(socket, Secure), Notification(socket, SecureConnect);
    var both := (if a in t then {a} else {}) + (if b in t then {b} else {});
    forall n | n in OfSocket(t, socket) ensures n in both {
      match n.kind {
        case Secure => assert n == a;
        case SecureConnect => assert n == b;
      }
    }
    assert OfSocket(t, socket) == both;
  }
}
