// The link state of the CoAP uplink (edge-agent/coap.go): critical sections as
// methods of the uplink, and all their interleavings as a state machine.
module CoapLink {
  import opened Wrappers
  import Receiver

  // Sockets are numbered in the order they are dialled.
  type Sock = nat

  // What the uplink's mutex protects, and the Close calls made so far.
  datatype Link = Link(conn: Option<Sock>, up: bool, closed: seq<Sock>)

  // ----- critical sections ----------------------------------------------------

  function MarkDown(l: Link, failed: Sock): Link {
    if l.conn == Some(failed) then Link(None, false, l.closed + [failed]) else l.(up := false)
  }

  function MarkUp(l: Link, sock: Sock): Link {
    var replaced := if l.conn.Some? && l.conn != Some(sock) then [l.conn.value] else [];
    Link(Some(sock), true, l.closed + replaced)
  }

  function Shut(l: Link): Link {
    Link(None, false, l.closed + (if l.conn.Some? then [l.conn.value] else []))
  }

  datatype Reply = Failed | Answered(code: Receiver.Code)

  // What the network does next; a parameter of the methods.
  datatype Outcome = Outcome(post: Reply, ping: bool, dial: bool)

  class CoapUplink {
    var conn: Option<Sock>
    var up: bool
    var lastOK: int
    var closed: seq<Sock>   // sockets on which Close was called
    var dialled: nat

    function Now(): Link
      reads this
    {
      Link(conn, up, closed)
    }

    constructor ()
      ensures Now() == Link(None, false, []) && dialled == 0
    {
      conn, up, lastOK, closed, dialled := None, false, 0, [], 0;
    }

    method Touch(now: int)
      modifies this`lastOK
      ensures lastOK == now
    {
      lastOK := now;
    }

    // Drop the failed connection so that the prober dials again.
    method DropFailed(failed: Sock)
      modifies this
      ensures Now() == MarkDown(old(Now()), failed) && dialled == old(dialled) && lastOK == old(lastOK)
    {
      if conn == Some(failed) {
        closed := closed + [failed];
        conn := None;
      }
      up := false;
    }

    // Install a healthy connection; true on a down-to-up edge, when onUp is to run.
    method Install(sock: Sock, now: int) returns (edge: bool)
      modifies this
      ensures Now() == MarkUp(old(Now()), sock) && dialled == old(dialled) && lastOK == now
      ensures edge == !old(up)
    {
      if conn.Some? && conn != Some(sock) {
        closed := closed + [conn.value];
      }
      conn := Some(sock);
      edge := !up;
      up := true;
      lastOK := now;
    }

    method Close()
      modifies this
      ensures Now() == Shut(old(Now())) && dialled == old(dialled)
    {
      if conn.Some? {
        closed := closed + [conn.value];
        conn := None;
      }
      up := false;
    }

    // Publish, when nothing else runs: an event is accepted exactly when it was
    // posted on a live link and answered with class 2; any answer keeps the link up.
    method Publish(o: Outcome, now: int) returns (ok: bool)
      modifies this
      ensures ok <==> old(up) && old(conn).Some? && o.post.Answered? && Receiver.IsSuccess(o.post.code)
      ensures Now() == if old(up) && old(conn).Some? && o.post.Failed?
                       then MarkDown(old(Now()), old(conn).value) else old(Now())
    {
      var sock, live := conn, up;
      if !live || sock.None? {
        return false;
      }
      if o.post.Failed? {
        DropFailed(sock.value);
        return false;
      }
      Touch(now);
      return Receiver.IsSuccess(o.post.code);
    }

    // One probe, when nothing else runs. A socket that does not answer is closed, and
    // the link comes up only on a socket that did.
    method Probe(o: Outcome, now: int, interval: int) returns (edge: bool)
      modifies this
      ensures old(up) && now - old(lastOK) < interval ==> Now() == old(Now()) && !edge
      ensures old(up) && now - old(lastOK) >= interval && old(conn).Some? ==>
                !edge && Now() == if o.ping then old(Now()) else MarkDown(old(Now()), old(conn).value)
      ensures !old(up) ==>
                && edge == (o.dial && o.ping)
                && Now() == (if !o.dial then old(Now())
                             else if o.ping then MarkUp(old(Now()), old(dialled))
                             else old(Now()).(closed := old(closed) + [old(dialled)]))
      ensures dialled == old(dialled) || dialled == old(dialled) + 1
    {
      var sock, live, last := conn, up, lastOK;
      edge := false;
      if live && now - last < interval {
        return;
      }
      if live && sock.Some? {
        if o.ping {
          Touch(now);
        } else {
          DropFailed(sock.value);
        }
        return;
      }
      if !o.dial {
        return;
      }
      var next := dialled;
      dialled := dialled + 1;
      if !o.ping {
        closed := closed + [next];
        return;
      }
      edge := Install(next, now);
    }
  }

  // ----- interleavings ----------------------------------------------------------

  // A publisher after it has looked at the link state.
  datatype Publisher = Posting(sock: Sock) | PostFailed(sock: Sock) | Done

  // The probe loop between two critical sections, network calls or channel operations.
  datatype Prober =
    | Due                   // about to probe
    | Selecting             // back from a probe, about to look for `done` and a tick
    | Parked                // waiting for either
    | Gone                  // has returned
    | Pinging(sock: Sock)   // the installed socket, as it was
    | Lost(sock: Sock)      // it did not answer; markDown is next
    | Dialling
    | Dialled(sock: Sock)   // a socket of its own, being pinged
    | Dead(sock: Sock)      // it did not answer; Close is next
    | Healthy(sock: Sock)   // it answered; markUp is next
    | Announcing            // markUp saw a down-to-up edge; onUp is next

  datatype State = State(
    link: Link, dialled: nat, prober: Prober, publishers: seq<Publisher>,
    tick: bool,   // a tick is in the ticker's channel, which has room for one
    done: bool,   // the channel `done` is closed
    edges: nat,   // times `up` went from false to true
    fired: nat)   // times onUp was started

  const START := State(Link(None, false, []), 0, Due, [], false, false, 0, 0)

  datatype Step =
    | BeginPublish
    | PostFails(i: nat)
    | PostAnswered(i: nat)
    | PublisherMarksDown(i: nat)
    | BeginProbe(recent: bool)
    | Ping(ok: bool)
    | ProberMarksDown
    | Dial(ok: bool)
    | CloseDead
    | ProberMarksUp
    | Announce
    | Tick
    | Turn(onTick: bool)   // what the select takes: a tick or `done`, at random if both are there
    | Park
    | CloseDone            // the first half of Close
    | CloseUplink          // and the second, under the mutex

  function PublisherStep(s: State, step: Step): Option<State> {
    match step
    case BeginPublish =>
      if s.link.up && s.link.conn.Some?
      then Some(s.(publishers := s.publishers + [Posting(s.link.conn.value)])) else Some(s)
    case PostFails(i) =>
      if i < |s.publishers| && s.publishers[i].Posting?
      then Some(s.(publishers := s.publishers[i := PostFailed(s.publishers[i].sock)])) else None
    case PostAnswered(i) =>
      if i < |s.publishers| && s.publishers[i].Posting?
      then Some(s.(publishers := s.publishers[i := Done])) else None
    case PublisherMarksDown(i) =>
      if i < |s.publishers| && s.publishers[i].PostFailed?
      then Some(s.(publishers := s.publishers[i := Done], link := MarkDown(s.link, s.publishers[i].sock)))
      else None
    case _ => None
  }

  function ProbeStep(s: State, step: Step): Option<State> {
    match step
    case BeginProbe(recent) =>
      if !s.prober.Due? then None
      else if s.link.up && recent then Some(s.(prober := Selecting))
      else if s.link.up && s.link.conn.Some? then Some(s.(prober := Pinging(s.link.conn.value)))
      else Some(s.(prober := Dialling))
    case Ping(ok) => (
      match s.prober
      case Pinging(x) => Some(s.(prober := if ok then Selecting else Lost(x)))
      case Dialled(x) => Some(s.(prober := if ok then Healthy(x) else Dead(x)))
      case _ => None)
    case ProberMarksDown =>
      if s.prober.Lost? then Some(s.(prober := Selecting, link := MarkDown(s.link, s.prober.sock))) else None
    case Dial(ok) =>
      if !s.prober.Dialling? then None
      else if ok then Some(s.(prober := Dialled(s.dialled), dialled := s.dialled + 1))
      else Some(s.(prober := Selecting))
    case CloseDead =>
      if s.prober.Dead?
      then Some(s.(prober := Selecting, link := s.link.(closed := s.link.closed + [s.prober.sock]))) else None
    case ProberMarksUp =>
      if s.prober.Healthy?
      then Some(s.(prober := if s.link.up then Selecting else Announcing, link := MarkUp(s.link, s.prober.sock)))
      else None
    case Announce => if s.prober.Announcing? then Some(s.(prober := Selecting, fired := s.fired + 1)) else None
    case _ => None
  }

  // The loop around the probes, and Close.
  function LoopStep(s: State, step: Step): Option<State> {
    match step
    case Tick =>
      if s.prober.Gone? then None
      else if s.prober.Parked? then Some(s.(prober := Due))
      else Some(s.(tick := true))
    case Turn(onTick) =>
      if !s.prober.Selecting? then None
      else if onTick then if s.tick then Some(s.(prober := Due, tick := false)) else None
      else if s.done then Some(s.(prober := Gone)) else None
    case Park =>
      if s.prober.Selecting? && !s.tick && !s.done then Some(s.(prober := Parked)) else None
    case CloseDone => Some(s.(done := true, prober := if s.prober.Parked? then Gone else s.prober))
    case CloseUplink => Some(s.(link := Shut(s.link)))
    case _ => None
  }

  predicate ByPublisher(step: Step) {
    step.BeginPublish? || step.PostFails? || step.PostAnswered? || step.PublisherMarksDown?
  }

  predicate OfLoop(step: Step) {
    step.Tick? || step.Turn? || step.Park? || step.CloseDone? || step.CloseUplink?
  }

  function Move(s: State, step: Step): Option<State> {
    if ByPublisher(step) then PublisherStep(s, step) else if OfLoop(step) then LoopStep(s, step) else ProbeStep(s, step)
  }

  // Edges are observed from outside, whatever step caused them.
  function Next(s: State, step: Step): Option<State> {
    var t := Move(s, step);
    if t.Some? && !s.link.up && t.value.link.up then Some(t.value.(edges := t.value.edges + 1)) else t
  }

  function Exec(s: State, run: seq<Step>): Option<State>
    decreases |run|
  {
    if run == [] then Some(s)
    else
      var t := Next(s, run[0]);
      if t.None? then None else Exec(t.value, run[1..])
  }

  // ----- what every run keeps -----------------------------------------------------

  predicate HeldByProbe(p: Prober, x: Sock) {
    (p.Dialled? || p.Dead? || p.Healthy?) && p.sock == x
  }

  function TimesClosed(l: Link, x: Sock): nat {
    multiset(l.closed)[x]
  }

  // Every dialled socket is in exactly one place: installed, held by the running
  // probe, or closed, once.
  predicate Placed(s: State, x: Sock) {
    (if s.link.conn == Some(x) then 1 else 0) + (if HeldByProbe(s.prober, x) then 1 else 0) + TimesClosed(s.link, x)
    == if x < s.dialled then 1 else 0
  }

  predicate Inv(s: State, x: Sock) {
    && (s.link.up ==> s.link.conn.Some?)
    && Placed(s, x)
    && s.edges == s.fired + (if s.prober.Announcing? then 1 else 0)
  }

  lemma ClosedOneMore(l: seq<Sock>, y: Sock, x: Sock)
    ensures multiset(l + [y])[x] == multiset(l)[x] + (if x == y then 1 else 0)
  {
  }

  // What a critical section does to one socket: installed plus closed is kept, except
  // that markUp brings a socket in.
  lemma SectionsPlace(l: Link, y: Sock, x: Sock)
    ensures (if MarkDown(l, y).conn == Some(x) then 1 else 0) + TimesClosed(MarkDown(l, y), x)
            == (if l.conn == Some(x) then 1 else 0) + TimesClosed(l, x)
    ensures (if Shut(l).conn == Some(x) then 1 else 0) + TimesClosed(Shut(l), x)
            == (if l.conn == Some(x) then 1 else 0) + TimesClosed(l, x)
    ensures l.conn != Some(y) ==>
              (if MarkUp(l, y).conn == Some(x) then 1 else 0) + TimesClosed(MarkUp(l, y), x)
              == (if l.conn == Some(x) then 1 else 0) + TimesClosed(l, x) + (if x == y then 1 else 0)
  {
    ClosedOneMore(l.closed, y, x);
    if l.conn.Some? {
      ClosedOneMore(l.closed, l.conn.value, x);
    } else {
      assert l.closed + [] == l.closed;
    }
  }

  predicate TouchesLink(step: Step) {
    step.PublisherMarksDown? || step.ProberMarksDown? || step.CloseDead? || step.ProberMarksUp? || step.CloseUplink?
  }

  lemma QuietKeeps(s: State, step: Step, x: Sock)
    requires Inv(s, x) && Next(s, step).Some? && !TouchesLink(step)
    ensures Inv(Next(s, step).value, x)
  {
    if ByPublisher(step) {
      assert Next(s, step).value == s.(publishers := Next(s, step).value.publishers);
    } else if OfLoop(step) {
      LoopKeeps(s, step, x);
    } else {
      ProbeKeeps(s, step, x);
    }
  }

  lemma LoopKeeps(s: State, step: Step, x: Sock)
    requires Inv(s, x) && LoopStep(s, step).Some? && !step.CloseUplink?
    ensures Inv(LoopStep(s, step).value, x) && LoopStep(s, step).value.link == s.link
  {
  }

  lemma ProbeKeeps(s: State, step: Step, x: Sock)
    requires Inv(s, x) && ProbeStep(s, step).Some? && !TouchesLink(step)
    ensures Inv(ProbeStep(s, step).value, x) && ProbeStep(s, step).value.link == s.link
  {
  }

  lemma MarkUpKeeps(s: State, x: Sock)
    requires Inv(s, x) && s.prober.Healthy? && Inv(s, s.prober.sock)
    ensures Inv(Next(s, ProberMarksUp).value, x)
  {
    SectionsPlace(s.link, s.prober.sock, x);
  }

  lemma ReportKeeps(s: State, i: nat, x: Sock)
    requires Inv(s, x) && Next(s, PublisherMarksDown(i)).Some?
    ensures Inv(Next(s, PublisherMarksDown(i)).value, x)
  {
    SectionsPlace(s.link, s.publishers[i].sock, x);
  }

  lemma MarkDownKeeps(s: State, y: Sock, x: Sock)
    requires Inv(s, x) && s.prober == Lost(y)
    ensures Inv(Next(s, ProberMarksDown).value, x)
  {
    SectionsPlace(s.link, y, x);
    LostDropped(s, y);
  }

  lemma LostDropped(s: State, y: Sock)
    requires s.prober == Lost(y)
    ensures Next(s, ProberMarksDown) == Some(s.(prober := Selecting, link := MarkDown(s.link, y)))
  {
  }

  lemma CloseDeadKeeps(s: State, x: Sock)
    requires Inv(s, x) && s.prober.Dead?
    ensures Inv(Next(s, CloseDead).value, x)
  {
    ClosedOneMore(s.link.closed, s.prober.sock, x);
  }

  lemma ShutKeeps(s: State, x: Sock)
    requires Inv(s, x)
    ensures Inv(Next(s, CloseUplink).value, x)
  {
    SectionsPlace(s.link, x, x);
  }

  lemma StepKeeps(s: State, step: Step, x: Sock)
    requires Inv(s, x) && Next(s, step).Some?
    requires s.prober.Healthy? ==> Inv(s, s.prober.sock)
    ensures Inv(Next(s, step).value, x)
  {
    match step
    case PublisherMarksDown(i) => ReportKeeps(s, i, x);
    case ProberMarksDown => MarkDownKeeps(s, s.prober.sock, x);
    case CloseDead => CloseDeadKeeps(s, x);
    case ProberMarksUp => MarkUpKeeps(s, x);
    case CloseUplink => ShutKeeps(s, x);
    case _ => QuietKeeps(s, step, x);
  }

  lemma {:induction false} RunKeeps(s: State, run: seq<Step>, x: Sock)
    requires (forall y :: Inv(s, y)) && Exec(s, run).Some?
    ensures Inv(Exec(s, run).value, x)
    decreases |run|
  {
    if run == [] {
      assert Inv(s, x);
    } else {
      forall y ensures Inv(Next(s, run[0]).value, y) {
        StepKeeps(s, run[0], y);
      }
      RunKeeps(Next(s, run[0]).value, run[1..], x);
    }
  }

  // The link invariant, for every interleaving of publishers, prober and Close.
  lemma LinkInvariant(run: seq<Step>, x: Sock)
    requires Exec(START, run).Some?
    ensures var s := Exec(START, run).value;
            && (s.link.up ==> s.link.conn.Some?)
            && (x < s.dialled ==> s.link.conn == Some(x) || HeldByProbe(s.prober, x) || TimesClosed(s.link, x) == 1)
            && TimesClosed(s.link, x) <= 1
            && (s.link.conn == Some(x) ==> TimesClosed(s.link, x) == 0)
            && s.fired <= s.edges <= s.fired + 1
            && (!s.prober.Announcing? ==> s.fired == s.edges)
  {
    forall y ensures Inv(START, y) {
    }
    RunKeeps(START, run, x);
  }

  // A stale report closes nothing: the only socket a publisher or the prober closes
  // by markDown is the one that failed.
  lemma StaleReportClosesNothing(s: State, step: Step, failed: Sock, x: Sock)
    requires Next(s, step).Some?
    requires (step.PublisherMarksDown? && s.publishers[step.i].sock == failed)
             || (step.ProberMarksDown? && s.prober.sock == failed)
    ensures var t := Next(s, step).value;
            && (x != failed ==> TimesClosed(t.link, x) == TimesClosed(s.link, x))
            && (s.link.conn != Some(failed) ==> t.link.closed == s.link.closed && t.link.conn == s.link.conn)
            && !t.link.up
  {
  }

  lemma First(s: State, step: Step, rest: seq<Step>)
    requires Next(s, step).Some?
    ensures Exec(s, [step] + rest) == Exec(Next(s, step).value, rest)
  {
    assert ([step] + rest)[1..] == rest;
  }

  // A run for the rest, with one step before it.
  lemma Then(s: State, step: Step, t: State, rest: seq<Step>, end: Option<State>) returns (run: seq<Step>)
    requires Next(s, step) == Some(t) && Exec(t, rest) == end
    ensures Exec(s, run) == end
  {
    First(s, step, rest);
    run := [step] + rest;
  }

  lemma TickComes(s: State, rest: seq<Step>, end: Option<State>) returns (run: seq<Step>)
    requires s.prober.Selecting? && !s.tick && Exec(s.(prober := Due), rest) == end
    ensures Exec(s, run) == end
  {
    run := Then(s.(tick := true), Turn(true), s.(prober := Due), rest, end);
    run := Then(s, Tick, s.(tick := true), run, end);
  }

  // The state after a new socket has come up.
  function Up(s: State): State {
    s.(prober := Selecting, link := Link(Some(s.dialled), true, s.link.closed), dialled := s.dialled + 1,
       edges := s.edges + 1, fired := s.fired + 1)
  }

  // A dial that works out, from a link that is down with nothing installed.
  lemma Reconnects(s: State, rest: seq<Step>, end: Option<State>) returns (run: seq<Step>)
    requires s.prober.Due? && !s.link.up && s.link.conn.None? && Exec(Up(s), rest) == end
    ensures Exec(s, run) == end
  {
    var s2 := s.(prober := Dialled(s.dialled), dialled := s.dialled + 1);
    run := ComesUp(s2, s.dialled, rest, end);
    run := DialsOut(s, run, end);
  }

  lemma DialsOut(s: State, rest: seq<Step>, end: Option<State>) returns (run: seq<Step>)
    requires s.prober.Due? && !s.link.up
    requires Exec(s.(prober := Dialled(s.dialled), dialled := s.dialled + 1), rest) == end
    ensures Exec(s, run) == end
  {
    var t := s.(prober := Dialling);
    run := Then(t, Dial(true), t.(prober := Dialled(s.dialled), dialled := s.dialled + 1), rest, end);
    run := Then(s, BeginProbe(false), t, run, end);
  }

  lemma ComesUp(s: State, x: Sock, rest: seq<Step>, end: Option<State>) returns (run: seq<Step>)
    requires s.prober == Dialled(x) && !s.link.up && s.link.conn.None?
    requires Exec(s.(prober := Selecting, link := Link(Some(x), true, s.link.closed),
                     edges := s.edges + 1, fired := s.fired + 1), rest) == end
    ensures Exec(s, run) == end
  {
    var s3 := s.(prober := Healthy(x));
    var s4 := s.(prober := Announcing, link := Link(Some(x), true, s.link.closed), edges := s.edges + 1);
    Announces(s4);
    run := Then(s4, Announce, s4.(prober := Selecting, fired := s.fired + 1), rest, end);
    MarksUp(s3, x);
    run := Then(s3, ProberMarksUp, s4, run, end);
    run := Then(s, Ping(true), s3, run, end);
  }

  lemma Announces(s: State)
    requires s.prober.Announcing?
    ensures Next(s, Announce) == Some(s.(prober := Selecting, fired := s.fired + 1))
  {
  }

  lemma MarksUp(s: State, x: Sock)
    requires s.prober == Healthy(x) && !s.link.up && s.link.conn.None?
    ensures Next(s, ProberMarksUp)
            == Some(s.(prober := Announcing, link := Link(Some(x), true, s.link.closed), edges := s.edges + 1))
  {
    assert s.link.closed + [] == s.link.closed;
  }

  // Two publishers post on the same socket, and both posts fail.
  lemma TwoPostsFail(s: State, x: Sock, rest: seq<Step>, end: Option<State>) returns (run: seq<Step>)
    requires s.publishers == [] && s.link.up && s.link.conn == Some(x)
    requires Exec(s.(publishers := [PostFailed(x), PostFailed(x)]), rest) == end
    ensures Exec(s, run) == end
  {
    var b := s.(publishers := [Posting(x)]);
    var c := s.(publishers := [Posting(x), Posting(x)]);
    var d := s.(publishers := [PostFailed(x), Posting(x)]);
    assert [] + [Posting(x)] == b.publishers && b.publishers + [Posting(x)] == c.publishers;
    assert c.publishers[0 := PostFailed(x)] == d.publishers;
    assert d.publishers[1 := PostFailed(x)] == [PostFailed(x), PostFailed(x)];
    run := Then(d, PostFails(1), s.(publishers := [PostFailed(x), PostFailed(x)]), rest, end);
    run := Then(c, PostFails(0), d, run, end);
    run := Then(b, BeginPublish, c, run, end);
    run := Then(s, BeginPublish, b, run, end);
  }

  ghost predicate HealthyButDown(end: Option<State>) {
    end.Some? && end.value.link == Link(Some(1), false, [0]) && end.value.dialled == 2
  }

  // It does take the newer link down, though. Two posts fail on socket 0; the first
  // report drops it, socket 1 comes up, and the second report leaves that healthy
  // socket installed with `up` false.
  lemma StaleReportTakesLinkDown() returns (run: seq<Step>)
    ensures HealthyButDown(Exec(START, run))
  {
    var a := Up(START);
    run := Reports(a.(publishers := [PostFailed(0), PostFailed(0)]));
    var end := Exec(a.(publishers := [PostFailed(0), PostFailed(0)]), run);
    run := TwoPostsFail(a, 0, run, end);
    run := Reconnects(START, run, end);
  }

  // Both reports, and a new socket between them.
  lemma Reports(s: State) returns (run: seq<Step>)
    requires s.prober.Selecting? && !s.tick && s.dialled == 1
    requires s.publishers == [PostFailed(0), PostFailed(0)] && s.link == Link(Some(0), true, [])
    ensures HealthyButDown(Exec(s, run))
  {
    var t := s.(publishers := [Done, PostFailed(0)], link := Link(None, false, [0]));
    var end: Option<State>;
    run, end := Replaced(t);
    assert s.publishers[0 := Done] == t.publishers && [] + [0] == [0];
    run := Then(s, PublisherMarksDown(0), t, run, end);
  }

  lemma Replaced(s: State) returns (run: seq<Step>, end: Option<State>)
    requires s.prober.Selecting? && !s.tick && s.dialled == 1
    requires s.publishers == [Done, PostFailed(0)] && s.link == Link(None, false, [0])
    ensures Exec(s, run) == end && HealthyButDown(end)
  {
    var due := s.(prober := Due);
    run, end := SecondReport(Up(due));
    run := Reconnects(due, run, end);
    run := TickComes(s, run, end);
  }

  lemma SecondReport(s: State) returns (run: seq<Step>, end: Option<State>)
    requires s.publishers == [Done, PostFailed(0)] && s.link == Link(Some(1), true, [0]) && s.dialled == 2
    ensures Exec(s, run) == end && HealthyButDown(end)
  {
    var t := s.(publishers := [Done, Done], link := Link(Some(1), false, [0]));
    assert s.publishers[1 := Done] == t.publishers;
    end := Some(t);
    run := Then(s, PublisherMarksDown(1), t, [], end);
  }

  // ----- after Close ------------------------------------------------------------------

  // Some run from s brings the link up.
  ghost predicate CanComeUp(s: State) {
    exists run :: Exec(s, run).Some? && Exec(s, run).value.link.up
  }

  lemma Before(s: State, step: Step)
    requires Next(s, step).Some? && CanComeUp(Next(s, step).value)
    ensures CanComeUp(s)
  {
    var run :| Exec(Next(s, step).value, run).Some? && Exec(Next(s, step).value, run).value.link.up;
    First(s, step, run);
    assert Exec(s, [step] + run).Some? && Exec(s, [step] + run).value.link.up;
  }

  // A healthy socket is installed whether or not the uplink has been closed.
  lemma HealthyComesUp(s: State)
    requires s.prober.Healthy?
    ensures CanComeUp(s)
  {
    var t := Next(s, ProberMarksUp).value;
    assert Exec(t, []) == Some(t) && t.link.up;
    Before(s, ProberMarksUp);
  }

  lemma DueComesUp(s: State)
    requires !s.link.up && (s.prober.Due? || s.prober.Dialling? || s.prober.Dialled?)
    ensures CanComeUp(s)
    decreases if s.prober.Due? then 2 else if s.prober.Dialling? then 1 else 0
  {
    match s.prober
    case Due =>
      DueComesUp(Next(s, BeginProbe(false)).value);
      Before(s, BeginProbe(false));
    case Dialling =>
      DueComesUp(Next(s, Dial(true)).value);
      Before(s, Dial(true));
    case Dialled(_) =>
      HealthyComesUp(Next(s, Ping(true)).value);
      Before(s, Ping(true));
  }

  // A tick that comes before the select looks is as good as `done`.
  lemma SelectingComesUp(s: State)
    requires !s.link.up && s.prober.Selecting?
    ensures CanComeUp(s)
  {
    var t := Next(s, Tick).value;
    DueComesUp(Next(t, Turn(true)).value);
    Before(t, Turn(true));
    Before(s, Tick);
  }

  lemma LoopComesUp(s: State)
    requires !s.link.up && !s.prober.Parked? && !s.prober.Gone?
    ensures CanComeUp(s)
  {
    match s.prober
    case Selecting => SelectingComesUp(s);
    case Pinging(_) =>
      SelectingComesUp(Next(s, Ping(true)).value);
      Before(s, Ping(true));
    case Lost(_) =>
      SelectingComesUp(Next(s, ProberMarksDown).value);
      Before(s, ProberMarksDown);
    case Dead(_) =>
      SelectingComesUp(Next(s, CloseDead).value);
      Before(s, CloseDead);
    case Announcing =>
      SelectingComesUp(Next(s, Announce).value);
      Before(s, Announce);
    case Healthy(_) => HealthyComesUp(s);
    case _ => DueComesUp(s);
  }

  lemma {:induction false} GoneStays(s: State, run: seq<Step>)
    requires s.prober.Gone? && Exec(s, run).Some?
    ensures var t := Exec(s, run).value; t.prober.Gone? && (t.link.up ==> s.link.up)
    decreases |run|
  {
    if run != [] {
      GoneStays(Next(s, run[0]).value, run[1..]);
    }
  }

  // After a Close that begins in s, with anything between its halves and after it, the
  // link is down.
  ghost predicate KeepsDown(s: State, between: seq<Step>, after: seq<Step>) {
    var t := Exec(s, [CloseDone] + between);
    t.Some? ==>
      var u := Exec(Next(t.value, CloseUplink).value, after);
      u.Some? ==> !u.value.link.up
  }

  lemma ParkedKeepsDown(s: State, between: seq<Step>, after: seq<Step>)
    requires s.prober.Parked? || s.prober.Gone?
    ensures KeepsDown(s, between, after)
  {
    var gone := Next(s, CloseDone).value;
    First(s, CloseDone, between);
    if Exec(gone, between).Some? {
      GoneStays(gone, between);
      var shut := Next(Exec(gone, between).value, CloseUplink).value;
      if Exec(shut, after).Some? {
        GoneStays(shut, after);
      }
    }
  }

  // Close does not wait for the probe loop. It keeps the link down for good if and only
  // if the loop is waiting for its next tick when Close begins, or has already returned.
  // At any other moment the loop can still bring a new socket up: a probe under way goes
  // on, and its select may find a tick as well as `done`.
  lemma StaysDownIff(s: State)
    ensures (forall between, after :: KeepsDown(s, between, after)) <==> s.prober.Parked? || s.prober.Gone?
  {
    if s.prober.Parked? || s.prober.Gone? {
      forall between, after
        ensures KeepsDown(s, between, after)
      {
        ParkedKeepsDown(s, between, after);
      }
    } else {
      var done := Next(s, CloseDone).value;
      var shut := Next(done, CloseUplink).value;
      LoopComesUp(shut);
      var after :| Exec(shut, after).Some? && Exec(shut, after).value.link.up;
      First(s, CloseDone, []);
      assert Exec(done, []) == Some(done);
      assert !KeepsDown(s, [], after);
    }
  }
}
