// The steps of the CoAP uplink, run without interruption, do what its methods do
// (edge-agent/coap.go).
module CoapSteps {
  import opened Wrappers
  import opened CoapLink

  predicate OfProbe(step: Step) {
    !ByPublisher(step) && !OfLoop(step)
  }

  predicate ProbeRun(run: seq<Step>) {
    forall i :: 0 <= i < |run| ==> OfProbe(run[i])
  }

  lemma Ran(s: State, run: seq<Step>, t: State) returns (u: State)
    requires ProbeRun(run) && run != [] && Exec(s, run) == Some(t)
    ensures Next(s, run[0]) == Some(u) && Move(s, run[0]) == ProbeStep(s, run[0])
    ensures ProbeRun(run[1..]) && Exec(u, run[1..]) == Some(t)
  {
    assert OfProbe(run[0]);
    u := Next(s, run[0]).value;
  }

  // A finished probe does nothing more.
  lemma FromSelecting(s: State, run: seq<Step>, t: State)
    requires s.prober.Selecting? && ProbeRun(run) && Exec(s, run) == Some(t)
    ensures t == s
  {
    if run != [] {
      var u := Ran(s, run, t);
    }
  }

  lemma FromAnnouncing(s: State, run: seq<Step>, t: State)
    requires s.prober.Announcing? && t.prober.Selecting? && ProbeRun(run) && Exec(s, run) == Some(t)
    ensures t == s.(prober := Selecting, fired := s.fired + 1)
  {
    var u := Ran(s, run, t);
    FromSelecting(u, run[1..], t);
  }

  lemma FromHealthy(s: State, x: Sock, run: seq<Step>, t: State)
    requires s.prober == Healthy(x) && !s.link.up && t.prober.Selecting? && ProbeRun(run) && Exec(s, run) == Some(t)
    ensures t == s.(prober := Selecting, link := MarkUp(s.link, x), edges := s.edges + 1, fired := s.fired + 1)
  {
    var u := Ran(s, run, t);
    FromAnnouncing(u, run[1..], t);
  }

  lemma FromDead(s: State, x: Sock, run: seq<Step>, t: State)
    requires s.prober == Dead(x) && t.prober.Selecting? && ProbeRun(run) && Exec(s, run) == Some(t)
    ensures t == s.(prober := Selecting, link := s.link.(closed := s.link.closed + [x]))
  {
    var u := Ran(s, run, t);
    FromSelecting(u, run[1..], t);
  }

  lemma FromLost(s: State, x: Sock, run: seq<Step>, t: State)
    requires s.prober == Lost(x) && t.prober.Selecting? && ProbeRun(run) && Exec(s, run) == Some(t)
    ensures t == s.(prober := Selecting, link := MarkDown(s.link, x))
  {
    var u := Ran(s, run, t);
    LostDropped(s, x);
    FromSelecting(u, run[1..], t);
  }

  lemma FromPinging(s: State, x: Sock, run: seq<Step>, t: State)
    requires s.prober == Pinging(x) && t.prober.Selecting? && ProbeRun(run) && Exec(s, run) == Some(t)
    ensures exists o: Outcome :: t == s.(prober := Selecting, link := if o.ping then s.link else MarkDown(s.link, x))
  {
    var u := Ran(s, run, t);
    var o := Outcome(Failed, run[0].ok, false);
    if o.ping {
      FromSelecting(u, run[1..], t);
    } else {
      FromLost(u, x, run[1..], t);
    }
    assert t == s.(prober := Selecting, link := if o.ping then s.link else MarkDown(s.link, x));
  }

  predicate ComesUp(s: State, t: State, x: Sock) {
    t == s.(prober := Selecting, link := MarkUp(s.link, x), edges := s.edges + 1, fired := s.fired + 1)
  }

  predicate StaysDown(s: State, t: State, x: Sock) {
    t == s.(prober := Selecting, link := s.link.(closed := s.link.closed + [x]))
  }

  lemma FromDialled(s: State, x: Sock, run: seq<Step>, t: State)
    requires s.prober == Dialled(x) && !s.link.up && t.prober.Selecting? && ProbeRun(run) && Exec(s, run) == Some(t)
    ensures ComesUp(s, t, x) || StaysDown(s, t, x)
  {
    var u := Ran(s, run, t);
    if u.prober.Healthy? {
      FromHealthy(u, x, run[1..], t);
    } else {
      FromDead(u, x, run[1..], t);
    }
  }

  // What one probe leaves, by what the network did: `recent` says that the last exchange
  // was less than an interval ago.
  predicate Probed(s: State, t: State, o: Outcome, recent: bool) {
    && (s.link.up ==> s.link.conn.Some?)
    && t.prober.Selecting? && t.publishers == s.publishers && t.tick == s.tick && t.done == s.done
    && t.link == (if s.link.up then if recent || o.ping then s.link else MarkDown(s.link, s.link.conn.value)
                  else if !o.dial then s.link
                  else if o.ping then MarkUp(s.link, s.dialled)
                  else s.link.(closed := s.link.closed + [s.dialled]))
    && t.dialled == (if !s.link.up && o.dial then s.dialled + 1 else s.dialled)
    && t.edges - s.edges == t.fired - s.fired == (if !s.link.up && o.dial && o.ping then 1 else 0)
  }

  // Every run of one probe that nothing interrupts does what the method Probe does, for
  // some outcome of the network; so the two models of the uplink agree.
  lemma ProbeAlone(s: State, run: seq<Step>, t: State) returns (o: Outcome, recent: bool)
    requires s.prober.Due? && (s.link.up ==> s.link.conn.Some?)
    requires ProbeRun(run) && Exec(s, run) == Some(t) && t.prober.Selecting?
    ensures Probed(s, t, o, recent)
  {
    var u := Ran(s, run, t);
    recent := run[0].recent;
    o := Outcome(Failed, false, false);
    if s.link.up && recent {
      FromSelecting(u, run[1..], t);
    } else if s.link.up {
      FromPinging(u, s.link.conn.value, run[1..], t);
      o :| t == u.(prober := Selecting, link := if o.ping then u.link else MarkDown(u.link, s.link.conn.value));
    } else {
      o := DialAlone(s, u, run[1..], t);
    }
  }

  lemma DialAlone(s: State, u: State, run: seq<Step>, t: State) returns (o: Outcome)
    requires !s.link.up && s.prober.Due? && u == s.(prober := Dialling)
    requires ProbeRun(run) && Exec(u, run) == Some(t) && t.prober.Selecting?
    ensures Probed(s, t, o, false) && Probed(s, t, o, true)
  {
    var v := Ran(u, run, t);
    if v.prober.Dialled? {
      FromDialled(v, s.dialled, run[1..], t);
      o := Outcome(Failed, ComesUp(v, t, s.dialled), true);
    } else {
      FromSelecting(v, run[1..], t);
      o := Outcome(Failed, false, false);
    }
  }

  // And for every outcome of the network there is such a run.
  lemma ProbeRuns(s: State, o: Outcome, recent: bool) returns (run: seq<Step>, t: State)
    requires s.prober.Due? && (s.link.up ==> s.link.conn.Some?)
    ensures ProbeRun(run) && Exec(s, run) == Some(t) && Probed(s, t, o, recent)
  {
    var begun := Next(s, BeginProbe(recent)).value;
    if s.link.up && recent {
      run, t := [BeginProbe(recent)], begun;
      Single(s, BeginProbe(recent), t);
    } else if s.link.up {
      run, t := Pings(begun, o, s.link.conn.value);
      run := Prepended(s, BeginProbe(recent), begun, run, t);
    } else if !o.dial {
      t := Next(begun, Dial(false)).value;
      Single(begun, Dial(false), t);
      run := Prepended(s, BeginProbe(recent), begun, [Dial(false)], t);
    } else {
      var dialled := Next(begun, Dial(true)).value;
      run, t := Answers(dialled, o, s.dialled);
      run := Prepended(begun, Dial(true), dialled, run, t);
      run := Prepended(s, BeginProbe(recent), begun, run, t);
    }
  }

  lemma Single(s: State, step: Step, t: State)
    requires Next(s, step) == Some(t)
    ensures Exec(s, [step]) == Some(t)
  {
    assert [step][1..] == [];
    assert Exec(t, []) == Some(t);
  }

  lemma Prepended(s: State, step: Step, u: State, rest: seq<Step>, t: State) returns (run: seq<Step>)
    requires OfProbe(step) && ProbeRun(rest) && Next(s, step) == Some(u) && Exec(u, rest) == Some(t)
    ensures ProbeRun(run) && Exec(s, run) == Some(t)
  {
    run := [step] + rest;
    assert run[1..] == rest;
  }

  lemma Pings(s: State, o: Outcome, x: Sock) returns (run: seq<Step>, t: State)
    requires s.prober == Pinging(x)
    ensures ProbeRun(run) && Exec(s, run) == Some(t)
    ensures t == s.(prober := Selecting, link := if o.ping then s.link else MarkDown(s.link, x))
  {
    var u := Next(s, Ping(o.ping)).value;
    if o.ping {
      run, t := [Ping(true)], u;
      Single(s, Ping(true), t);
    } else {
      LostDropped(u, x);
      t := Next(u, ProberMarksDown).value;
      Single(u, ProberMarksDown, t);
      run := Prepended(s, Ping(false), u, [ProberMarksDown], t);
    }
  }

  lemma Answers(s: State, o: Outcome, x: Sock) returns (run: seq<Step>, t: State)
    requires s.prober == Dialled(x) && !s.link.up
    ensures ProbeRun(run) && Exec(s, run) == Some(t)
    ensures if o.ping then ComesUp(s, t, x) else StaysDown(s, t, x)
  {
    var u := Next(s, Ping(o.ping)).value;
    if o.ping {
      var v := Next(u, ProberMarksUp).value;
      t := Next(v, Announce).value;
      Single(v, Announce, t);
      run := Prepended(u, ProberMarksUp, v, [Announce], t);
    } else {
      t := Next(u, CloseDead).value;
      Single(u, CloseDead, t);
      run := [CloseDead];
    }
    run := Prepended(s, Ping(o.ping), u, run, t);
  }

  // ----- one publish --------------------------------------------------------------------

  predicate ByOne(step: Step, i: nat) {
    (step.PostFails? || step.PostAnswered? || step.PublisherMarksDown?) && step.i == i
  }

  predicate OneRun(run: seq<Step>, i: nat) {
    forall j :: 0 <= j < |run| ==> ByOne(run[j], i)
  }

  lemma OneStep(s: State, run: seq<Step>, t: State, i: nat) returns (u: State)
    requires OneRun(run, i) && run != [] && Exec(s, run) == Some(t)
    ensures Next(s, run[0]) == Some(u) && Move(s, run[0]) == PublisherStep(s, run[0]) && ByOne(run[0], i)
    ensures OneRun(run[1..], i) && Exec(u, run[1..]) == Some(t)
  {
    assert ByOne(run[0], i);
    u := Next(s, run[0]).value;
  }

  lemma FromDone(s: State, run: seq<Step>, t: State, i: nat)
    requires i < |s.publishers| && s.publishers[i].Done? && OneRun(run, i) && Exec(s, run) == Some(t)
    ensures t == s
  {
    if run != [] {
      var u := OneStep(s, run, t, i);
    }
  }

  // A publish that nothing interrupts: without a link it ends at once; otherwise a failed
  // post drops the link that it was made on, and an answer changes nothing.
  lemma PublishAlone(s: State, run: seq<Step>, t: State)
    requires s.link.up && s.link.conn.Some?
    requires var i := |s.publishers|; OneRun(run, i) && Exec(s, [BeginPublish] + run) == Some(t)
    requires |s.publishers| < |t.publishers| && t.publishers[|s.publishers|].Done?
    ensures t.link == s.link || t.link == MarkDown(s.link, s.link.conn.value)
    ensures t.link == MarkDown(s.link, s.link.conn.value) <==> run != [] && run[0].PostFails?
    ensures t.prober == s.prober && t.dialled == s.dialled && t.edges == s.edges && t.fired == s.fired
  {
    var i, x := |s.publishers|, s.link.conn.value;
    First(s, BeginPublish, run);
    var u := Next(s, BeginPublish).value;
    assert u.publishers[i] == Posting(x);
    var v := OneStep(u, run, t, i);
    if run[0].PostFails? {
      assert v == u.(publishers := u.publishers[i := PostFailed(x)]);
      var w := OneStep(v, run[1..], t, i);
      assert w == v.(publishers := v.publishers[i := Done], link := MarkDown(s.link, x));
      FromDone(w, run[1..][1..], t, i);
    } else {
      assert v == u.(publishers := u.publishers[i := Done]);
      FromDone(v, run[1..], t, i);
    }
  }

  // ----- the loop -----------------------------------------------------------------------

  lemma StepDone(s: State, step: Step, t: State)
    requires Next(s, step) == Some(t) && (s.prober.Gone? ==> s.done)
    ensures t.done == (s.done || step == CloseDone) && (t.prober.Gone? ==> t.done)
  {
  }

  lemma {:induction false} RunDone(s: State, run: seq<Step>, t: State)
    requires Exec(s, run) == Some(t) && (s.prober.Gone? ==> s.done)
    ensures t.done == (s.done || CloseDone in run) && (t.prober.Gone? ==> t.done)
    decreases |run|
  {
    if run != [] {
      var u := Next(s, run[0]).value;
      StepDone(s, run[0], u);
      RunDone(u, run[1..], t);
      assert run == [run[0]] + run[1..];
    }
  }

  // The probe loop returns only after a Close has begun: until then every tick finds it.
  lemma LoopEndsOnClose(run: seq<Step>, t: State)
    requires Exec(START, run) == Some(t) && t.prober.Gone?
    ensures CloseDone in run
  {
    RunDone(START, run, t);
  }

  // Once the loop has looked after a Close, it can return, and a parked one has.
  lemma LoopCanEnd(s: State)
    requires s.done
    ensures s.prober.Selecting? ==> Next(s, Turn(false)) == Some(s.(prober := Gone)) && Next(s, Park) == None
    ensures Next(s, CloseDone).Some? && !Next(s, CloseDone).value.prober.Parked?
  {
  }
}
