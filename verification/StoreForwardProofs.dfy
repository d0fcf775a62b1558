// What every run of the store-and-forward protocol keeps.
module StoreForwardProofs {
  import opened Wrappers
  import opened Tallies
  import opened Events
  import opened Fifo
  import opened StoreForward
  import Receiver

  // ----- shape --------------------------------------------------------------

  // Success is only ever answered for an event the broker has, and the broker has none
  // without a way to it.
  predicate PhaseOk(cfg: Config, ev: Event, at: Phase) {
    && (at.Reply? && Receiver.IsSuccess(at.code) ==> at.stored)
    && (cfg.transport.Coap? && at.AtReceiver? ==> Receiver.Acceptable(ev))
    && (Stored(at) ==> Routable(cfg, ev))
  }

  predicate ProcOk(cfg: Config, p: Proc) {
    p.Sending? || p.Stray? ==> PhaseOk(cfg, p.ev, p.at)
  }

  predicate TempOk(evs: seq<Event>, progress: Progress, temp: Option<seq<Event>>) {
    match progress
    case Start => true
    case Lines(n) => n <= |evs| && temp == Some(evs[..n])
    case Closed => temp == Some(evs)
  }

  predicate HolderOk(cfg: Config, s: State) {
    match s.holder
    case Free => true
    case Adding(_) => true
    case Draining(evs, i, at) =>
      && evs == s.file && i <= |evs|
      && (i == |evs| ==> at.NotSent?)
      && (i < |evs| ==> PhaseOk(cfg, evs[i], at))
    case Writing(AddJob(ev), evs, progress) =>
      evs == Capped(s.file + [ev], cfg.max) && TempOk(evs, progress, s.temp)
    case Writing(DrainJob(all, done), evs, progress) =>
      all == s.file && done <= |all| && evs == all[done..] && TempOk(evs, progress, s.temp)
  }

  // Whoever has got past reading the file found that it can be read.
  predicate ReadOk(s: State) {
    s.holder.Draining? || s.holder.Writing? ==> Readable(s)
  }

  predicate WellFormed(cfg: Config, s: State) {
    && HolderOk(cfg, s) && ReadOk(s)
    && forall i :: 0 <= i < |s.procs| ==> ProcOk(cfg, s.procs[i])
  }

  lemma PutShape(cfg: Config, s: State, who: Who, at: Phase)
    requires WellFormed(cfg, s) && Request(s, who).Some? && PhaseOk(cfg, Request(s, who).value.0, at)
    ensures WellFormed(cfg, Put(s, who, at))
  {
  }

  lemma HopOk(cfg: Config, up: bool, ev: Event, at: Phase, m: Move)
    requires PhaseOk(cfg, ev, at) && Hop(cfg, up, ev, at, m).Some?
    ensures PhaseOk(cfg, ev, Hop(cfg, up, ev, at, m).value)
  {
  }

  lemma AdvanceShape(cfg: Config, s: State, who: Who, m: Move)
    requires WellFormed(cfg, s) && Advance(cfg, s, who, m).Some?
    ensures WellFormed(cfg, Advance(cfg, s, who, m).value)
  {
    RequestOk(cfg, s, who);
    var (ev, at) := Request(s, who).value;
    HopOk(cfg, s.up, ev, at, m);
    PutShape(cfg, s, who, Hop(cfg, s.up, ev, at, m).value);
  }

  lemma ResumeShape(cfg: Config, s: State, who: Who, ok: bool)
    requires WellFormed(cfg, s) && Request(s, who).Some? && !IsStray(s, who)
    ensures WellFormed(cfg, Resume(s, who, ok))
  {
  }

  lemma LeaveShape(cfg: Config, s: State, who: Who, r: Return)
    requires WellFormed(cfg, s) && Leave(s, who, r).Some?
    ensures WellFormed(cfg, Leave(s, who, r).value)
  {
    RequestOk(cfg, s, who);
    ResumeShape(cfg, s, who, Verdict(s.up, Request(s, who).value.1, r).value);
  }

  lemma RequestOk(cfg: Config, s: State, who: Who)
    requires WellFormed(cfg, s) && Request(s, who).Some?
    ensures PhaseOk(cfg, Request(s, who).value.0, Request(s, who).value.1)
  {
  }

  lemma AppendLineShape(cfg: Config, s: State)
    requires WellFormed(cfg, s)
    ensures AppendLine(s).Some? ==> WellFormed(cfg, AppendLine(s).value)
    ensures FinishTemp(s).Some? ==> WellFormed(cfg, FinishTemp(s).value)
  {
    if s.holder.Writing? && s.holder.progress.Lines? {
      var evs, n := s.holder.evs, s.holder.progress.n;
      assert n < |evs| ==> evs[..n] + [evs[n]] == evs[..n + 1];
      assert n == |evs| ==> evs[..n] == evs;
    }
  }

  lemma DiskShape(cfg: Config, s: State, d: DiskStep)
    requires WellFormed(cfg, s) && Disk(cfg, s, d).Some?
    ensures WellFormed(cfg, Disk(cfg, s, d).value)
  {
    AppendLineShape(cfg, s);
  }

  lemma {:induction false} OrphansShape(cfg: Config, ps: seq<Proc>)
    requires forall i :: 0 <= i < |ps| ==> ProcOk(cfg, ps[i])
    ensures forall i :: 0 <= i < |ps| ==> ProcOk(cfg, Orphans(ps)[i])
  {
    if ps != [] {
      OrphansShape(cfg, ps[1..]);
    }
  }

  lemma CrashShape(cfg: Config, s: State)
    requires WellFormed(cfg, s)
    ensures WellFormed(cfg, Crash(s))
  {
    OrphansShape(cfg, s.procs);
  }

  // ----- conservation, for one event ------------------------------------------

  // The buffer is a queue: what was added is what has left, in order, followed by
  // what is in the file, in order.
  ghost predicate Queue(s: State) {
    s.log == Erase(s.removed) + s.file
  }

  function Owns(e: Event): Proc -> nat {
    (p: Proc) => if (p.Sending? || p.Failed?) && p.ev == e then 1 else 0
  }

  function Awaits(e: Event): Proc -> nat {
    (p: Proc) => if p.Sending? && Stored(p.at) && p.ev == e then 1 else 0
  }

  ghost function InHandlers(s: State, e: Event): nat {
    Total(Owns(e), s.procs) + HeldByLock(s.holder)[e]
  }

  // Every event that reached publishEvent is accounted for, exactly.
  ghost predicate NothingLost(s: State, e: Event) {
    s.arrived[e] == s.ackedLive[e] + InHandlers(s, e) + multiset(s.log)[e] + s.lostAdd[e] + s.lostCrash[e]
  }

  // Logged by the broker, its caller or its drain not yet done with it.
  ghost function InFlight(s: State, e: Event): nat {
    Total(Awaits(e), s.procs) + Replaying(s.holder)[e] + PendingRequest(s.holder)[e]
  }

  // Every message the broker has logged is accounted for, exactly.
  ghost predicate DeliveriesCounted(s: State, e: Event) {
    multiset(s.broker)[e]
    == s.ackedLive[e] + TimesReplayed(s.removed, e) + s.phantom[e] + s.redelivered[e] + InFlight(s, e)
  }

  ghost predicate Accounted(s: State, e: Event) {
    Queue(s) && NothingLost(s, e) && DeliveriesCounted(s, e)
  }

  // One more process that owns and awaits nothing.
  lemma Spawn(ps: seq<Proc>, qs: seq<Proc>, e: Event)
    requires |qs| <= 1
    requires forall q :: q in qs ==> q.Stray?
    ensures Total(Owns(e), ps + qs) == Total(Owns(e), ps) && Total(Awaits(e), ps + qs) == Total(Awaits(e), ps)
  {
    if qs == [] {
      assert ps + qs == ps;
    } else {
      assert qs[0] in qs && qs == [qs[0]];
      TotalSnoc(Owns(e), ps, qs[0]);
      TotalSnoc(Awaits(e), ps, qs[0]);
    }
  }

  lemma ProcChanges(ps: seq<Proc>, i: nat, p: Proc, e: Event)
    requires i < |ps|
    ensures Total(Owns(e), ps[i := p]) + Owns(e)(ps[i]) == Total(Owns(e), ps) + Owns(e)(p)
    ensures Total(Awaits(e), ps[i := p]) + Awaits(e)(ps[i]) == Total(Awaits(e), ps) + Awaits(e)(p)
  {
    TotalUpdate(Owns(e), ps, i, p);
    TotalUpdate(Awaits(e), ps, i, p);
  }

  // A step that adds nothing to the buffer's books.
  lemma SameBooks(s: State, t: State, e: Event)
    requires Accounted(s, e)
    requires t.file == s.file && t.log == s.log && t.removed == s.removed
    requires t.lostAdd == s.lostAdd && t.lostCrash == s.lostCrash && t.redelivered == s.redelivered
    requires t.arrived[e] + s.ackedLive[e] + InHandlers(s, e) == s.arrived[e] + t.ackedLive[e] + InHandlers(t, e)
    requires multiset(t.broker)[e] + s.ackedLive[e] + s.phantom[e] + InFlight(s, e)
             == multiset(s.broker)[e] + t.ackedLive[e] + t.phantom[e] + InFlight(t, e)
    ensures Accounted(t, e)
  {
  }

  // What a request with a waiting caller adds to the messages in flight.
  function Waiting(s: State, who: Who, at: Phase, e: Event): nat
    requires Request(s, who).Some?
  {
    if Stored(at) && !IsStray(s, who) && Request(s, who).value.0 == e then 1 else 0
  }

  lemma PutOwns(s: State, who: Who, at: Phase, e: Event)
    requires Request(s, who).Some?
    ensures InHandlers(Put(s, who, at), e) == InHandlers(s, e)
  {
    if who.P? {
      ProcChanges(s.procs, who.i, s.procs[who.i].(at := at), e);
    }
  }

  lemma PutFlightProc(s: State, i: nat, at: Phase, e: Event)
    requires Request(s, P(i)).Some?
    ensures InFlight(Put(s, P(i), at), e) + Waiting(s, P(i), s.procs[i].at, e)
            == InFlight(s, e) + Waiting(s, P(i), at, e)
  {
    ProcChanges(s.procs, i, s.procs[i].(at := at), e);
  }

  lemma PutFlight(s: State, who: Who, at: Phase, e: Event)
    requires Request(s, who).Some?
    ensures InFlight(Put(s, who, at), e) + Waiting(s, who, Request(s, who).value.1, e)
            == InFlight(s, e) + Waiting(s, who, at, e)
  {
    if who.P? {
      PutFlightProc(s, who.i, at, e);
    }
  }

  // A request is logged by the broker once, while its caller waits or afterwards.
  lemma HopDelivers(cfg: Config, s: State, who: Who, m: Move, e: Event)
    requires Advance(cfg, s, who, m).Some?
    ensures var t := Advance(cfg, s, who, m).value;
            var at' := Hop(cfg, s.up, Request(s, who).value.0, Request(s, who).value.1, m).value;
            multiset(t.broker)[e] + s.phantom[e] + Waiting(s, who, Request(s, who).value.1, e)
            == multiset(s.broker)[e] + t.phantom[e] + Waiting(s, who, at', e)
  {
  }

  lemma AdvanceBalances(cfg: Config, s: State, who: Who, m: Move, e: Event)
    requires Advance(cfg, s, who, m).Some?
    ensures var t := Advance(cfg, s, who, m).value;
            && InHandlers(t, e) == InHandlers(s, e)
            && multiset(t.broker)[e] + s.phantom[e] + InFlight(s, e)
               == multiset(s.broker)[e] + t.phantom[e] + InFlight(t, e)
  {
    var (ev, at) := Request(s, who).value;
    var at' := Hop(cfg, s.up, ev, at, m).value;
    PutOwns(s, who, at', e);
    PutFlight(s, who, at', e);
    HopDelivers(cfg, s, who, m, e);
    LeftoverOwnsNothing(cfg, s, who, m, e);
  }

  lemma LeftoverOwnsNothing(cfg: Config, s: State, who: Who, m: Move, e: Event)
    requires Advance(cfg, s, who, m).Some?
    ensures var t := Advance(cfg, s, who, m).value;
            var u := Put(s, who, Hop(cfg, s.up, Request(s, who).value.0, Request(s, who).value.1, m).value);
            InHandlers(t, e) == InHandlers(u, e) && InFlight(t, e) == InFlight(u, e)
  {
    var (ev, at) := Request(s, who).value;
    Spawn(Put(s, who, Hop(cfg, s.up, ev, at, m).value).procs, Leftover(ev, at, m), e);
  }

  lemma AdvanceAccounts(cfg: Config, s: State, who: Who, m: Move, e: Event)
    requires Accounted(s, e) && Advance(cfg, s, who, m).Some?
    ensures Accounted(Advance(cfg, s, who, m).value, e)
  {
    AdvanceBalances(cfg, s, who, m, e);
    SameBooks(s, Advance(cfg, s, who, m).value, e);
  }

  // A publish that succeeds settles one message in flight; one that fails hands its
  // event on.
  lemma ResumeProc(s: State, i: nat, ok: bool, e: Event)
    requires Request(s, P(i)).Some? && s.procs[i].Sending? && (ok ==> Stored(s.procs[i].at))
    ensures var t := Resume(s, P(i), ok);
            && InHandlers(t, e) + t.ackedLive[e] == InHandlers(s, e) + s.ackedLive[e]
            && t.ackedLive[e] + InFlight(t, e) + (if ok then 0 else Waiting(s, P(i), s.procs[i].at, e))
               == s.ackedLive[e] + InFlight(s, e)
  {
    ProcChanges(s.procs, i, if ok then Finished else Failed(s.procs[i].ev), e);
  }

  lemma OneMore(evs: seq<Event>, i: nat, e: Event)
    requires i < |evs|
    ensures multiset(evs[..i + 1])[e] == multiset(evs[..i])[e] + (if evs[i] == e then 1 else 0)
  {
    assert evs[..i + 1] == evs[..i] + [evs[i]];
  }

  lemma ResumeDrain(s: State, ok: bool, e: Event)
    requires Request(s, D).Some? && (ok ==> Stored(s.holder.at))
    ensures var t := Resume(s, D, ok);
            && InHandlers(t, e) == InHandlers(s, e)
            && InFlight(t, e) + (if ok then 0 else Waiting(s, D, s.holder.at, e)) == InFlight(s, e)
  {
    OneMore(s.holder.evs, s.holder.i, e);
  }

  lemma SettleBalances(t: State, ev: Event, at: Phase, ok: bool, r: Return, e: Event)
    ensures var u := Settle(t, ev, at, ok, r);
            && InHandlers(u, e) == InHandlers(t, e) && InFlight(u, e) == InFlight(t, e)
            && u.phantom[e] == t.phantom[e] + (if !ok && Stored(at) && ev == e then 1 else 0)
  {
    Spawn(t.procs, if r.Unanswered? then [Stray(ev, at)] else [], e);
    SettlePhantom(t.phantom, ev, e);
  }

  lemma SettlePhantom(phantom: multiset<Event>, ev: Event, e: Event)
    ensures (phantom + multiset{ev})[e] == phantom[e] + (if ev == e then 1 else 0)
  {
  }

  lemma ResumeAccounts(s: State, who: Who, ok: bool, e: Event)
    requires Request(s, who).Some? && !IsStray(s, who) && (ok ==> Stored(Request(s, who).value.1))
    ensures var t := Resume(s, who, ok);
            && t.file == s.file && t.log == s.log && t.removed == s.removed && t.broker == s.broker
            && t.arrived == s.arrived && t.phantom == s.phantom
            && t.lostAdd == s.lostAdd && t.lostCrash == s.lostCrash && t.redelivered == s.redelivered
            && InHandlers(t, e) + t.ackedLive[e] == InHandlers(s, e) + s.ackedLive[e]
            && t.ackedLive[e] + InFlight(t, e) + (if ok then 0 else Waiting(s, who, Request(s, who).value.1, e))
               == s.ackedLive[e] + InFlight(s, e)
  {
    match who
    case P(i) => ResumeProc(s, i, ok, e);
    case D => ResumeDrain(s, ok, e);
  }

  lemma LeaveBalances(cfg: Config, s: State, who: Who, r: Return, e: Event)
    requires WellFormed(cfg, s) && Leave(s, who, r).Some?
    ensures var t := Leave(s, who, r).value;
            && t.arrived[e] + s.ackedLive[e] + InHandlers(s, e) == s.arrived[e] + t.ackedLive[e] + InHandlers(t, e)
            && multiset(t.broker)[e] + s.ackedLive[e] + s.phantom[e] + InFlight(s, e)
               == multiset(s.broker)[e] + t.ackedLive[e] + t.phantom[e] + InFlight(t, e)
  {
    RequestOk(cfg, s, who);
    var (ev, at) := Request(s, who).value;
    var ok := Verdict(s.up, at, r).value;
    ResumeAccounts(s, who, ok, e);
    SettleBalances(Resume(s, who, ok), ev, at, ok, r, e);
  }

  lemma LeaveBooks(s: State, who: Who, r: Return)
    requires Leave(s, who, r).Some?
    ensures var t := Leave(s, who, r).value;
            && t.file == s.file && t.log == s.log && t.removed == s.removed
            && t.lostAdd == s.lostAdd && t.lostCrash == s.lostCrash && t.redelivered == s.redelivered
  {
  }

  lemma LeaveAccounts(cfg: Config, s: State, who: Who, r: Return, e: Event)
    requires WellFormed(cfg, s) && Accounted(s, e) && Leave(s, who, r).Some?
    ensures Accounted(Leave(s, who, r).value, e)
  {
    LeaveBalances(cfg, s, who, r, e);
    LeaveBooks(s, who, r);
    SameBooks(s, Leave(s, who, r).value, e);
  }

  lemma CommitQueue(cfg: Config, s: State, temp: Option<seq<Event>>)
    requires HolderOk(cfg, s) && Queue(s) && s.holder.Writing?
    ensures Queue(Commit(cfg, s, s.holder.evs, temp))
  {
    match s.holder.job
    case AddJob(ev) => AddQueue(s.removed, s.log, s.file, ev, cfg.max);
    case DrainJob(all, done) => DrainQueue(s.removed, s.log, all, done);
  }

  lemma CommitCounts(cfg: Config, s: State, temp: Option<seq<Event>>, e: Event)
    requires HolderOk(cfg, s) && NothingLost(s, e) && DeliveriesCounted(s, e) && s.holder.Writing?
    ensures var t := Commit(cfg, s, s.holder.evs, temp); NothingLost(t, e) && DeliveriesCounted(t, e)
  {
    match s.holder.job
    case AddJob(ev) =>
      var grown := s.file + [ev];
      var out := grown[..Overflow(grown, cfg.max)];
      RemovedMore(s.removed, Evictions(out), e);
      EvictionsCount(out, e);
    case DrainJob(all, done) =>
      RemovedMore(s.removed, Replays(all[..done]), e);
      ReplaysCount(all[..done], e);
  }

  lemma CommitAccounts(cfg: Config, s: State, temp: Option<seq<Event>>, e: Event)
    requires HolderOk(cfg, s) && Accounted(s, e) && s.holder.Writing?
    ensures Accounted(Commit(cfg, s, s.holder.evs, temp), e)
  {
    CommitQueue(cfg, s, temp);
    CommitCounts(cfg, s, temp, e);
  }

  lemma Joined(a: multiset<Event>, b: multiset<Event>, e: Event)
    ensures (a + b)[e] == a[e] + b[e]
  {
  }

  lemma AbortAccounts(s: State, left: bool, e: Event)
    requires Accounted(s, e) && s.holder.Writing? && JobFits(s.holder)
    ensures Accounted(Abort(s, left), e)
  {
    match s.holder.job
    case AddJob(ev) => AbortAddAccounts(s, left, ev, e);
    case DrainJob(all, done) => AbortDrainAccounts(s, left, all, done, e);
  }

  lemma AbortAddAccounts(s: State, left: bool, ev: Event, e: Event)
    requires Accounted(s, e) && s.holder.Writing? && s.holder.job == AddJob(ev)
    ensures Accounted(Abort(s, left), e)
  {
    Joined(s.lostAdd, multiset{ev}, e);
  }

  lemma AbortDrainAccounts(s: State, left: bool, all: seq<Event>, done: nat, e: Event)
    requires Accounted(s, e) && s.holder.Writing? && s.holder.job == DrainJob(all, done) && done <= |all|
    ensures Accounted(Abort(s, left), e)
  {
    Joined(s.redelivered, multiset(all[..done]), e);
    assert Replaying(s.holder) == multiset(all[..done]);
    assert Replaying(Free)[e] == 0;
  }

  lemma BeginAddAccounts(s: State, i: nat, e: Event)
    requires Accounted(s, e) && BeginAdd(s, i).Some?
    ensures Accounted(BeginAdd(s, i).value, e)
  {
    ProcChanges(s.procs, i, Finished, e);
    SameBooks(s, BeginAdd(s, i).value, e);
  }

  lemma AddReadAccounts(cfg: Config, s: State, e: Event)
    requires Accounted(s, e) && ReadForAdd(cfg, s).Some?
    ensures Accounted(ReadForAdd(cfg, s).value, e)
  {
    SameBooks(s, ReadForAdd(cfg, s).value, e);
  }

  lemma FailAddAccounts(s: State, e: Event)
    requires Accounted(s, e) && s.holder.Adding?
    ensures Accounted(FailAdd(s).value, e)
  {
    Joined(s.lostAdd, multiset{s.holder.ev}, e);
  }

  lemma BeginDrainAccounts(s: State, e: Event)
    requires Accounted(s, e) && BeginDrain(s).Some?
    ensures Accounted(BeginDrain(s).value, e)
  {
    SameBooks(s, BeginDrain(s).value, e);
  }

  lemma EndDrainAccounts(cfg: Config, s: State, e: Event)
    requires HolderOk(cfg, s) && Accounted(s, e) && EndDrain(s).Some?
    ensures Accounted(EndDrain(s).value, e)
  {
    assert s.holder.evs[..s.holder.i] == s.holder.evs;
    SameBooks(s, EndDrain(s).value, e);
  }

  // Writing the temporary file changes neither the buffer file nor the books.
  lemma CreateAccounts(s: State, e: Event)
    requires Accounted(s, e) && CreateTemp(s).Some?
    ensures Accounted(CreateTemp(s).value, e)
  {
    SameBooks(s, CreateTemp(s).value, e);
  }

  lemma AppendAccounts(s: State, e: Event)
    requires Accounted(s, e) && AppendLine(s).Some?
    ensures Accounted(AppendLine(s).value, e)
  {
    SameBooks(s, AppendLine(s).value, e);
  }

  lemma FinishAccounts(s: State, e: Event)
    requires Accounted(s, e) && FinishTemp(s).Some?
    ensures Accounted(FinishTemp(s).value, e)
  {
    SameBooks(s, FinishTemp(s).value, e);
  }

  lemma TempAccounts(cfg: Config, s: State, d: DiskStep, e: Event)
    requires Accounted(s, e) && Disk(cfg, s, d).Some?
    requires d.Create? || d.WriteLine? || d.CloseTemp?
    ensures Accounted(Disk(cfg, s, d).value, e)
  {
    match d
    case Create => CreateAccounts(s, e);
    case WriteLine => AppendAccounts(s, e);
    case CloseTemp => FinishAccounts(s, e);
  }

  lemma RenameAccounts(cfg: Config, s: State, e: Event)
    requires HolderOk(cfg, s) && Accounted(s, e) && RenameTemp(cfg, s).Some?
    ensures Accounted(RenameTemp(cfg, s).value, e)
  {
    assert s.temp == Some(s.holder.evs);
    CommitAccounts(cfg, s, None, e);
  }

  lemma RemoveAccounts(cfg: Config, s: State, e: Event)
    requires HolderOk(cfg, s) && Accounted(s, e) && RemoveFile(cfg, s).Some?
    ensures Accounted(RemoveFile(cfg, s).value, e)
  {
    CommitAccounts(cfg, s, s.temp, e);
  }

  lemma DiskAccounts(cfg: Config, s: State, d: DiskStep, e: Event)
    requires HolderOk(cfg, s) && Accounted(s, e) && Disk(cfg, s, d).Some?
    ensures Accounted(Disk(cfg, s, d).value, e)
  {
    match d
    case AddStart(i) => BeginAddAccounts(s, i, e);
    case AddReadFails => FailAddAccounts(s, e);
    case AddRead => AddReadAccounts(cfg, s, e);
    case DrainStart => BeginDrainAccounts(s, e);
    case DrainEnd => EndDrainAccounts(cfg, s, e);
    case Create => TempAccounts(cfg, s, d, e);
    case WriteLine => TempAccounts(cfg, s, d, e);
    case CloseTemp => TempAccounts(cfg, s, d, e);
    case Rename => RenameAccounts(cfg, s, e);
    case Remove => RemoveAccounts(cfg, s, e);
    case WriteFails(left) => AbortAccounts(s, left, e);
  }

  lemma {:induction false} OrphansCount(ps: seq<Proc>, e: Event)
    ensures Total(Owns(e), Orphans(ps)) == 0 && Total(Awaits(e), Orphans(ps)) == 0
    ensures All(Held, ps)[e] == Total(Owns(e), ps) && All(Pending, ps)[e] == Total(Awaits(e), ps)
  {
    if ps != [] {
      OrphansCount(ps[1..], e);
      assert Orphans(ps)[1..] == Orphans(ps[1..]);
    }
  }

  lemma CrashAccounts(cfg: Config, s: State, e: Event)
    requires WellFormed(cfg, s) && Accounted(s, e)
    ensures Accounted(Crash(s), e)
  {
    OrphansCount(s.procs, e);
    Spawn(Orphans(s.procs), DrainOrphan(s.holder), e);
  }

  // ----- every run ------------------------------------------------------------

  lemma StepShape(cfg: Config, s: State, step: Step)
    requires WellFormed(cfg, s) && Next(cfg, s, step).Some?
    ensures WellFormed(cfg, Next(cfg, s, step).value)
  {
    match step
    case Network(who, m) => AdvanceShape(cfg, s, who, m);
    case Return(who, r) => LeaveShape(cfg, s, who, r);
    case Buffer(d) => DiskShape(cfg, s, d);
    case Die => CrashShape(cfg, s);
    case _ =>
  }

  lemma ArriveAccounts(cfg: Config, s: State, ev: Event, e: Event)
    requires Accounted(s, e)
    ensures Accounted(Next(cfg, s, Arrive(ev)).value, e)
  {
    TotalSnoc(Owns(e), s.procs, Sending(ev, NotSent));
    TotalSnoc(Awaits(e), s.procs, Sending(ev, NotSent));
    SameBooks(s, Next(cfg, s, Arrive(ev)).value, e);
  }

  lemma DiscardAccounts(cfg: Config, s: State, i: nat, e: Event)
    requires Accounted(s, e) && Next(cfg, s, Discard(i)).Some?
    ensures Accounted(Next(cfg, s, Discard(i)).value, e)
  {
    ProcChanges(s.procs, i, Finished, e);
    SameBooks(s, Next(cfg, s, Discard(i)).value, e);
  }

  lemma StepAccounts(cfg: Config, s: State, step: Step, e: Event)
    requires WellFormed(cfg, s) && Accounted(s, e) && Next(cfg, s, step).Some?
    ensures Accounted(Next(cfg, s, step).value, e)
  {
    match step
    case Link(up) => SameBooks(s, s.(up := up), e);
    case Arrive(ev) => ArriveAccounts(cfg, s, ev, e);
    case Network(who, m) => AdvanceAccounts(cfg, s, who, m, e);
    case Return(who, r) => LeaveAccounts(cfg, s, who, r, e);
    case Discard(i) => DiscardAccounts(cfg, s, i, e);
    case Buffer(d) => DiskAccounts(cfg, s, d, e);
    case Die => CrashAccounts(cfg, s, e);
  }

  lemma {:induction false} RunKeeps(cfg: Config, s: State, run: seq<Step>, e: Event)
    requires WellFormed(cfg, s) && Accounted(s, e) && Exec(cfg, s, run).Some?
    ensures var t := Exec(cfg, s, run).value; WellFormed(cfg, t) && Accounted(t, e)
    decreases |run|
  {
    if run != [] {
      StepShape(cfg, s, run[0]);
      StepAccounts(cfg, s, run[0], e);
      RunKeeps(cfg, Next(cfg, s, run[0]).value, run[1..], e);
    }
  }

  lemma BootKeeps(cfg: Config, file: seq<Event>, e: Event)
    ensures WellFormed(cfg, Boot(file)) && Accounted(Boot(file), e)
  {
    assert Erase<Event>([]) == [];
  }
}
