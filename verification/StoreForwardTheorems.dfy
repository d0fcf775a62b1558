// What the store-and-forward protocol promises over whole runs.
module StoreForwardTheorems {
  import opened Tallies
  import opened Events
  import opened Fifo
  import opened StoreForward
  import opened StoreForwardProofs

  // No loss. In every reachable state, every event that reached publishEvent is
  // acknowledged, in the file, with a handler, evicted by capacity, lost by a failed
  // Add, or lost from a handler when the agent died; and this is an exact count.
  lemma NoLoss(cfg: Config, file: seq<Event>, run: seq<Step>, e: Event)
    requires Exec(cfg, Boot(file), run).Some?
    ensures var s := Exec(cfg, Boot(file), run).value;
            s.arrived[e] == s.ackedLive[e] + TimesReplayed(s.removed, e)
                            + multiset(s.file)[e] + InHandlers(s, e)
                            + TimesEvicted(s.removed, e) + s.lostAdd[e] + s.lostCrash[e]
  {
    BootKeeps(cfg, file, e);
    RunKeeps(cfg, Boot(file), run, e);
    var s := Exec(cfg, Boot(file), run).value;
    RemovalsSplit(s.removed, e);
    assert multiset(s.log)[e] == multiset(Erase(s.removed))[e] + multiset(s.file)[e];
  }

  // How often an event was acknowledged for good: by its handler or by a replay that
  // also left the file.
  ghost function FinalSuccesses(s: State, e: Event): nat {
    s.ackedLive[e] + TimesReplayed(s.removed, e)
  }

  // Exact delivery count.
  lemma DeliveryCount(cfg: Config, file: seq<Event>, run: seq<Step>, e: Event)
    requires Exec(cfg, Boot(file), run).Some?
    ensures var s := Exec(cfg, Boot(file), run).value;
            && multiset(s.broker)[e] == FinalSuccesses(s, e) + s.phantom[e] + s.redelivered[e] + InFlight(s, e)
            && FinalSuccesses(s, e) <= s.arrived[e]
  {
    BootKeeps(cfg, file, e);
    RunKeeps(cfg, Boot(file), run, e);
    NoLoss(cfg, file, run, e);
  }

  lemma AwaitsBelowOwns(ps: seq<Proc>, e: Event)
    ensures Total(Awaits(e), ps) <= Total(Owns(e), ps)
  {
    TotalBelow(Awaits(e), Owns(e), ps);
  }

  // The messages in flight belong to events that are still in the file or with a
  // handler.
  lemma FlightHasOwner(cfg: Config, s: State, e: Event)
    requires HolderOk(cfg, s)
    ensures InFlight(s, e) <= multiset(s.file)[e] + InHandlers(s, e)
  {
    AwaitsBelowOwns(s.procs, e);
    match s.holder
    case Draining(evs, i, _) =>
      PrefixBelow(evs, i, e);
      if i < |evs| {
        OneMore(evs, i, e);
        PrefixBelow(evs, i + 1, e);
      }
    case Writing(DrainJob(all, done), _, _) => PrefixBelow(all, done, e);
    case _ =>
  }

  lemma PrefixBelow(evs: seq<Event>, i: nat, e: Event)
    requires i <= |evs|
    ensures multiset(evs[..i])[e] <= multiset(evs)[e]
  {
    assert evs == evs[..i] + evs[i..];
    assert multiset(evs) == multiset(evs[..i]) + multiset(evs[i..]);
  }

  // At most once per arrival, but for failed-but-delivered publishes and replays that
  // were not removed from the file.
  lemma AtMostOnce(cfg: Config, file: seq<Event>, run: seq<Step>, e: Event)
    requires Exec(cfg, Boot(file), run).Some?
    ensures var s := Exec(cfg, Boot(file), run).value;
            multiset(s.broker)[e] <= s.arrived[e] + s.phantom[e] + s.redelivered[e]
  {
    BootKeeps(cfg, file, e);
    RunKeeps(cfg, Boot(file), run, e);
    NoLoss(cfg, file, run, e);
    FlightHasOwner(cfg, Exec(cfg, Boot(file), run).value, e);
  }

  // ----- the buffer is a bounded queue ----------------------------------------

  lemma RenameBound(cfg: Config, s: State)
    requires HolderOk(cfg, s) && |s.file| <= cfg.max && RenameTemp(cfg, s).Some?
    ensures |RenameTemp(cfg, s).value.file| <= cfg.max
  {
    match s.holder.job
    case AddJob(_) =>
    case DrainJob(_, _) =>
  }

  lemma DiskBound(cfg: Config, s: State, d: DiskStep)
    requires HolderOk(cfg, s) && |s.file| <= cfg.max && Disk(cfg, s, d).Some?
    ensures |Disk(cfg, s, d).value.file| <= cfg.max
  {
    match d
    case Rename => RenameBound(cfg, s);
    case Remove =>
    case WriteFails(_) =>
    case _ =>
  }

  lemma AdvanceFile(cfg: Config, s: State, who: Who, m: Move)
    requires Advance(cfg, s, who, m).Some?
    ensures Advance(cfg, s, who, m).value.file == s.file
  {
  }

  lemma StepBound(cfg: Config, s: State, step: Step)
    requires WellFormed(cfg, s) && |s.file| <= cfg.max && Next(cfg, s, step).Some?
    ensures |Next(cfg, s, step).value.file| <= cfg.max
  {
    match step
    case Network(who, m) => AdvanceFile(cfg, s, who, m);
    case Return(who, r) => LeaveBooks(s, who, r);
    case Buffer(d) => DiskBound(cfg, s, d);
    case _ =>
  }

  lemma {:induction false} RunBound(cfg: Config, s: State, run: seq<Step>)
    requires WellFormed(cfg, s) && |s.file| <= cfg.max && Exec(cfg, s, run).Some?
    ensures |Exec(cfg, s, run).value.file| <= cfg.max
    decreases |run|
  {
    if run != [] {
      StepShape(cfg, s, run[0]);
      StepBound(cfg, s, run[0]);
      RunBound(cfg, Next(cfg, s, run[0]).value, run[1..]);
    }
  }

  // In every reachable state, disk errors and crashes included, the file is the
  // newest part of the log of Adds and within capacity; what went before it left in
  // that order, by replay or by eviction.
  lemma BoundedFifo(cfg: Config, file: seq<Event>, run: seq<Step>)
    requires |file| <= cfg.max && Exec(cfg, Boot(file), run).Some?
    ensures var s := Exec(cfg, Boot(file), run).value;
            s.log == Erase(s.removed) + s.file && |s.file| <= cfg.max
  {
    var e := Event("", ZERO, ZERO, "", Reading("", ZERO, ZERO, ZERO, ZERO), ZERO);
    BootKeeps(cfg, file, e);
    RunKeeps(cfg, Boot(file), run, e);
    RunBound(cfg, Boot(file), run);
  }

  // ----- events without a way to the broker ---------------------------------------

  predicate BrokerClean(cfg: Config, s: State) {
    forall i :: 0 <= i < |s.broker| ==> Routable(cfg, s.broker[i])
  }

  lemma NetworkClean(cfg: Config, s: State, who: Who, m: Move)
    requires WellFormed(cfg, s) && BrokerClean(cfg, s) && Advance(cfg, s, who, m).Some?
    ensures BrokerClean(cfg, Advance(cfg, s, who, m).value)
  {
    RequestOk(cfg, s, who);
  }

  lemma StepClean(cfg: Config, s: State, step: Step)
    requires WellFormed(cfg, s) && BrokerClean(cfg, s) && Next(cfg, s, step).Some?
    ensures BrokerClean(cfg, Next(cfg, s, step).value)
  {
    match step
    case Network(who, m) => NetworkClean(cfg, s, who, m);
    case Return(who, r) => LeaveBroker(s, who, r);
    case Buffer(d) => DiskBroker(cfg, s, d);
    case _ =>
  }

  lemma LeaveBroker(s: State, who: Who, r: Return)
    requires Leave(s, who, r).Some?
    ensures Leave(s, who, r).value.broker == s.broker
  {
  }

  lemma DiskBroker(cfg: Config, s: State, d: DiskStep)
    requires Disk(cfg, s, d).Some?
    ensures Disk(cfg, s, d).value.broker == s.broker
  {
  }

  lemma {:induction false} RunClean(cfg: Config, s: State, run: seq<Step>)
    requires WellFormed(cfg, s) && BrokerClean(cfg, s) && Exec(cfg, s, run).Some?
    ensures BrokerClean(cfg, Exec(cfg, s, run).value)
    decreases |run|
  {
    if run != [] {
      StepShape(cfg, s, run[0]);
      StepClean(cfg, s, run[0]);
      RunClean(cfg, Next(cfg, s, run[0]).value, run[1..]);
    }
  }

  // Over either transport, an event without a way to the broker is never delivered and
  // never leaves the buffer by replay; once buffered it leaves by eviction only.
  lemma RejectedStays(cfg: Config, file: seq<Event>, run: seq<Step>, e: Event)
    requires !Routable(cfg, e) && Exec(cfg, Boot(file), run).Some?
    ensures var s := Exec(cfg, Boot(file), run).value;
            && e !in s.broker && FinalSuccesses(s, e) == 0
            && s.arrived[e] == multiset(s.file)[e] + InHandlers(s, e)
                               + TimesEvicted(s.removed, e) + s.lostAdd[e] + s.lostCrash[e]
  {
    BootKeeps(cfg, file, e);
    RunClean(cfg, Boot(file), run);
    DeliveryCount(cfg, file, run, e);
    NoLoss(cfg, file, run, e);
    var s := Exec(cfg, Boot(file), run).value;
    assert e !in multiset(s.broker);
  }

  // What a running drain has got past, the broker has.
  lemma PassedIsDelivered(s: State, k: nat)
    requires s.holder.Draining? && s.holder.i <= |s.holder.evs| && k < s.holder.i
    requires DeliveriesCounted(s, s.holder.evs[k])
    ensures s.holder.evs[k] in s.broker
  {
    var e, passed := s.holder.evs[k], s.holder.evs[..s.holder.i];
    assert passed[k] == e;
    assert multiset(passed)[e] > 0 && multiset(s.broker)[e] >= multiset(passed)[e];
  }

  // Head of line: no drain gets past such an event, so nothing behind it is
  // replayed while it is in the file.
  lemma RejectedBlocks(cfg: Config, file: seq<Event>, run: seq<Step>, k: nat)
    requires Exec(cfg, Boot(file), run).Some?
    requires var s := Exec(cfg, Boot(file), run).value;
             && k < |s.file| && !Routable(cfg, s.file[k]) && s.holder.Draining?
    ensures Exec(cfg, Boot(file), run).value.holder.i <= k
  {
    var s := Exec(cfg, Boot(file), run).value;
    BootKeeps(cfg, file, s.file[k]);
    RunKeeps(cfg, Boot(file), run, s.file[k]);
    RunClean(cfg, Boot(file), run);
    if k < s.holder.i {
      PassedIsDelivered(s, k);
    }
  }
}
