// What the capacity of the buffer costs, over every run of the protocol
// (edge-agent/buffer.go, Add).
module StoreForwardCapacity {
  import opened Wrappers
  import opened Events
  import opened Fifo
  import opened StoreForward
  import opened StoreForwardProofs

  // The step completes an Add of ev: the file grows by it at the end, up to the capacity,
  // and loses the excess at the front.
  ghost predicate Completes(cfg: Config, s: State, t: State, ev: Event) {
    && t.log == s.log + [ev]
    && |t.file| == (if |s.file| < cfg.max then |s.file| + 1 else cfg.max)
    && t.file == (s.file + [ev])[|s.file| + 1 - |t.file|..]
    && t.removed == s.removed + Evictions((s.file + [ev])[..|s.file| + 1 - |t.file|])
  }

  // The step leaves the log alone and evicts nothing.
  ghost predicate EvictsNothing(s: State, t: State) {
    t.log == s.log && forall e: Event :: TimesEvicted(t.removed, e) == TimesEvicted(s.removed, e)
  }

  lemma CommitAdds(cfg: Config, s: State, ev: Event, temp: Option<seq<Event>>)
    requires HolderOk(cfg, s) && s.holder.Writing? && s.holder.job == AddJob(ev)
    ensures Completes(cfg, s, Commit(cfg, s, s.holder.evs, temp), ev)
  {
    AppendKeepsNewest(s.file, ev, cfg.max);
  }

  lemma CommitDrains(cfg: Config, s: State, all: seq<Event>, done: nat, temp: Option<seq<Event>>)
    requires HolderOk(cfg, s) && s.holder.Writing? && s.holder.job == DrainJob(all, done)
    ensures EvictsNothing(s, Commit(cfg, s, s.holder.evs, temp))
  {
    forall e
      ensures TimesEvicted(s.removed + Replays(all[..done]), e) == TimesEvicted(s.removed, e)
    {
      RemovedMore(s.removed, Replays(all[..done]), e);
      ReplaysCount(all[..done], e);
    }
  }

  lemma CommitOf(cfg: Config, s: State, d: DiskStep)
    requires HolderOk(cfg, s) && Disk(cfg, s, d).Some? && (d.Rename? || d.Remove?)
    ensures s.holder.Writing?
    ensures Disk(cfg, s, d).value == Commit(cfg, s, s.holder.evs, if d.Rename? then None else s.temp)
  {
  }

  lemma DiskEvicts(cfg: Config, s: State, d: DiskStep)
    requires HolderOk(cfg, s) && Disk(cfg, s, d).Some?
    ensures var t := Disk(cfg, s, d).value;
            EvictsNothing(s, t)
            || (s.holder.Writing? && s.holder.job.AddJob? && Completes(cfg, s, t, s.holder.job.ev))
  {
    if d.Rename? || d.Remove? {
      CommitOf(cfg, s, d);
      var temp := if d.Rename? then None else s.temp;
      match s.holder.job
      case AddJob(ev) => CommitAdds(cfg, s, ev, temp);
      case DrainJob(all, done) => CommitDrains(cfg, s, all, done, temp);
    } else {
      OtherDiskStep(cfg, s, d);
    }
  }

  lemma OtherDiskStep(cfg: Config, s: State, d: DiskStep)
    requires Disk(cfg, s, d).Some? && !d.Rename? && !d.Remove?
    ensures var t := Disk(cfg, s, d).value; t.log == s.log && t.removed == s.removed && t.file == s.file
  {
  }

  lemma AdvanceBooks(cfg: Config, s: State, who: Who, m: Move)
    requires Advance(cfg, s, who, m).Some?
    ensures var t := Advance(cfg, s, who, m).value; t.log == s.log && t.removed == s.removed
  {
  }

  // Every step from every reachable state: either the log grows by the event of a
  // completed Add, which keeps the newest events within capacity and evicts exactly the
  // excess, or nothing is logged and nothing evicted.
  lemma EveryStep(cfg: Config, file: seq<Event>, run: seq<Step>, s: State, step: Step, t: State)
    requires Exec(cfg, Boot(file), run) == Some(s) && Next(cfg, s, step) == Some(t)
    ensures EvictsNothing(s, t)
            || (s.holder.Writing? && s.holder.job.AddJob? && Completes(cfg, s, t, s.holder.job.ev))
  {
    var e := Event("", ZERO, ZERO, "", Reading("", ZERO, ZERO, ZERO, ZERO), ZERO);
    BootKeeps(cfg, file, e);
    RunKeeps(cfg, Boot(file), run, e);
    match step
    case Network(who, m) => AdvanceBooks(cfg, s, who, m);
    case Return(who, r) => LeaveBooks(s, who, r);
    case Buffer(d) => DiskEvicts(cfg, s, d);
    case _ =>
  }

  // An event is evicted only by the completion of an Add to a file that is full, and then
  // it is one of the oldest, as many as do not fit any more.
  lemma EvictsOnlyWhenFull(cfg: Config, file: seq<Event>, run: seq<Step>, s: State, step: Step, t: State, e: Event)
    requires Exec(cfg, Boot(file), run) == Some(s) && Next(cfg, s, step) == Some(t)
    requires TimesEvicted(t.removed, e) != TimesEvicted(s.removed, e)
    ensures |s.file| >= cfg.max && s.holder.Writing? && s.holder.job.AddJob?
    ensures var out := (s.file + [s.holder.job.ev])[..|s.file| + 1 - cfg.max];
            e in out && TimesEvicted(t.removed, e) == TimesEvicted(s.removed, e) + multiset(out)[e]
  {
    EveryStep(cfg, file, run, s, step, t);
    Evicted(cfg, s, t, s.holder.job.ev, e);
  }

  lemma Evicted(cfg: Config, s: State, t: State, ev: Event, e: Event)
    requires Completes(cfg, s, t, ev) && TimesEvicted(t.removed, e) != TimesEvicted(s.removed, e)
    ensures |s.file| >= cfg.max
    ensures var out := (s.file + [ev])[..|s.file| + 1 - cfg.max];
            e in out && TimesEvicted(t.removed, e) == TimesEvicted(s.removed, e) + multiset(out)[e]
  {
    var out := (s.file + [ev])[..|s.file| + 1 - |t.file|];
    RemovedMore(s.removed, Evictions(out), e);
    EvictionsCount(out, e);
    assert e in multiset(out);
    assert out != [];
  }
}
