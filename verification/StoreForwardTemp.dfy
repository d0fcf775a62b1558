// When the buffer's temporary file exists (edge-agent/buffer.go, write).
module StoreForwardTemp {
  import opened Wrappers
  import opened Events
  import opened StoreForward

  // A crash, or a failing write whose cleanup fails as well.
  predicate Litters(step: Step) {
    step.Die? || (step.Buffer? && step.d.WriteFails? && step.d.tempLeft)
  }

  // There is a temporary file only in the middle of a write, and then it holds the lines
  // written so far.
  predicate Tidy(s: State) {
    if s.holder.Writing? && !s.holder.progress.Start? then
      && s.temp.Some?
      && (s.holder.progress.Lines? ==> s.holder.progress.n <= |s.holder.evs| && s.temp.value == s.holder.evs[..s.holder.progress.n])
      && (s.holder.progress.Closed? ==> s.temp.value == s.holder.evs)
    else s.temp.None?
  }

  lemma DiskTidy(cfg: Config, s: State, d: DiskStep, t: State)
    requires Tidy(s) && Disk(cfg, s, d) == Some(t) && !Litters(Buffer(d))
    ensures Tidy(t)
  {
    if d.WriteLine? {
      var n := s.holder.progress.n;
      assert s.holder.evs[..n] + [s.holder.evs[n]] == s.holder.evs[..n + 1];
    } else if d.CloseTemp? {
      assert s.holder.evs[..|s.holder.evs|] == s.holder.evs;
    }
  }

  lemma AdvanceTidy(cfg: Config, s: State, who: Who, m: Move, t: State)
    requires Tidy(s) && Advance(cfg, s, who, m) == Some(t)
    ensures Tidy(t)
  {
  }

  lemma LeaveTidy(s: State, who: Who, r: StoreForward.Return, t: State)
    requires Tidy(s) && Leave(s, who, r) == Some(t)
    ensures Tidy(t)
  {
  }

  lemma {:induction false} RunTidy(cfg: Config, s: State, run: seq<Step>, t: State)
    requires Tidy(s) && Exec(cfg, s, run) == Some(t) && forall i :: 0 <= i < |run| ==> !Litters(run[i])
    ensures Tidy(t)
    decreases |run|
  {
    if run != [] {
      var u := Next(cfg, s, run[0]).value;
      match run[0] {
        case Network(who, m) => AdvanceTidy(cfg, s, who, m, u);
        case Return(who, r) => LeaveTidy(s, who, r, u);
        case Buffer(d) => DiskTidy(cfg, s, d, u);
        case _ =>
      }
      RunTidy(cfg, u, run[1..], t);
    }
  }

  // Without a crash or a failing cleanup no temporary file outlives its write, however
  // many writes fail; and the file that a rename puts in place is complete.
  lemma NoLitter(cfg: Config, file: seq<Event>, run: seq<Step>, s: State)
    requires Exec(cfg, Boot(file), run) == Some(s) && forall i :: 0 <= i < |run| ==> !Litters(run[i])
    ensures !s.holder.Writing? ==> s.temp == None
    ensures s.holder.Writing? && s.holder.progress.Closed? ==> s.temp == Some(s.holder.evs)
  {
    RunTidy(cfg, Boot(file), run, s);
  }
}
