// The capacity rule of the disk buffer and the record of what has left it
// (edge-agent/buffer.go, Add and DrainTo).
module Fifo {
  import opened Tallies

  // How many of the oldest entries do not fit.
  function Overflow<T>(evs: seq<T>, max: nat): (n: nat)
    ensures n <= |evs|
  {
    if |evs| > max then |evs| - max else 0
  }

  // Add keeps the newest `max` entries.
  function Capped<T>(evs: seq<T>, max: nat): seq<T> {
    evs[Overflow(evs, max)..]
  }

  // Why an entry left the front of the queue.
  datatype Removal<T> = Replayed(ev: T) | Evicted(ev: T)

  function Replays<T>(evs: seq<T>): (rs: seq<Removal<T>>)
    ensures |rs| == |evs|
  {
    seq(|evs|, i requires 0 <= i < |evs| => Replayed(evs[i]))
  }

  function Evictions<T>(evs: seq<T>): (rs: seq<Removal<T>>)
    ensures |rs| == |evs|
  {
    seq(|evs|, i requires 0 <= i < |evs| => Evicted(evs[i]))
  }

  // The entries that left, in the order they left.
  function Erase<T>(rs: seq<Removal<T>>): (evs: seq<T>)
    ensures |evs| == |rs|
  {
    seq(|rs|, i requires 0 <= i < |rs| => rs[i].ev)
  }

  ghost function Is<T>(x: Removal<T>): Removal<T> -> nat {
    r => if r == x then 1 else 0
  }

  // How often an entry left by a completed replay, and by eviction.
  ghost function TimesReplayed<T>(rs: seq<Removal<T>>, e: T): nat {
    Total(Is(Replayed(e)), rs)
  }

  ghost function TimesEvicted<T>(rs: seq<Removal<T>>, e: T): nat {
    Total(Is(Evicted(e)), rs)
  }

  lemma RemovedMore<T>(rs: seq<Removal<T>>, ts: seq<Removal<T>>, e: T)
    ensures TimesReplayed(rs + ts, e) == TimesReplayed(rs, e) + TimesReplayed(ts, e)
    ensures TimesEvicted(rs + ts, e) == TimesEvicted(rs, e) + TimesEvicted(ts, e)
  {
    TotalAppend(Is(Replayed(e)), rs, ts);
    TotalAppend(Is(Evicted(e)), rs, ts);
  }

  lemma EraseMore<T>(rs: seq<Removal<T>>, ts: seq<Removal<T>>)
    ensures Erase(rs + ts) == Erase(rs) + Erase(ts)
  {
  }

  lemma EraseNew<T>(evs: seq<T>)
    ensures Erase(Replays(evs)) == evs && Erase(Evictions(evs)) == evs
  {
  }

  // An append leaves the newest entries: one more than before, up to the capacity, the
  // new one last; what goes is the excess, the oldest first.
  lemma AppendKeepsNewest<T>(queue: seq<T>, ev: T, max: nat)
    ensures var grown := queue + [ev];
            var kept, out := Capped(grown, max), grown[..Overflow(grown, max)];
            && |kept| == (if |queue| < max then |queue| + 1 else max)
            && grown == out + kept
            && (|queue| < max ==> out == [])
            && (max > 0 ==> kept != [] && kept[|kept| - 1] == ev)
  {
  }

  // An append and the evictions it causes keep the log equal to what left and what stays.
  lemma AddQueue<T>(removed: seq<Removal<T>>, log: seq<T>, queue: seq<T>, ev: T, max: nat)
    requires log == Erase(removed) + queue
    ensures var grown := queue + [ev];
            log + [ev] == Erase(removed + Evictions(grown[..Overflow(grown, max)])) + Capped(grown, max)
  {
    var grown := queue + [ev];
    var n := Overflow(grown, max);
    EraseMore(removed, Evictions(grown[..n]));
    EraseNew(grown[..n]);
    Rejoined(Erase(removed), grown, n);
    assert log + [ev] == Erase(removed) + grown;
  }

  // So does taking away a replayed front.
  lemma DrainQueue<T>(removed: seq<Removal<T>>, log: seq<T>, all: seq<T>, done: nat)
    requires done <= |all| && log == Erase(removed) + all
    ensures log == Erase(removed + Replays(all[..done])) + all[done..]
  {
    EraseMore(removed, Replays(all[..done]));
    EraseNew(all[..done]);
    Rejoined(Erase(removed), all, done);
  }

  lemma Rejoined<T>(before: seq<T>, all: seq<T>, n: nat)
    requires n <= |all|
    ensures before + all == (before + all[..n]) + all[n..]
  {
  }

  lemma {:induction false} ReplaysCount<T>(evs: seq<T>, e: T)
    ensures TimesReplayed(Replays(evs), e) == multiset(evs)[e] && TimesEvicted(Replays(evs), e) == 0
  {
    if evs != [] {
      ReplaysCount(evs[1..], e);
      assert Replays(evs)[1..] == Replays(evs[1..]);
      assert evs == [evs[0]] + evs[1..];
    }
  }

  lemma {:induction false} EvictionsCount<T>(evs: seq<T>, e: T)
    ensures TimesEvicted(Evictions(evs), e) == multiset(evs)[e] && TimesReplayed(Evictions(evs), e) == 0
  {
    if evs != [] {
      EvictionsCount(evs[1..], e);
      assert Evictions(evs)[1..] == Evictions(evs[1..]);
      assert evs == [evs[0]] + evs[1..];
    }
  }

  lemma EraseFirst<T>(rs: seq<Removal<T>>)
    requires rs != []
    ensures Erase(rs) == [rs[0].ev] + Erase(rs[1..])
  {
  }

  // Each entry that left was either replayed or evicted.
  lemma {:induction false} RemovalsSplit<T>(rs: seq<Removal<T>>, e: T)
    ensures multiset(Erase(rs))[e] == TimesReplayed(rs, e) + TimesEvicted(rs, e)
  {
    if rs != [] {
      RemovalsSplit(rs[1..], e);
      EraseFirst(rs);
    }
  }
}
