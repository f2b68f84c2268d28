/**
 What is left running when a pool is closed: the stops and waits of `PluginHost`,
 carried out on the guards of `PluginGuard` while everything else goes on (host.go).
 */
module PluginShutdown {
  import opened Prelude
  import opened GuardMachine
  import PluginGuard
  import PluginHost

  // The process side of each guard of the pool.
  type Lives = map<PluginHost.Guard, PluginGuard.Guard>

  // A step of some guard: of `run`, of its timer, of its process or of the clock.
  datatype Move = Move(who: PluginHost.Guard, event: Event)

  /**
   After `waitStopped`: whatever still runs was sent SIGKILL, or the group kill is about to
   send it, or the Kill in `attach` is, or it was sent SIGTERM and the group kill was late.
   */
  ghost predicate Settled(s: State) {
    && s.stopping && s.waiter.WaitOver? && !s.kill.Armed?
    && forall p :: p in s.procs && p.live ==>
      p.kill || (p.term && (s.kill.Fired? || CancelledLate(s))) || s.pc.Attaching? || s.pc == Attached(true)
  }

  lemma WaitedIsSettled(s: State)
    requires Inv(s) && s.stopping && s.waiter.WaitOver?
    ensures Settled(s)
  {
    forall p | p in s.procs && p.live
      ensures p.kill || (p.term && (s.kill.Fired? || CancelledLate(s))) || s.pc.Attaching? || s.pc == Attached(true)
    {
      var i :| 0 <= i < |s.procs| && s.procs[i] == p;
      assert i == |s.procs| - 1;
    }
  }

  // The states of all guards.
  ghost function Views(lives: Lives): map<PluginHost.Guard, State>
    reads lives.Values
  {
    map g | g in lives :: lives[g].View()
  }

  ghost predicate AllSound(views: map<PluginHost.Guard, State>) {
    forall g :: g in views ==> Inv(views[g])
  }

  // Stops and waits are never taken back.
  ghost predicate Advanced(before: map<PluginHost.Guard, State>, now: map<PluginHost.Guard, State>) {
    && now.Keys == before.Keys
    && forall g :: g in before ==> Progress(before[g], now[g])
  }

  predicate Progress(s: State, t: State) {
    && (s.stopping ==> t.stopping)
    && (!s.waiter.NotWaiting? ==> !t.waiter.NotWaiting?) && (s.waiter.WaitOver? ==> t.waiter.WaitOver?)
  }

  lemma StepKeepsProgress(s: State, e: Event)
    requires Enabled(s, e)
    ensures Progress(s, Step(s, e))
  {
  }

  method Perform(lives: Lives, g: PluginHost.Guard, e: Event)
    requires AllSound(Views(lives)) && g in lives && Enabled(lives[g].View(), e)
    modifies lives.Values
    ensures AllSound(Views(lives)) && Advanced(old(Views(lives)), Views(lives))
    ensures lives[g].View() == Step(old(lives[g].View()), e)
  {
    ghost var before, s := Views(lives), lives[g].View();
    assert before[g] == s;
    lives[g].Perform(e);
    forall h | h in lives
      ensures Views(lives)[h] == before[h] || (before[h] == s && Views(lives)[h] == Step(s, e))
    {
      assert lives[h] != lives[g] ==> lives[h].View() == old(lives[h].View());
    }
    PerformedOne(before, Views(lives), s, e);
  }

  lemma PerformedOne(before: map<PluginHost.Guard, State>, now: map<PluginHost.Guard, State>, s: State, e: Event)
    requires AllSound(before) && Inv(s) && Enabled(s, e) && now.Keys == before.Keys
    requires forall h :: h in before ==> now[h] == before[h] || (before[h] == s && now[h] == Step(s, e))
    ensures AllSound(now) && Advanced(before, now)
  {
    StepKeepsInv(s, e);
    StepKeepsProgress(s, e);
  }

  // Other things happen, in any order; what is not possible is skipped.
  method Play(lives: Lives, moves: seq<Move>)
    requires AllSound(Views(lives))
    modifies lives.Values
    ensures AllSound(Views(lives)) && Advanced(old(Views(lives)), Views(lives))
  {
    for i := 0 to |moves|
      invariant AllSound(Views(lives)) && Advanced(old(Views(lives)), Views(lives))
    {
      if moves[i].who in lives && Enabled(lives[moves[i].who].View(), moves[i].event) {
        ghost var before := Views(lives);
        Perform(lives, moves[i].who, moves[i].event);
        AdvancedTwice(old(Views(lives)), before, Views(lives));
      }
    }
  }

  lemma AdvancedTwice(a: map<PluginHost.Guard, State>, b: map<PluginHost.Guard, State>, c: map<PluginHost.Guard, State>)
    requires Advanced(a, b) && Advanced(b, c)
    ensures Advanced(a, c)
  {
  }

  // waitStopped: until `run` has returned or patience is over.
  method WaitStopped(lives: Lives, g: PluginHost.Guard, moves: seq<Move>)
    requires AllSound(Views(lives)) && g in lives && lives[g].stopping
    modifies lives.Values
    ensures AllSound(Views(lives)) && Advanced(old(Views(lives)), Views(lives))
    ensures lives[g].waiter.WaitOver?
  {
    ghost var start := Views(lives);
    BeginWaiting(lives, g);
    ghost var begun := Views(lives);
    assert !begun[g].waiter.NotWaiting?;
    Play(lives, moves);
    ghost var played := Views(lives);
    AdvancedTwice(start, begun, played);
    EndWaiting(lives, g);
    AdvancedTwice(start, played, Views(lives));
  }

  method BeginWaiting(lives: Lives, g: PluginHost.Guard)
    requires AllSound(Views(lives)) && g in lives && lives[g].stopping
    modifies lives.Values
    ensures AllSound(Views(lives)) && Advanced(old(Views(lives)), Views(lives))
    ensures !lives[g].waiter.NotWaiting?
  {
    if lives[g].waiter.NotWaiting? {
      Perform(lives, g, BeginWait);
    }
  }

  method EndWaiting(lives: Lives, g: PluginHost.Guard)
    requires AllSound(Views(lives)) && g in lives && !lives[g].waiter.NotWaiting?
    modifies lives.Values
    ensures AllSound(Views(lives)) && Advanced(old(Views(lives)), Views(lives))
    ensures lives[g].waiter.WaitOver?
  {
    if lives[g].waiter.WaitOver? {
      return;
    }
    ghost var start := Views(lives);
    RunOutOfPatience(lives, g);
    ghost var over := Views(lives);
    Perform(lives, g, EndWait);
    AdvancedTwice(start, over, Views(lives));
  }

  // The timer of the wait fires, unless `run` has returned.
  method RunOutOfPatience(lives: Lives, g: PluginHost.Guard)
    requires AllSound(Views(lives)) && g in lives && lives[g].waiter.WaitingUntil?
    modifies lives.Values
    ensures AllSound(Views(lives)) && Advanced(old(Views(lives)), Views(lives))
    ensures Enabled(lives[g].View(), EndWait)
  {
    if !lives[g].pc.Exited? && lives[g].now < lives[g].waiter.patience {
      Perform(lives, g, Tick(lives[g].waiter.patience - lives[g].now));
    }
  }

  // Each wait comes after the stop of the same guard.
  ghost predicate AskedFirst(trace: seq<PluginHost.Event>) {
    forall k :: 0 <= k < |trace| && trace[k].Waited? ==> PluginHost.Asked(trace[k].guard) in trace[..k]
  }

  ghost predicate Concerns(trace: seq<PluginHost.Event>, lives: Lives) {
    forall k :: 0 <= k < |trace| ==> trace[k].guard in lives
  }

  predicate Done(e: PluginHost.Event, s: State) {
    (e.Asked? || e.Waited? ==> s.stopping) && (e.Waited? ==> s.waiter.WaitOver?)
  }

  ghost predicate CarriedOut(trace: seq<PluginHost.Event>, views: map<PluginHost.Guard, State>) {
    forall e :: e in trace ==> e.guard in views && Done(e, views[e.guard])
  }

  lemma OneMoreCarriedOut(trace: seq<PluginHost.Event>, k: nat, before: map<PluginHost.Guard, State>,
                          now: map<PluginHost.Guard, State>)
    requires k < |trace| && CarriedOut(trace[..k], before) && Advanced(before, now)
    requires trace[k].guard in now && Done(trace[k], now[trace[k].guard])
    ensures CarriedOut(trace[..k + 1], now)
  {
    assert trace[..k + 1] == trace[..k] + [trace[k]];
    forall e | e in trace[..k + 1] ensures e.guard in now && Done(e, now[e.guard]) {
      if e in trace[..k] {
        assert Done(e, before[e.guard]);
      }
    }
  }

  // One stop or wait of the pool, and other things after or during it.
  method CarryOutOne(e: PluginHost.Event, lives: Lives, moves: seq<Move>)
    requires AllSound(Views(lives)) && e.guard in lives && (e.Waited? ==> lives[e.guard].stopping)
    modifies lives.Values
    ensures AllSound(Views(lives)) && Advanced(old(Views(lives)), Views(lives))
    ensures Done(e, lives[e.guard].View())
  {
    ghost var start := Views(lives);
    if e.Asked? {
      Perform(lives, e.guard, RequestStop);
      ghost var asked := Views(lives);
      assert asked[e.guard].stopping;
      Play(lives, moves);
      AdvancedTwice(start, asked, Views(lives));
      assert Views(lives)[e.guard].stopping;
    } else if e.Waited? {
      assert start[e.guard].stopping;
      WaitStopped(lives, e.guard, moves);
      assert Views(lives)[e.guard].stopping;
    } else {
      Play(lives, moves);
    }
  }

  // Carries out stops and waits in order; `moves(k)` happen with the k-th.
  method CarryOut(trace: seq<PluginHost.Event>, lives: Lives, moves: nat -> seq<Move>)
    requires AskedFirst(trace) && Concerns(trace, lives) && AllSound(Views(lives))
    modifies lives.Values
    ensures AllSound(Views(lives)) && CarriedOut(trace, Views(lives))
  {
    for k := 0 to |trace|
      invariant AllSound(Views(lives)) && CarriedOut(trace[..k], Views(lives))
    {
      CarryOutNext(trace, k, lives, moves(k));
    }
    assert trace[..|trace|] == trace;
  }

  method CarryOutNext(trace: seq<PluginHost.Event>, k: nat, lives: Lives, moves: seq<Move>)
    requires k < |trace| && AskedFirst(trace) && Concerns(trace, lives)
    requires AllSound(Views(lives)) && CarriedOut(trace[..k], Views(lives))
    modifies lives.Values
    ensures AllSound(Views(lives)) && CarriedOut(trace[..k + 1], Views(lives))
  {
    ghost var before := Views(lives);
    AskedIsStopping(trace, k, before);
    CarryOutOne(trace[k], lives, moves);
    OneMoreCarriedOut(trace, k, before, Views(lives));
  }

  lemma AskedIsStopping(trace: seq<PluginHost.Event>, k: nat, views: map<PluginHost.Guard, State>)
    requires k < |trace| && AskedFirst(trace) && CarriedOut(trace[..k], views) && trace[k].guard in views
    ensures trace[k].Waited? ==> views[trace[k].guard].stopping
  {
    if trace[k].Waited? {
      assert Done(PluginHost.Asked(trace[k].guard), views[trace[k].guard]);
    }
  }

  // ---- The stops and waits of a list of guards ----

  lemma {:induction false} AskedAll(guards: seq<PluginHost.Guard>, g: PluginHost.Guard)
    requires g in guards
    ensures PluginHost.Asked(g) in PluginHost.Asks(guards)
  {
    if g != guards[|guards| - 1] {
      AskedAll(guards[..|guards| - 1], g);
    }
  }

  lemma {:induction false} WaitedAll(guards: seq<PluginHost.Guard>, g: PluginHost.Guard)
    requires g in guards
    ensures PluginHost.Waited(g) in PluginHost.Waits(guards)
  {
    if g != guards[|guards| - 1] {
      WaitedAll(guards[..|guards| - 1], g);
    }
  }

  lemma {:induction false} OnlyTheirs(guards: seq<PluginHost.Guard>)
    ensures forall e :: e in PluginHost.Asks(guards) ==> e.Asked? && e.guard in guards
    ensures forall e :: e in PluginHost.Waits(guards) ==> e.Waited? && e.guard in guards
  {
    if guards != [] {
      OnlyTheirs(guards[..|guards| - 1]);
    }
  }

  lemma StopsThenWaits(guards: seq<PluginHost.Guard>, lives: Lives)
    requires forall g :: g in guards ==> g in lives
    ensures var trace := PluginHost.Asks(guards) + PluginHost.Waits(guards); AskedFirst(trace) && Concerns(trace, lives)
  {
    var asks, waits := PluginHost.Asks(guards), PluginHost.Waits(guards);
    var trace := asks + waits;
    OnlyTheirs(guards);
    forall k | 0 <= k < |trace| ensures trace[k].guard in lives {
      assert trace[k] in asks || trace[k] in waits;
    }
    assert forall k :: 0 <= k < |asks| ==> asks[k].Asked?;
    forall k | 0 <= k < |trace| && trace[k].Waited? ensures PluginHost.Asked(trace[k].guard) in trace[..k] {
      assert trace[k] in waits;
      AskedAll(guards, trace[k].guard);
      assert asks <= trace[..k];
    }
  }

  /**
   Closing a pool leaves no guard, server or file, and of its plugins nothing runs that has not
   been killed and is not about to be, except under a group kill that was late.
   */
  method Close(host: PluginHost.Host, lives: Lives, moves: nat -> seq<Move>)
    requires host.Valid() && !host.closed && AllSound(Views(lives))
    requires forall k :: k in host.guards ==> host.guards[k] in lives
    modifies host, lives.Values
    ensures host.closed && host.guards == map[] && host.server == null && host.disk == map[]
    ensures AllSound(Views(lives))
    ensures forall k :: k in old(host.guards) ==> Settled(lives[old(host.guards)[k]].View())
  {
    ghost var running := host.guards;
    var trace, stopped := CloseHost(host, lives);
    CarryOut(trace, lives, moves);
    StoppedAreSettled(running, stopped, trace, Views(lives));
    assert forall k :: k in running ==> Views(lives)[running[k]] == lives[running[k]].View();
  }

  // The calls of the pool, and what they ask of its guards.
  method CloseHost(host: PluginHost.Host, lives: Lives)
    returns (trace: seq<PluginHost.Event>, ghost stopped: seq<PluginHost.Guard>)
    requires host.Valid() && !host.closed
    requires forall k :: k in host.guards ==> host.guards[k] in lives
    modifies host
    ensures host.closed && host.guards == map[] && host.server == null && host.disk == map[]
    ensures PluginHost.TakenFrom(old(host.guards), {}, stopped)
    ensures trace == PluginHost.Asks(stopped) + PluginHost.Waits(stopped)
    ensures AskedFirst(trace) && Concerns(trace, lives)
  {
    var before := host.trace;
    ghost var running := host.guards;
    stopped := host.Close();
    TailOfSum(before, PluginHost.Asks(stopped), PluginHost.Waits(stopped));
    trace := host.trace[|before|..];
    StoppedHaveLives(running, stopped, lives);
    StopsThenWaits(stopped, lives);
  }

  lemma TailOfSum<T>(a: seq<T>, b: seq<T>, c: seq<T>)
    ensures (a + b + c)[|a|..] == b + c
  {
  }

  lemma StoppedHaveLives(running: map<PluginHost.Key, PluginHost.Guard>, stopped: seq<PluginHost.Guard>, lives: Lives)
    requires PluginHost.TakenFrom(running, {}, stopped) && forall k :: k in running ==> running[k] in lives
    ensures forall g :: g in stopped ==> g in lives
  {
  }

  lemma StoppedAreSettled(running: map<PluginHost.Key, PluginHost.Guard>, stopped: seq<PluginHost.Guard>,
                          trace: seq<PluginHost.Event>, views: map<PluginHost.Guard, State>)
    requires PluginHost.TakenFrom(running, {}, stopped) && trace == PluginHost.Asks(stopped) + PluginHost.Waits(stopped)
    requires AllSound(views) && CarriedOut(trace, views)
    ensures forall k :: k in running ==> running[k] in views && Settled(views[running[k]])
  {
    forall k | k in running ensures running[k] in views && Settled(views[running[k]]) {
      StoppedIsWaited(running, stopped, k);
      assert PluginHost.Waited(running[k]) in trace;
      assert Done(PluginHost.Waited(running[k]), views[running[k]]);
      WaitedIsSettled(views[running[k]]);
    }
  }

  lemma StoppedIsWaited(running: map<PluginHost.Key, PluginHost.Guard>, stopped: seq<PluginHost.Guard>,
                        k: PluginHost.Key)
    requires PluginHost.TakenFrom(running, {}, stopped) && k in running
    ensures PluginHost.Waited(running[k]) in PluginHost.Waits(stopped)
  {
    assert k in PluginHost.KeysOf(stopped);
    var g :| g in stopped && g.key == k;
    WaitedAll(stopped, g);
  }
}
