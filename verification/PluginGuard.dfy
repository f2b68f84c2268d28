/** The guard object itself: the locked sections and library calls of host.go update its fields in place. */
module PluginGuard {
  import opened GuardMachine

  class Guard {
    var pc: PC
    var first: bool
    var delay: nat
    var attached: bool
    var stopping: bool
    var kill: Timer
    var waiter: Waiter
    var procs: seq<Process>
    var now: nat
    var startedAt: nat
    var restarts: nat
    var results: seq<bool>
    var fatals: nat
    var closes: nat

    function View(): State
      reads this
    {
      State(pc, first, delay, attached, stopping, kill, waiter, procs, now, startedAt, restarts, results, fatals,
        closes)
    }

    constructor (clock: nat)
      ensures View() == Init(clock) && Inv(View()) && Paced(View())
    {
      pc, first, delay, attached, stopping := AboutToStart, true, MIN_RESTART_DELAY, false, false;
      kill, waiter, procs := Unset, NotWaiting, [];
      now, startedAt, restarts, results, fatals, closes := clock, clock, 0, [], 0, 0;
    }

    method SignalProcess(term: bool, group: bool)
      modifies this`procs
      ensures procs == Signal(old(procs), term, group)
    {
      if procs != [] {
        var p := procs[|procs| - 1];
        procs := procs[|procs| - 1 := Process(p.live, p.term || term, p.kill || group)];
      }
    }

    // cmd.Start, the start result and the outcome of a failed restart.
    method StartCommand(ok: bool)
      requires pc.AboutToStart?
      modifies this
      ensures View() == Step(old(View()), if ok then StartOk else StartErr)
    {
      if first {
        results := results + [ok];
        startedAt := now;
      } else {
        restarts := restarts + 1;
      }
      if ok {
        procs := procs + [Process(true, false, false)];
        pc := Attaching;
      } else {
        pc := if first then Returning else Failing;
      }
    }

    method Attach(locked: bool)
      requires if locked then pc.Attaching? else pc.Attached?
      modifies this
      ensures View() == Step(old(View()), if locked then AttachLock else AttachRest)
    {
      if locked {
        attached := true;
        pc := Attached(stopping);
      } else {
        if pc.sawStop {
          SignalProcess(false, true);
        }
        pc := Waiting(now);
      }
    }

    method DetachProcess()
      requires pc.Reaped?
      modifies this
      ensures View() == Step(old(View()), Detach)
    {
      attached := false;
      pc := Detached(pc.lived);
    }

    // Between reaping a process and the next start: isStopping, the startup window and the delay.
    method AfterExit()
      requires pc.Detached? || pc.Judging?
      modifies this
      ensures View() == Step(old(View()), if old(pc).Detached? then CheckStop else Judge)
    {
      if pc.Detached? {
        pc := if stopping then Returning else Judging(pc.lived);
      } else if first && pc.lived < FATAL_WINDOW {
        pc := Failing;
      } else {
        if pc.lived >= STABLE_WINDOW {
          delay := MIN_RESTART_DELAY;
        }
        pc := BackingOff(now + delay);
      }
    }

    // The select between the stop channel and the restart timer.
    method BackOff(stopped: bool)
      requires pc.BackingOff? && (if stopped then stopping else pc.due <= now)
      modifies this
      ensures View() == Step(old(View()), if stopped then SelectStop else SelectTimer)
    {
      if stopped {
        pc := Returning;
        return;
      }
      delay := if delay * 2 < MAX_RESTART_DELAY then delay * 2 else MAX_RESTART_DELAY;
      first := false;
      pc := AboutToStart;
    }

    method Fail()
      requires pc.Failing? || pc.Reporting?
      modifies this
      ensures View() == Step(old(View()), if old(pc).Failing? then FailCheck else Report)
    {
      if pc.Failing? {
        pc := if stopping then Returning else Reporting;
      } else {
        fatals := fatals + 1;
        pc := Returning;
      }
    }

    method AskToStop()
      modifies this
      ensures View() == Step(old(View()), RequestStop)
    {
      if stopping {
        return;
      }
      stopping := true;
      if attached {
        SignalProcess(true, false);
        kill := Armed(now + STOP_GRACE);
      }
    }

    method KillProcessGroup()
      requires kill.Fired?
      modifies this
      ensures View() == Step(old(View()), KillGroup)
    {
      if attached {
        SignalProcess(false, true);
      }
      kill := Ran;
    }

    // The tail of waitStopped, after done was closed or patience ran out.
    method StopWaiting()
      requires Enabled(View(), EndWait)
      modifies this
      ensures View() == Step(old(View()), EndWait)
    {
      if kill.Armed? {
        kill := Cancelled(kill.due, now);
      }
      waiter := WaitOver;
    }

    // The two ends of cmd.Wait and of run.
    method Return(e: Event)
      requires Enabled(View(), e) && (e.WaitReturns? || e.CloseDone?)
      modifies this
      ensures View() == Step(old(View()), e)
    {
      match e {
        case WaitReturns => pc := Reaped(now - pc.began);
        case CloseDone => closes := closes + 1; pc := Exited;
      }
    }

    // What the kernel, the clock and the runtime do between the steps above.
    method World(e: Event)
      requires Enabled(View(), e)
      requires e.BeginWait? || e.TimerFires? || e.ProcessExits? || e.Tick?
      modifies this
      ensures View() == Step(old(View()), e)
    {
      match e {
        case BeginWait => waiter := WaitingUntil(now + STOP_PATIENCE);
        case TimerFires => kill := Fired;
        case ProcessExits => procs := procs[|procs| - 1 := procs[|procs| - 1].(live := false)];
        case Tick(dt) => now := now + dt;
      }
    }

    method Perform(e: Event)
      requires Enabled(View(), e)
      modifies this
      ensures View() == Step(old(View()), e)
    {
      match e {
        case StartOk => StartCommand(true);
        case StartErr => StartCommand(false);
        case AttachLock => Attach(true);
        case AttachRest => Attach(false);
        case Detach => DetachProcess();
        case CheckStop => AfterExit();
        case Judge => AfterExit();
        case SelectStop => BackOff(true);
        case SelectTimer => BackOff(false);
        case FailCheck => Fail();
        case Report => Fail();
        case RequestStop => AskToStop();
        case EndWait => StopWaiting();
        case KillGroup => KillProcessGroup();
        case WaitReturns => Return(e);
        case CloseDone => Return(e);
        case _ => World(e);
      }
    }

    /**
     Whatever the schedule, the object goes through a run of the machine, in which the
     events that are not possible are skipped. So its restarts are bounded, what it
     delivers is delivered once, at most one process starts after a stop and none when
     one was attached, and what still runs under a stop is covered.
     */
    method Play(schedule: seq<Event>) returns (ghost states: seq<State>, ghost events: seq<Event>)
      requires View() == Init(now)
      modifies this
      ensures View() == After(Init(old(now)), schedule)
      ensures IsRun(states, events) && states[0] == Init(old(now)) && states[|events|] == View()
      ensures 45_000_000_000 * restarts <= 4 * (now - startedAt) + 116_000_000_000
      ensures |results| <= 1 && fatals <= 1 && closes == (if pc.Exited? then 1 else 0)
      ensures results == [false] ==> fatals == 0 && procs == []
      ensures pc.Exited? && !stopping ==> results == [false] || fatals == 1
      ensures !stopping ==> forall p :: p in procs ==> !p.term && !p.kill
      ensures forall stop :: 0 <= stop < |events| ==> FewStartsAfter(states[stop], events[stop], View())
      ensures stopping ==> forall p :: p in procs && p.live ==> Covered(View(), p) || (p.term && CancelledLate(View()))
    {
      states, events := [View()], [];
      for i := 0 to |schedule|
        invariant View() == After(Init(old(now)), schedule[..i])
        invariant IsRun(states, events) && states[0] == Init(old(now)) && states[|events|] == View()
      {
        assert schedule[..i + 1][..i] == schedule[..i];
        if Enabled(View(), schedule[i]) {
          states, events := Extend(states, events, schedule[i]);
          Perform(schedule[i]);
        }
      }
      assert schedule[..|schedule|] == schedule;
      RunHasResults(states, events);
    }
  }

  // The state after the possible events of a schedule.
  function After(start: State, schedule: seq<Event>): State {
    if schedule == [] then start else
      var before := After(start, schedule[..|schedule| - 1]);
      var e := schedule[|schedule| - 1];
      if Enabled(before, e) then Step(before, e) else before
  }

  // If this event was the stop, hardly any process has been started since.
  predicate FewStartsAfter(before: State, e: Event, later: State) {
    e.RequestStop? && !before.stopping ==>
      later.stopping && |later.procs| <= |before.procs| + if before.attached then 0 else 1
  }

  lemma RunHasResults(states: seq<State>, events: seq<Event>)
    requires IsRun(states, events)
    ensures var s := states[|events|];
      && 45_000_000_000 * s.restarts <= 4 * (s.now - s.startedAt) + 116_000_000_000
      && |s.results| <= 1 && s.fatals <= 1 && s.closes == (if s.pc.Exited? then 1 else 0)
      && (s.results == [false] ==> s.fatals == 0 && s.procs == [])
      && (s.pc.Exited? && !s.stopping ==> s.results == [false] || s.fatals == 1)
      && (!s.stopping ==> forall p :: p in s.procs ==> !p.term && !p.kill)
      && (s.stopping ==> forall p :: p in s.procs && p.live ==> Covered(s, p) || (p.term && CancelledLate(s)))
    ensures forall stop :: 0 <= stop < |events| ==> FewStartsAfter(states[stop], events[stop], states[|events|])
  {
    var n := |events|;
    RestartsAreBounded(states, events, n);
    DeliveredOnce(states, events, n);
    FailureIsReported(states, events, n);
    NoSignalBeforeStop(states, events, n);
    forall p | states[n].stopping && p in states[n].procs && p.live
      ensures Covered(states[n], p) || (p.term && CancelledLate(states[n]))
    {
      var k :| 0 <= k < |states[n].procs| && states[n].procs[k] == p;
      LiveProcessIsCovered(states, events, n, k);
    }
    forall stop | 0 <= stop < n ensures FewStartsAfter(states[stop], events[stop], states[n]) {
      if events[stop].RequestStop? && !states[stop].stopping {
        StartsAfterStop(states, events, stop, n);
      }
    }
  }
}
