/**
 Which plugin pool belongs to which command server (command_server_plugins.go):
 reloads, closes and failure callbacks interleave, each locked section and each call
 of a pool being one step. A pool's own lock makes its Apply and Close atomic.
 */
module PluginHosts {
  import opened Prelude

  type ServerId = nat
  type HostId = nat

  // What matters of a pool here: whether it was closed, and the guards it runs.
  datatype Pool = Pool(closed: bool, guards: set<nat>)

  datatype PC =
    | GettingHost              // pluginHost, under the lock
    | Applying(host: HostId)   // host.Apply
    | StartingService          // StartOrReloadService
    | Taking(resume: bool)     // the locked section of closePlugins; resume goes on with the service
    | Closing(host: HostId, resume: bool) // host.Close
    | Checking(host: HostId)   // the locked section of pluginFailed
    | Notifying(host: HostId, current: bool)

  datatype Call = Call(server: ServerId, pc: PC)

  datatype State = State(
    hosts: map<ServerId, HostId>, // pluginHosts
    pools: seq<Pool>,             // every pool ever made, by its number
    calls: map<nat, Call>,        // running calls by thread
    stops: seq<HostId>)           // pools whose failure stopped the service

  datatype Event =
    | Begin(thread: nat, server: ServerId, pc: PC)
    | GetHost(thread: nat)
    | ApplyOk(thread: nat, guards: set<nat>)
    | ApplyErr(thread: nat)
    | ServiceOk(thread: nat)
    | ServiceErr(thread: nat)
    | Take(thread: nat)
    | CloseHost(thread: nat)
    | Check(thread: nat)
    | Notify(thread: nat)

  // A reload with or without plugins, a close, or the failure report of a pool.
  predicate Entry(s: State, pc: PC) {
    pc.GettingHost? || pc.Taking? || (pc.Checking? && pc.host < |s.pools|)
  }

  predicate At(s: State, thread: nat) {
    thread in s.calls
  }

  predicate Enabled(s: State, e: Event) {
    match e
    case Begin(t, _, pc) => t !in s.calls && Entry(s, pc)
    case GetHost(t) => At(s, t) && s.calls[t].pc.GettingHost?
    case ApplyOk(t, _) => At(s, t) && s.calls[t].pc.Applying? && s.calls[t].pc.host < |s.pools|
      && !s.pools[s.calls[t].pc.host].closed
    case ApplyErr(t) => At(s, t) && s.calls[t].pc.Applying? && s.calls[t].pc.host < |s.pools|
    case ServiceOk(t) => At(s, t) && s.calls[t].pc.StartingService?
    case ServiceErr(t) => At(s, t) && s.calls[t].pc.StartingService?
    case Take(t) => At(s, t) && s.calls[t].pc.Taking?
    case CloseHost(t) => At(s, t) && s.calls[t].pc.Closing? && s.calls[t].pc.host < |s.pools|
    case Check(t) => At(s, t) && s.calls[t].pc.Checking?
    case Notify(t) => At(s, t) && s.calls[t].pc.Notifying?
  }

  function Goto(s: State, thread: nat, pc: PC): State
    requires thread in s.calls
  {
    s.(calls := s.calls[thread := s.calls[thread].(pc := pc)])
  }

  function Return(s: State, thread: nat): State {
    s.(calls := s.calls - {thread})
  }

  // The pool of a server: the one in the map, or the next to be made.
  function HostIn(hosts: map<ServerId, HostId>, made: nat, server: ServerId): HostId {
    if server in hosts then hosts[server] else made
  }

  function Resume(s: State, thread: nat, resume: bool): State
    requires thread in s.calls
  {
    if resume then Goto(s, thread, StartingService) else Return(s, thread)
  }

  function Step(s: State, e: Event): State
    requires Enabled(s, e)
  {
    match e
    case Begin(t, server, pc) => s.(calls := s.calls[t := Call(server, pc)])
    case GetHost(t) =>
      var server := s.calls[t].server;
      var host := HostIn(s.hosts, |s.pools|, server);
      var pools := if server in s.hosts then s.pools else s.pools + [Pool(false, {})];
      Goto(s.(hosts := s.hosts[server := host], pools := pools), t, Applying(host))
    case ApplyOk(t, guards) =>
      Goto(s.(pools := s.pools[s.calls[t].pc.host := Pool(false, guards)]), t, StartingService)
    case ApplyErr(t) =>
      // A closed pool only reports it; an open one has stopped all its plugins.
      Goto(s.(pools := s.pools[s.calls[t].pc.host := s.pools[s.calls[t].pc.host].(guards := {})]), t, Taking(false))
    case ServiceOk(t) => Return(s, t)
    case ServiceErr(t) => Goto(s, t, Taking(false))
    case Take(t) =>
      var server := s.calls[t].server;
      if server in s.hosts then Goto(s.(hosts := s.hosts - {server}), t, Closing(s.hosts[server], s.calls[t].pc.resume))
      else Resume(s, t, s.calls[t].pc.resume)
    case CloseHost(t) =>
      var pc := s.calls[t].pc;
      Resume(s.(pools := s.pools[pc.host := Pool(true, {})]), t, pc.resume)
    case Check(t) =>
      var server, host := s.calls[t].server, s.calls[t].pc.host;
      Goto(s, t, Notifying(host, server in s.hosts && s.hosts[server] == host))
    case Notify(t) =>
      Return(if s.calls[t].pc.current then s.(stops := s.stops + [s.calls[t].pc.host]) else s, t)
  }

  const INIT := State(map[], [], map[], [])

  ghost predicate IsRun(states: seq<State>, events: seq<Event>) {
    && |states| == |events| + 1
    && states[0] == INIT
    && forall i {:trigger events[i]} :: 0 <= i < |events| ==>
      Enabled(states[i], events[i]) && states[i + 1] == Step(states[i], events[i])
  }

  // ---- Invariant ----

  predicate Registered(s: State, h: HostId) {
    exists server :: server in s.hosts && s.hosts[server] == h
  }

  // Some call has taken the pool out of the map and is about to close it.
  predicate ToBeClosed(s: State, h: HostId) {
    exists t :: t in s.calls && s.calls[t].pc.Closing? && s.calls[t].pc.host == h
  }

  predicate MapIsOpen(s: State) {
    && (forall server :: server in s.hosts ==> s.hosts[server] < |s.pools| && !s.pools[s.hosts[server]].closed)
    && (forall a, b :: a in s.hosts && b in s.hosts && s.hosts[a] == s.hosts[b] ==> a == b)
  }

  predicate CallsAreSound(s: State) {
    forall t :: t in s.calls ==> match s.calls[t].pc
      case Applying(h) => h < |s.pools|
      case Closing(h, _) => h < |s.pools| && !Registered(s, h)
      case Checking(h) => h < |s.pools|
      case _ => true
  }

  predicate NoneForgotten(s: State) {
    forall h :: 0 <= h < |s.pools| ==>
      (s.pools[h].closed ==> s.pools[h].guards == {}) && (Registered(s, h) || s.pools[h].closed || ToBeClosed(s, h))
  }

  predicate Inv(s: State) {
    MapIsOpen(s) && CallsAreSound(s) && NoneForgotten(s)
  }

  // A call that is not closing keeps every other call's claim.
  lemma ClaimsStay(s: State, t: nat, next: State)
    requires t in s.calls && !s.calls[t].pc.Closing?
    requires forall u :: u in s.calls && u != t ==> u in next.calls && next.calls[u] == s.calls[u]
    ensures forall h :: ToBeClosed(s, h) ==> ToBeClosed(next, h)
  {
    forall h | ToBeClosed(s, h) ensures ToBeClosed(next, h) {
      var u :| u in s.calls && s.calls[u].pc.Closing? && s.calls[u].pc.host == h;
      assert u in next.calls && next.calls[u] == s.calls[u];
    }
  }

  lemma BeginKeepsInv(s: State, e: Event)
    requires Inv(s) && Enabled(s, e) && e.Begin?
    ensures Inv(Step(s, e))
  {
    var next := Step(s, e);
    assert forall h :: Registered(s, h) <==> Registered(next, h);
    forall h | ToBeClosed(s, h) ensures ToBeClosed(next, h) {
      var u :| u in s.calls && s.calls[u].pc.Closing? && s.calls[u].pc.host == h;
      assert u in next.calls && next.calls[u] == s.calls[u];
    }
  }

  lemma ApplyKeepsInv(s: State, e: Event)
    requires Inv(s) && Enabled(s, e) && (e.ApplyOk? || e.ApplyErr?)
    ensures Inv(Step(s, e))
  {
    var next := Step(s, e);
    ClaimsStay(s, e.thread, next);
    assert forall h :: Registered(s, h) <==> Registered(next, h);
  }

  lemma LocalKeepsInv(s: State, e: Event)
    requires Inv(s) && Enabled(s, e) && (e.ServiceOk? || e.ServiceErr? || e.Check? || e.Notify?)
    ensures Inv(Step(s, e))
  {
    var next := Step(s, e);
    ClaimsStay(s, e.thread, next);
    assert next.pools == s.pools;
    assert forall h :: Registered(s, h) <==> Registered(next, h);
  }

  lemma StepKeepsInv(s: State, e: Event)
    requires Inv(s) && Enabled(s, e)
    ensures Inv(Step(s, e))
  {
    match e {
      case Begin(_, _, _) => BeginKeepsInv(s, e);
      case GetHost(t) => GetHostKeepsInv(s, t);
      case Take(t) => TakeKeepsInv(s, t);
      case CloseHost(t) => CloseKeepsInv(s, t);
      case ApplyOk(_, _) => ApplyKeepsInv(s, e);
      case ApplyErr(_) => ApplyKeepsInv(s, e);
      case _ => LocalKeepsInv(s, e);
    }
  }

  lemma GetHostKeepsInv(s: State, t: nat)
    requires Inv(s) && Enabled(s, GetHost(t))
    ensures Inv(Step(s, GetHost(t)))
  {
    var next := Step(s, GetHost(t));
    ClaimsStay(s, t, next);
    var server := s.calls[t].server;
    if server in s.hosts {
      assert next.hosts == s.hosts && next.pools == s.pools;
      assert forall h :: Registered(s, h) <==> Registered(next, h);
    } else {
      MakeHostKeepsInv(s, t, next);
    }
  }

  lemma MakeHostKeepsInv(s: State, t: nat, next: State)
    requires Inv(s) && t in s.calls && s.calls[t].pc.GettingHost? && s.calls[t].server !in s.hosts
    requires forall h :: ToBeClosed(s, h) ==> ToBeClosed(next, h)
    requires next.hosts == s.hosts[s.calls[t].server := |s.pools|] && next.pools == s.pools + [Pool(false, {})]
    requires next.calls == s.calls[t := Call(s.calls[t].server, Applying(|s.pools|))]
    ensures Inv(next)
  {
    var server := s.calls[t].server;
    forall h | Registered(s, h) ensures Registered(next, h) {
      var other :| other in s.hosts && s.hosts[other] == h;
      assert other in next.hosts && next.hosts[other] == h;
    }
    assert server in next.hosts && next.hosts[server] == |s.pools|;
    assert forall h :: Registered(next, h) ==> h == |s.pools| || Registered(s, h);
  }

  lemma TakeKeepsInv(s: State, t: nat)
    requires Inv(s) && Enabled(s, Take(t))
    ensures Inv(Step(s, Take(t)))
  {
    var next := Step(s, Take(t));
    ClaimsStay(s, t, next);
    var server := s.calls[t].server;
    if server in s.hosts {
      forall h | Registered(s, h) && h != s.hosts[server] ensures Registered(next, h) {
        var other :| other in s.hosts && s.hosts[other] == h;
        assert other in next.hosts && next.hosts[other] == h;
      }
      assert next.calls[t].pc.Closing? && next.calls[t].pc.host == s.hosts[server];
    } else {
      assert forall h :: Registered(s, h) <==> Registered(next, h);
    }
  }

  lemma CloseKeepsInv(s: State, t: nat)
    requires Inv(s) && Enabled(s, CloseHost(t))
    ensures Inv(Step(s, CloseHost(t)))
  {
    var next := Step(s, CloseHost(t));
    var host := s.calls[t].pc.host;
    assert next.hosts == s.hosts;
    assert forall h :: Registered(s, h) <==> Registered(next, h);
    forall h | ToBeClosed(s, h) && h != host ensures ToBeClosed(next, h) {
      var u :| u in s.calls && s.calls[u].pc.Closing? && s.calls[u].pc.host == h;
      assert u in next.calls && next.calls[u] == s.calls[u];
    }
    forall server | server in s.hosts ensures s.hosts[server] != host {
      assert Registered(s, s.hosts[server]);
    }
  }

  lemma {:induction false} RunKeepsInv(states: seq<State>, events: seq<Event>, i: nat)
    requires IsRun(states, events) && i < |states|
    ensures Inv(states[i])
  {
    if i > 0 {
      RunKeepsInv(states, events, i - 1);
      var e := events[i - 1];
      StepKeepsInv(states[i - 1], e);
    }
  }

  // ---- What follows ----

  /** A pool in the map is open, and belongs to one server. */
  lemma RegisteredIsOpen(states: seq<State>, events: seq<Event>, i: nat, server: ServerId)
    requires IsRun(states, events) && i < |states| && server in states[i].hosts
    ensures states[i].hosts[server] < |states[i].pools| && !states[i].pools[states[i].hosts[server]].closed
    ensures forall other :: other in states[i].hosts && states[i].hosts[other] == states[i].hosts[server] ==>
      other == server
  {
    RunKeepsInv(states, events, i);
  }

  lemma {:induction false} PoolsGrow(states: seq<State>, events: seq<Event>, i: nat, j: nat)
    requires IsRun(states, events) && i <= j < |states|
    ensures |states[i].pools| <= |states[j].pools|
  {
    if i < j {
      PoolsGrow(states, events, i, j - 1);
      var e := events[j - 1];
    }
  }

  /** A pool that has left the map never returns to it. */
  lemma {:induction false} RemovedNeverReturns(states: seq<State>, events: seq<Event>, i: nat, j: nat, h: HostId)
    requires IsRun(states, events) && i <= j < |states|
    requires h < |states[i].pools| && !Registered(states[i], h)
    ensures !Registered(states[j], h)
  {
    if i < j {
      RemovedNeverReturns(states, events, i, j - 1, h);
      PoolsGrow(states, events, i, j - 1);
      var e := events[j - 1];
      var s, next := states[j - 1], states[j];
      assert next == Step(s, e);
      forall server | server in next.hosts ensures next.hosts[server] != h {
        assert server in s.hosts ==> Registered(s, s.hosts[server]);
      }
    }
  }

  // The check of this failure found the pool current, and the service stop is still to come.
  predicate AboutToStop(s: State, h: HostId) {
    exists t :: t in s.calls && s.calls[t].pc == Notifying(h, true)
  }

  // Event k is a failure check of the pool, made while the pool was in the map.
  predicate CheckedWhileCurrent(states: seq<State>, events: seq<Event>, k: nat, h: HostId)
    requires |states| == |events| + 1
  {
    && k < |events| && events[k].Check? && At(states[k], events[k].thread)
    && states[k].calls[events[k].thread].pc == Checking(h) && Registered(states[k], h)
  }

  lemma CheckFindsCurrent(s: State, t: nat, h: HostId)
    requires Enabled(s, Check(t)) && Step(s, Check(t)).calls[t].pc == Notifying(h, true)
    ensures s.calls[t].pc == Checking(h) && Registered(s, h)
  {
    assert s.hosts[s.calls[t].server] == h;
  }

  lemma StopsOneMore(s: State, e: Event, h: HostId)
    requires Enabled(s, e)
    ensures h in Step(s, e).stops && h !in s.stops ==> AboutToStop(s, h)
    ensures AboutToStop(Step(s, e), h) && !AboutToStop(s, h) ==>
      e.Check? && s.calls[e.thread].pc == Checking(h) && Registered(s, h)
  {
    if h in Step(s, e).stops && h !in s.stops {
      assert s.calls[e.thread].pc == Notifying(h, true);
    }
    if AboutToStop(Step(s, e), h) && !AboutToStop(s, h) {
      var t :| t in Step(s, e).calls && Step(s, e).calls[t].pc == Notifying(h, true);
      assert e.thread == t;
      CheckFindsCurrent(s, t, h);
    }
  }

  /** The service is stopped for a pool only after a failure check of it that found it in the map. */
  lemma {:induction false} StopNeedsCurrent(states: seq<State>, events: seq<Event>, i: nat, h: HostId)
    requires IsRun(states, events) && i < |states| && (h in states[i].stops || AboutToStop(states[i], h))
    ensures exists k :: 0 <= k < i && CheckedWhileCurrent(states, events, k, h)
  {
    if i > 0 {
      var s, e := states[i - 1], events[i - 1];
      StopsOneMore(s, e, h);
      if h in s.stops || AboutToStop(s, h) {
        StopNeedsCurrent(states, events, i - 1, h);
      } else {
        assert CheckedWhileCurrent(states, events, i - 1, h);
      }
    }
  }

  // How often the service was stopped for the pool.
  function StopsFor(stops: seq<HostId>, h: HostId): nat {
    if stops == [] then 0 else StopsFor(stops[..|stops| - 1], h) + if stops[|stops| - 1] == h then 1 else 0
  }

  lemma StopsForStep(s: State, e: Event, h: HostId)
    requires Enabled(s, e) && !AboutToStop(s, h)
    ensures StopsFor(Step(s, e).stops, h) == StopsFor(s.stops, h)
  {
    var next := Step(s, e);
    if next.stops != s.stops {
      assert s.calls[e.thread].pc == Notifying(s.calls[e.thread].pc.host, true);
      assert next.stops[..|next.stops| - 1] == s.stops;
    }
  }

  /**
   Once a pool has left the map, no failure of it stops the service any more, unless its
   check had found the pool current before.
   */
  lemma {:induction false} StaleFailureIsIgnored(states: seq<State>, events: seq<Event>, i: nat, j: nat, h: HostId)
    requires IsRun(states, events) && i <= j < |states|
    requires h < |states[i].pools| && !Registered(states[i], h) && !AboutToStop(states[i], h)
    ensures StopsFor(states[j].stops, h) == StopsFor(states[i].stops, h) && !AboutToStop(states[j], h)
  {
    if i < j {
      StaleFailureIsIgnored(states, events, i, j - 1, h);
      RemovedNeverReturns(states, events, i, j - 1, h);
      var s, e := states[j - 1], events[j - 1];
      StopsForStep(s, e, h);
      StopsOneMore(s, e, h);
    }
  }

  // The call has found the pool current and stops the service, or has stopped it.
  predicate Stopping(s: State, t: nat, h: HostId) {
    (t in s.calls && s.calls[t].pc == Notifying(h, true)) || h in s.stops
  }

  lemma StoppingStays(s: State, e: Event, t: nat, h: HostId)
    requires Enabled(s, e) && Stopping(s, t, h)
    ensures Stopping(Step(s, e), t, h)
  {
  }

  /** A failure check that finds the pool current leads to a stop of the service. */
  lemma {:induction false} CurrentFailureStops(states: seq<State>, events: seq<Event>, i: nat, j: nat)
    requires IsRun(states, events) && i < j < |states| && events[i].Check?
    requires var s, t := states[i], events[i].thread;
      t in s.calls && s.calls[t].pc.Checking? && s.calls[t].server in s.hosts
      && s.hosts[s.calls[t].server] == s.calls[t].pc.host
    ensures Stopping(states[j], events[i].thread, states[i].calls[events[i].thread].pc.host)
  {
    var t, h := events[i].thread, states[i].calls[events[i].thread].pc.host;
    if i == j - 1 {
      assert states[j] == Step(states[i], events[i]);
    } else {
      CurrentFailureStops(states, events, i, j - 1);
      var e := events[j - 1];
      StoppingStays(states[j - 1], e, t, h);
    }
  }

  // ---- A reload that fails gives up its pool ----

  // A pool is mapped for no other server than this one.
  predicate OnlyFor(s: State, server: ServerId, h: HostId) {
    forall other :: other in s.hosts && s.hosts[other] == h ==> other == server
  }

  lemma OwnerStays(s: State, e: Event, server: ServerId, h: HostId)
    requires Enabled(s, e) && h < |s.pools| && OnlyFor(s, server, h)
    ensures h < |Step(s, e).pools| && OnlyFor(Step(s, e), server, h)
  {
  }

  // The call is about to take its server's pool out of the map, or the pool h is out already.
  predicate GivesUp(s: State, t: nat, server: ServerId, h: HostId) {
    && h < |s.pools| && OnlyFor(s, server, h)
    && ((t in s.calls && s.calls[t] == Call(server, Taking(false))) || !Registered(s, h))
  }

  lemma GivingUpStays(s: State, e: Event, t: nat, server: ServerId, h: HostId)
    requires Enabled(s, e) && GivesUp(s, t, server, h)
    ensures GivesUp(Step(s, e), t, server, h)
  {
    OwnerStays(s, e, server, h);
    var next := Step(s, e);
    if !Registered(s, h) {
      forall other | other in next.hosts ensures next.hosts[other] != h {
        assert other in s.hosts ==> Registered(s, s.hosts[other]);
      }
    } else if e == Take(t) {
      forall other | other in next.hosts ensures next.hosts[other] != h {
        assert other in s.hosts;
      }
    } else {
      assert t in next.calls && next.calls[t] == s.calls[t];
    }
  }

  /**
   When the plugins or the service of a reload cannot start, the call goes on to take the
   pool of its server out of the map: in every later state it is about to, or the pool is out.
   */
  lemma {:induction false} FailedReloadGivesUp(states: seq<State>, events: seq<Event>, i: nat, j: nat, h: HostId)
    requires IsRun(states, events) && i < j < |states| && (events[i].ApplyErr? || events[i].ServiceErr?)
    requires var s, t := states[i], events[i].thread;
      t in s.calls && s.calls[t].server in s.hosts && s.hosts[s.calls[t].server] == h
    ensures var t := events[i].thread;
      || (t in states[j].calls && states[j].calls[t] == Call(states[i].calls[t].server, Taking(false)))
      || !Registered(states[j], h)
  {
    FailedReloadIsGivingUp(states, events, i, j, h);
  }

  lemma {:induction false} FailedReloadIsGivingUp(states: seq<State>, events: seq<Event>, i: nat, j: nat, h: HostId)
    requires IsRun(states, events) && i < j < |states| && (events[i].ApplyErr? || events[i].ServiceErr?)
    requires var s, t := states[i], events[i].thread;
      t in s.calls && s.calls[t].server in s.hosts && s.hosts[s.calls[t].server] == h
    ensures GivesUp(states[j], events[i].thread, states[i].calls[events[i].thread].server, h)
  {
    var t, server := events[i].thread, states[i].calls[events[i].thread].server;
    if i == j - 1 {
      RunKeepsInv(states, events, i);
      assert OnlyFor(states[i], server, h);
      OwnerStays(states[i], events[i], server, h);
      assert states[j] == Step(states[i], events[i]);
    } else {
      FailedReloadIsGivingUp(states, events, i, j - 1, h);
      var e := events[j - 1];
      GivingUpStays(states[j - 1], e, t, server, h);
    }
  }

  /** A call that has taken a pool out of the map closes it before it returns. */
  lemma TakenIsClosed(s: State, e: Event, t: nat, h: HostId)
    requires Enabled(s, e) && t in s.calls && s.calls[t].pc.Closing? && s.calls[t].pc.host == h
    ensures (t in Step(s, e).calls && Step(s, e).calls[t] == s.calls[t])
      || (h < |Step(s, e).pools| && Step(s, e).pools[h] == Pool(true, {}))
  {
  }

  // Why a call is at the locked section of closePlugins.
  predicate MayTake(events: seq<Event>, i: nat, t: nat)
    requires i <= |events|
  {
    exists k :: 0 <= k < i &&
      ((events[k].Begin? && events[k].thread == t && events[k].pc.Taking?)
       || events[k] == ApplyErr(t) || events[k] == ServiceErr(t))
  }

  lemma MayTakeStep(events: seq<Event>, i: nat, t: nat)
    requires i < |events|
    ensures MayTake(events, i, t) ==> MayTake(events, i + 1, t)
    ensures events[i].Begin? && events[i].thread == t && events[i].pc.Taking? ==> MayTake(events, i + 1, t)
    ensures events[i] == ApplyErr(t) || events[i] == ServiceErr(t) ==> MayTake(events, i + 1, t)
  {
  }

  /** Pools leave the map only for a call that closes, reloads without plugins, or has failed. */
  lemma {:induction false} TakingHasAReason(states: seq<State>, events: seq<Event>, i: nat, t: nat)
    requires IsRun(states, events) && i < |states| && t in states[i].calls && states[i].calls[t].pc.Taking?
    ensures MayTake(events, i, t)
  {
    if i > 0 {
      var s, e := states[i - 1], events[i - 1];
      MayTakeStep(events, i - 1, t);
      if t in s.calls && s.calls[t].pc.Taking? {
        TakingHasAReason(states, events, i - 1, t);
      }
    }
  }

  lemma HostsStay(s: State, e: Event, server: ServerId)
    requires Enabled(s, e) && !e.Take? && server in s.hosts
    ensures server in Step(s, e).hosts && Step(s, e).hosts[server] == s.hosts[server]
  {
  }

  /** Only the locked section of closePlugins takes a pool out of the map. */
  lemma OnlyTakeRemoves(s: State, e: Event, h: HostId)
    requires Enabled(s, e) && Registered(s, h) && !e.Take?
    ensures Registered(Step(s, e), h)
  {
    var server :| server in s.hosts && s.hosts[server] == h;
    HostsStay(s, e, server);
  }

  /** A call returns when the service runs, when it has closed, or when it has notified; a reload not sooner. */
  lemma ReturnsWhenDone(s: State, e: Event, t: nat)
    requires Enabled(s, e) && t in s.calls && t !in Step(s, e).calls
    ensures || e == ServiceOk(t) || e == Notify(t)
      || (e == CloseHost(t) && !s.calls[t].pc.resume)
      || (e == Take(t) && !s.calls[t].pc.resume && s.calls[t].server !in s.hosts)
  {
  }

  /** A pool runs what its last successful Apply gave it: nothing else but a failed Apply or a close changes it. */
  lemma PoolChangesByItsCalls(s: State, e: Event, h: HostId)
    requires Enabled(s, e) && h < |s.pools|
    ensures h < |Step(s, e).pools|
    ensures Step(s, e).pools[h] ==
      if e.ApplyOk? && s.calls[e.thread].pc == Applying(h) then Pool(false, e.guards)
      else if e.ApplyErr? && s.calls[e.thread].pc == Applying(h) then Pool(s.pools[h].closed, {})
      else if e.CloseHost? && s.calls[e.thread].pc.host == h then Pool(true, {})
      else s.pools[h]
  {
  }

  /** Once no call is running, every guard belongs to a pool still in the map. */
  lemma QuietGuardsAreOwned(states: seq<State>, events: seq<Event>, i: nat, h: HostId)
    requires IsRun(states, events) && i < |states| && states[i].calls == map[]
    requires h < |states[i].pools| && states[i].pools[h].guards != {}
    ensures Registered(states[i], h) && !states[i].pools[h].closed
  {
    RunKeepsInv(states, events, i);
  }

  /** A closed pool stays closed and empty: an Apply that lost the race against the close changes nothing. */
  lemma {:induction false} ClosedStaysEmpty(states: seq<State>, events: seq<Event>, i: nat, j: nat, h: HostId)
    requires IsRun(states, events) && i <= j < |states|
    requires h < |states[i].pools| && states[i].pools[h].closed
    ensures h < |states[j].pools| && states[j].pools[h] == Pool(true, {})
  {
    RunKeepsInv(states, events, i);
    if i < j {
      ClosedStaysEmpty(states, events, i, j - 1, h);
      var e := events[j - 1];
    }
  }

  lemma Extend(states: seq<State>, events: seq<Event>, e: Event) returns (longer: seq<State>, more: seq<Event>)
    requires IsRun(states, events) && Enabled(states[|events|], e)
    ensures IsRun(longer, more) && longer[|more|] == Step(states[|events|], e)
  {
    longer, more := states + [Step(states[|events|], e)], events + [e];
    forall i {:trigger more[i]} | 0 <= i < |more|
      ensures Enabled(longer[i], more[i]) && longer[i + 1] == Step(longer[i], more[i])
    {
      if i < |events| {
        assert Enabled(states[i], events[i]);
      }
    }
  }

  // ---- The package state itself ----

  /** The map under its mutex, the pools and the calls that are running. */
  class Registry {
    var hosts: map<ServerId, HostId>
    var pools: seq<Pool>
    var calls: map<nat, Call>
    var stops: seq<HostId>

    function View(): State
      reads this
    {
      State(hosts, pools, calls, stops)
    }

    constructor ()
      ensures View() == INIT
    {
      hosts, pools, calls, stops := map[], [], map[], [];
    }

    method PluginHost(server: ServerId) returns (host: HostId)
      modifies this`hosts, this`pools
      ensures host == HostIn(old(hosts), |old(pools)|, server) && hosts == old(hosts)[server := host]
      ensures pools == if server in old(hosts) then old(pools) else old(pools) + [Pool(false, {})]
    {
      if server !in hosts {
        hosts := hosts[server := |pools|];
        pools := pools + [Pool(false, {})];
      }
      host := hosts[server];
    }

    // The locked section of closePlugins.
    method TakeHost(server: ServerId) returns (host: Option<HostId>)
      modifies this`hosts
      ensures host == if server in old(hosts) then Some(old(hosts)[server]) else None
      ensures hosts == old(hosts) - {server}
    {
      host := if server in hosts then Some(hosts[server]) else None;
      hosts := hosts - {server};
    }

    method MoveTo(thread: nat, pc: PC)
      requires thread in calls
      modifies this`calls
      ensures calls == old(calls)[thread := old(calls)[thread].(pc := pc)]
    {
      calls := calls[thread := Call(calls[thread].server, pc)];
    }

    method Leave(thread: nat)
      modifies this`calls
      ensures calls == old(calls) - {thread}
    {
      calls := calls - {thread};
    }

    // A reload: its pool, the pool's Apply, and the service.
    method Reload(e: Event)
      requires Enabled(View(), e) && (e.GetHost? || e.ApplyOk? || e.ApplyErr? || e.ServiceOk? || e.ServiceErr?)
      modifies this
      ensures View() == Step(old(View()), e)
    {
      var t := e.thread;
      match e {
        case GetHost(_) =>
          var host := PluginHost(calls[t].server);
          MoveTo(t, Applying(host));
        case ApplyOk(_, guards) =>
          pools := pools[calls[t].pc.host := Pool(false, guards)];
          MoveTo(t, StartingService);
        case ApplyErr(_) =>
          var host := calls[t].pc.host;
          pools := pools[host := Pool(pools[host].closed, {})];
          MoveTo(t, Taking(false));
        case ServiceOk(_) => Leave(t);
        case ServiceErr(_) => MoveTo(t, Taking(false));
      }
    }

    // closePlugins: the locked section, and the Close after it.
    method ClosePlugins(e: Event)
      requires Enabled(View(), e) && (e.Take? || e.CloseHost?)
      modifies this
      ensures View() == Step(old(View()), e)
    {
      var t := e.thread;
      var resume := calls[t].pc.resume;
      if e.Take? {
        var host := TakeHost(calls[t].server);
        if host.Some? {
          MoveTo(t, Closing(host.value, resume));
          return;
        }
        assert hosts == old(hosts);
      } else {
        pools := pools[calls[t].pc.host := Pool(true, {})];
      }
      if resume {
        MoveTo(t, StartingService);
      } else {
        Leave(t);
      }
    }

    // pluginFailed: the locked check, and the stop after it.
    method PluginFailed(e: Event)
      requires Enabled(View(), e) && (e.Check? || e.Notify?)
      modifies this
      ensures View() == Step(old(View()), e)
    {
      var t := e.thread;
      var host := calls[t].pc.host;
      if e.Check? {
        var server := calls[t].server;
        MoveTo(t, Notifying(host, server in hosts && hosts[server] == host));
        return;
      }
      if calls[t].pc.current {
        stops := stops + [host];
      }
      Leave(t);
    }

    method Perform(e: Event)
      requires Enabled(View(), e)
      modifies this
      ensures View() == Step(old(View()), e)
    {
      match e {
        case Begin(t, server, pc) => calls := calls[t := Call(server, pc)];
        case Take(_) => ClosePlugins(e);
        case CloseHost(_) => ClosePlugins(e);
        case Check(_) => PluginFailed(e);
        case Notify(_) => PluginFailed(e);
        case _ => Reload(e);
      }
    }

    /**
     Whatever calls arrive and however their steps interleave: mapped pools are open and
     have one owner, the service was stopped only for pools found current by a check, and
     when no call is running every guard belongs to a mapped pool.
     */
    method Play(schedule: seq<Event>) returns (ghost states: seq<State>, ghost events: seq<Event>)
      requires View() == INIT
      modifies this
      ensures View() == After(INIT, schedule)
      ensures IsRun(states, events) && states[|events|] == View()
      ensures forall s :: s in hosts ==> hosts[s] < |pools| && !pools[hosts[s]].closed
      ensures forall s, u :: s in hosts && u in hosts && hosts[s] == hosts[u] ==> s == u
      ensures forall i, h :: 0 <= i < |events| ==> ReloadGaveUp(states, events, i, View(), h)
      ensures forall h :: h in stops ==> exists k :: 0 <= k < |events| && CheckedWhileCurrent(states, events, k, h)
      ensures calls == map[] ==>
        forall h :: 0 <= h < |pools| && pools[h].guards != {} ==> Registered(View(), h) && !pools[h].closed
    {
      states, events := [View()], [];
      for i := 0 to |schedule|
        invariant View() == After(INIT, schedule[..i])
        invariant IsRun(states, events) && states[|events|] == View()
      {
        assert schedule[..i + 1][..i] == schedule[..i];
        if Enabled(View(), schedule[i]) {
          states, events := Extend(states, events, schedule[i]);
          Perform(schedule[i]);
        }
      }
      assert schedule[..|schedule|] == schedule;
      RunHasResults(states, events);
    }
  }

  // If this event was the failure of a reload with pool h, and the call has returned, the pool is out of the map.
  predicate ReloadGaveUp(states: seq<State>, events: seq<Event>, i: nat, later: State, h: HostId)
    requires i < |events| < |states|
  {
    var s, e := states[i], events[i];
    (e.ApplyErr? || e.ServiceErr?) && e.thread in s.calls && e.thread !in later.calls ==>
      (s.calls[e.thread].server in s.hosts && s.hosts[s.calls[e.thread].server] == h ==> !Registered(later, h))
  }

  // The state after the possible events of a schedule.
  function After(start: State, schedule: seq<Event>): State {
    if schedule == [] then start else
      var before := After(start, schedule[..|schedule| - 1]);
      var e := schedule[|schedule| - 1];
      if Enabled(before, e) then Step(before, e) else before
  }

  lemma RunHasResults(states: seq<State>, events: seq<Event>)
    requires IsRun(states, events)
    ensures var s := states[|events|];
      && MapIsOpen(s)
      && (s.calls == map[] ==>
        forall h :: 0 <= h < |s.pools| && s.pools[h].guards != {} ==> Registered(s, h) && !s.pools[h].closed)
    ensures forall i, h :: 0 <= i < |events| ==> ReloadGaveUp(states, events, i, states[|events|], h)
    ensures forall h :: h in states[|events|].stops ==>
      exists k :: 0 <= k < |events| && CheckedWhileCurrent(states, events, k, h)
  {
    var n := |events|;
    RunKeepsInv(states, events, n);
    forall i, h | 0 <= i < |events| ensures ReloadGaveUp(states, events, i, states[n], h) {
      var s, e := states[i], events[i];
      if (e.ApplyErr? || e.ServiceErr?) && e.thread in s.calls && s.calls[e.thread].server in s.hosts
         && s.hosts[s.calls[e.thread].server] == h {
        FailedReloadGivesUp(states, events, i, n, h);
      }
    }
    forall h | h in states[n].stops
      ensures exists k :: 0 <= k < |events| && CheckedWhileCurrent(states, events, k, h)
    {
      StopNeedsCurrent(states, events, n, h);
    }
    if states[n].calls == map[] {
      forall h: nat | h < |states[n].pools| && states[n].pools[h].guards != {}
        ensures Registered(states[n], h) && !states[n].pools[h].closed
      {
        QuietGuardsAreOwned(states, events, n, h);
      }
    }
  }
}
