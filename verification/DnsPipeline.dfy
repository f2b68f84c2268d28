/**
 From the connectivity callbacks to the resolver: the publishing thread and the
 serve loop of SystemDnsHelper.java, the socket between the processes, and the
 snapshot reader of client_android.go. Each monitor section, write, read and check
 is one step, and any interleaving may happen. A frame stands for the list it was
 encoded from; what the reader's `decodeSnapshot` makes of that list is a parameter.
 */
module DnsPipeline {
  import opened Prelude

  type Servers = seq<string>

  // What a published list is once it has been read.
  type Decoder = Servers -> Servers

  // A list on its way, with the generation it was published as.
  datatype Frame = Frame(generation: int, servers: Servers)

  datatype ServePC =
    | BeforeLatch                            // initialized.await
    | Checking                               // the monitor section
    | Parked                                 // changed.wait
    | Writing(next: Option<Servers>)         // output.write; None would be a null snapshot

  datatype ReaderPC = Initial | Reading | Failed | Clearing | Over

  datatype Helper = Helper(
    alive: bool,
    snapshot: Option<Servers>,
    generation: int,
    posted: bool,                            // the publish that was posted before the latch has run
    serve: ServePC,
    sent: int,
    history: seq<Servers>)                   // what generation k + 1 published

  datatype Core = Core(
    decode: Decoder,
    stopping: bool,
    reader: ReaderPC,
    previous: Servers,
    managed: Servers,                        // the resolver's servers
    taken: int,                              // generation of the last frame read
    applied: seq<Frame>,                     // every update with a decoded list, in order
    cleared: bool)

  datatype State = State(helper: Helper, channel: seq<Frame>, core: Core)

  datatype Event =
    | Publish(servers: Servers, first: bool) // first: the publish posted in run
    | ServeBegins | ServeChecks | ServeWakes | ServeWrites
    | HelperDies
    | ReadsFrame | ReadFails | ChecksStop | Clears
    | Stops

  const INITIAL_HELPER := Helper(true, None, 0, false, BeforeLatch, -1, [])

  function InitialCore(decode: Decoder): Core {
    Core(decode, false, Initial, [], [], -1, [], false)
  }

  function Init(decode: Decoder): State {
    State(INITIAL_HELPER, [], InitialCore(decode))
  }

  predicate Enabled(s: State, e: Event) {
    match e
    case Publish(_, _) => s.helper.alive
    case ServeBegins => s.helper.alive && s.helper.serve.BeforeLatch? && s.helper.posted
    case ServeChecks => s.helper.alive && s.helper.serve.Checking?
    case ServeWakes => s.helper.alive && s.helper.serve.Parked?
    case ServeWrites => s.helper.alive && s.helper.serve.Writing?
    case HelperDies => s.helper.alive
    case ReadsFrame => (s.core.reader.Initial? || s.core.reader.Reading?) && s.channel != []
    case ReadFails => s.core.reader.Initial? || s.core.reader.Reading?
    case ChecksStop => s.core.reader.Failed?
    case Clears => s.core.reader.Clearing?
    case Stops => true
  }

  function Published(h: Helper, servers: Servers, first: bool): Helper {
    var t := h.(posted := h.posted || first);
    if h.snapshot == Some(servers) then t
    else t.(snapshot := Some(servers), generation := h.generation + 1, history := h.history + [servers],
            serve := if h.serve.Parked? then Checking else h.serve)
  }

  function Checked(h: Helper): Helper {
    if h.sent == h.generation then h.(serve := Parked)
    else h.(serve := Writing(h.snapshot), sent := h.generation)
  }

  function Decoded(decode: Decoder, f: Frame): Frame {
    Frame(f.generation, decode(f.servers))
  }

  // The list read replaces the one in use unless it repeats it; the first one always does.
  function Taken(c: Core, f: Frame): Core {
    var t := c.(taken := f.generation, reader := Reading);
    var next := c.decode(f.servers);
    if c.reader.Initial? || c.previous != next
    then t.(previous := next, managed := next, applied := c.applied + [Decoded(c.decode, f)])
    else t
  }

  function Step(s: State, e: Event): State
    requires Enabled(s, e)
  {
    match e
    case Publish(servers, first) => s.(helper := Published(s.helper, servers, first))
    case ServeBegins => s.(helper := s.helper.(serve := Checking))
    case ServeChecks => s.(helper := Checked(s.helper))
    case ServeWakes => s.(helper := s.helper.(serve := Checking))
    case ServeWrites =>
      if s.helper.serve.next.None? then s.(helper := s.helper.(alive := false))
      else s.(helper := s.helper.(serve := Checking), channel := s.channel
        + [Frame(s.helper.sent, s.helper.serve.next.value)])
    case HelperDies => s.(helper := s.helper.(alive := false))
    case ReadsFrame => s.(channel := s.channel[1..], core := Taken(s.core, s.channel[0]))
    case ReadFails => s.(core := s.core.(reader := if s.core.reader.Initial? then Over else Failed))
    case ChecksStop => s.(core := s.core.(reader := if s.core.stopping then Over else Clearing))
    case Clears => s.(core := s.core.(managed := [], cleared := true, reader := Over))
    case Stops => s.(core := s.core.(stopping := true))
  }

  ghost predicate IsRun(states: seq<State>, events: seq<Event>) {
    && |states| == |events| + 1
    && states[0] == Init(states[0].core.decode)
    && forall i {:trigger events[i]} :: 0 <= i < |events| ==>
      Enabled(states[i], events[i]) && states[i + 1] == Step(states[i], events[i])
  }

  // ---- Invariant ----

  predicate Genuine(history: seq<Servers>, f: Frame) {
    1 <= f.generation <= |history| && history[f.generation - 1] == f.servers
  }

  predicate GenuineOnceDecoded(history: seq<Servers>, decode: Decoder, f: Frame) {
    1 <= f.generation <= |history| && decode(history[f.generation - 1]) == f.servers
  }

  predicate HelperInv(h: Helper) {
    && h.generation == |h.history|
    && (h.generation == 0 <==> h.snapshot.None?)
    && (h.snapshot.Some? ==> h.snapshot.value == h.history[h.generation - 1])
    && (h.posted ==> h.generation >= 1)
    && (!h.serve.BeforeLatch? ==> h.posted)
    && (h.serve.Parked? ==> h.sent == h.generation)
    && (h.serve.Writing? ==> h.serve.next.Some? && Genuine(h.history, Frame(h.sent, h.serve.next.value)))
    && -1 <= h.sent <= h.generation && h.sent != 0
    && (h.serve.BeforeLatch? ==> h.sent == -1)
  }

  // Frames on their way: generations grow from the last one read to the last one sent.
  predicate ChannelInv(history: seq<Servers>, channel: seq<Frame>, taken: int, sent: int, writing: bool) {
    && (forall i :: 0 <= i < |channel| ==> Genuine(history, channel[i]) && taken < channel[i].generation)
    && (forall i, j :: 0 <= i < j < |channel| ==> channel[i].generation < channel[j].generation)
    && var last := if channel == [] then taken else channel[|channel| - 1].generation;
       if writing then last < sent else last == sent
  }

  predicate CoreInv(history: seq<Servers>, c: Core) {
    && (c.reader.Initial? ==> c.applied == [] && c.taken == -1 && !c.cleared)
    && (c.reader.Reading? || c.reader.Failed? || c.reader.Clearing? ==>
        c.applied != [] && !c.cleared && c.managed == c.previous
          && GenuineOnceDecoded(history, c.decode, Frame(c.taken, c.previous)))
    && (c.applied != [] ==>
      c.previous == c.applied[|c.applied| - 1].servers && c.applied[|c.applied| - 1].generation <= c.taken)
    && (forall i :: 0 <= i < |c.applied| ==> GenuineOnceDecoded(history, c.decode, c.applied[i]))
    && (forall i :: 0 < i < |c.applied| ==>
        c.applied[i - 1].generation < c.applied[i].generation && c.applied[i - 1].servers != c.applied[i].servers)
    && (c.cleared ==> c.reader.Over?)
    && (c.applied == [] || c.cleared ==> c.managed == [])
    && (c.reader.Over? && !c.stopping ==> c.managed == [])
  }

  predicate Inv(s: State) {
    && HelperInv(s.helper)
    && ChannelInv(s.helper.history, s.channel, s.core.taken, s.helper.sent, s.helper.serve.Writing?)
    && CoreInv(s.helper.history, s.core)
  }

  // What was published stays published.
  lemma HistoryGrows(history: seq<Servers>, more: Servers, channel: seq<Frame>, taken: int, sent: int, writing: bool,
                     c: Core)
    requires ChannelInv(history, channel, taken, sent, writing) && CoreInv(history, c)
    ensures ChannelInv(history + [more], channel, taken, sent, writing) && CoreInv(history + [more], c)
  {
    forall f | Genuine(history, f) ensures Genuine(history + [more], f) {}
    forall f | GenuineOnceDecoded(history, c.decode, f) ensures GenuineOnceDecoded(history + [more], c.decode, f) {}
  }

  lemma FrameSent(history: seq<Servers>, channel: seq<Frame>, taken: int, f: Frame)
    requires ChannelInv(history, channel, taken, f.generation, true) && Genuine(history, f)
    ensures ChannelInv(history, channel + [f], taken, f.generation, false)
  {
  }

  lemma FrameTaken(history: seq<Servers>, channel: seq<Frame>, sent: int, writing: bool, c: Core)
    requires channel != [] && ChannelInv(history, channel, c.taken, sent, writing) && CoreInv(history, c)
    requires c.reader.Initial? || c.reader.Reading?
    ensures ChannelInv(history, channel[1..], channel[0].generation, sent, writing)
    ensures CoreInv(history, Taken(c, channel[0]))
  {
    RestOfChannel(history, channel, c.taken, sent, writing);
    TakenIsSound(history, c, channel[0]);
  }

  lemma RestOfChannel(history: seq<Servers>, channel: seq<Frame>, taken: int, sent: int, writing: bool)
    requires channel != [] && ChannelInv(history, channel, taken, sent, writing)
    ensures ChannelInv(history, channel[1..], channel[0].generation, sent, writing)
    ensures Genuine(history, channel[0]) && taken < channel[0].generation
  {
  }

  lemma TakenIsSound(history: seq<Servers>, c: Core, f: Frame)
    requires CoreInv(history, c) && Genuine(history, f) && c.taken < f.generation
    requires c.reader.Initial? || c.reader.Reading?
    ensures CoreInv(history, Taken(c, f))
  {
    if c.reader.Initial? || c.previous != c.decode(f.servers) {
      assert GenuineOnceDecoded(history, c.decode, Decoded(c.decode, f));
    }
  }

  lemma PublishKeepsInv(s: State, e: Event)
    requires Inv(s) && Enabled(s, e) && e.Publish?
    ensures Inv(Step(s, e))
  {
    var h := s.helper;
    HistoryGrows(h.history, e.servers, s.channel, s.core.taken, h.sent, h.serve.Writing?, s.core);
    assert HelperInv(Published(h, e.servers, e.first));
  }

  lemma ServeKeepsInv(s: State, e: Event)
    requires Inv(s) && Enabled(s, e) && (e.ServeBegins? || e.ServeChecks? || e.ServeWakes? || e.ServeWrites?
      || e.HelperDies?)
    ensures Inv(Step(s, e))
  {
    if e.ServeWrites? {
      FrameSent(s.helper.history, s.channel, s.core.taken, Frame(s.helper.sent, s.helper.serve.next.value));
    }
  }

  lemma ReadKeepsInv(s: State)
    requires Inv(s) && Enabled(s, ReadsFrame)
    ensures Inv(Step(s, ReadsFrame))
  {
    FrameTaken(s.helper.history, s.channel, s.helper.sent, s.helper.serve.Writing?, s.core);
  }

  lemma CoreKeepsInv(s: State, e: Event)
    requires Inv(s) && Enabled(s, e) && (e.ReadFails? || e.ChecksStop? || e.Clears? || e.Stops?)
    ensures Inv(Step(s, e))
  {
  }

  lemma StepKeepsInv(s: State, e: Event)
    requires Inv(s) && Enabled(s, e)
    ensures Inv(Step(s, e))
  {
    match e {
      case Publish(_, _) => PublishKeepsInv(s, e);
      case ReadsFrame => ReadKeepsInv(s);
      case ReadFails => CoreKeepsInv(s, e);
      case ChecksStop => CoreKeepsInv(s, e);
      case Clears => CoreKeepsInv(s, e);
      case Stops => CoreKeepsInv(s, e);
      case _ => ServeKeepsInv(s, e);
    }
  }

  lemma {:induction false} RunKeepsInv(states: seq<State>, events: seq<Event>, i: nat)
    requires IsRun(states, events) && i < |states|
    ensures Inv(states[i])
  {
    if i > 0 {
      RunKeepsInv(states, events, i - 1);
      var e := events[i - 1];
      StepKeepsInv(states[i - 1], e);
    }
  }

  // ---- What follows ----

  /** The serve thread never writes a null snapshot and is never parked with something left to send. */
  lemma ServeIsSound(states: seq<State>, events: seq<Event>, i: nat)
    requires IsRun(states, events) && i < |states|
    ensures states[i].helper.serve.Writing? ==> states[i].helper.serve.next.Some?
    ensures states[i].helper.serve.Parked? ==> states[i].helper.sent == states[i].helper.generation
  {
    RunKeepsInv(states, events, i);
  }

  /** Applied lists are published ones, decoded, of growing generations, and no two in a row are equal. */
  lemma AppliedInOrder(states: seq<State>, events: seq<Event>, i: nat, k: nat)
    requires IsRun(states, events) && i < |states| && k < |states[i].core.applied|
    ensures GenuineOnceDecoded(states[i].helper.history, states[0].core.decode, states[i].core.applied[k])
    ensures k > 0 ==> states[i].core.applied[k - 1].generation < states[i].core.applied[k].generation
    ensures k > 0 ==> states[i].core.applied[k - 1].servers != states[i].core.applied[k].servers
  {
    RunKeepsInv(states, events, i);
    DecoderStays(states, events, i);
  }

  /** Once everything sent has been read, the resolver uses the latest published list, decoded. */
  lemma CaughtUp(states: seq<State>, events: seq<Event>, i: nat)
    requires IsRun(states, events) && i < |states|
    requires var s := states[i];
      s.helper.sent == s.helper.generation && !s.helper.serve.Writing? && s.channel == [] && s.core.reader.Reading?
    ensures states[i].helper.snapshot.Some?
    ensures states[i].core.managed == states[0].core.decode(states[i].helper.snapshot.value)
  {
    RunKeepsInv(states, events, i);
    DecoderStays(states, events, i);
  }

  lemma {:induction false} DecoderStays(states: seq<State>, events: seq<Event>, i: nat)
    requires IsRun(states, events) && i < |states|
    ensures states[i].core.decode == states[0].core.decode
  {
    if i > 0 {
      DecoderStays(states, events, i - 1);
      var e := events[i - 1];
    }
  }

  predicate Ending(c: Core) {
    c.reader.Failed? || c.reader.Clearing? || c.reader.Over?
  }

  lemma EndingStays(s: State, e: Event)
    requires Enabled(s, e) && Ending(s.core)
    ensures Ending(Step(s, e).core) && Step(s, e).core.applied == s.core.applied
    ensures s.core.reader.Clearing? ==>
      Step(s, e).core.reader.Clearing? || (Step(s, e).core.reader.Over? && Step(s, e).core.managed == [])
    ensures s.core.reader.Over? ==> Step(s, e).core.reader.Over? && Step(s, e).core.managed == s.core.managed
  {
  }

  /**
   When a read failure turns out not to be a stop, nothing is read any more, and the
   one step that is left empties the list for good.
   */
  lemma {:induction false} ClearedForGood(states: seq<State>, events: seq<Event>, i: nat, j: nat)
    requires IsRun(states, events) && i < j < |states|
    requires events[i].ChecksStop? && !states[i].core.stopping
    ensures states[j].core.reader.Clearing? || (states[j].core.reader.Over? && states[j].core.managed == [])
    ensures states[j].core.applied == states[i].core.applied
  {
    RunKeepsInv(states, events, j - 1);
    if i == j - 1 {
      assert states[j] == Step(states[i], events[i]);
    } else {
      ClearedForGood(states, events, i, j - 1);
      EndingStays(states[j - 1], events[j - 1]);
    }
  }

  /**
   After any read failure the reader reads nothing more, and once it has ended without
   a stop no server is in use; a list can stay in use only after a stop.
   */
  lemma {:induction false} FailureEndsReading(states: seq<State>, events: seq<Event>, i: nat, j: nat)
    requires IsRun(states, events) && i < j < |states| && events[i].ReadFails?
    ensures Ending(states[j].core)
    ensures states[j].core.reader.Over? && states[j].core.managed != [] ==> states[j].core.stopping
    ensures states[j].core.applied == states[i].core.applied
  {
    RunKeepsInv(states, events, j);
    if i == j - 1 {
      assert states[j] == Step(states[i], events[i]);
    } else {
      FailureEndsReading(states, events, i, j - 1);
      EndingStays(states[j - 1], events[j - 1]);
    }
  }

  /** When a read failure is found to be a stop, the list in use stays, and it is never cleared. */
  lemma {:induction false} StopKeepsTheList(states: seq<State>, events: seq<Event>, i: nat, j: nat)
    requires IsRun(states, events) && i < j < |states|
    requires events[i].ChecksStop? && states[i].core.stopping
    ensures states[j].core.reader.Over? && states[j].core.managed == states[i].core.managed && !states[j].core.cleared
  {
    RunKeepsInv(states, events, i);
    if i == j - 1 {
      assert states[j] == Step(states[i], events[i]);
    } else {
      StopKeepsTheList(states, events, i, j - 1);
      var e := events[j - 1];
      assert Enabled(states[j - 1], e) && states[j] == Step(states[j - 1], e);
    }
  }

  // ---- Only changes are handed over ----

  ghost predicate NoRepeats(history: seq<Servers>) {
    forall k :: 0 < k < |history| ==> history[k - 1] != history[k]
  }

  /** No two published lists in a row are equal: each generation is a change. */
  lemma {:induction false} GenerationsAreChanges(states: seq<State>, events: seq<Event>, i: nat)
    requires IsRun(states, events) && i < |states|
    ensures NoRepeats(states[i].helper.history)
  {
    if i > 0 {
      GenerationsAreChanges(states, events, i - 1);
      RunKeepsInv(states, events, i - 1);
      var e := events[i - 1];
      HistoryStep(states[i - 1], e);
    }
  }

  lemma HistoryStep(s: State, e: Event)
    requires HelperInv(s.helper) && Enabled(s, e) && NoRepeats(s.helper.history)
    ensures NoRepeats(Step(s, e).helper.history)
  {
  }

  /** Publishing the list in the snapshot again changes nothing but the latch. */
  lemma SameListIsNotSent(h: Helper, servers: Servers, first: bool)
    requires h.snapshot == Some(servers)
    ensures Published(h, servers, first) == h.(posted := h.posted || first)
  {
  }

  /** Publishing another one makes it the next generation and leaves no parked thread. */
  lemma OtherListIsSent(h: Helper, servers: Servers, first: bool)
    requires h.snapshot != Some(servers)
    ensures var next := Published(h, servers, first);
      && next.snapshot == Some(servers) && next.generation == h.generation + 1 && next.history == h.history + [servers]
      && !next.serve.Parked? && next.sent == h.sent && (!h.serve.Parked? ==> next.serve == h.serve)
  {
  }

  // ---- The last list arrives ----

  // No new list, no failure and no stop: the pipeline is left to itself.
  predicate Quiet(e: Event) {
    e.ServeBegins? || e.ServeChecks? || e.ServeWakes? || e.ServeWrites? || e.ReadsFrame?
  }

  ghost predicate QuietBetween(events: seq<Event>, i: nat, j: nat)
    requires i <= j <= |events|
  {
    forall k :: i <= k < j ==> Quiet(events[k])
  }

  // The steps still needed until the latest list is in use.
  function ToGo(s: State): nat {
    (if s.helper.serve.BeforeLatch? then 1 else 0)
    + (if s.helper.sent != s.helper.generation then 3 else 0)
    + (if s.helper.serve.Writing? then 2 else 0)
    + |s.channel|
  }

  // All but waking for nothing and going back to wait.
  predicate Useful(s: State, e: Event) {
    e.ServeBegins? || e.ServeWrites? || e.ReadsFrame? || (e.ServeChecks? && s.helper.sent != s.helper.generation)
  }

  lemma QuietStep(s: State, e: Event)
    requires HelperInv(s.helper) && Enabled(s, e) && Quiet(e)
    ensures ToGo(Step(s, e)) + (if Useful(s, e) then 1 else 0) == ToGo(s)
    ensures Step(s, e).helper.snapshot == s.helper.snapshot
    ensures !Ending(s.core) ==> !Ending(Step(s, e).core)
  {
  }

  // The useful steps between i and j.
  function Steps(states: seq<State>, events: seq<Event>, i: nat, j: nat): nat
    requires i <= j <= |events| < |states|
  {
    if i == j then 0 else Steps(states, events, i, j - 1) + if Useful(states[j - 1], events[j - 1]) then 1 else 0
  }

  /**
   While the publisher is quiet each useful step leaves exactly one less to go, and no
   other changes how many there are.
   */
  lemma {:induction false} QuietRunAdvances(states: seq<State>, events: seq<Event>, i: nat, j: nat)
    requires IsRun(states, events) && i <= j < |states| && QuietBetween(events, i, j)
    ensures Steps(states, events, i, j) + ToGo(states[j]) == ToGo(states[i])
    ensures states[j].helper.snapshot == states[i].helper.snapshot
    ensures !Ending(states[i].core) ==> !Ending(states[j].core)
  {
    if i < j {
      QuietRunAdvances(states, events, i, j - 1);
      RunKeepsInv(states, events, j - 1);
      var e := events[j - 1];
      QuietStep(states[j - 1], e);
    }
  }

  /** As long as steps are to go, one of them is possible. */
  lemma SomethingToDo(states: seq<State>, events: seq<Event>, i: nat)
    requires IsRun(states, events) && i < |states| && ToGo(states[i]) > 0
    requires states[i].helper.alive && states[i].helper.posted
    requires !Ending(states[i].core)
    ensures exists e :: Quiet(e) && Enabled(states[i], e) && Useful(states[i], e)
  {
    RunKeepsInv(states, events, i);
    var s := states[i];
    if s.channel != [] {
      assert Useful(s, ReadsFrame) && Enabled(s, ReadsFrame) && Quiet(ReadsFrame);
    } else if s.helper.serve.BeforeLatch? {
      assert Useful(s, ServeBegins) && Enabled(s, ServeBegins) && Quiet(ServeBegins);
    } else if s.helper.serve.Writing? {
      assert Useful(s, ServeWrites) && Enabled(s, ServeWrites) && Quiet(ServeWrites);
    } else {
      assert Useful(s, ServeChecks) && Enabled(s, ServeChecks) && Quiet(ServeChecks);
    }
  }

  /** With no step to go the latest list is in use. */
  lemma NothingToGo(states: seq<State>, events: seq<Event>, i: nat)
    requires IsRun(states, events) && i < |states| && ToGo(states[i]) == 0 && !Ending(states[i].core)
    ensures states[i].helper.snapshot.Some?
    ensures states[i].core.managed == states[0].core.decode(states[i].helper.snapshot.value)
  {
    RunKeepsInv(states, events, i);
    assert states[i].core.reader.Reading?;
    CaughtUp(states, events, i);
  }

  /**
   The last list arrives: after as many useful steps as were to go when the publisher fell
   silent, the resolver uses what it published last.
   */
  lemma LastListArrives(states: seq<State>, events: seq<Event>, i: nat, j: nat)
    requires IsRun(states, events) && i <= j < |states| && QuietBetween(events, i, j)
    requires !Ending(states[i].core) && Steps(states, events, i, j) == ToGo(states[i])
    ensures states[i].helper.snapshot.Some?
    ensures states[j].core.managed == states[0].core.decode(states[i].helper.snapshot.value)
  {
    QuietRunAdvances(states, events, i, j);
    NothingToGo(states, events, j);
  }

  // ---- What the snapshot is ----

  /** The snapshot is the last published list. */
  lemma {:induction false} SnapshotIsLastPublished(states: seq<State>, events: seq<Event>, last: nat, i: nat)
    requires IsRun(states, events) && last < i < |states| && events[last].Publish?
    requires forall k :: last < k < i ==> !events[k].Publish?
    ensures states[i].helper.snapshot == Some(events[last].servers)
  {
    if last == i - 1 {
      assert states[i] == Step(states[last], events[last]);
    } else {
      SnapshotIsLastPublished(states, events, last, i - 1);
      var e := events[i - 1];
      assert states[i] == Step(states[i - 1], e);
    }
  }

  // ---- The two objects that hold this state ----

  /** The monitor `changed` of the helper and the serve loop's `sent`. */
  class SnapshotMonitor {
    var alive: bool
    var snapshot: Option<Servers>
    var generation: int
    var posted: bool
    var serve: ServePC
    var sent: int
    var history: seq<Servers>

    function View(): Helper
      reads this
    {
      Helper(alive, snapshot, generation, posted, serve, sent, history)
    }

    constructor ()
      ensures View() == INITIAL_HELPER
    {
      alive, snapshot, generation, posted, serve, sent, history := true, None, 0, false, BeforeLatch, -1, [];
    }

    // The monitor section of publish; a changed frame wakes the serve loop.
    method Replace(servers: Servers, first: bool)
      modifies this
      ensures View() == Published(old(View()), servers, first)
      ensures old(snapshot) == Some(servers) ==> generation == old(generation) && serve == old(serve)
      ensures old(snapshot) != Some(servers) ==>
        snapshot == Some(servers) && generation == old(generation) + 1 && !serve.Parked?
    {
      posted := posted || first;
      if snapshot != Some(servers) {
        snapshot := Some(servers);
        generation := generation + 1;
        history := history + [servers];
        if serve.Parked? {
          serve := Checking;
        }
      }
    }

    // The monitor section of serve, up to the wait or the write.
    method Check()
      modifies this
      ensures View() == Checked(old(View()))
    {
      if sent == generation {
        serve := Parked;
        return;
      }
      serve := Writing(snapshot);
      sent := generation;
    }
  }

  /** The goroutine that reads snapshots, and the resolver's list that it updates. */
  class SnapshotReader {
    const decode: Decoder
    var stopping: bool
    var reader: ReaderPC
    var previous: Servers
    var managed: Servers
    var taken: int
    var applied: seq<Frame>
    var cleared: bool

    function View(): Core
      reads this
    {
      Core(decode, stopping, reader, previous, managed, taken, applied, cleared)
    }

    constructor (decode: Decoder)
      ensures View() == InitialCore(decode)
    {
      this.decode := decode;
      stopping, reader, previous, managed, taken, applied, cleared := false, Initial, [], [], -1, [], false;
    }

    method Take(f: Frame)
      modifies this
      ensures View() == Taken(old(View()), f)
    {
      taken := f.generation;
      var next := decode(f.servers);
      if reader.Initial? || previous != next {
        previous := next;
        managed := next;
        applied := applied + [Frame(f.generation, next)];
      }
      reader := Reading;
    }

    /**
     Reads the frames until the channel fails. The last frame is in use, repeats were not
     applied again, and a failure that is not a stop leaves no server in use.
     */
    method ReadUntilFailure(frames: seq<Frame>)
      requires reader.Initial? && frames != [] && applied == [] && !cleared
      modifies this
      ensures reader.Over? && cleared == !stopping && stopping == old(stopping)
      ensures managed == if stopping then decode(frames[|frames| - 1].servers) else []
      ensures applied == WithoutRepeats(DecodedAll(decode, frames))
    {
      for i := 0 to |frames|
        invariant stopping == old(stopping) && !cleared && applied == WithoutRepeats(DecodedAll(decode, frames[..i]))
        invariant i > 0 ==> reader.Reading? && previous == managed == decode(frames[i - 1].servers)
        invariant i == 0 ==> reader.Initial?
      {
        assert DecodedAll(decode, frames[..i + 1])[..i] == DecodedAll(decode, frames[..i]);
        Take(frames[i]);
      }
      assert frames[..|frames|] == frames;
      if !stopping {
        managed := [];
        cleared := true;
      }
      reader := Over;
    }
  }

  function DecodedAll(decode: Decoder, frames: seq<Frame>): seq<Frame> {
    seq(|frames|, i requires 0 <= i < |frames| => Decoded(decode, frames[i]))
  }

  // The frames whose list differs from the frame before.
  function WithoutRepeats(frames: seq<Frame>): seq<Frame> {
    if frames == [] then [] else
      var before := WithoutRepeats(frames[..|frames| - 1]);
      var last := frames[|frames| - 1];
      if |frames| > 1 && frames[|frames| - 2].servers == last.servers then before else before + [last]
  }
}
