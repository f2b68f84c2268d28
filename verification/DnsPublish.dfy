/** Selecting and publishing the system's DNS servers (`publish` in SystemDnsHelper.java). */
module DnsPublish {
  import opened Prelude
  import opened DnsFrames
  import opened DnsPipeline

  type Handle = int

  // What InetAddress tells of a server; getHostAddress is the address and, after %, its scope.
  datatype Address = Address(ip: string, scope: string, v6: bool, anyLocal: bool, loopback: bool, multicast: bool)

  predicate Usable(a: Address) {
    !a.anyLocal && !a.loopback && !a.multicast
  }

  function HostAddress(a: Address): string {
    if a.scope == "" then a.ip else a.ip + "%" + a.scope
  }

  function ServerText(a: Address): string {
    if a.v6 then "[" + HostAddress(a) + "]:53" else HostAddress(a) + ":53"
  }

  datatype Capabilities = Capabilities(internet: bool, notVpn: bool, validated: bool)

  // What the connectivity service answers; networks are known by their handles.
  datatype Observed = Observed(
    active: Option<Handle>,
    current: seq<Handle>,
    capabilities: map<Handle, Capabilities>,
    dns: map<Handle, seq<Address>>)

  // ---- The reference: which networks, in which order, and their first distinct servers ----

  predicate Eligible(o: Observed, lost: set<Handle>, n: Handle) {
    && n !in lost
    && n in o.capabilities && n in o.dns
    && o.capabilities[n].internet && o.capabilities[n].notVpn
    && o.dns[n] != []
  }

  // The active network alone if it is eligible, else the validated ones if any, else all.
  predicate Chosen(o: Observed, lost: set<Handle>, n: Handle) {
    Eligible(o, lost, n) &&
    if o.active.Some? && o.active.value in o.current && Eligible(o, lost, o.active.value) then n == o.active.value
    else if exists v :: v in o.current && Eligible(o, lost, v) && o.capabilities[v].validated
      then o.capabilities[n].validated
    else true
  }

  function EligibleOf(o: Observed, lost: set<Handle>, s: seq<Handle>): seq<Handle> {
    if s == [] then [] else
      EligibleOf(o, lost, s[..|s| - 1]) + if Eligible(o, lost, s[|s| - 1]) then [s[|s| - 1]] else []
  }

  function ChosenOf(o: Observed, lost: set<Handle>, s: seq<Handle>): seq<Handle> {
    if s == [] then [] else
      ChosenOf(o, lost, s[..|s| - 1]) + if Chosen(o, lost, s[|s| - 1]) then [s[|s| - 1]] else []
  }

  predicate Sorted(s: seq<Handle>) {
    forall i, j :: 0 <= i < j < |s| ==> s[i] <= s[j]
  }

  // eligible.sort by network handle.
  function Insert(s: seq<Handle>, n: Handle): seq<Handle> {
    if s == [] || n < s[0] then [n] + s else [s[0]] + Insert(s[1..], n)
  }

  function Sort(s: seq<Handle>): seq<Handle> {
    if s == [] then [] else Insert(Sort(s[..|s| - 1]), s[|s| - 1])
  }

  lemma {:induction false} InsertKeeps(s: seq<Handle>, n: Handle)
    ensures multiset(Insert(s, n)) == multiset(s) + multiset{n}
  {
    if s != [] && n >= s[0] {
      InsertKeeps(s[1..], n);
      assert s == [s[0]] + s[1..];
    }
  }

  lemma {:induction false} InsertSorts(s: seq<Handle>, n: Handle)
    requires Sorted(s)
    ensures Sorted(Insert(s, n)) && Insert(s, n) != []
    ensures Insert(s, n)[0] == if s == [] || n < s[0] then n else s[0]
  {
    if s != [] && n >= s[0] {
      InsertSorts(s[1..], n);
    }
  }

  lemma SplitLast<T>(s: seq<T>)
    requires s != []
    ensures multiset(s) == multiset(s[..|s| - 1]) + multiset{s[|s| - 1]}
  {
    assert s == s[..|s| - 1] + [s[|s| - 1]];
  }

  /** Sorting orders the networks and keeps each of them. */
  lemma {:induction false} SortSorts(s: seq<Handle>)
    ensures Sorted(Sort(s)) && multiset(Sort(s)) == multiset(s)
  {
    if s != [] {
      var front, last := s[..|s| - 1], s[|s| - 1];
      SortSorts(front);
      InsertKeeps(Sort(front), last);
      InsertSorts(Sort(front), last);
      SplitLast(s);
    }
  }

  function UsableTexts(addresses: seq<Address>): seq<string> {
    if addresses == [] then [] else
      UsableTexts(addresses[..|addresses| - 1])
      + if Usable(addresses[|addresses| - 1]) then [ServerText(addresses[|addresses| - 1])] else []
  }

  function AllTexts(o: Observed, networks: seq<Handle>): seq<string> {
    if networks == [] then [] else
      AllTexts(o, networks[..|networks| - 1])
      + if networks[|networks| - 1] in o.dns then UsableTexts(o.dns[networks[|networks| - 1]]) else []
  }

  // The networks asked, in handle order.
  function Asked(o: Observed, lost: set<Handle>): seq<Handle> {
    ChosenOf(o, lost, Sort(EligibleOf(o, lost, o.current)))
  }

  function FirstServers(texts: seq<string>): seq<string> {
    var distinct := Distinct(texts);
    if |distinct| <= MAX_SERVERS then distinct else distinct[..MAX_SERVERS]
  }

  /** The first 32 distinct usable servers of the chosen networks. */
  function Selected(o: Observed, lost: set<Handle>): seq<string> {
    FirstServers(AllTexts(o, Asked(o, lost)))
  }

  // ---- The program ----

  class SystemDnsHelper {
    var lost: set<Handle>
    const changed: SnapshotMonitor

    constructor (changed: SnapshotMonitor)
      ensures lost == {} && this.changed == changed
    {
      lost, this.changed := {}, changed;
    }

    method CollectEligible(o: Observed) returns (eligible: seq<Handle>)
      ensures eligible == EligibleOf(o, lost, o.current)
    {
      eligible := [];
      for i := 0 to |o.current|
        invariant eligible == EligibleOf(o, lost, o.current[..i])
      {
        assert o.current[..i + 1][..i] == o.current[..i];
        var network := o.current[i];
        if network in lost {
          continue;
        }
        if network in o.capabilities && network in o.dns
           && o.capabilities[network].internet && o.capabilities[network].notVpn && o.dns[network] != [] {
          eligible := eligible + [network];
        }
      }
      assert o.current[..|o.current|] == o.current;
    }

    /** One invalidation: selects the servers again and hands them to the serve loop when they changed. */
    method Publish(o: Observed, first: bool)
      modifies this, changed
      ensures lost == set n | n in old(lost) && n in o.current
      ensures changed.View() == Published(old(changed.View()), Selected(o, lost), first)
      ensures old(changed.snapshot) == Some(Selected(o, lost)) ==>
        changed.generation == old(changed.generation) && changed.serve == old(changed.serve)
      ensures old(changed.snapshot) != Some(Selected(o, lost)) ==>
        && changed.snapshot == Some(Selected(o, lost)) && changed.generation == old(changed.generation) + 1
        && !changed.serve.Parked?
    {
      lost := set n | n in lost && n in o.current;
      var eligible := CollectEligible(o);
      var servers := SelectServers(o, Sort(eligible));
      changed.Replace(servers, first);
    }

    method OnAvailable(network: Handle, o: Observed)
      modifies this, changed
      ensures lost == set n | n in old(lost) - {network} && n in o.current
      ensures changed.View() == Published(old(changed.View()), Selected(o, lost), false)
    {
      lost := lost - {network};
      Publish(o, false);
    }

    method OnLost(network: Handle, o: Observed)
      modifies this, changed
      ensures lost == set n | n in old(lost) + {network} && n in o.current
      ensures changed.View() == Published(old(changed.View()), Selected(o, lost), false)
    {
      lost := lost + {network};
      Publish(o, false);
    }

    method AnyValidated(o: Observed, eligible: seq<Handle>) returns (hasValidated: bool)
      requires forall n :: n in eligible ==> n in o.capabilities
      ensures hasValidated <==> exists v :: v in eligible && v in o.capabilities && o.capabilities[v].validated
    {
      hasValidated := false;
      for i := 0 to |eligible|
        invariant hasValidated <==> exists v :: v in eligible[..i] && v in o.capabilities && o.capabilities[v].validated
      {
        var network := eligible[i];
        assert network in eligible && eligible[..i + 1] == eligible[..i] + [network];
        assert network in eligible[..i + 1];
        hasValidated := hasValidated || o.capabilities[network].validated;
      }
      assert eligible[..|eligible|] == eligible;
    }

    method SelectServers(o: Observed, eligible: seq<Handle>) returns (servers: seq<string>)
      requires eligible == Sort(EligibleOf(o, lost, o.current))
      ensures servers == Selected(o, lost)
    {
      EligibleIsExact(o, lost);
      var hasActive := o.active.Some? && o.active.value in eligible;
      var hasValidated := AnyValidated(o, eligible);
      servers := [];
      assert AllTexts(o, ChosenOf(o, lost, eligible[..0])) == [];
      for i := 0 to |eligible|
        invariant |servers| < MAX_SERVERS
        invariant servers == FirstServers(AllTexts(o, ChosenOf(o, lost, eligible[..i])))
      {
        servers := AddNetwork(o, eligible, i, hasActive, hasValidated, servers);
        if |servers| == MAX_SERVERS {
          RestIsIgnored(o, lost, eligible, i + 1);
          return servers;
        }
      }
      assert eligible[..|eligible|] == eligible;
    }

    // The network at i, unless the flags rule it out.
    method AddNetwork(o: Observed, eligible: seq<Handle>, i: nat, hasActive: bool, hasValidated: bool,
                      before: seq<string>)
      returns (servers: seq<string>)
      requires i < |eligible| && |before| < MAX_SERVERS
      requires forall v :: v in eligible <==> v in o.current && Eligible(o, lost, v)
      requires hasActive == (o.active.Some? && o.active.value in eligible)
      requires hasValidated <==> exists v :: v in eligible && v in o.capabilities && o.capabilities[v].validated
      requires before == FirstServers(AllTexts(o, ChosenOf(o, lost, eligible[..i])))
      ensures servers == FirstServers(AllTexts(o, ChosenOf(o, lost, eligible[..i + 1]))) && |servers| <= MAX_SERVERS
    {
      var network := eligible[i];
      assert network in eligible;
      ChosenByFlags(o, lost, eligible, hasActive, hasValidated, network);
      ChosenStep(o, lost, eligible, i);
      if if hasActive then network != o.active.value else hasValidated && !o.capabilities[network].validated {
        return before;
      }
      servers := AddServers(before, o.dns[network], AllTexts(o, ChosenOf(o, lost, eligible[..i])));
    }

    // The servers of one network, until the list is full.
    method AddServers(before: seq<string>, addresses: seq<Address>, ghost texts: seq<string>)
      returns (servers: seq<string>)
      requires |before| < MAX_SERVERS && before == FirstServers(texts)
      ensures servers == FirstServers(texts + UsableTexts(addresses)) && |servers| <= MAX_SERVERS
    {
      servers := before;
      assert texts + UsableTexts(addresses[..0]) == texts;
      for i := 0 to |addresses|
        invariant |servers| < MAX_SERVERS && servers == FirstServers(texts + UsableTexts(addresses[..i]))
      {
        UsableStep(addresses, i, texts);
        if !Usable(addresses[i]) {
          continue;
        }
        var text := ServerText(addresses[i]);
        OneMoreServer(texts + UsableTexts(addresses[..i]), text);
        if text !in servers {
          servers := servers + [text];
        }
        if |servers| == MAX_SERVERS {
          FullNetwork(addresses, i + 1, texts);
          return servers;
        }
      }
      assert addresses[..|addresses|] == addresses;
    }
  }

  // What the two flags of the program decide.
  lemma ChosenByFlags(o: Observed, lost: set<Handle>, eligible: seq<Handle>, hasActive: bool, hasValidated: bool,
                      n: Handle)
    requires forall v :: v in eligible <==> v in o.current && Eligible(o, lost, v)
    requires hasActive == (o.active.Some? && o.active.value in eligible)
    requires hasValidated <==> exists v :: v in eligible && v in o.capabilities && o.capabilities[v].validated
    requires n in eligible && n in o.capabilities
    ensures Chosen(o, lost, n) <==>
      if hasActive then n == o.active.value else hasValidated ==> o.capabilities[n].validated
  {
  }

  lemma ChosenStep(o: Observed, lost: set<Handle>, s: seq<Handle>, i: nat)
    requires i < |s| && s[i] in o.dns
    ensures var before := AllTexts(o, ChosenOf(o, lost, s[..i]));
      AllTexts(o, ChosenOf(o, lost, s[..i + 1])) == if Chosen(o, lost, s[i])
        then before + UsableTexts(o.dns[s[i]]) else before
  {
    assert s[..i + 1][..i] == s[..i];
    var before := ChosenOf(o, lost, s[..i]);
    if Chosen(o, lost, s[i]) {
      assert (before + [s[i]])[..|before|] == before;
    } else {
      assert before + [] == before;
    }
  }

  lemma UsableStep(addresses: seq<Address>, i: nat, texts: seq<string>)
    requires i < |addresses|
    ensures var before := texts + UsableTexts(addresses[..i]);
      texts + UsableTexts(addresses[..i + 1]) == if Usable(addresses[i]) then before + [ServerText(addresses[i])]
        else before
  {
    assert addresses[..i + 1][..i] == addresses[..i];
  }

  lemma OneMoreServer(texts: seq<string>, text: string)
    requires |FirstServers(texts)| < MAX_SERVERS
    ensures var servers := FirstServers(texts);
      FirstServers(texts + [text]) == if text in servers then servers else servers + [text]
  {
    assert (texts + [text])[..|texts|] == texts;
  }

  lemma FullNetwork(addresses: seq<Address>, n: nat, texts: seq<string>)
    requires n <= |addresses| && |FirstServers(texts + UsableTexts(addresses[..n]))| == MAX_SERVERS
    ensures FirstServers(texts + UsableTexts(addresses)) == FirstServers(texts + UsableTexts(addresses[..n]))
  {
    UsableGrows(addresses, n);
    var some, all := UsableTexts(addresses[..n]), UsableTexts(addresses);
    FullStaysFull(texts + some, all[|some|..]);
    assert (texts + some) + all[|some|..] == texts + all;
  }

  lemma FullStaysFull(texts: seq<string>, more: seq<string>)
    requires |FirstServers(texts)| == MAX_SERVERS
    ensures FirstServers(texts + more) == FirstServers(texts)
  {
    DistinctGrows(texts, more);
  }

  lemma {:induction false} UsableGrows(addresses: seq<Address>, n: nat)
    requires n <= |addresses|
    ensures UsableTexts(addresses[..n]) <= UsableTexts(addresses)
    decreases |addresses|
  {
    if n < |addresses| {
      var front := addresses[..|addresses| - 1];
      UsableGrows(front, n);
      assert front[..n] == addresses[..n];
    } else {
      assert addresses[..n] == addresses;
    }
  }

  lemma {:induction false} EligibleOfHolds(o: Observed, lost: set<Handle>, s: seq<Handle>)
    ensures forall n :: n in EligibleOf(o, lost, s) <==> n in s && Eligible(o, lost, n)
  {
    if s != [] {
      EligibleOfHolds(o, lost, s[..|s| - 1]);
      assert forall n :: n in s <==> n in s[..|s| - 1] || n == s[|s| - 1];
    }
  }

  lemma {:induction false} TextsGrow(o: Observed, lost: set<Handle>, s: seq<Handle>, n: nat)
    requires n <= |s|
    ensures AllTexts(o, ChosenOf(o, lost, s[..n])) <= AllTexts(o, ChosenOf(o, lost, s))
    decreases |s|
  {
    if n < |s| {
      var front := s[..|s| - 1];
      TextsGrow(o, lost, front, n);
      assert front[..n] == s[..n];
      var asked := ChosenOf(o, lost, front);
      assert ChosenOf(o, lost, s) == asked + (if Chosen(o, lost, s[|s| - 1]) then [s[|s| - 1]] else []);
      assert (asked + [s[|s| - 1]])[..|asked|] == asked;
      assert asked + [] == asked;
    } else {
      assert s[..n] == s;
    }
  }

  lemma RestIsIgnored(o: Observed, lost: set<Handle>, s: seq<Handle>, n: nat)
    requires n <= |s| && |FirstServers(AllTexts(o, ChosenOf(o, lost, s[..n])))| == MAX_SERVERS
    ensures FirstServers(AllTexts(o, ChosenOf(o, lost, s))) == FirstServers(AllTexts(o, ChosenOf(o, lost, s[..n])))
  {
    TextsGrow(o, lost, s, n);
    var some, all := AllTexts(o, ChosenOf(o, lost, s[..n])), AllTexts(o, ChosenOf(o, lost, s));
    FullStaysFull(some, all[|some|..]);
    assert some + all[|some|..] == all;
  }

  lemma EligibleIsExact(o: Observed, lost: set<Handle>)
    ensures forall n :: n in Sort(EligibleOf(o, lost, o.current)) <==> n in o.current && Eligible(o, lost, n)
  {
    var eligible := EligibleOf(o, lost, o.current);
    EligibleOfHolds(o, lost, o.current);
    SortSorts(eligible);
    forall n ensures n in Sort(eligible) <==> n in eligible {
      assert n in Sort(eligible) <==> n in multiset(Sort(eligible));
      assert n in eligible <==> n in multiset(eligible);
    }
  }

  // ---- What is published ----

  // A textual address as InetAddress prints it, with an interface name as its scope.
  predicate Printed(a: Address) {
    |a.ip| <= 39 && |a.scope| <= 15 && forall i :: 0 <= i < |a.ip| ==> PlainChar(a.ip[i])
  }

  lemma ServerTextCost(a: Address)
    requires Printed(a)
    ensures Cost(ServerText(a)) <= SERVER_COST
  {
    CostBounds(a.ip);
    CostBounds(a.scope);
    CostBounds("%");
    CostBounds("[");
    CostBounds("]:53");
    CostBounds(":53");
    CostAppend(a.ip, "%");
    CostAppend(a.ip + "%", a.scope);
    CostAppend("[", HostAddress(a));
    CostAppend("[" + HostAddress(a), "]:53");
    CostAppend(HostAddress(a), ":53");
  }

  ghost predicate Offers(o: Observed, n: Handle, text: string) {
    n in o.dns && exists a :: a in o.dns[n] && Usable(a) && ServerText(a) == text
  }

  lemma {:induction false} UsableTextsHold(addresses: seq<Address>, text: string)
    ensures text in UsableTexts(addresses) <==> exists a :: a in addresses && Usable(a) && ServerText(a) == text
  {
    if addresses != [] {
      var front, last := addresses[..|addresses| - 1], addresses[|addresses| - 1];
      UsableTextsHold(front, text);
      assert addresses == front + [last];
    }
  }

  lemma {:induction false} AllTextsHold(o: Observed, networks: seq<Handle>, text: string)
    ensures text in AllTexts(o, networks) <==> exists n :: n in networks && Offers(o, n, text)
  {
    if networks != [] {
      var front, last := networks[..|networks| - 1], networks[|networks| - 1];
      AllTextsHold(o, front, text);
      if last in o.dns {
        UsableTextsHold(o.dns[last], text);
        assert text in UsableTexts(o.dns[last]) <==> Offers(o, last, text);
      }
      assert forall n :: n in networks <==> n in front || n == last;
    }
  }

  lemma {:induction false} ChosenOfHolds(o: Observed, lost: set<Handle>, s: seq<Handle>)
    ensures forall n :: n in ChosenOf(o, lost, s) <==> n in s && Chosen(o, lost, n)
    ensures Sorted(s) ==> Sorted(ChosenOf(o, lost, s))
  {
    if s != [] {
      var front, last := s[..|s| - 1], s[|s| - 1];
      ChosenOfHolds(o, lost, front);
      assert forall n :: n in s <==> n in front || n == last;
      if Sorted(s) {
        assert forall n :: n in front ==> n <= last;
        assert forall i :: 0 <= i < |ChosenOf(o, lost, front)| ==> ChosenOf(o, lost, front)[i] in front;
      }
    }
  }

  /** The networks asked are exactly the chosen ones, in handle order. */
  lemma AskedIsExact(o: Observed, lost: set<Handle>)
    ensures Sorted(Asked(o, lost))
    ensures forall n :: n in Asked(o, lost) <==> n in o.current && Chosen(o, lost, n)
  {
    EligibleIsExact(o, lost);
    SortSorts(EligibleOf(o, lost, o.current));
    ChosenOfHolds(o, lost, Sort(EligibleOf(o, lost, o.current)));
  }

  /**
   Every published server is offered by a chosen network that is not lost; and unless
   the list is full, every server such a network offers is published.
   */
  lemma PublishedIsExact(o: Observed, lost: set<Handle>, text: string)
    ensures NoDuplicates(Selected(o, lost)) && |Selected(o, lost)| <= MAX_SERVERS
    ensures text in Selected(o, lost) ==>
      exists n :: n in o.current && n !in lost && Chosen(o, lost, n) && Offers(o, n, text)
    ensures |Selected(o, lost)| < MAX_SERVERS ==>
      forall n :: n in o.current && Chosen(o, lost, n) && Offers(o, n, text) ==> text in Selected(o, lost)
  {
    var texts := AllTexts(o, Asked(o, lost));
    DistinctHasNoDuplicates(texts);
    DistinctHolds(texts, text);
    AllTextsHold(o, Asked(o, lost), text);
    AskedIsExact(o, lost);
  }

  // ---- The same in terms of what Android answers ----

  // A network to ask: current, not lost, for the internet, not a VPN, and with DNS servers.
  predicate Answers(o: Observed, lost: set<Handle>, n: Handle) {
    && n in o.current && n !in lost
    && n in o.capabilities && o.capabilities[n].internet && o.capabilities[n].notVpn
    && n in o.dns && |o.dns[n]| > 0
  }

  // The active network if it answers, else the validated ones if any does, else all.
  ghost predicate Preferred(o: Observed, lost: set<Handle>, n: Handle) {
    && Answers(o, lost, n)
    && (o.active.Some? && Answers(o, lost, o.active.value) ==> n == o.active.value)
    && (o.active.None? || !Answers(o, lost, o.active.value) ==>
      (exists v :: Answers(o, lost, v) && o.capabilities[v].validated) ==> o.capabilities[n].validated)
  }

  // An address that can be a server, and its text with port 53.
  predicate Serves(a: Address, text: string) {
    && !a.anyLocal && !a.loopback && !a.multicast
    && var host := if a.scope == "" then a.ip else a.ip + "%" + a.scope;
       text == if a.v6 then "[" + host + "]:53" else host + ":53"
  }

  lemma EligibleIsAnswers(o: Observed, lost: set<Handle>, n: Handle)
    ensures n in o.current && Eligible(o, lost, n) <==> Answers(o, lost, n)
  {
  }

  lemma ChosenIsPreferred(o: Observed, lost: set<Handle>, n: Handle)
    ensures n in o.current && Chosen(o, lost, n) <==> Preferred(o, lost, n)
  {
    forall v ensures v in o.current && Eligible(o, lost, v) <==> Answers(o, lost, v) {
      EligibleIsAnswers(o, lost, v);
    }
  }

  /** The networks asked are exactly the preferred ones, in handle order. */
  lemma AskedIsPreferred(o: Observed, lost: set<Handle>)
    ensures Sorted(Asked(o, lost))
    ensures forall n :: n in Asked(o, lost) <==> Preferred(o, lost, n)
  {
    AskedIsExact(o, lost);
    forall n ensures n in o.current && Chosen(o, lost, n) <==> Preferred(o, lost, n) {
      ChosenIsPreferred(o, lost, n);
    }
  }

  ghost predicate OfferedBy(o: Observed, lost: set<Handle>, n: Handle, text: string) {
    Preferred(o, lost, n) && exists i :: 0 <= i < |o.dns[n]| && Serves(o.dns[n][i], text)
  }

  lemma OffersMeans(o: Observed, n: Handle, text: string)
    ensures Offers(o, n, text) <==> n in o.dns && exists i :: 0 <= i < |o.dns[n]| && Serves(o.dns[n][i], text)
  {
    if Offers(o, n, text) {
      var a :| a in o.dns[n] && Usable(a) && ServerText(a) == text;
      var i :| 0 <= i < |o.dns[n]| && o.dns[n][i] == a;
      assert Serves(o.dns[n][i], text);
    }
    if n in o.dns {
      if i :| 0 <= i < |o.dns[n]| && Serves(o.dns[n][i], text) {
        assert o.dns[n][i] in o.dns[n];
      }
    }
  }

  /**
   Each published text is that of a usable address of a preferred network, and unless
   the list is full all of them are published.
   */
  lemma PublishedIsOffered(o: Observed, lost: set<Handle>, text: string)
    ensures text in Selected(o, lost) ==> exists n :: OfferedBy(o, lost, n, text)
    ensures |Selected(o, lost)| < 32 ==> forall n :: OfferedBy(o, lost, n, text) ==> text in Selected(o, lost)
  {
    PublishedIsExact(o, lost, text);
    forall n ensures OfferedBy(o, lost, n, text) <==> n in o.current && Chosen(o, lost, n) && Offers(o, n, text) {
      ChosenIsPreferred(o, lost, n);
      OffersMeans(o, n, text);
    }
  }

  // ---- The order of the servers ----

  lemma {:induction false} TextsOfSum(one: seq<Address>, two: seq<Address>)
    ensures UsableTexts(one + two) == UsableTexts(one) + UsableTexts(two)
  {
    if two == [] {
      assert one + two == one;
    } else {
      TextsOfSum(one, two[..|two| - 1]);
      assert (one + two)[..|one + two| - 1] == one + two[..|two| - 1];
    }
  }

  /** The texts of several networks follow each other network by network, and within one address by address. */
  lemma {:induction false} AllTextsInOrder(o: Observed, one: seq<Handle>, two: seq<Handle>, n: Handle,
                                           first: seq<Address>, second: seq<Address>)
    ensures AllTexts(o, one + two) == AllTexts(o, one) + AllTexts(o, two)
    ensures n in o.dns && o.dns[n] == first + second ==> AllTexts(o, [n]) == UsableTexts(first) + UsableTexts(second)
  {
    TextsOfSum(first, second);
    assert [n][..0] == [];
    if two == [] {
      assert one + two == one;
    } else {
      AllTextsInOrder(o, one, two[..|two| - 1], n, first, second);
      assert (one + two)[..|one + two| - 1] == one + two[..|two| - 1];
    }
  }

  /** The published list is a beginning of these texts without repeats, cut at 32 and nowhere sooner. */
  lemma SelectedIsBeginning(o: Observed, lost: set<Handle>)
    ensures var all := Distinct(AllTexts(o, Asked(o, lost)));
      Selected(o, lost) <= all && |Selected(o, lost)| == if |all| < 32 then |all| else 32
  {
  }

  lemma OfferedCost(o: Observed, n: Handle, text: string)
    requires n in o.dns && Offers(o, n, text) && forall i :: 0 <= i < |o.dns[n]| ==> Printed(o.dns[n][i])
    ensures Cost(text) <= SERVER_COST
  {
    var a :| a in o.dns[n] && Usable(a) && ServerText(a) == text;
    ServerTextCost(a);
  }

  /** Whatever the networks, the published list is one frame of at most MAX_FRAME bytes. */
  lemma PublishedIsFrame(o: Observed, lost: set<Handle>)
    requires forall n, i :: n in o.dns && 0 <= i < |o.dns[n]| ==> Printed(o.dns[n][i])
    ensures IsFrame(Encode(Selected(o, lost)))
  {
    var servers := Selected(o, lost);
    PublishedIsExact(o, lost, "");
    forall i | 0 <= i < |servers| ensures Cost(servers[i]) <= SERVER_COST {
      var text := servers[i];
      PublishedIsExact(o, lost, text);
      var n :| n in o.current && n !in lost && Chosen(o, lost, n) && Offers(o, n, text);
      OfferedCost(o, n, text);
    }
    EncodedIsFrame(servers);
  }
}
