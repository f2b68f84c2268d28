/**
 What the helper selects is what the core uses: the published frames, split and
 decoded again (SystemDnsHelper.java, client_android.go, protocol.go).
 */
module DnsDelivery {
  import opened Prelude
  import opened DnsFrames
  import opened DnsSnapshot
  import DnsPipeline
  import DnsPublish

  // ---- What the libraries on both sides agree on ----

  // The endpoint netip reads from a server text; Java's text of an address names it.
  function EndpointOf(a: DnsPublish.Address): Endpoint {
    Endpoint(DnsPublish.HostAddress(a), 53)
  }

  // Java prints only IPv6 addresses with colons and scopes, and netip reads the address that was printed.
  ghost predicate AgreeOn(n: Netip, a: DnsPublish.Address) {
    && DnsPublish.Printed(a)
    && (a.v6 <==> ':' in a.ip) && (a.scope != "" ==> a.v6)
    && n.parse(DnsPublish.ServerText(a)) == Some(EndpointOf(a))
    && (DnsPublish.Usable(a) ==> !n.reserved(EndpointOf(a)))
  }

  ghost predicate Agree(n: Netip, o: DnsPublish.Observed) {
    forall h, i :: h in o.dns && 0 <= i < |o.dns[h]| ==> AgreeOn(n, o.dns[h][i])
  }

  // Decoding the JSON of a frame gives back the record it was made from.
  ghost predicate ReadsJson(json: Bytes -> Option<Record>) {
    forall servers :: json(Encode(servers)) == Some(Listing(servers))
  }

  function Listing(servers: seq<string>): Record {
    Record(1, Some(servers), false)
  }

  // ---- One list ----

  // What decodeSnapshot makes of a list it accepts.
  function Delivered(n: Netip, servers: seq<string>): seq<string> {
    if Acceptable(n, Listing(servers)) then Distinct(Normalised(n, servers)) else []
  }

  // A chosen network offers an address with this text and this endpoint.
  ghost predicate Names(o: DnsPublish.Observed, lost: set<DnsPublish.Handle>, text: string, e: Option<Endpoint>) {
    exists h, a :: ChosenServer(o, lost, h, a) && DnsPublish.ServerText(a) == text && e == Some(EndpointOf(a))
  }

  ghost predicate ChosenServer(o: DnsPublish.Observed, lost: set<DnsPublish.Handle>, h: DnsPublish.Handle,
                               a: DnsPublish.Address) {
    h in o.current && h !in lost && DnsPublish.Chosen(o, lost, h) && h in o.dns && a in o.dns[h] && DnsPublish.Usable(a)
  }

  // The delivered list has exactly the selected endpoints, in their order.
  ghost predicate SameServers(n: Netip, o: DnsPublish.Observed, lost: set<DnsPublish.Handle>, delivered: seq<string>) {
    var selected := DnsPublish.Selected(o, lost);
    && |delivered| == |selected|
    && forall i :: 0 <= i < |selected| ==>
      n.parse(delivered[i]) == n.parse(selected[i]) && Names(o, lost, selected[i], n.parse(selected[i]))
  }

  // Different texts are different endpoints.
  lemma TextsTellEndpoints(n: Netip, a: DnsPublish.Address, b: DnsPublish.Address)
    requires AgreeOn(n, a) && AgreeOn(n, b) && EndpointOf(a) == EndpointOf(b)
    ensures DnsPublish.ServerText(a) == DnsPublish.ServerText(b)
  {
    var host := DnsPublish.HostAddress(a);
    assert a.v6 ==> ':' in host;
    assert b.v6 ==> ':' in host;
  }

  lemma SelectedIsNamed(n: Netip, o: DnsPublish.Observed, lost: set<DnsPublish.Handle>, text: string)
      returns (h: DnsPublish.Handle, a: DnsPublish.Address)
    requires Agree(n, o) && text in DnsPublish.Selected(o, lost)
    ensures ChosenServer(o, lost, h, a) && DnsPublish.ServerText(a) == text && AgreeOn(n, a)
    ensures GoodServer(n, text) && n.parse(text) == Some(EndpointOf(a)) && Names(o, lost, text, n.parse(text))
  {
    DnsPublish.PublishedIsExact(o, lost, text);
    h :| h in o.current && h !in lost && DnsPublish.Chosen(o, lost, h) && DnsPublish.Offers(o, h, text);
    a :| a in o.dns[h] && DnsPublish.Usable(a) && DnsPublish.ServerText(a) == text;
    var i :| 0 <= i < |o.dns[h]| && o.dns[h][i] == a;
    assert AgreeOn(n, o.dns[h][i]);
    assert ChosenServer(o, lost, h, a);
  }

  /** Whatever the networks, decodeSnapshot accepts what publish selects, with the same endpoints in the same order. */
  lemma SelectedIsDelivered(n: Netip, o: DnsPublish.Observed, lost: set<DnsPublish.Handle>)
    requires RoundTrips(n) && Agree(n, o)
    ensures Acceptable(n, Listing(DnsPublish.Selected(o, lost)))
    ensures SameServers(n, o, lost, Delivered(n, DnsPublish.Selected(o, lost)))
  {
    var servers := DnsPublish.Selected(o, lost);
    DnsPublish.PublishedIsExact(o, lost, "");
    forall i | 0 <= i < |servers| ensures GoodServer(n, servers[i]) && Names(o, lost, servers[i], n.parse(servers[i])) {
      var h, a := SelectedIsNamed(n, o, lost, servers[i]);
    }
    forall i, j | 0 <= i < j < |servers| ensures n.parse(servers[i]) != n.parse(servers[j]) {
      SelectedTextsDiffer(n, o, lost, servers[i], servers[j]);
    }
    PublishedIsKept(n, servers);
  }

  lemma SelectedTextsDiffer(n: Netip, o: DnsPublish.Observed, lost: set<DnsPublish.Handle>, one: string, two: string)
    requires Agree(n, o) && one in DnsPublish.Selected(o, lost) && two in DnsPublish.Selected(o, lost) && one != two
    ensures n.parse(one) != n.parse(two)
  {
    var _, a := SelectedIsNamed(n, o, lost, one);
    var _, b := SelectedIsNamed(n, o, lost, two);
    if EndpointOf(a) == EndpointOf(b) {
      TextsTellEndpoints(n, a, b);
    }
  }

  lemma SelectedIsFrame(n: Netip, o: DnsPublish.Observed, lost: set<DnsPublish.Handle>)
    requires Agree(n, o)
    ensures IsFrame(Encode(DnsPublish.Selected(o, lost)))
  {
    forall h, i | h in o.dns && 0 <= i < |o.dns[h]| ensures DnsPublish.Printed(o.dns[h][i]) {
      assert AgreeOn(n, o.dns[h][i]);
    }
    DnsPublish.PublishedIsFrame(o, lost);
  }

  // ---- A stream of lists ----

  // What one invalidation saw.
  datatype Publication = Publication(observed: DnsPublish.Observed, lost: set<DnsPublish.Handle>)

  function SelectedFor(p: Publication): seq<string> {
    DnsPublish.Selected(p.observed, p.lost)
  }

  // The bytes the serve loop writes for these publications.
  function Written(published: seq<Publication>): Bytes {
    if published == [] then [] else Encode(SelectedFor(published[0])) + Written(published[1..])
  }

  // The lists that can be read from a stream, up to the first failure or partial frame.
  function ReadLists(n: Netip, json: Bytes -> Option<Record>, stream: Bytes): seq<seq<string>>
    decreases |stream|
  {
    match ReadSlice(stream)
    case Frame(frame, rest) =>
      var record := json(frame);
      if record.Some? && Acceptable(n, record.value)
      then [Distinct(Normalised(n, record.value.servers.value))] + ReadLists(n, json, rest)
      else []
    case _ => []
  }

  /** The reading loop: splits the stream and decodes each frame. */
  method ReadSnapshots(n: Netip, json: Bytes -> Option<Record>, stream: Bytes) returns (lists: seq<seq<string>>)
    ensures lists == ReadLists(n, json, stream)
  {
    lists := [];
    var left := stream;
    assert ReadLists(n, json, stream) == [] + ReadLists(n, json, stream);
    while true
      invariant ReadLists(n, json, stream) == lists + ReadLists(n, json, left)
      decreases |left|
    {
      var next := ReadSlice(left);
      if !next.Frame? {
        break;
      }
      var record := json(next.frame);
      if record.None? {
        break;
      }
      var decoded := DecodeSnapshot(n, record.value);
      if decoded.Err? {
        break;
      }
      assert lists + ([decoded.value] + ReadLists(n, json, next.rest)) == (lists + [decoded.value])
        + ReadLists(n, json, next.rest);
      lists := lists + [decoded.value];
      left := next.rest;
    }
    assert lists + [] == lists;
  }

  function DeliveredLists(n: Netip, published: seq<Publication>): seq<seq<string>> {
    if published == [] then [] else [Delivered(n, SelectedFor(published[0]))] + DeliveredLists(n, published[1..])
  }

  ghost predicate AllAgree(n: Netip, published: seq<Publication>) {
    forall i :: 0 <= i < |published| ==> Agree(n, published[i].observed)
  }

  // The lists are those of the publications, in order.
  ghost predicate AllSameServers(n: Netip, published: seq<Publication>, lists: seq<seq<string>>) {
    |lists| == |published|
    && forall i :: 0 <= i < |lists| ==> SameServers(n, published[i].observed, published[i].lost, lists[i])
  }

  /** Every published list arrives, whole and in order, with exactly the selected endpoints. */
  lemma PublishedAreDelivered(n: Netip, json: Bytes -> Option<Record>, published: seq<Publication>, partial: Bytes)
    requires RoundTrips(n) && ReadsJson(json) && LF !in partial && |partial| < MAX_FRAME && AllAgree(n, published)
    ensures AllSameServers(n, published, ReadLists(n, json, Written(published) + partial))
  {
    PublishedAreRead(n, json, published, partial);
    DeliveredAreSame(n, published);
  }

  lemma {:induction false} DeliveredAreSame(n: Netip, published: seq<Publication>)
    requires RoundTrips(n) && AllAgree(n, published)
    ensures AllSameServers(n, published, DeliveredLists(n, published))
  {
    if published != [] {
      assert Agree(n, published[0].observed);
      SelectedIsDelivered(n, published[0].observed, published[0].lost);
      DeliveredAreSame(n, published[1..]);
    }
  }

  lemma {:induction false} PublishedAreRead(n: Netip, json: Bytes -> Option<Record>, published: seq<Publication>,
                                            partial: Bytes)
    requires RoundTrips(n) && ReadsJson(json) && LF !in partial && |partial| < MAX_FRAME && AllAgree(n, published)
    ensures ReadLists(n, json, Written(published) + partial) == DeliveredLists(n, published)
  {
    if published == [] {
      assert Written(published) + partial == partial;
      IndexOfIsFirst(partial, LF, |partial|);
    } else {
      assert Agree(n, published[0].observed);
      ReadFirst(n, json, published[0], Written(published[1..]) + partial);
      SumOfThree(Encode(SelectedFor(published[0])), Written(published[1..]), partial);
      PublishedAreRead(n, json, published[1..], partial);
    }
  }

  lemma ReadFirst(n: Netip, json: Bytes -> Option<Record>, p: Publication, rest: Bytes)
    requires RoundTrips(n) && ReadsJson(json) && Agree(n, p.observed)
    ensures ReadLists(n, json, Encode(SelectedFor(p)) + rest) == [Delivered(n, SelectedFor(p))]
      + ReadLists(n, json, rest)
  {
    var frame := Encode(SelectedFor(p));
    SelectedIsFrame(n, p.observed, p.lost);
    SelectedIsDelivered(n, p.observed, p.lost);
    ReadOne(frame, rest);
    assert json(frame) == Some(Listing(SelectedFor(p)));
  }

  ghost predicate Decodes(n: Netip, decode: DnsPipeline.Decoder) {
    forall servers :: decode(servers) == Delivered(n, servers)
  }

  // Every list published in the run is what publish selects for some network state.
  ghost predicate PublishesSelections(events: seq<DnsPipeline.Event>, published: nat -> Publication) {
    forall k :: 0 <= k < |events| && events[k].Publish? ==> events[k].servers == SelectedFor(published(k))
  }

  /**
   Once everything sent has been read, the resolver uses exactly the endpoints selected for
   the network state that was published last.
   */
  lemma SelectionIsInUse(n: Netip, published: nat -> Publication,
                         states: seq<DnsPipeline.State>, events: seq<DnsPipeline.Event>, last: nat, i: nat)
    requires RoundTrips(n) && Agree(n, published(last).observed)
    requires DnsPipeline.IsRun(states, events) && last < i < |states|
    requires Decodes(n, states[0].core.decode) && PublishesSelections(events, published)
    requires events[last].Publish? && forall k :: last < k < i ==> !events[k].Publish?
    requires DnsPipeline.ToGo(states[i]) == 0 && !DnsPipeline.Ending(states[i].core)
    ensures SameServers(n, published(last).observed, published(last).lost, states[i].core.managed)
  {
    DnsPipeline.NothingToGo(states, events, i);
    DnsPipeline.SnapshotIsLastPublished(states, events, last, i);
    SelectedIsDelivered(n, published(last).observed, published(last).lost);
  }

  /** And it comes to that: a quiet pipeline needs as many useful steps as were to go after the last publication. */
  lemma SelectionArrives(n: Netip, published: nat -> Publication,
                         states: seq<DnsPipeline.State>, events: seq<DnsPipeline.Event>, last: nat, i: nat)
    requires RoundTrips(n) && Agree(n, published(last).observed)
    requires DnsPipeline.IsRun(states, events) && last < i < |states|
    requires Decodes(n, states[0].core.decode) && PublishesSelections(events, published)
    requires events[last].Publish? && DnsPipeline.QuietBetween(events, last + 1, i)
    requires DnsPipeline.Steps(states, events, last + 1, i) == DnsPipeline.ToGo(states[last + 1])
    requires !DnsPipeline.Ending(states[last + 1].core)
    ensures SameServers(n, published(last).observed, published(last).lost, states[i].core.managed)
  {
    DnsPipeline.QuietRunAdvances(states, events, last + 1, i);
    forall k | last < k < i ensures !events[k].Publish? {
      assert DnsPipeline.Quiet(events[k]);
    }
    SelectionIsInUse(n, published, states, events, last, i);
  }
}
