/** Validating and normalising a decoded frame (protocol.go). */
module DnsSnapshot {
  import opened Prelude
  import opened DnsFrames

  // What the JSON decoder makes of a frame; servers is absent for a null list.
  datatype Record = Record(version: int, servers: Option<seq<string>>, trailing: bool)

  datatype Endpoint = Endpoint(address: string, port: nat)

  // net/netip, which is not part of this repository: parsing, printing, and the addresses that cannot be a server.
  datatype Netip = Netip(parse: string -> Option<Endpoint>, show: Endpoint -> string, reserved: Endpoint -> bool)

  // Printing a parsed endpoint and parsing it again gives the same endpoint.
  ghost predicate RoundTrips(n: Netip) {
    forall s :: n.parse(s).Some? ==> n.parse(n.show(n.parse(s).value)) == n.parse(s)
  }

  predicate GoodServer(n: Netip, s: string) {
    n.parse(s).Some? && n.parse(s).value.port == 53 && !n.reserved(n.parse(s).value)
  }

  function Shown(n: Netip, s: string): string
    requires n.parse(s).Some?
  {
    n.show(n.parse(s).value)
  }

  predicate Acceptable(n: Netip, r: Record) {
    && r.version == 1 && !r.trailing
    && r.servers.Some? && |r.servers.value| <= MAX_SERVERS
    && forall i :: 0 <= i < |r.servers.value| ==> GoodServer(n, r.servers.value[i])
  }

  function Normalised(n: Netip, servers: seq<string>): seq<string>
    requires forall i :: 0 <= i < |servers| ==> GoodServer(n, servers[i])
  {
    seq(|servers|, i requires 0 <= i < |servers| && GoodServer(n, servers[i]) => Shown(n, servers[i]))
  }

  predicate ReachesPort53(n: Netip, endpoint: Option<Endpoint>) {
    endpoint.Some? && endpoint.value.port == 53 && !n.reserved(endpoint.value)
  }

  // The printed forms of the listed endpoints and nothing else, each once.
  ghost predicate PrintsAll(n: Netip, listed: seq<string>, printed: seq<string>) {
    && (forall i :: 0 <= i < |listed| ==> n.parse(listed[i]).Some? && n.show(n.parse(listed[i]).value) in printed)
    && (forall s :: s in printed ==>
      exists i :: 0 <= i < |listed| && n.parse(listed[i]).Some? && s == n.show(n.parse(listed[i]).value))
    && forall i, j :: 0 <= i < j < |printed| ==> printed[i] != printed[j]
  }

  lemma NormalisedPrintsAll(n: Netip, listed: seq<string>)
    requires forall i :: 0 <= i < |listed| ==> GoodServer(n, listed[i])
    ensures PrintsAll(n, listed, Distinct(Normalised(n, listed)))
  {
    var all := Normalised(n, listed);
    DistinctHasNoDuplicates(all);
    forall i | 0 <= i < |listed| ensures n.show(n.parse(listed[i]).value) in Distinct(all) {
      assert all[i] in all;
      DistinctHolds(all, all[i]);
    }
    forall s | s in Distinct(all)
      ensures exists i :: 0 <= i < |listed| && n.parse(listed[i]).Some? && s == n.show(n.parse(listed[i]).value)
    {
      DistinctHolds(all, s);
      var i :| 0 <= i < |all| && all[i] == s;
      assert n.parse(listed[i]).Some?;
    }
  }

  /** Accepts exactly the acceptable records; duplicates of the printed form are dropped. */
  method DecodeSnapshot(n: Netip, r: Record) returns (result: Result<seq<string>, ()>)
    ensures result.Ok? <==> Acceptable(n, r)
    ensures result.Ok? ==> result.value == Distinct(Normalised(n, r.servers.value))
    ensures result.Ok? <==>
      && r.version == 1 && !r.trailing && r.servers.Some? && |r.servers.value| <= 32
      && forall i :: 0 <= i < |r.servers.value| ==> ReachesPort53(n, n.parse(r.servers.value[i]))
    ensures result.Ok? ==> PrintsAll(n, r.servers.value, result.value)
  {
    if r.trailing || r.version != 1 || r.servers.None? || |r.servers.value| > MAX_SERVERS {
      return Err(());
    }
    var listed := r.servers.value;
    var seen: set<string> := {};
    var servers: seq<string> := [];
    for i := 0 to |listed|
      invariant forall j :: 0 <= j < i ==> GoodServer(n, listed[j])
      invariant servers == Distinct(Normalised(n, listed[..i]))
      invariant forall s :: s in seen <==> s in servers
    {
      var endpoint := n.parse(listed[i]);
      if endpoint.None? || endpoint.value.port != 53 || n.reserved(endpoint.value) {
        return Err(());
      }
      var server := n.show(endpoint.value);
      assert Normalised(n, listed[..i + 1])[..i] == Normalised(n, listed[..i]);
      if server !in seen {
        seen := seen + {server};
        servers := servers + [server];
      }
    }
    assert listed[..|listed|] == listed;
    NormalisedPrintsAll(n, listed);
    return Ok(servers);
  }

  lemma ShownIsGood(n: Netip, s: string)
    requires RoundTrips(n) && GoodServer(n, s)
    ensures GoodServer(n, Shown(n, s)) && Shown(n, Shown(n, s)) == Shown(n, s)
  {
  }

  /** An accepted list is free of duplicates, at most 32 long and a fixed point of re-encoding and decoding. */
  lemma DecodedIsFixed(n: Netip, r: Record)
    requires RoundTrips(n) && Acceptable(n, r)
    ensures var d := Distinct(Normalised(n, r.servers.value));
      && NoDuplicates(d) && |d| <= MAX_SERVERS
      && Acceptable(n, Record(1, Some(d), false))
      && Distinct(Normalised(n, d)) == d
  {
    var all := Normalised(n, r.servers.value);
    var d := Distinct(all);
    DistinctHasNoDuplicates(all);
    forall i | 0 <= i < |d| ensures GoodServer(n, d[i]) && Shown(n, d[i]) == d[i] {
      DistinctHolds(all, d[i]);
      var j :| 0 <= j < |all| && all[j] == d[i];
      ShownIsGood(n, r.servers.value[j]);
    }
    assert Normalised(n, d) == d;
    DistinctHasNoDuplicates(d);
  }

  /**
   A list of distinct good servers, as the helper publishes it, is accepted and keeps
   its length and order, provided different texts of it are different endpoints.
   */
  lemma PublishedIsKept(n: Netip, servers: seq<string>)
    requires RoundTrips(n) && |servers| <= MAX_SERVERS && NoDuplicates(servers)
    requires forall i :: 0 <= i < |servers| ==> GoodServer(n, servers[i])
    requires forall i, j :: 0 <= i < j < |servers| ==> n.parse(servers[i]) != n.parse(servers[j])
    ensures Acceptable(n, Record(1, Some(servers), false))
    ensures Distinct(Normalised(n, servers)) == Normalised(n, servers)
    ensures |Normalised(n, servers)| == |servers|
    ensures forall i :: 0 <= i < |servers| ==> n.parse(Normalised(n, servers)[i]) == n.parse(servers[i])
  {
    var shown := Normalised(n, servers);
    forall i, j | 0 <= i < j < |shown| ensures shown[i] != shown[j] {
      assert n.parse(shown[i]) == n.parse(servers[i]) && n.parse(shown[j]) == n.parse(servers[j]);
    }
    DistinctHasNoDuplicates(shown);
  }
}
