/** How NetworkManager and systemd-resolved carry a plan: the entries written
    and what parsing them gives back. */
module TextConfig {
  import opened Dns
  import opened Names

  // ----- NetworkManager

  datatype NmDnsFields = NmDnsFields(
    ipv4Dns: seq<nat>,
    ipv4Search: seq<string>,
    ipv4IgnoreAuto: bool,
    ipv6Dns: seq<seq<byte>>,
    ipv6Search: seq<string>,
    ipv6IgnoreAuto: bool)

  /** Four octets as one big-endian number. */
  function Number(o: seq<byte>): nat
    requires |o| == 4
  {
    0x100_0000 * (o[0] as nat) + 0x1_0000 * (o[1] as nat) + 0x100 * (o[2] as nat) + (o[3] as nat)
  }

  function Octets(n: nat): seq<byte>
    requires n < 0x1_0000_0000
  {
    [(n / 0x100_0000) as byte, (n / 0x1_0000 % 0x100) as byte, (n / 0x100 % 0x100) as byte, (n % 0x100) as byte]
  }

  lemma NumberRoundTrip(o: seq<byte>)
    requires |o| == 4
    ensures Number(o) < 0x1_0000_0000 && Octets(Number(o)) == o
  {
    var a, b, c, d := o[0] as nat, o[1] as nat, o[2] as nat, o[3] as nat;
    var n := Number(o);
    assert n / 0x100 == 0x1_0000 * a + 0x100 * b + c;
    assert n / 0x1_0000 == 0x100 * a + b;
    assert n / 0x100_0000 == a;
  }

  function Fours(ips: seq<Ip>): seq<nat> {
    if ips == [] then []
    else
      var before, last := Fours(ips[..|ips| - 1]), ips[|ips| - 1];
      if last.V4? then before + [Number(last.octets)] else before
  }

  function Sixes(ips: seq<Ip>): seq<seq<byte>> {
    if ips == [] then []
    else
      var before, last := Sixes(ips[..|ips| - 1]), ips[|ips| - 1];
      if last.V6? then before + [last.octets] else before
  }

  /** The search names: no root, each once. */
  function SearchNames(domains: seq<Suffix>): seq<string> {
    if domains == [] then []
    else
      var before, last := SearchNames(domains[..|domains| - 1]), domains[|domains| - 1];
      if last == Root || last in before then before else before + [last]
  }

  /** The routing names: each once, and none that is searched already. */
  function RoutingNames(domains: seq<Suffix>, search: seq<string>): seq<string> {
    if domains == [] then []
    else
      var before, last := RoutingNames(domains[..|domains| - 1], search), Display(domains[|domains| - 1]);
      if last in search || last in before then before else before + [last]
  }

  function Tilde(names: seq<string>): (r: seq<string>)
    ensures |r| == |names| && forall i :: 0 <= i < |r| ==> r[i] == "~" + names[i]
  {
    seq(|names|, i requires 0 <= i < |names| => "~" + names[i])
  }

  function Entries(plan: Plan, splitDns: bool): seq<string> {
    var search := SearchNames(plan.search);
    search + Tilde(if splitDns then RoutingNames(plan.routing, search) else [])
  }

  method FromPlan(plan: Plan, splitDns: bool) returns (fields: NmDnsFields)
    ensures fields == NmDnsFields(Fours(plan.nameservers), Entries(plan, splitDns), true, Sixes(plan.nameservers), Entries(plan, splitDns), true)
  {
    var v4, v6 := [], [];
    for k := 0 to |plan.nameservers|
      invariant v4 == Fours(plan.nameservers[..k]) && v6 == Sixes(plan.nameservers[..k])
    {
      assert plan.nameservers[..k + 1][..k] == plan.nameservers[..k];
      match plan.nameservers[k] {
        case V4(octets) => v4 := v4 + [Number(octets)];
        case V6(octets) => v6 := v6 + [octets];
      }
    }
    assert plan.nameservers[..|plan.nameservers|] == plan.nameservers;
    var search: seq<string> := [];
    for k := 0 to |plan.search|
      invariant search == SearchNames(plan.search[..k])
    {
      assert plan.search[..k + 1][..k] == plan.search[..k];
      if plan.search[k] != Root && plan.search[k] !in search {
        search := search + [plan.search[k]];
      }
    }
    assert plan.search[..|plan.search|] == plan.search;
    var routing: seq<string> := [];
    if splitDns {
      for k := 0 to |plan.routing|
        invariant routing == RoutingNames(plan.routing[..k], search)
      {
        assert plan.routing[..k + 1][..k] == plan.routing[..k];
        var name := Display(plan.routing[k]);
        if name !in search && name !in routing {
          routing := routing + [name];
        }
      }
      assert plan.routing[..|plan.routing|] == plan.routing;
    }
    var entries := search + Tilde(routing);
    fields := NmDnsFields(v4, entries, true, v6, entries, true);
  }

  /** The search and routing domains of a list of entries. */
  datatype Domains = Domains(search: seq<Suffix>, routing: seq<Suffix>)

  function Add(known: seq<Suffix>, parsed: Option<Suffix>): seq<Suffix> {
    if parsed.None? || parsed.value in known then known else known + [parsed.value]
  }

  /** What an entry after a tilde names. */
  function Routed(rest: string): Option<Suffix> { ParseSuffix(if rest == "" then "." else rest) }

  function Parsed(entries: seq<string>): Domains {
    if entries == [] then Domains([], [])
    else
      var before, last := Parsed(entries[..|entries| - 1]), entries[|entries| - 1];
      if last != "" && last[0] == '~'
      then before.(routing := Add(before.routing, Routed(last[1..])))
      else before.(search := Add(before.search, ParseSuffix(last)))
  }

  /** What an entry names, and whether it is marked for routing. */
  function Named(entry: string): (bool, Option<Suffix>) {
    if entry != "" && entry[0] == '~' then (true, Routed(entry[1..])) else (false, ParseSuffix(entry))
  }

  lemma AddExactly(known: seq<Suffix>, parsed: Option<Suffix>)
    ensures forall d :: d in Add(known, parsed) <==> d in known || parsed == Some(d)
    ensures NoDuplicates(known) ==> NoDuplicates(Add(known, parsed))
    ensures known <= Add(known, parsed)
  {
  }

  /** Some entry of the kind names `d`. */
  predicate SomeNames(entries: seq<(bool, Option<Suffix>)>, routed: bool, d: Suffix) {
    exists i :: 0 <= i < |entries| && entries[i] == (routed, Some(d))
  }

  lemma NamesStep(init: seq<(bool, Option<Suffix>)>, last: (bool, Option<Suffix>), routed: bool, d: Suffix)
    ensures SomeNames(init + [last], routed, d) <==> SomeNames(init, routed, d) || last == (routed, Some(d))
  {
    var all := init + [last];
    assert forall i :: 0 <= i < |init| ==> all[i] == init[i];
    assert all[|init|] == last;
  }

  /** The names of some entries, in two lists. */
  function Collected(entries: seq<(bool, Option<Suffix>)>): Domains {
    if entries == [] then Domains([], [])
    else
      var before, last := Collected(entries[..|entries| - 1]), entries[|entries| - 1];
      if last.0 then before.(routing := Add(before.routing, last.1)) else before.(search := Add(before.search, last.1))
  }

  lemma {:induction false} CollectedExactly(entries: seq<(bool, Option<Suffix>)>)
    ensures var r := Collected(entries);
            && NoDuplicates(r.search) && NoDuplicates(r.routing)
            && (forall d :: d in r.search <==> SomeNames(entries, false, d))
            && (forall d :: d in r.routing <==> SomeNames(entries, true, d))
    decreases |entries|
  {
    if entries != [] {
      hide Add, NoDuplicates, SomeNames;
      var init, last := entries[..|entries| - 1], entries[|entries| - 1];
      CollectedExactly(init);
      assert entries == init + [last];
      AddExactly(Collected(init).search, last.1);
      AddExactly(Collected(init).routing, last.1);
      forall d, routed ensures SomeNames(entries, routed, d) <==> SomeNames(init, routed, d) || last == (routed, Some(d)) {
        NamesStep(init, last, routed, d);
      }
    }
  }

  lemma {:induction false} CollectedGrows(entries: seq<(bool, Option<Suffix>)>, k: nat)
    requires k <= |entries|
    ensures Collected(entries[..k]).search <= Collected(entries).search && Collected(entries[..k]).routing <= Collected(entries).routing
    decreases |entries|
  {
    if k < |entries| {
      var init, last := entries[..|entries| - 1], entries[|entries| - 1];
      assert entries[..k] == init[..k];
      CollectedGrows(init, k);
    } else {
      assert entries[..k] == entries;
    }
  }

  function AllNamed(entries: seq<string>): (r: seq<(bool, Option<Suffix>)>)
    ensures |r| == |entries| && forall i :: 0 <= i < |r| ==> r[i] == Named(entries[i])
  {
    seq(|entries|, i requires 0 <= i < |entries| => Named(entries[i]))
  }

  lemma {:induction false} ParsedIsCollected(entries: seq<string>)
    ensures Parsed(entries) == Collected(AllNamed(entries))
    decreases |entries|
  {
    hide ParseSuffix, Add;
    if entries != [] {
      ParsedIsCollected(entries[..|entries| - 1]);
      assert AllNamed(entries)[..|entries| - 1] == AllNamed(entries[..|entries| - 1]);
    }
  }

  /** Parsing keeps every name that some entry of the kind has, each once and in the
      order of its first entry, and nothing else. */
  lemma ParsedExactly(entries: seq<string>)
    ensures var r := Parsed(entries);
            && NoDuplicates(r.search) && NoDuplicates(r.routing)
            && (forall d :: d in r.search <==> SomeNames(AllNamed(entries), false, d))
            && (forall d :: d in r.routing <==> SomeNames(AllNamed(entries), true, d))
    ensures forall k :: 0 <= k <= |entries| ==> Parsed(entries[..k]).search <= Parsed(entries).search && Parsed(entries[..k]).routing <= Parsed(entries).routing
  {
    hide Parsed, Collected, NoDuplicates, SomeNames, Named;
    ParsedIsCollected(entries);
    CollectedExactly(AllNamed(entries));
    forall k | 0 <= k <= |entries|
      ensures Parsed(entries[..k]).search <= Parsed(entries).search && Parsed(entries[..k]).routing <= Parsed(entries).routing
    {
      ParsedIsCollected(entries[..k]);
      assert AllNamed(entries[..k]) == AllNamed(entries)[..k];
      CollectedGrows(AllNamed(entries), k);
    }
  }

  method ParseEntries(entries: seq<string>) returns (r: Domains)
    ensures r == Parsed(entries)
  {
    var search: seq<Suffix>, routing: seq<Suffix> := [], [];
    for k := 0 to |entries|
      invariant Domains(search, routing) == Parsed(entries[..k])
    {
      assert entries[..k + 1][..k] == entries[..k];
      var entry := entries[k];
      if entry != "" && entry[0] == '~' {
        var suffix := Routed(entry[1..]);
        if suffix.Some? && suffix.value !in routing {
          routing := routing + [suffix.value];
        }
      } else {
        var suffix := ParseSuffix(entry);
        if suffix.Some? && suffix.value !in search {
          search := search + [suffix.value];
        }
      }
    }
    assert entries[..|entries|] == entries;
    r := Domains(search, routing);
  }

  /** What the builder guarantees of a plan. */
  predicate Built(plan: Plan) {
    && NoDuplicates(plan.nameservers)
    && NoDuplicates(plan.search) && (forall d :: d in plan.search ==> IsSuffix(d))
    && NoDuplicates(plan.routing) && (forall d :: d in plan.routing ==> IsSuffix(d))
  }

  lemma {:induction false} SearchIsFiltered(domains: seq<Suffix>)
    requires NoDuplicates(domains)
    ensures SearchNames(domains) == NotIn(domains, [Root])
  {
    if domains != [] {
      var init, last := domains[..|domains| - 1], domains[|domains| - 1];
      assert domains == init + [last];
      SearchIsFiltered(init);
      NotInMembers(init, [Root]);
      assert last !in init;
    }
  }

  /** Neither the root nor its display is a domain. */
  lemma NoRoot(names: seq<Suffix>)
    requires forall d :: d in names ==> IsDomain(d)
    ensures Root !in names && Display(Root) !in names
  {
    if Root in names {
      DomainShape(Root);
    }
    if Display(Root) in names {
      DomainShape(Display(Root));
    }
  }

  lemma {:induction false} RoutingIsFiltered(domains: seq<Suffix>, search: seq<Suffix>)
    requires NoDuplicates(domains) && forall d :: d in domains ==> IsSuffix(d)
    requires forall d :: d in search ==> IsDomain(d)
    ensures var kept := NotIn(domains, search);
            |RoutingNames(domains, search)| == |kept| && forall i :: 0 <= i < |kept| ==> RoutingNames(domains, search)[i] == Display(kept[i])
  {
    if domains != [] {
      var init, last := domains[..|domains| - 1], domains[|domains| - 1];
      assert domains == init + [last];
      RoutingIsFiltered(init, search);
      NotInMembers(init, search);
      var kept, names := NotIn(init, search), RoutingNames(init, search);
      assert last !in init;
      ParseDisplay(last);
      NoRoot(search);
      forall i | 0 <= i < |kept| ensures names[i] != Display(last) {
        assert kept[i] in kept;
        ParseDisplay(kept[i]);
      }
    }
  }

  /** Parsing plain domains gives them back. */
  lemma {:induction false} ParsedPlain(names: seq<Suffix>)
    requires NoDuplicates(names) && forall d :: d in names ==> IsDomain(d)
    ensures Parsed(names) == Domains(names, [])
  {
    if names != [] {
      var init, last := names[..|names| - 1], names[|names| - 1];
      assert names == init + [last];
      ParsedPlain(init);
      DomainShape(last);
      ParseDisplay(last);
      assert last !in init;
    }
  }

  /** Parsing routing entries after plain domains gives both back. */
  lemma {:induction false} ParsedTilde(names: seq<Suffix>, domains: seq<Suffix>, shown: seq<string>)
    requires NoDuplicates(names) && forall d :: d in names ==> IsDomain(d)
    requires NoDuplicates(domains) && forall d :: d in domains ==> IsSuffix(d)
    requires |shown| == |domains| && forall i :: 0 <= i < |shown| ==> shown[i] == Display(domains[i])
    ensures Parsed(names + Tilde(shown)) == Domains(names, domains)
    decreases |domains|
  {
    hide IsDomain, ParseSuffix, Routed, Display;
    var entries := names + Tilde(shown);
    if domains == [] {
      assert entries == names;
      ParsedPlain(names);
    } else {
      var n := |domains| - 1;
      var init, last := domains[..n], domains[n];
      assert domains == init + [last];
      ParsedTilde(names, init, shown[..n]);
      assert entries[..|entries| - 1] == names + Tilde(shown[..n]);
      TildeEntry(entries[|entries| - 1], last);
      assert last !in init;
    }
  }

  lemma TildeEntry(entry: string, d: Suffix)
    requires entry == "~" + Display(d) && IsSuffix(d)
    ensures entry != "" && entry[0] == '~' && Routed(entry[1..]) == Some(d)
  {
    assert entry[1..] == Display(d);
    ParseDisplay(d);
  }

  /** What survives the journey: exactly the searched domains except the root,
      and the routing domains that are not searched, in order. */
  lemma NmRoundTrip(plan: Plan)
    requires Built(plan)
    ensures var search := NotIn(plan.search, [Root]);
            && Parsed(Entries(plan, true)) == Domains(search, NotIn(plan.routing, search))
            && Parsed(Entries(plan, false)) == Domains(search, [])
  {
    hide IsDomain, Parsed, NotIn, SearchNames, RoutingNames;
    var search := NotIn(plan.search, [Root]);
    SearchIsFiltered(plan.search);
    NotInMembers(plan.search, [Root]);
    RoutingIsFiltered(plan.routing, search);
    NotInMembers(plan.routing, search);
    ParsedTilde(search, NotIn(plan.routing, search), RoutingNames(plan.routing, search));
    ParsedTilde(search, [], []);
  }

  /** The root travels as the wildcard entry. */
  lemma RootTravels(plan: Plan)
    requires Built(plan)
    ensures Root in plan.routing <==> "~." in Entries(plan, true)
  {
    hide IsDomain, Parsed, NotIn, SearchNames, RoutingNames;
    var search := NotIn(plan.search, [Root]);
    SearchIsFiltered(plan.search);
    NotInMembers(plan.search, [Root]);
    RoutingIsFiltered(plan.routing, search);
    NotInMembers(plan.routing, search);
    NoRoot(search);
    var kept, names, entries := NotIn(plan.routing, search), RoutingNames(plan.routing, search), Entries(plan, true);
    if Root in plan.routing {
      var i :| 0 <= i < |kept| && kept[i] == Root;
      assert entries[|search| + i] == "~" + names[i];
      assert names[i] == Display(Root) && "~" + "." == "~.";
    }
    if "~." in entries {
      assert "~." !in search by {
        if "~." in search {
          DomainShape("~.");
        }
      }
      var i :| 0 <= i < |names| && Tilde(names)[i] == "~.";
      assert ("~" + names[i])[1..] == names[i];
      assert names[i] == "~."[1..] == Display(Root);
      var d := kept[i];
      assert d in kept && d in plan.routing;
      ParseDisplay(d);
      assert d == Root;
    }
  }

  function OfFamily(ips: seq<Ip>, four: bool): seq<Ip> {
    if ips == [] then []
    else
      var before, last := OfFamily(ips[..|ips| - 1], four), ips[|ips| - 1];
      if last.V4? == four then before + [last] else before
  }

  function FromNumber(n: nat): AnyIp { V4(Octets(n % 0x1_0000_0000)) }

  /** The nameservers of each family come back in order. */
  lemma {:induction false} NmServersRoundTrip(ips: seq<Ip>)
    ensures |Fours(ips)| == |OfFamily(ips, true)| && forall i :: 0 <= i < |Fours(ips)| ==> FromNumber(Fours(ips)[i]) == OfFamily(ips, true)[i]
    ensures |Sixes(ips)| == |OfFamily(ips, false)| && forall i :: 0 <= i < |Sixes(ips)| ==> V6(Sixes(ips)[i]) == OfFamily(ips, false)[i]
    ensures |Fours(ips)| + |Sixes(ips)| == |ips|
  {
    if ips != [] {
      NmServersRoundTrip(ips[..|ips| - 1]);
      if ips[|ips| - 1].V4? {
        NumberRoundTrip(ips[|ips| - 1].octets);
      }
    }
  }

  // ----- systemd-resolved

  /** Address family numbers of the wire format. */
  const FAMILY_V4 := 2
  const FAMILY_V6 := 10

  function LinkDns(plan: Plan): seq<(int, seq<byte>)> {
    seq(|plan.nameservers|, i requires 0 <= i < |plan.nameservers| =>
      (if plan.nameservers[i].V4? then FAMILY_V4 else FAMILY_V6, plan.nameservers[i].octets))
  }

  /** Entries of an unknown family or a wrong length are dropped. */
  function Nameservers(dns: seq<(int, seq<byte>)>): seq<Ip> {
    if dns == [] then []
    else
      var before, (family, octets) := Nameservers(dns[..|dns| - 1]), dns[|dns| - 1];
      if family == FAMILY_V4 && |octets| == 4 then before + [V4(octets)]
      else if family == FAMILY_V6 && |octets| == 16 then before + [V6(octets)]
      else before
  }

  lemma {:induction false} LinkDnsRoundTrip(plan: Plan)
    ensures Nameservers(LinkDns(plan)) == plan.nameservers
    decreases |plan.nameservers|
  {
    if plan.nameservers != [] {
      var n := |plan.nameservers| - 1;
      var shorter := plan.(nameservers := plan.nameservers[..n]);
      LinkDnsRoundTrip(shorter);
      assert LinkDns(plan)[..n] == LinkDns(shorter);
      assert plan.nameservers == shorter.nameservers + [plan.nameservers[n]];
    }
  }

  /** The names of a list of link domains. */
  function Seen(domains: seq<(string, bool)>): (r: seq<string>)
    ensures |r| == |domains| && forall i :: 0 <= i < |r| ==> r[i] == domains[i].0
  {
    seq(|domains|, i requires 0 <= i < |domains| => domains[i].0)
  }

  /** Appends the domains whose names are new. */
  function WithNew(known: seq<(string, bool)>, domains: seq<Suffix>, routeOnly: bool): seq<(string, bool)> {
    if domains == [] then known
    else
      var before, last := WithNew(known, domains[..|domains| - 1], routeOnly), Display(domains[|domains| - 1]);
      if last in Seen(before) then before else before + [(last, routeOnly)]
  }

  function LinkDomains(plan: Plan): seq<(string, bool)> {
    WithNew(WithNew([], plan.search, false), plan.routing, true)
  }

  method LinkDomainsFromPlan(plan: Plan) returns (domains: seq<(string, bool)>)
    ensures domains == LinkDomains(plan)
  {
    domains := [];
    var seen: seq<string> := [];
    for k := 0 to |plan.search|
      invariant domains == WithNew([], plan.search[..k], false) && seen == Seen(domains)
    {
      assert plan.search[..k + 1][..k] == plan.search[..k];
      var name := Display(plan.search[k]);
      if name !in seen {
        seen := seen + [name];
        domains := domains + [(name, false)];
      }
    }
    assert plan.search[..|plan.search|] == plan.search;
    ghost var known := domains;
    for k := 0 to |plan.routing|
      invariant domains == WithNew(known, plan.routing[..k], true) && seen == Seen(domains)
    {
      assert plan.routing[..k + 1][..k] == plan.routing[..k];
      var name := Display(plan.routing[k]);
      if name !in seen {
        seen := seen + [name];
        domains := domains + [(name, true)];
      }
    }
    assert plan.routing[..|plan.routing|] == plan.routing;
  }

  function Public(domains: seq<(string, bool)>): Domains {
    if domains == [] then Domains([], [])
    else
      var before, (name, routeOnly) := Public(domains[..|domains| - 1]), domains[|domains| - 1];
      if routeOnly then before.(routing := Add(before.routing, ParseSuffix(name)))
      else before.(search := Add(before.search, ParseSuffix(name)))
  }

  function AllMarked(domains: seq<(string, bool)>): (r: seq<(bool, Option<Suffix>)>)
    ensures |r| == |domains| && forall i :: 0 <= i < |r| ==> r[i] == (domains[i].1, ParseSuffix(domains[i].0))
  {
    seq(|domains|, i requires 0 <= i < |domains| => (domains[i].1, ParseSuffix(domains[i].0)))
  }

  lemma {:induction false} PublicIsCollected(domains: seq<(string, bool)>)
    ensures Public(domains) == Collected(AllMarked(domains))
    decreases |domains|
  {
    hide ParseSuffix, Add;
    if domains != [] {
      PublicIsCollected(domains[..|domains| - 1]);
      assert AllMarked(domains)[..|domains| - 1] == AllMarked(domains[..|domains| - 1]);
    }
  }

  /** Reading link domains back keeps every name of the kind likewise. */
  lemma PublicExactly(domains: seq<(string, bool)>)
    ensures var r := Public(domains);
            && NoDuplicates(r.search) && NoDuplicates(r.routing)
            && (forall d :: d in r.search <==> SomeNames(AllMarked(domains), false, d))
            && (forall d :: d in r.routing <==> SomeNames(AllMarked(domains), true, d))
    ensures forall k :: 0 <= k <= |domains| ==> Public(domains[..k]).search <= Public(domains).search && Public(domains[..k]).routing <= Public(domains).routing
  {
    hide Public, Collected, NoDuplicates, SomeNames, ParseSuffix;
    PublicIsCollected(domains);
    CollectedExactly(AllMarked(domains));
    forall k | 0 <= k <= |domains|
      ensures Public(domains[..k]).search <= Public(domains).search && Public(domains[..k]).routing <= Public(domains).routing
    {
      PublicIsCollected(domains[..k]);
      assert AllMarked(domains[..k]) == AllMarked(domains)[..k];
      CollectedGrows(AllMarked(domains), k);
    }
  }

  method LinkDomainsToPublic(domains: seq<(string, bool)>) returns (r: Domains)
    ensures r == Public(domains)
  {
    var search: seq<Suffix>, routing: seq<Suffix> := [], [];
    for k := 0 to |domains|
      invariant Domains(search, routing) == Public(domains[..k])
    {
      assert domains[..k + 1][..k] == domains[..k];
      var (name, routeOnly) := domains[k];
      var suffix := ParseSuffix(name);
      if suffix.Some? {
        if !routeOnly {
          if suffix.value !in search {
            search := search + [suffix.value];
          }
        } else if suffix.value !in routing {
          routing := routing + [suffix.value];
        }
      }
    }
    assert domains[..|domains|] == domains;
    r := Domains(search, routing);
  }

  predicate Shown(known: seq<(string, bool)>, names: seq<Suffix>) {
    (forall d :: d in names ==> IsSuffix(d)) && |known| == |names| && forall i :: 0 <= i < |known| ==> known[i].0 == Display(names[i])
  }

  lemma SeenIffKnown(known: seq<(string, bool)>, names: seq<Suffix>, d: Suffix)
    requires Shown(known, names) && IsSuffix(d)
    ensures Display(d) in Seen(known) <==> d in names
  {
    if d in names {
      var i :| 0 <= i < |names| && names[i] == d;
      assert Seen(known)[i] == Display(d);
    }
    if Display(d) in Seen(known) {
      var i :| 0 <= i < |known| && Seen(known)[i] == Display(d);
      assert names[i] in names;
      ParseDisplay(names[i]);
      ParseDisplay(d);
    }
  }

  lemma {:induction false} LinkSearch(search: seq<Suffix>)
    requires NoDuplicates(search) && forall d :: d in search ==> IsSuffix(d)
    ensures var known := WithNew([], search, false);
            Shown(known, search) && Public(known) == Domains(search, [])
  {
    if search != [] {
      var init, last := search[..|search| - 1], search[|search| - 1];
      assert search == init + [last];
      LinkSearch(init);
      var known := WithNew([], init, false);
      SeenIffKnown(known, init, last);
      assert last !in init;
      assert (known + [(Display(last), false)])[..|known|] == known;
      ParseDisplay(last);
    }
  }

  /** One more routing domain, when it is new. */
  lemma LinkRoutingStep(known: seq<(string, bool)>, search: seq<Suffix>, kept: seq<Suffix>, last: Suffix)
    requires Shown(known, search + kept) && Public(known) == Domains(search, kept)
    requires IsSuffix(last) && last !in search && last !in kept
    ensures var more := known + [(Display(last), true)];
            Shown(more, search + (kept + [last])) && Public(more) == Domains(search, kept + [last])
  {
    var more := known + [(Display(last), true)];
    assert more[..|known|] == known;
    ParseDisplay(last);
    assert search + (kept + [last]) == (search + kept) + [last];
  }

  lemma {:induction false} LinkRouting(search: seq<Suffix>, routing: seq<Suffix>)
    requires NoDuplicates(search) && forall d :: d in search ==> IsSuffix(d)
    requires NoDuplicates(routing) && forall d :: d in routing ==> IsSuffix(d)
    ensures var known := WithNew(WithNew([], search, false), routing, true);
            && Shown(known, search + NotIn(routing, search))
            && Public(known) == Domains(search, NotIn(routing, search))
    decreases |routing|
  {
    hide IsDomain, Public, Shown;
    if routing == [] {
      LinkSearch(search);
      assert search + NotIn(routing, search) == search;
    } else {
      var init, last := routing[..|routing| - 1], routing[|routing| - 1];
      assert routing == init + [last];
      LinkRouting(search, init);
      NotInMembers(init, search);
      var known, kept := WithNew(WithNew([], search, false), init, true), NotIn(init, search);
      SeenIffKnown(known, search + kept, last);
      assert last !in init;
      if last !in search {
        LinkRoutingStep(known, search, kept, last);
      }
    }
  }

  /** Link domains come back as they were searched, root included, followed by
      the routing domains that are not searched. */
  lemma LinkDomainsRoundTrip(plan: Plan)
    requires Built(plan)
    ensures Public(LinkDomains(plan)) == Domains(plan.search, NotIn(plan.routing, plan.search))
  {
    LinkRouting(plan.search, plan.routing);
  }
}
