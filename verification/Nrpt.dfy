/** Name resolution policy rules: the rules a plan must own, their validation,
    and their ordered writes to the registry. */
module Nrpt {
  import opened Dns
  import opened Names

  const MAX_NAMESPACES := 50
  const OVERRIDE := 0x8
  const MARKER := "osdns owner="
  const PRODUCT := "osdns"
  const NUL := '\0'
  const UNIT := '\U{1F}'

  datatype Rule = Rule(
    key: string,
    version: nat,
    configOptions: nat,
    namespaces: seq<string>,
    servers: seq<Ip>,
    displayName: string,
    comment: string)

  function MarkerFor(owner: string): string { MARKER + owner }

  function Join(parts: seq<string>, sep: char): string {
    if parts == [] then ""
    else if |parts| == 1 then parts[0]
    else parts[0] + [sep] + Join(parts[1..], sep)
  }

  /** The text that a rule key is derived from. */
  function Seed(owner: string, namespaces: seq<string>): string {
    "osdns-nrpt" + [NUL] + owner + [NUL] + Join(namespaces, UNIT)
  }

  predicate IsOwnerChar(c: char) {
    'a' <= c <= 'z' || 'A' <= c <= 'Z' || '0' <= c <= '9' || c == '.' || c == '-' || c == '_'
  }

  predicate ValidOwner(owner: string) {
    0 < |owner| <= 255 && forall i :: 0 <= i < |owner| ==> IsOwnerChar(owner[i])
  }

  // ----- rules from a plan

  function Namespace(d: Suffix): string { if d == Root then "." else "." + d }

  function Wanted(plan: Plan, routing: seq<Suffix>): seq<string> {
    if routing == [] then
      if plan.defaultRoute == Some(true) then ["."] else []
    else
      var before, last := Wanted(plan, routing[..|routing| - 1]), Namespace(routing[|routing| - 1]);
      if last in before then before else before + [last]
  }

  /** The namespaces of a plan, each once. */
  function NamespaceList(plan: Plan): seq<string> { Wanted(plan, plan.routing) }

  function Chunks<T>(s: seq<T>): seq<seq<T>> {
    if s == [] then []
    else if |s| <= MAX_NAMESPACES then [s]
    else [s[..MAX_NAMESPACES]] + Chunks(s[MAX_NAMESPACES..])
  }

  function Concat<T>(parts: seq<seq<T>>): seq<T> {
    if parts == [] then [] else parts[0] + Concat(parts[1..])
  }

  method NamespacesFromPlan(plan: Plan) returns (chunks: seq<seq<string>>)
    ensures chunks == Chunks(NamespaceList(plan))
  {
    var namespaces: seq<string> := [];
    if plan.defaultRoute == Some(true) {
      namespaces := ["."];
    }
    for k := 0 to |plan.routing|
      invariant namespaces == Wanted(plan, plan.routing[..k])
    {
      assert plan.routing[..k + 1][..k] == plan.routing[..k];
      var entry := if plan.routing[k] == Root then "." else "." + plan.routing[k];
      if entry !in namespaces {
        namespaces := namespaces + [entry];
      }
    }
    assert plan.routing[..|plan.routing|] == plan.routing;
    chunks := Chunks(namespaces);
  }

  function RuleOf(plan: Plan, owner: string, namespaces: seq<string>): Rule {
    Rule(Seed(owner, namespaces), 1, OVERRIDE, namespaces, plan.nameservers, PRODUCT, MarkerFor(owner))
  }

  function RulesFromPlan(plan: Plan, owner: string): (r: seq<Rule>)
    ensures |r| == |Chunks(NamespaceList(plan))|
    ensures forall i :: 0 <= i < |r| ==> r[i] == RuleOf(plan, owner, Chunks(NamespaceList(plan))[i])
  {
    var chunks := Chunks(NamespaceList(plan));
    seq(|chunks|, i requires 0 <= i < |chunks| => RuleOf(plan, owner, chunks[i]))
  }

  predicate IsUnspecified(ip: Ip) { forall i :: 0 <= i < |ip.octets| ==> ip.octets[i] == 0 }

  predicate ValidNamespace(n: string) {
    || n == "."
    || (&& n != "" && n[0] == '.'
        && var domain := ParseSuffix(n[1..]);
           domain.Some? && domain.value != Root && n == "." + domain.value)
  }

  predicate ValidRule(rule: Rule, owner: string) {
    && 0 < |rule.namespaces| <= MAX_NAMESPACES
    && (forall n :: n in rule.namespaces ==> ValidNamespace(n))
    && rule.key == Seed(owner, rule.namespaces)
    && rule.comment == MarkerFor(owner)
    && rule.servers != []
    && (forall ip :: ip in rule.servers ==> !IsUnspecified(ip))
    && rule.version == 1
    && rule.configOptions == OVERRIDE
    && rule.displayName == PRODUCT
  }

  // ----- the namespaces

  /** A namespace is valid exactly when it stands for the root or a domain. */
  lemma ValidNamespaceIff(n: string)
    ensures ValidNamespace(n) <==> exists d: Suffix :: IsSuffix(d) && n == Namespace(d)
  {
    if ValidNamespace(n) {
      if n == "." {
        assert IsSuffix(Root) && n == Namespace(Root);
      } else {
        var d := ParseSuffix(n[1..]).value;
        assert IsSuffix(d) && n == Namespace(d);
      }
    }
    if d: Suffix :| IsSuffix(d) && n == Namespace(d) {
      if d != Root {
        ParseDisplay(d);
        assert n[1..] == d;
      }
    }
  }

  /** Some domain of the list has the namespace. */
  predicate NamedBy(routing: seq<Suffix>, n: string) { exists d :: d in routing && n == Namespace(d) }

  lemma {:induction false} WantedMembers(plan: Plan, routing: seq<Suffix>)
    ensures NoDuplicates(Wanted(plan, routing))
    ensures forall n :: n in Wanted(plan, routing) <==>
              (n == "." && plan.defaultRoute == Some(true)) || NamedBy(routing, n)
  {
    if routing != [] {
      var init, last := routing[..|routing| - 1], routing[|routing| - 1];
      assert routing == init + [last];
      WantedMembers(plan, init);
      forall n ensures NamedBy(routing, n) <==> n == Namespace(last) || NamedBy(init, n) {
        assert last in routing;
        assert NamedBy(init, n) ==> exists d :: d in routing && n == Namespace(d);
      }
    }
  }

  /** Chunking is a partition: nothing lost, doubled or reordered; no chunk is
      empty or too long. */
  lemma {:induction false} ChunksPartition<T>(s: seq<T>)
    ensures Concat(Chunks(s)) == s
    ensures forall i :: 0 <= i < |Chunks(s)| ==> 0 < |Chunks(s)[i]| <= MAX_NAMESPACES
    ensures forall i :: 0 <= i < |Chunks(s)| - 1 ==> |Chunks(s)[i]| == MAX_NAMESPACES
    ensures forall i, x :: 0 <= i < |Chunks(s)| && x in Chunks(s)[i] ==> x in s
    decreases |s|
  {
    if 0 < |s| <= MAX_NAMESPACES {
      assert Concat([s]) == s;
    } else if s != [] {
      var head, tail := s[..MAX_NAMESPACES], s[MAX_NAMESPACES..];
      ChunksPartition(tail);
      assert Concat([head] + Chunks(tail)) == head + Concat(Chunks(tail));
      assert s == head + tail;
    }
  }

  /** Chunks of a list without duplicates have nothing in common. */
  lemma {:induction false} ChunksApart<T(!new)>(s: seq<T>, i: nat, j: nat)
    requires NoDuplicates(s) && i < j < |Chunks(s)|
    ensures forall x :: x in Chunks(s)[i] ==> x !in Chunks(s)[j]
    decreases |s|
  {
    if |s| > MAX_NAMESPACES {
      var head, tail := s[..MAX_NAMESPACES], s[MAX_NAMESPACES..];
      assert forall k :: 0 <= k < |tail| ==> tail[k] == s[k + MAX_NAMESPACES];
      ChunksPartition(tail);
      if i == 0 {
        forall x | x in head ensures x !in tail {
          var k :| 0 <= k < |head| && head[k] == x;
          assert s[k] == x;
        }
      } else {
        ChunksApart(tail, i - 1, j - 1);
      }
    }
  }

  // ----- keys

  lemma {:induction false} SplitJoin(parts: seq<string>, sep: char)
    requires parts != [] && forall p :: p in parts ==> sep !in p
    ensures Split(Join(parts, sep), sep) == parts
    decreases |parts|
  {
    if |parts| == 1 {
      SplitWhole(parts[0], sep);
    } else {
      SplitJoin(parts[1..], sep);
      SplitFirst(parts[0], Join(parts[1..], sep), sep);
      assert parts == [parts[0]] + parts[1..];
    }
  }

  lemma {:induction false} SplitWhole(s: string, sep: char)
    requires sep !in s
    ensures Split(s, sep) == [s]
    decreases |s|
  {
    if s != "" {
      SplitWhole(s[1..], sep);
      assert s[0] in s && s == [s[0]] + s[1..];
    }
  }

  lemma {:induction false} SplitFirst(s: string, rest: string, sep: char)
    requires sep !in s
    ensures Split(s + [sep] + rest, sep) == [s] + Split(rest, sep)
    decreases |s|
  {
    var all := s + [sep] + rest;
    if s == "" {
      assert all[1..] == rest;
    } else {
      SplitFirst(s[1..], rest, sep);
      assert s[0] in s && s == [s[0]] + s[1..];
      assert all[0] == s[0];
      assert all[1..] == s[1..] + [sep] + rest;
    }
  }

  lemma NamespaceChars(n: string)
    requires ValidNamespace(n)
    ensures UNIT !in n && NUL !in n
  {
    if n != "." {
      DomainShape(n[1..]);
      assert n == ['.'] + n[1..];
    }
  }

  /** The key text determines owner and namespaces. */
  lemma SeedInjective(owner: string, namespaces: seq<string>, owner': string, namespaces': seq<string>)
    requires ValidOwner(owner) && ValidOwner(owner')
    requires namespaces != [] && namespaces' != []
    requires forall n :: n in namespaces || n in namespaces' ==> ValidNamespace(n)
    ensures Seed(owner, namespaces) == Seed(owner', namespaces') <==> owner == owner' && namespaces == namespaces'
  {
    if Seed(owner, namespaces) == Seed(owner', namespaces') {
      forall n | n in namespaces || n in namespaces' ensures UNIT !in n {
        NamespaceChars(n);
      }
      var j, j' := Join(namespaces, UNIT), Join(namespaces', UNIT);
      var prefix := "osdns-nrpt" + [NUL];
      assert Seed(owner, namespaces) == prefix + (owner + [NUL] + j);
      assert Seed(owner', namespaces') == prefix + (owner' + [NUL] + j');
      var t, t' := owner + [NUL] + j, owner' + [NUL] + j';
      assert t == (prefix + t)[|prefix|..] == (prefix + t')[|prefix|..] == t';
      SplitFirst(owner, j, NUL);
      SplitFirst(owner', j', NUL);
      assert owner == Split(t, NUL)[0] == owner';
      assert j == t[|owner| + 1..] == j';
      SplitJoin(namespaces, UNIT);
      SplitJoin(namespaces', UNIT);
    }
  }

  // ----- the generated rules

  lemma ListIsValid(plan: Plan)
    requires forall d :: d in plan.routing ==> IsSuffix(d)
    ensures forall n :: n in NamespaceList(plan) ==> ValidNamespace(n)
    ensures NoDuplicates(NamespaceList(plan))
  {
    WantedMembers(plan, plan.routing);
    forall n | n in NamespaceList(plan) ensures ValidNamespace(n) {
      ValidNamespaceIff(n);
      if d :| d in plan.routing && n == Namespace(d) {
        assert IsSuffix(d);
      }
    }
  }

  /** Every generated rule passes validation exactly when the plan has servers to
      route to and none of them is unspecified. */
  lemma RulesValidIff(plan: Plan, owner: string)
    requires forall d :: d in plan.routing ==> IsSuffix(d)
    ensures (forall i :: 0 <= i < |RulesFromPlan(plan, owner)| ==> ValidRule(RulesFromPlan(plan, owner)[i], owner)) <==>
            NamespaceList(plan) == [] || (plan.nameservers != [] && forall ip :: ip in plan.nameservers ==> !IsUnspecified(ip))
  {
    var list, rules := NamespaceList(plan), RulesFromPlan(plan, owner);
    ListIsValid(plan);
    ChunksPartition(list);
    if list != [] {
      assert Chunks(list) != [];
      assert rules[0] == RuleOf(plan, owner, Chunks(list)[0]);
    }
  }

  /** A configuration that could be built names no unspecified server, so its
      rules fail validation only for want of any server. */
  lemma BuiltRulesValidIff(plan: Plan, owner: string)
    requires forall d :: d in plan.routing ==> IsSuffix(d)
    requires forall ip :: ip in plan.nameservers ==> !IsUnspecified(ip)
    ensures (forall i :: 0 <= i < |RulesFromPlan(plan, owner)| ==> ValidRule(RulesFromPlan(plan, owner)[i], owner)) <==>
            NamespaceList(plan) == [] || plan.nameservers != []
  {
    RulesValidIff(plan, owner);
  }

  /** The rules cover the namespaces of the plan exactly, in order and each once,
      and no two rules share a key. */
  lemma RulesCover(plan: Plan, owner: string)
    requires forall d :: d in plan.routing ==> IsSuffix(d)
    requires ValidOwner(owner)
    ensures var rules := RulesFromPlan(plan, owner);
            && Concat(seq(|rules|, i requires 0 <= i < |rules| => rules[i].namespaces)) == NamespaceList(plan)
            && (forall i, j :: 0 <= i < j < |rules| ==> rules[i].key != rules[j].key)
            && forall i :: 0 <= i < |rules| ==> rules[i].servers == plan.nameservers
    ensures forall n :: n in NamespaceList(plan) <==> (n == "." && plan.defaultRoute == Some(true)) || NamedBy(plan.routing, n)
    ensures NoDuplicates(NamespaceList(plan))
  {
    WantedMembers(plan, plan.routing);
    var list, rules := NamespaceList(plan), RulesFromPlan(plan, owner);
    ListIsValid(plan);
    ChunksPartition(list);
    assert seq(|rules|, i requires 0 <= i < |rules| => rules[i].namespaces) == Chunks(list);
    forall i, j | 0 <= i < j < |rules| ensures rules[i].key != rules[j].key {
      ChunksApart(list, i, j);
      assert Chunks(list)[i][0] in Chunks(list)[i];
      SeedInjective(owner, Chunks(list)[i], owner, Chunks(list)[j]);
    }
  }

  /** The plan behind a rule. */
  function PlanOf(rule: Rule): Plan {
    Plan(rule.servers, [], seq(|rule.namespaces|, i requires 0 <= i < |rule.namespaces| => SuffixOf(rule.namespaces[i])), None)
  }

  function SuffixOf(n: string): Suffix { if n == "." || n == "" then Root else n[1..] }

  lemma {:induction false} WantedBack(plan: Plan, routing: seq<Suffix>, namespaces: seq<string>)
    requires NoDuplicates(namespaces) && plan.defaultRoute != Some(true)
    requires |routing| == |namespaces| && forall i :: 0 <= i < |routing| ==> ValidNamespace(namespaces[i]) && routing[i] == SuffixOf(namespaces[i])
    ensures Wanted(plan, routing) == namespaces
    decreases |routing|
  {
    if routing != [] {
      var n := |routing| - 1;
      WantedBack(plan, routing[..n], namespaces[..n]);
      assert Namespace(routing[n]) == namespaces[n];
      assert namespaces == namespaces[..n] + [namespaces[n]];
      assert namespaces[n] !in namespaces[..n];
    }
  }

  /** Validation accepts nothing but rules that some plan would generate. */
  lemma ValidRuleIsGenerated(rule: Rule, owner: string)
    requires NoDuplicates(rule.namespaces)
    ensures ValidRule(rule, owner) ==> RulesFromPlan(PlanOf(rule), owner) == [rule]
  {
    if ValidRule(rule, owner) {
      WantedBack(PlanOf(rule), PlanOf(rule).routing, rule.namespaces);
      assert Chunks(rule.namespaces) == [rule.namespaces];
    }
  }

  // ----- writing a rule

  /** What may go wrong while values are written. */
  datatype WriteError = Corrupt | Occupied | PlatformError

  /** The values of one registry key; an absent value was never set. */
  datatype Values = Values(
    comment: Option<string>,
    version: Option<nat>,
    namespaces: Option<seq<string>>,
    servers: Option<seq<Ip>>,
    displayName: Option<string>,
    configOptions: Option<nat>)

  const NoValues := Values(None, None, None, None, None, None)

  /** The rule that the values spell out, if they are complete. */
  function ReadRule(key: string, v: Values): Option<Rule> {
    if v.comment.Some? && v.version.Some? && v.namespaces.Some? && v.servers.Some? && v.displayName.Some? && v.configOptions.Some?
      && v.namespaces.value != [] && v.servers.value != []
    then Some(Rule(key, v.version.value, v.configOptions.value, v.namespaces.value, v.servers.value, v.displayName.value, v.comment.value))
    else None
  }

  /** The values carry the marker of `owner`. */
  predicate Ours(v: Values, owner: string) { v.comment == Some(MarkerFor(owner)) }

  /** A new key while its values are being written: empty, or marked first. */
  predicate Partial(v: Values, owner: string) { v == NoValues || Ours(v, owner) }

  /** The key is new, or holds a rule of this owner that differs in its servers
      at most. */
  predicate MayWrite(keys: map<string, Values>, rule: Rule, owner: string) {
    && ValidRule(rule, owner)
    && (rule.key in keys ==>
          && Ours(keys[rule.key], owner)
          && var before := ReadRule(rule.key, keys[rule.key]);
             before.Some? && ValidRule(before.value, owner) && rule.(servers := before.value.servers) == before.value)
  }

  class Registry {
    var keys: map<string, Values>

    /** Sets the values of a key in a fixed order. `budget` writes succeed. */
    method WriteValues(rule: Rule, previous: Option<Rule>, budget: nat) returns (r: Option<WriteError>)
      requires rule.key in keys && (if previous.None? then keys[rule.key] == NoValues else ReadRule(rule.key, keys[rule.key]) == previous)
      requires rule.namespaces != [] && rule.servers != []
      modifies this
      ensures keys.Keys == old(keys).Keys && forall k :: k in keys && k != rule.key ==> keys[k] == old(keys)[k]
      ensures r.None? ==> ReadRule(rule.key, keys[rule.key]) == Some(rule)
      // creating: the marker comes first
      ensures previous.None? ==> keys[rule.key] == NoValues || keys[rule.key].comment == Some(rule.comment)
      // updating: all or nothing, and nothing but the servers ever changes
      ensures previous.Some? ==> keys[rule.key] == old(keys)[rule.key] || keys[rule.key] == old(keys)[rule.key].(servers := Some(rule.servers))
      ensures previous.Some? && rule.(servers := previous.value.servers) != previous.value ==> r == Some(Corrupt) && keys == old(keys)
      ensures budget > 5 ==> (r.None? <==> previous.None? || rule.(servers := previous.value.servers) == previous.value)
    {
      var v := keys[rule.key];
      if previous.Some? {
        if rule.(servers := previous.value.servers) != previous.value {
          return Some(Corrupt);
        }
        if previous.value.servers == rule.servers {
          return None;
        }
        if budget == 0 {
          return Some(PlatformError);
        }
        keys := keys[rule.key := v.(servers := Some(rule.servers))];
        if budget == 1 {
          return Some(PlatformError);
        }
        return None;
      }
      if budget > 0 {
        v := v.(comment := Some(rule.comment));
      }
      if budget > 1 {
        v := v.(version := Some(rule.version));
      }
      if budget > 2 {
        v := v.(namespaces := Some(rule.namespaces));
      }
      if budget > 3 {
        v := v.(servers := Some(rule.servers));
      }
      if budget > 4 {
        v := v.(displayName := Some(rule.displayName));
      }
      if budget > 5 {
        v := v.(configOptions := Some(rule.configOptions));
      }
      keys := keys[rule.key := v];
      r := if budget > 5 then None else Some(PlatformError);
    }

    /** Creates or updates one rule. `budget` writes succeed, and undoing the
        creation of a key may fail. */
    method WriteRule(rule: Rule, owner: string, budget: nat, undoFails: bool) returns (r: Option<WriteError>)
      modifies this
      ensures forall k :: k in old(keys) && k != rule.key ==> k in keys && keys[k] == old(keys)[k]
      ensures forall k :: k in keys && k != rule.key ==> k in old(keys)
      ensures !ValidRule(rule, owner) ==> r == Some(Corrupt) && keys == old(keys)
      ensures r.None? ==> rule.key in keys && ReadRule(rule.key, keys[rule.key]) == Some(rule)
      // with enough successful writes it succeeds exactly on what may be written
      ensures r.None? ==> MayWrite(old(keys), rule, owner)
      ensures budget > 5 ==> (r.None? <==> MayWrite(old(keys), rule, owner)) && (r.Some? ==> keys == old(keys))
      // nobody else's key is written
      ensures ValidRule(rule, owner) && rule.key in old(keys) && !Ours(old(keys)[rule.key], owner) ==> r == Some(Occupied) && keys == old(keys)
      // a key of ours is the old rule or the new one
      ensures rule.key in old(keys) ==> rule.key in keys && (keys[rule.key] == old(keys)[rule.key] || ReadRule(rule.key, keys[rule.key]) == Some(rule))
      // a key that could not be completed is gone, or at least not unmarked
      ensures rule.key !in old(keys) && r.Some? && rule.key in keys ==> Partial(keys[rule.key], owner) && undoFails
    {
      if !ValidRule(rule, owner) {
        return Some(Corrupt);
      }
      if rule.key in keys {
        if !Ours(keys[rule.key], owner) {
          return Some(Occupied);
        }
        var before := ReadRule(rule.key, keys[rule.key]);
        if before.None? {
          return Some(PlatformError);
        }
        if !ValidRule(before.value, owner) {
          return Some(Corrupt);
        }
        r := WriteValues(rule, before, budget);
      } else {
        keys := keys[rule.key := NoValues];
        r := WriteValues(rule, None, budget);
        if r.Some? && !undoFails {
          keys := keys - {rule.key};
        }
      }
    }
  }
}
