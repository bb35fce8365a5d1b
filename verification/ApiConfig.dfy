/**
 ApplyAPI of backend/xray/config.go: giving a config the inbound, the routing rule, the policy and the API
 section through which the node talks to the core. Inbounds are pointers that ApplyAPI never writes through,
 so they are values here; the slice that holds them is an array with a length.
 */
module ApiConfig {
  import opened Options

  // The tag of the API, which is "API_INBOUND" on an inbound and "API" on an outbound, or another one.
  datatype Tag = ApiTag | OtherTag(name: string)

  // `address` is the one in the settings.
  datatype Inbound = Inbound(tag: Tag, listen: string, port: int, protocol: string, address: Option<string>,
                             rest: string)

  // A raw routing rule: one that decodes into a map, being an object or null, with its string outboundTag if it has
  // one; or another.
  datatype Rule =
    | MapRule(outboundTag: Option<Tag>, inboundTags: seq<Tag>, sources: seq<string>, kind: Option<string>, rest: string)
    | OtherRule(raw: string)

  datatype Level = Level(uplink: bool, downlink: bool, online: bool, rest: string)
  datatype System = System(inUp: bool, inDown: bool, outUp: bool, outDown: bool)
  datatype Policy = Policy(levels: Option<map<nat, Level>>, system: Option<System>)
  datatype Router = Router(rules: seq<Rule>, rest: string)
  datatype Api = Api(services: seq<string>, tag: Tag)

  predicate IsApi(i: Inbound) { i.tag.ApiTag? }

  function ApiInbound(port: int): Inbound {
    Inbound(ApiTag, "127.0.0.1", port, "dokodemo-door", Some("127.0.0.1"), "")
  }

  function ApiRule(): Rule {
    MapRule(Some(ApiTag), [ApiTag], ["127.0.0.1"], Some("field"), "")
  }

  function ApiSection(): Api { Api(["HandlerService", "LoggerService", "StatsService"], ApiTag) }

  // ---------- the loop that deletes while it ranges ----------

  /**
   The loop from index i on: it ranges over the whole backing array `arr`, while the config's slice has shrunk
   to length m. Deleting index i shifts arr[i + 1..m] down and leaves the old last element behind it; None is
   the panic of slicing beyond the length.
   */
  function Sweep(arr: seq<Inbound>, m: nat, i: nat): Option<seq<Inbound>>
    requires m <= |arr| && i <= |arr|
    decreases |arr| - i
  {
    if i == |arr| then Some(arr[..m])
    else if !IsApi(arr[i]) then Sweep(arr, m, i + 1)
    else if i + 1 > m then None
    else Sweep(Closed(arr, m, i), m - 1, i + 1)
  }

  lemma SweepEnds(arr: seq<Inbound>, m: nat)
    requires m <= |arr|
    ensures Sweep(arr, m, |arr|) == Some(arr[..m])
  {
  }

  // All inbounds but the API ones, in order.
  function Others(xs: seq<Inbound>): seq<Inbound> {
    if xs == [] then [] else if IsApi(xs[0]) then Others(xs[1..]) else [xs[0]] + Others(xs[1..])
  }

  // What is left when the element after a deleted one is never looked at.
  function SkipAfterDelete(xs: seq<Inbound>): seq<Inbound> {
    if xs == [] then []
    else if !IsApi(xs[0]) then [xs[0]] + SkipAfterDelete(xs[1..])
    else if |xs| == 1 then []
    else [xs[1]] + SkipAfterDelete(xs[2..])
  }

  ghost predicate NoneApi(xs: seq<Inbound>) { forall i :: 0 <= i < |xs| ==> !IsApi(xs[i]) }

  ghost predicate NoAdjacentApi(xs: seq<Inbound>) {
    forall i :: 0 <= i && i + 1 < |xs| && IsApi(xs[i]) ==> !IsApi(xs[i + 1])
  }

  // At most one API inbound.
  ghost predicate AtMostOneApi(xs: seq<Inbound>) {
    forall i, j :: 0 <= i < j < |xs| && IsApi(xs[i]) ==> !IsApi(xs[j])
  }

  ghost predicate EndsInApi(xs: seq<Inbound>) { xs != [] && IsApi(xs[|xs| - 1]) }

  // The inbounds from which the loop removes exactly the API ones.
  ghost predicate Removable(xs: seq<Inbound>) {
    AtMostOneApi(xs) || (NoAdjacentApi(xs) && !EndsInApi(xs))
  }

  lemma {:induction false} OthersOf(xs: seq<Inbound>)
    ensures NoneApi(Others(xs)) && (NoneApi(xs) ==> Others(xs) == xs)
  {
    if xs != [] {
      OthersOf(xs[1..]);
      if NoneApi(xs) {
        assert NoneApi(xs[1..]);
      }
    }
  }

  lemma OthersCons(x: Inbound, xs: seq<Inbound>)
    ensures Others([x] + xs) == (if IsApi(x) then [] else [x]) + Others(xs)
  {
    assert ([x] + xs)[0] == x && ([x] + xs)[1..] == xs;
  }

  lemma {:induction false} OthersConcat(xs: seq<Inbound>, ys: seq<Inbound>)
    ensures Others(xs + ys) == Others(xs) + Others(ys)
  {
    if xs == [] {
      assert xs + ys == ys;
    } else {
      var x, rest := xs[0], xs[1..];
      OthersConcat(rest, ys);
      OthersCons(x, rest);
      OthersCons(x, rest + ys);
      assert xs == [x] + rest && xs + ys == [x] + (rest + ys);
    }
  }

  // The array after deleting index i from its first m elements.
  function Closed(arr: seq<Inbound>, m: nat, i: nat): (next: seq<Inbound>)
    requires i < m <= |arr|
    ensures |next| == |arr|
  {
    arr[..i] + arr[i + 1..m] + arr[m - 1..]
  }

  lemma ClosedElements(arr: seq<Inbound>, m: nat, i: nat)
    requires i < m <= |arr|
    ensures forall j :: 0 <= j < |arr| ==> Closed(arr, m, i)[j] == arr[if i <= j < m - 1 then j + 1 else j]
  {
  }

  lemma ClosedAt(arr: seq<Inbound>, m: nat, i: nat)
    requires i + 1 < m <= |arr|
    ensures Closed(arr, m, i)[..i + 1] == arr[..i] + [arr[i + 1]]
    ensures Closed(arr, m, i)[i + 1..m - 1] == arr[i + 2..m]
    ensures forall j :: m - 2 <= j < |arr| ==> Closed(arr, m, i)[j] == arr[if j < m - 1 then j + 1 else j]
  {
  }

  // What the loop leaves, seen from index i.
  function Left(arr: seq<Inbound>, m: nat, i: nat): seq<Inbound>
    requires i <= |arr| && m <= |arr|
  {
    if i < m then arr[..i] + SkipAfterDelete(arr[i..m]) else arr[..m]
  }

  lemma LeftKept(arr: seq<Inbound>, m: nat, i: nat)
    requires i < |arr| && m <= |arr| && !IsApi(arr[i])
    ensures Left(arr, m, i) == Left(arr, m, i + 1)
  {
    if i < m {
      SkipPasses(arr, m, i);
      JoinAt(arr, i, SkipAfterDelete(arr[i + 1..m]));
      if i + 1 == m {
        assert arr[..i + 1] + [] == arr[..m];
      }
    }
  }

  lemma SkipPasses(arr: seq<Inbound>, m: nat, i: nat)
    requires i < m <= |arr| && !IsApi(arr[i])
    ensures SkipAfterDelete(arr[i..m]) == [arr[i]] + SkipAfterDelete(arr[i + 1..m])
  {
    assert arr[i..m][1..] == arr[i + 1..m];
  }

  lemma JoinAt(arr: seq<Inbound>, i: nat, rest: seq<Inbound>)
    requires i < |arr|
    ensures arr[..i] + ([arr[i]] + rest) == arr[..i + 1] + rest
  {
  }

  lemma LeftDeleted(arr: seq<Inbound>, m: nat, i: nat)
    requires i + 1 < m <= |arr| && IsApi(arr[i])
    ensures Left(arr, m, i) == Left(Closed(arr, m, i), m - 1, i + 1)
  {
    ClosedAt(arr, m, i);
    var rest := SkipAfterDelete(arr[i + 2..m]);
    assert arr[i..m][2..] == arr[i + 2..m] && arr[i..m][1] == arr[i + 1];
    assert SkipAfterDelete(arr[i..m]) == [arr[i + 1]] + rest;
    assert arr[..i] + ([arr[i + 1]] + rest) == (arr[..i] + [arr[i + 1]]) + rest;
    if i + 2 == m {
      assert rest == [];
      assert Closed(arr, m, i)[..i + 1] + rest == Closed(arr, m, i)[..m - 1];
    }
  }

  // When the last element is no API inbound, the stale elements behind the slice are harmless.
  lemma {:induction false} SweepLastOther(arr: seq<Inbound>, m: nat, i: nat)
    requires 0 < m <= |arr| && i <= |arr| && !EndsInApi(arr)
    requires forall j :: m - 1 <= j < |arr| ==> arr[j] == arr[|arr| - 1]
    ensures Sweep(arr, m, i) == Some(Left(arr, m, i))
    decreases |arr| - i
  {
    if i < |arr| {
      if IsApi(arr[i]) {
        assert i + 1 < m;
        ClosedAt(arr, m, i);
        LeftDeleted(arr, m, i);
        SweepLastOther(Closed(arr, m, i), m - 1, i + 1);
      } else {
        LeftKept(arr, m, i);
        SweepLastOther(arr, m, i + 1);
      }
    }
  }

  // When it is one, every deletion before it makes the loop meet its stale copy and panic.
  lemma {:induction false} SweepLastApi(arr: seq<Inbound>, m: nat, i: nat)
    requires m < |arr| && i < |arr| && EndsInApi(arr)
    ensures Sweep(arr, m, i) == None
    decreases |arr| - i
  {
    if !IsApi(arr[i]) {
      SweepLastApi(arr, m, i + 1);
    } else if i + 1 <= m {
      SweepLastApi(Closed(arr, m, i), m - 1, i + 1);
    }
  }

  lemma {:induction false} SweepToFirstApi(xs: seq<Inbound>, i: nat)
    requires i < |xs| && EndsInApi(xs) && forall j :: 0 <= j < i ==> !IsApi(xs[j])
    ensures (forall j :: 0 <= j < |xs| - 1 ==> !IsApi(xs[j])) ==> Sweep(xs, |xs|, i) == Some(xs[..|xs| - 1])
    ensures (exists j :: 0 <= j < |xs| - 1 && IsApi(xs[j])) ==> Sweep(xs, |xs|, i) == None
    decreases |xs| - i
  {
    var n := |xs|;
    if !IsApi(xs[i]) {
      SweepToFirstApi(xs, i + 1);
    } else if i == n - 1 {
      assert Closed(xs, n, i) == xs;
    } else {
      SweepLastApi(Closed(xs, n, i), n - 1, i + 1);
    }
  }

  lemma ConsSame(x: Inbound, xs: seq<Inbound>, ys: seq<Inbound>)
    ensures [x] + xs == [x] + ys <==> xs == ys
  {
    assert ([x] + xs)[1..] == xs && ([x] + ys)[1..] == ys;
  }

  lemma {:induction false} SkipIsOthers(xs: seq<Inbound>)
    ensures SkipAfterDelete(xs) == Others(xs) <==> NoAdjacentApi(xs)
  {
    if xs == [] {
    } else if !IsApi(xs[0]) {
      var rest := xs[1..];
      SkipIsOthers(rest);
      AdjacentTail(xs, 1);
      ConsSame(xs[0], SkipAfterDelete(rest), Others(rest));
    } else if |xs| == 1 {
      OthersOf(xs[1..]);
    } else if IsApi(xs[1]) {
      OthersOf(xs);
      SkipShowsSecond(xs);
    } else {
      var rest := xs[2..];
      SkipIsOthers(rest);
      AdjacentTail(xs, 2);
      OthersOfPair(xs);
      ConsSame(xs[1], SkipAfterDelete(rest), Others(rest));
    }
  }

  lemma SkipShowsSecond(xs: seq<Inbound>)
    requires |xs| >= 2 && IsApi(xs[0]) && IsApi(xs[1])
    ensures !NoneApi(SkipAfterDelete(xs)) && !NoAdjacentApi(xs)
  {
    assert IsApi(SkipAfterDelete(xs)[0]);
  }

  lemma OthersOfPair(xs: seq<Inbound>)
    requires |xs| >= 2 && IsApi(xs[0]) && !IsApi(xs[1])
    ensures Others(xs) == [xs[1]] + Others(xs[2..])
    ensures SkipAfterDelete(xs) == [xs[1]] + SkipAfterDelete(xs[2..])
  {
    assert xs[1..][1..] == xs[2..];
  }

  // Cutting k elements off, the last of which is no API inbound, loses no adjacent pair.
  lemma AdjacentTail(xs: seq<Inbound>, k: nat)
    requires 1 <= k <= 2 && k <= |xs| && !IsApi(xs[k - 1])
    ensures NoAdjacentApi(xs) <==> NoAdjacentApi(xs[k..])
  {
    if NoAdjacentApi(xs[k..]) {
      forall i | 0 <= i && i + 1 < |xs| && IsApi(xs[i]) ensures !IsApi(xs[i + 1]) {
        if i >= k {
          assert IsApi(xs[k..][i - k]) && xs[k..][i - k + 1] == xs[i + 1];
        }
      }
    }
    if NoAdjacentApi(xs) {
      forall i | 0 <= i && i + 1 < |xs[k..]| && IsApi(xs[k..][i]) ensures !IsApi(xs[k..][i + 1]) {
        assert xs[k..][i] == xs[i + k] && xs[k..][i + 1] == xs[i + k + 1];
      }
    }
  }

  /** The loop panics exactly when the last inbound is an API one and another API one comes before it. */
  lemma SweepPanicsIff(xs: seq<Inbound>)
    ensures Sweep(xs, |xs|, 0) == None <==> EndsInApi(xs) && !AtMostOneApi(xs)
  {
    if xs == [] {
    } else if EndsInApi(xs) {
      SweepToFirstApi(xs, 0);
      if exists j :: 0 <= j < |xs| - 1 && IsApi(xs[j]) {
        var j :| 0 <= j < |xs| - 1 && IsApi(xs[j]);
        assert IsApi(xs[j]) && IsApi(xs[|xs| - 1]);
      }
    } else {
      SweepLastOther(xs, |xs|, 0);
    }
  }

  lemma SweepLastOtherIff(xs: seq<Inbound>)
    requires xs != [] && !EndsInApi(xs)
    ensures Sweep(xs, |xs|, 0) == Some(Others(xs)) <==> NoAdjacentApi(xs)
  {
    SweepSkips(xs);
    SkipIsOthers(xs);
  }

  lemma SweepSkips(xs: seq<Inbound>)
    requires xs != [] && !EndsInApi(xs)
    ensures Sweep(xs, |xs|, 0) == Some(SkipAfterDelete(xs))
  {
    SweepLeaves(xs, 0);
    LeftFromStart(xs);
  }

  lemma SweepLeaves(xs: seq<Inbound>, i: nat)
    requires xs != [] && i <= |xs| && !EndsInApi(xs)
    ensures Sweep(xs, |xs|, i) == Some(Left(xs, |xs|, i))
  {
    SweepLastOther(xs, |xs|, i);
  }

  lemma LeftFromStart(xs: seq<Inbound>)
    ensures Left(xs, |xs|, 0) == SkipAfterDelete(xs)
  {
    assert xs[0..|xs|] == xs;
    assert xs[..0] + SkipAfterDelete(xs) == SkipAfterDelete(xs);
  }

  lemma SweepLastApiIff(xs: seq<Inbound>)
    requires EndsInApi(xs)
    ensures Sweep(xs, |xs|, 0) == Some(Others(xs)) <==> AtMostOneApi(xs)
  {
    SweepPanicsIff(xs);
    if AtMostOneApi(xs) {
      var init, last := xs[..|xs| - 1], xs[|xs| - 1];
      SweepToFirstApi(xs, 0);
      OthersOfLastApi(init, last);
      assert xs == init + [last];
    }
  }

  lemma OthersOfLastApi(init: seq<Inbound>, last: Inbound)
    requires NoneApi(init) && IsApi(last)
    ensures Others(init + [last]) == init
  {
    OthersOf(init);
    OthersConcat(init, [last]);
    assert [last][1..] == [];
    assert init + [] == init;
  }

  /** The loop removes exactly the API inbounds, keeping all others in order, if and only if Removable holds. */
  lemma SweepIsOthersIff(xs: seq<Inbound>)
    ensures Sweep(xs, |xs|, 0) == Some(Others(xs)) <==> Removable(xs)
  {
    if xs == [] {
      assert Sweep(xs, |xs|, 0) == Some(xs[..0]);
    } else if EndsInApi(xs) {
      SweepLastApiIff(xs);
    } else {
      SweepLastOtherIff(xs);
      if AtMostOneApi(xs) {
        assert NoAdjacentApi(xs);
      }
    }
  }

  // ---------- routing rules ----------

  predicate AllMaps(rules: seq<Rule>) { forall r :: r in rules ==> r.MapRule? }

  // All rules but those that lead to the API outbound, in order.
  function OtherRules(rules: seq<Rule>): seq<Rule> {
    if rules == [] then []
    else
      var init, last := OtherRules(rules[..|rules| - 1]), rules[|rules| - 1];
      if last.MapRule? && last.outboundTag == Some(ApiTag) then init else init + [last]
  }

  ghost predicate LeadsToApi(r: Rule) { r.MapRule? && r.outboundTag == Some(ApiTag) }

  method FilterRules(rules: seq<Rule>) returns (filtered: seq<Rule>, ok: bool)
    ensures ok <==> AllMaps(rules)
    ensures filtered == if ok then OtherRules(rules) else []
  {
    filtered := [];
    for i := 0 to |rules|
      invariant AllMaps(rules[..i]) && filtered == OtherRules(rules[..i])
    {
      assert rules[..i + 1][..i] == rules[..i];
      if rules[i].OtherRule? {
        assert rules[i] in rules;
        return [], false;
      }
      if rules[i].outboundTag != Some(ApiTag) {
        filtered := filtered + [rules[i]];
      }
    }
    assert rules[..|rules|] == rules;
    ok := true;
  }

  lemma {:induction false} OtherRulesKeep(rules: seq<Rule>)
    ensures forall r :: r in OtherRules(rules) <==> r in rules && !LeadsToApi(r)
  {
    if rules != [] {
      OtherRulesKeep(rules[..|rules| - 1]);
      assert rules == rules[..|rules| - 1] + [rules[|rules| - 1]];
    }
  }

  lemma {:induction false} OtherRulesNone(rules: seq<Rule>)
    requires forall r :: r in rules ==> !LeadsToApi(r)
    ensures OtherRules(rules) == rules
  {
    if rules != [] {
      var init, last := rules[..|rules| - 1], rules[|rules| - 1];
      assert forall r :: r in init ==> r in rules;
      OtherRulesNone(init);
      assert last in rules;
      assert rules == init + [last];
    }
  }

  lemma {:induction false} OtherRulesCons(r: Rule, rules: seq<Rule>)
    ensures OtherRules([r] + rules) == (if LeadsToApi(r) then [] else [r]) + OtherRules(rules)
  {
    var all := [r] + rules;
    if rules == [] {
      assert all[..|all| - 1] == [];
    } else {
      OtherRulesCons(r, rules[..|rules| - 1]);
      assert all[..|all| - 1] == [r] + rules[..|rules| - 1];
    }
  }

  // ---------- policy ----------

  function CheckedPolicy(p: Option<Policy>): Policy {
    var levels := if p.Some? && p.value.levels.Some? then p.value.levels.value else map[];
    var level0 := if 0 in levels then levels[0].(uplink := true, downlink := true) else Level(true, true, false, "");
    var system := if p.Some? && p.value.system.Some? then p.value.system.value.(outUp := true, outDown := true)
                  else System(false, false, true, true);
    Policy(Some(levels[0 := level0]), Some(system))
  }

  // User and outbound traffic is counted.
  ghost predicate Counts(p: Policy) {
    && p.levels.Some? && 0 in p.levels.value && p.levels.value[0].uplink && p.levels.value[0].downlink
    && p.system.Some? && p.system.value.outUp && p.system.value.outDown
  }

  // Two policies differ at most in the counters that the check switches on.
  ghost predicate OnlyCountersDiffer(p: Policy, q: Policy) {
    && (p.levels.Some? && q.levels.Some? ==>
          && q.levels.value.Keys == p.levels.value.Keys + {0}
          && (forall k :: k in p.levels.value && k != 0 ==> q.levels.value[k] == p.levels.value[k])
          && (0 in p.levels.value ==>
                q.levels.value[0] == p.levels.value[0].(uplink := true, downlink := true)))
    && (p.system.Some? && q.system.Some? ==> q.system.value == p.system.value.(outUp := true, outDown := true))
  }

  /** The checked policy counts; a policy that counts is left alone; nothing else changes. */
  lemma CheckedPolicyCounts(p: Policy)
    ensures Counts(CheckedPolicy(Some(p))) && (CheckedPolicy(Some(p)) == p <==> Counts(p))
    ensures OnlyCountersDiffer(p, CheckedPolicy(Some(p)))
  {
    if Counts(p) {
      assert p.levels.value[0 := p.levels.value[0]] == p.levels.value;
    }
  }

  /** Where there was no policy, no levels, no level 0 or no system, the new part counts just that and nothing more. */
  lemma MissingPolicyCounts(p: Option<Policy>)
    ensures Counts(CheckedPolicy(p))
    ensures p.None? || p.value.levels.None? ==> CheckedPolicy(p).levels.value.Keys == {0}
    ensures p.None? || p.value.levels.None? || 0 !in p.value.levels.value ==>
              CheckedPolicy(p).levels.value[0] == Level(true, true, false, "")
    ensures p.None? || p.value.system.None? ==> CheckedPolicy(p).system.value == System(false, false, true, true)
  {
  }

  // ---------- the config ----------

  datatype Snapshot = Snapshot(inbounds: seq<Inbound>, router: Option<Router>, policy: Option<Policy>, api: Option<Api>)

  function RulesOf(router: Option<Router>): seq<Rule> { if router.Some? then router.value.rules else [] }

  // The API rule, and the rules that filterRules returns, which are none if it fails.
  function Rerouted(router: Option<Router>): Router {
    var rules := RulesOf(router);
    Router([ApiRule()] + (if AllMaps(rules) then OtherRules(rules) else []),
           if router.Some? then router.value.rest else "")
  }

  // ApplyAPI on the parts of a config it touches; None is the panic of the deletion loop.
  function Applied(c: Snapshot, port: int): Option<Snapshot> {
    var swept := Sweep(c.inbounds, |c.inbounds|, 0);
    if swept.None? then None
    else Some(Snapshot([ApiInbound(port)] + swept.value, Some(Rerouted(c.router)), Some(CheckedPolicy(c.policy)),
                       Some(ApiSection())))
  }

  class Config {
    var inbounds: array<Inbound>
    var count: nat
    var router: Option<Router>
    var policy: Option<Policy>
    var api: Option<Api>

    ghost predicate Valid()
      reads this
    {
      count <= inbounds.Length
    }

    ghost function State(): Snapshot
      requires Valid()
      reads this, inbounds
    {
      Snapshot(inbounds[..count], router, policy, api)
    }

    constructor (list: seq<Inbound>, router: Option<Router>, policy: Option<Policy>, api: Option<Api>)
      ensures Valid() && State() == Snapshot(list, router, policy, api) && fresh(inbounds)
    {
      inbounds := new Inbound[|list|](i requires 0 <= i < |list| => list[i]);
      count := |list|;
      this.router, this.policy, this.api := router, policy, api;
    }

    // The deletion loop; `panicked` if the source would slice out of range.
    method RemoveApiInbounds() returns (panicked: bool)
      requires Valid()
      modifies `count, inbounds
      ensures Valid()
      ensures var swept := Sweep(old(inbounds[..count]), old(count), 0);
              && (panicked <==> swept.None?)
              && (!panicked ==> inbounds[..count] == swept.value)
    {
      var n := count;
      ghost var swept := Sweep(inbounds[..n], count, 0);
      for i := 0 to n
        invariant count <= n <= inbounds.Length
        invariant Sweep(inbounds[..n], count, i) == swept
      {
        panicked := SweepOnce(n, i);
        if panicked {
          return;
        }
      }
      SweepEnds(inbounds[..n], count);
      assert inbounds[..n][..count] == inbounds[..count];
      return false;
    }

    // One round of the loop.
    method SweepOnce(n: nat, i: nat) returns (panicked: bool)
      requires i < n && count <= n <= inbounds.Length
      modifies `count, inbounds
      ensures count <= n
      ensures panicked ==> Sweep(old(inbounds[..n]), old(count), i) == None
      ensures !panicked ==> Sweep(inbounds[..n], count, i + 1) == Sweep(old(inbounds[..n]), old(count), i)
    {
      ghost var arr, m := inbounds[..n], count;
      assert arr[i] == inbounds[i];
      if IsApi(inbounds[i]) {
        if i + 1 > count {
          return true;
        }
        CloseGap(n, i);
        count := count - 1;
      }
      return false;
    }

    // append(s[:x], s[x+1:]...) on the slice of the config: the tail moves one place down.
    method CloseGap(n: nat, x: nat)
      requires x < count <= n <= inbounds.Length
      modifies inbounds
      ensures inbounds[..n] == Closed(old(inbounds[..n]), count, x)
    {
      for j := x to count - 1
        invariant forall i :: 0 <= i < x ==> inbounds[i] == old(inbounds[i])
        invariant forall i :: x <= i < j ==> inbounds[i] == old(inbounds[i + 1])
        invariant forall i :: j <= i < inbounds.Length ==> inbounds[i] == old(inbounds[i])
      {
        inbounds[j] := inbounds[j + 1];
      }
      ghost var next := Closed(old(inbounds[..n]), count, x);
      ClosedElements(old(inbounds[..n]), count, x);
      assert forall i :: 0 <= i < n ==> inbounds[..n][i] == next[i];
    }

    method CheckPolicy()
      modifies `policy
      ensures policy == Some(CheckedPolicy(old(policy)))
    {
      var levels: map<nat, Level> := map[];
      if policy.Some? && policy.value.levels.Some? {
        levels := policy.value.levels.value;
      }
      if 0 in levels {
        levels := levels[0 := levels[0].(uplink := true, downlink := true)];
      } else {
        levels := levels[0 := Level(true, true, false, "")];
      }
      var system := System(false, false, true, true);
      if policy.Some? && policy.value.system.Some? {
        system := policy.value.system.value.(outUp := true, outDown := true);
      }
      policy := Some(Policy(Some(levels), Some(system)));
    }

    method ApplyAPI(port: int) returns (panicked: bool)
      requires Valid()
      modifies this, inbounds
      ensures Valid()
      ensures panicked <==> Applied(old(State()), port).None?
      ensures !panicked ==> Applied(old(State()), port) == Some(State())
    {
      panicked := RemoveApiInbounds();
      if panicked {
        return;
      }
      api := Some(ApiSection());
      Reroute();
      CheckPolicy();
      Prepend(ApiInbound(port));
    }

    method Reroute()
      modifies `router
      ensures router == Some(Rerouted(old(router)))
    {
      if router.None? {
        router := Some(Router([], ""));
      }
      // the error is overwritten before it is looked at
      var rules, _ := FilterRules(router.value.rules);
      router := Some(Router([ApiRule()] + rules, router.value.rest));
    }

    // append([]*Inbound{first}, inbounds...)
    method Prepend(first: Inbound)
      requires Valid()
      modifies `inbounds, `count
      ensures Valid() && inbounds[..count] == [first] + old(inbounds[..count])
    {
      var source, n := inbounds, count;
      var list := new Inbound[n + 1](_ => first);
      for i := 0 to n
        invariant list[0] == first
        invariant forall j :: 0 <= j < i ==> list[j + 1] == source[j]
      {
        list[i + 1] := source[i];
      }
      inbounds, count := list, n + 1;
    }
  }

  // ---------- what ApplyAPI achieves ----------

  // The node reaches the core through this inbound, on this port of the local host.
  ghost predicate ListensForNode(i: Inbound, port: int) {
    && i.tag == ApiTag && i.listen == "127.0.0.1" && i.port == port
    && i.protocol == "dokodemo-door" && i.address == Some("127.0.0.1") && i.rest == ""
  }

  // What comes in there from the local host goes to the API.
  ghost predicate RoutesToApi(r: Rule) {
    && r.MapRule? && r.outboundTag == Some(ApiTag) && r.inboundTags == [ApiTag] && r.sources == ["127.0.0.1"]
    && r.kind == Some("field") && r.rest == ""
  }

  // The API offers what the node asks for.
  ghost predicate OffersServices(a: Api) {
    a.tag == ApiTag && a.services == ["HandlerService", "LoggerService", "StatsService"]
  }

  lemma ApiInboundListens(port: int)
    ensures ListensForNode(ApiInbound(port), port)
  {
  }

  lemma ApiRuleRoutes()
    ensures RoutesToApi(ApiRule())
  {
  }

  lemma ApiSectionOffers()
    ensures OffersServices(ApiSection())
  {
  }

  // The API inbound at the head, and all other inbounds as before, in order.
  ghost predicate InboundsSettled(before: seq<Inbound>, after: seq<Inbound>, port: int) {
    after != [] && ListensForNode(after[0], port) && after[1..] == Others(before)
  }

  // The rule to the API at the head and no other such rule; the rest of the section as before.
  ghost predicate RouterSettled(before: Option<Router>, after: Option<Router>) {
    && after.Some? && after.value.rules != [] && RoutesToApi(after.value.rules[0])
    && (forall i :: 1 <= i < |after.value.rules| ==> !LeadsToApi(after.value.rules[i]))
    && after.value.rest == if before.Some? then before.value.rest else ""
  }

  // The needed counters are on, and the policy is otherwise as before.
  ghost predicate PolicySettled(before: Option<Policy>, after: Option<Policy>) {
    after.Some? && Counts(after.value) && (before.Some? ==> OnlyCountersDiffer(before.value, after.value))
  }

  ghost predicate Settled(before: Snapshot, after: Snapshot, port: int) {
    && InboundsSettled(before.inbounds, after.inbounds, port)
    && RouterSettled(before.router, after.router)
    && PolicySettled(before.policy, after.policy)
    && after.api.Some? && OffersServices(after.api.value)
  }

  lemma KeptRules(rules: seq<Rule>, kept: seq<Rule>)
    requires kept == if AllMaps(rules) then OtherRules(rules) else []
    ensures AllMaps(kept) && forall r :: r in kept ==> !LeadsToApi(r)
    ensures OtherRules([ApiRule()] + kept) == kept
    ensures AllMaps([ApiRule()] + kept)
  {
    OtherRulesKeep(rules);
    OtherRulesNone(kept);
    OtherRulesCons(ApiRule(), kept);
  }

  // The rules are settled after one application, and a second one leaves them as they are.
  lemma RulesStay(router: Option<Router>)
    ensures RouterSettled(router, Some(Rerouted(router)))
    ensures Rerouted(Some(Rerouted(router))) == Rerouted(router)
  {
    var kept := Rerouted(router).rules[1..];
    KeptRules(RulesOf(router), kept);
    ApiRuleRoutes();
    assert Rerouted(router).rules == [ApiRule()] + kept;
  }

  // So is the policy.
  lemma PolicyStays(p: Option<Policy>)
    ensures PolicySettled(p, Some(CheckedPolicy(p))) && CheckedPolicy(Some(CheckedPolicy(p))) == CheckedPolicy(p)
  {
    MissingPolicyCounts(p);
    if p.Some? {
      CheckedPolicyCounts(p.value);
    }
    CheckedPolicyCounts(CheckedPolicy(p));
  }

  // Whatever the inbounds, the other sections are settled, and a second application leaves them as they are.
  lemma OtherSectionsStay(c: Snapshot, port: int)
    requires Applied(c, port).Some?
    ensures var once := Applied(c, port).value;
            && RouterSettled(c.router, once.router) && PolicySettled(c.policy, once.policy)
            && once.api.Some? && OffersServices(once.api.value)
            && (Applied(once, port).Some? ==>
                  && Applied(once, port).value.router == once.router
                  && Applied(once, port).value.policy == once.policy
                  && Applied(once, port).value.api == once.api)
  {
    RulesStay(c.router);
    PolicyStays(c.policy);
    ApiSectionOffers();
  }

  // So are the inbounds, if the loop removes the API ones among them.
  lemma InboundsSettledIff(c: Snapshot, port: int)
    requires Applied(c, port).Some?
    ensures InboundsSettled(c.inbounds, Applied(c, port).value.inbounds, port) <==>
            Sweep(c.inbounds, |c.inbounds|, 0) == Some(Others(c.inbounds))
  {
    var swept := Sweep(c.inbounds, |c.inbounds|, 0).value;
    ApiInboundListens(port);
    assert ([ApiInbound(port)] + swept)[1..] == swept;
  }

  // Removable inbounds: the second application finds what the first has left.
  lemma RemovableSettles(c: Snapshot, port: int)
    requires Removable(c.inbounds)
    ensures Applied(c, port).Some? && Settled(c, Applied(c, port).value, port)
    ensures Applied(Applied(c, port).value, port) == Applied(c, port)
  {
    SweepIsOthersIff(c.inbounds);
    OtherSectionsStay(c, port);
    InboundsSettledIff(c, port);
    OthersOf(c.inbounds);
    SweepAgain(Others(c.inbounds), port);
  }

  /**
   ApplyAPI settles a config for the node's own use, and applying it again changes nothing, exactly when its inbounds
   are Removable.
   */
  lemma ApplySettlesIff(c: Snapshot, port: int)
    ensures Removable(c.inbounds) <==>
              var once := Applied(c, port);
              once.Some? && Settled(c, once.value, port) && Applied(once.value, port) == once
  {
    if Removable(c.inbounds) {
      RemovableSettles(c, port);
    } else if Applied(c, port).Some? && Settled(c, Applied(c, port).value, port) {
      InboundsSettledIff(c, port);
      SweepIsOthersIff(c.inbounds);
    }
  }

  /** Whatever the inbounds: unless it panics, ApplyAPI gives the node its inbound, its rule and its services. */
  lemma ApiIsThere(c: Snapshot, port: int)
    requires Applied(c, port).Some?
    ensures var once := Applied(c, port).value;
            && once.inbounds != [] && ListensForNode(once.inbounds[0], port)
            && RouterSettled(c.router, once.router) && PolicySettled(c.policy, once.policy)
            && once.api.Some? && OffersServices(once.api.value)
  {
    ApiInboundListens(port);
    OtherSectionsStay(c, port);
  }

  lemma SweepAgain(others: seq<Inbound>, port: int)
    requires NoneApi(others)
    ensures var xs := [ApiInbound(port)] + others; Sweep(xs, |xs|, 0) == Some(others)
  {
    var xs := [ApiInbound(port)] + others;
    SweepIsOthersIff(xs);
    assert xs[1..] == others;
    OthersOf(others);
    assert AtMostOneApi(xs);
  }

  /** The rules that do not lead to the API are kept, in order, exactly when every rule is an object or null. */
  lemma RulesKeptIff(c: Snapshot, port: int)
    requires c.router.Some? && Applied(c, port).Some?
    ensures Applied(c, port).value.router.value.rules[1..] == OtherRules(c.router.value.rules)
            <==> AllMaps(c.router.value.rules)
  {
    var rules := c.router.value.rules;
    OtherRulesKeep(rules);
    assert Rerouted(c.router).rules[1..] == if AllMaps(rules) then OtherRules(rules) else [];
    if !AllMaps(rules) {
      var r :| r in rules && r.OtherRule?;
      assert r in OtherRules(rules);
    }
  }

  /** Two API inbounds around another one make ApplyAPI panic; two next to each other leave one behind. */
  lemma TwoApiInboundsFail(a: Inbound, other: Inbound)
    requires IsApi(a) && !IsApi(other)
    ensures Sweep([a, other, a], 3, 0) == None
    ensures Sweep([a, a, other], 3, 0) == Some([a, other])
  {
    var xs, ys := [a, other, a], [a, a, other];
    assert IsApi(xs[0]) && IsApi(xs[2]);
    SweepPanicsIff(xs);
    SweepSkips(ys);
    SkipLeavesSecond(a, other);
  }

  lemma SkipLeavesSecond(a: Inbound, other: Inbound)
    requires IsApi(a) && !IsApi(other)
    ensures SkipAfterDelete([a, a, other]) == [a, other]
  {
    assert [a, a, other][2..] == [other];
    assert [other][1..] == [];
    assert SkipAfterDelete([other]) == [other] + SkipAfterDelete([]);
  }
}
