/** Budgets of one shadow run, and how the cache fills up over runs on the same evidence. */
module ShadowRuns {
  import opened Outcomes
  import opened Shadow

  // ----- Budgets

  /** `count` requests at the configured price. */
  function Price(count: int, perCall: real): real {
    count as real * perCall
  }

  lemma PriceStep(count: int, perCall: real)
    ensures Price(count + 1, perCall) == Price(count, perCall) + perCall && Price(0, perCall) == 0.0
  {
  }

  datatype Kind = Hits | Abstentions | Answers | Requests

  predicate Is(outcome: Outcome, kind: Kind) {
    match kind
    case Hits => outcome.FromCache?
    case Abstentions => outcome.Abstained?
    case Answers => outcome.FromProvider?
    case Requests => outcome.FromProvider? || outcome == Abstained(ProviderFailure)
  }

  function CountOf(outcomes: seq<(Role, Outcome)>, kind: Kind): (n: nat)
    ensures n <= |outcomes|
  {
    if outcomes == [] then 0
    else CountOf(outcomes[..|outcomes| - 1], kind) + if Is(outcomes[|outcomes| - 1].1, kind) then 1 else 0
  }

  /** The cost is the price of the calls, and both budgets are kept. */
  ghost predicate Affords(s: Setting, r: Report) {
    && r.cost == Price(r.calls, s.config.perCall)
    && (if s.config.live then r.calls <= s.config.maxCalls && r.cost <= s.config.maxCost else r.calls == 0)
  }

  /** Counters agree with the outcomes, one per role in order, and both budgets are kept. */
  ghost predicate Accounted(s: Setting, r: Report, roles: seq<Role>) {
    && |r.roles| == |roles| && (forall i :: 0 <= i < |roles| ==> r.roles[i].0 == roles[i])
    && r.hits == CountOf(r.roles, Hits)
    && r.abstentions == CountOf(r.roles, Abstentions)
    && r.calls == CountOf(r.roles, Requests)
    && Affords(s, r)
  }

  lemma CountAppended(outcomes: seq<(Role, Outcome)>, last: (Role, Outcome), kind: Kind)
    ensures CountOf(outcomes + [last], kind) == CountOf(outcomes, kind) + if Is(last.1, kind) then 1 else 0
  {
    assert (outcomes + [last])[..|outcomes|] == outcomes;
  }

  /** What one role may add to the counters, given how it ended. */
  ghost predicate Adds(r: Report, next: Report, role: Role, outcome: Outcome) {
    && next.roles == r.roles + [(role, outcome)]
    && next.hits == r.hits + (if Is(outcome, Hits) then 1 else 0)
    && next.abstentions == r.abstentions + (if Is(outcome, Abstentions) then 1 else 0)
    && next.calls == r.calls + (if Is(outcome, Requests) then 1 else 0)
  }

  lemma AddsAccounted(s: Setting, r: Report, next: Report, roles: seq<Role>, role: Role, outcome: Outcome)
    requires Accounted(s, r, roles) && Adds(r, next, role, outcome) && Affords(s, next)
    ensures Accounted(s, next, roles + [role])
  {
    hide CountOf, Is, Price;
    CountAppended(r.roles, (role, outcome), Hits);
    CountAppended(r.roles, (role, outcome), Abstentions);
    CountAppended(r.roles, (role, outcome), Requests);
  }

  lemma AccountedAffords(s: Setting, r: Report, roles: seq<Role>)
    requires Accounted(s, r, roles)
    ensures Affords(s, r)
  {
  }

  /** A role that asks nobody leaves calls and cost alone. */
  lemma UnaskedAccounted(s: Setting, r: Report, cache: Cache, roles: seq<Role>, role: Role)
    requires Accounted(s, r, roles)
    requires ReadCache(cache, KeyOf(s, role)).Some? || !s.config.live || r.calls >= s.config.maxCalls
      || r.cost + s.config.perCall > s.config.maxCost
    ensures Accounted(s, Step(s, r, cache, role).0, roles + [role])
  {
    hide CountOf, Price, ReadCache, Accounted;
    var next := Step(s, r, cache, role).0;
    AccountedAffords(s, r, roles);
    AddsAccounted(s, r, next, roles, role, next.roles[|r.roles|].1);
  }

  /** A request is counted and paid for however it ends. */
  lemma AskedAccounted(s: Setting, r: Report, cache: Cache, roles: seq<Role>, role: Role)
    requires Accounted(s, r, roles) && ReadCache(cache, KeyOf(s, role)).None? && s.config.live
    requires r.calls < s.config.maxCalls && r.cost + s.config.perCall <= s.config.maxCost
    ensures Accounted(s, Step(s, r, cache, role).0, roles + [role])
  {
    hide CountOf, Price, ReadCache, Accounted, Ask;
    var next := Step(s, r, cache, role).0;
    PriceStep(r.calls, s.config.perCall);
    AccountedAffords(s, r, roles);
    AddsAccounted(s, r, next, roles, role, next.roles[|r.roles|].1);
  }

  lemma StepAccounted(s: Setting, r: Report, cache: Cache, roles: seq<Role>, role: Role)
    requires Valid(s.config) && Accounted(s, r, roles)
    ensures Accounted(s, Step(s, r, cache, role).0, roles + [role])
  {
    hide Accounted, Step, ReadCache;
    if ReadCache(cache, KeyOf(s, role)).None? && s.config.live && r.calls < s.config.maxCalls
      && r.cost + s.config.perCall <= s.config.maxCost
    {
      AskedAccounted(s, r, cache, roles, role);
    } else {
      UnaskedAccounted(s, r, cache, roles, role);
    }
  }

  lemma {:induction false} StepsAccounted(s: Setting, cache: Cache, roles: seq<Role>)
    requires Valid(s.config)
    ensures Accounted(s, Steps(s, cache, roles).0, roles)
  {
    hide Step;
    if roles == [] {
      PriceStep(0, s.config.perCall);
    } else {
      var front, last := roles[..|roles| - 1], roles[|roles| - 1];
      StepsAccounted(s, cache, front);
      var (r, after) := Steps(s, cache, front);
      StepAccounted(s, r, after, front, last);
      assert front + [last] == roles;
    }
  }

  lemma {:induction false} OthersDistinct(roles: seq<Role>)
    requires Distinct(roles)
    ensures Distinct(Others(roles))
  {
    if roles != [] {
      OthersDistinct(roles[1..]);
      assert roles[0] !in roles[1..];
      assert roles[0] !in Others(roles[1..]);
    }
  }

  lemma OrderedDistinct(roles: seq<Role>)
    requires Distinct(roles)
    ensures Distinct(Ordered(roles)) && forall x :: x in Ordered(roles) <==> x in roles
  {
    OthersDistinct(roles);
  }

  /** In every run each configured role ends as exactly one of cached, answered or abstained,
      the counters say how many of each there are, and calls and cost stay within budget. */
  lemma RunIsAccounted(s: Setting, cache: Cache)
    requires Valid(s.config)
    ensures var r := Run(s, cache).0;
      var roles := if s.config.enabled then Ordered(s.config.roles) else [];
      && Accounted(s, r, roles) && Distinct(roles)
      && (forall x :: x in roles <==> s.config.enabled && x in s.config.roles)
      && r.hits + r.abstentions + CountOf(r.roles, Answers) == |roles|
  {
    OrderedDistinct(s.config.roles);
    if s.config.enabled {
      StepsAccounted(s, cache, Ordered(s.config.roles));
    } else {
      StepsAccounted(s, cache, []);
    }
    Partitioned(Run(s, cache).0.roles);
  }

  lemma {:induction false} Partitioned(outcomes: seq<(Role, Outcome)>)
    ensures CountOf(outcomes, Hits) + CountOf(outcomes, Abstentions) + CountOf(outcomes, Answers) == |outcomes|
  {
    if outcomes != [] { Partitioned(outcomes[..|outcomes| - 1]); }
  }

  // ----- The cache

  /** A readable cache file is never changed, and only files of this evidence are written. */
  lemma {:induction false} CacheOnlyGrows(s: Setting, cache: Cache, roles: seq<Role>)
    ensures var after := Steps(s, cache, roles).1;
      && (forall key :: ReadCache(cache, key).Some? ==> ReadCache(after, key) == ReadCache(cache, key))
      && (forall key: Key :: key.role !in roles || key.evidence != s.evidence || key.model != s.model ==>
            ReadCache(after, key) == ReadCache(cache, key))
  {
    if roles != [] { CacheOnlyGrows(s, cache, roles[..|roles| - 1]); }
  }

  function Runs(c: Config, model: string, evidence: string, providers: seq<Provider>, cache: Cache): Cache {
    if providers == [] then cache
    else
      var before := Runs(c, model, evidence, providers[..|providers| - 1], cache);
      Run(Setting(c, model, evidence, providers[|providers| - 1]), before).1
  }

  /** Once an answer is cached it is final: every later run on the evidence returns it, even
      when the committee's answer was given while specialists failed that answer later. */
  lemma {:induction false} CachedAnswersAreFinal(c: Config, model: string, evidence: string, providers: seq<Provider>, cache: Cache, role: Role)
    requires ReadCache(cache, Key(role, evidence, model)).Some?
    ensures ReadCache(Runs(c, model, evidence, providers, cache), Key(role, evidence, model)) == ReadCache(cache, Key(role, evidence, model))
  {
    if providers != [] {
      var front := providers[..|providers| - 1];
      CachedAnswersAreFinal(c, model, evidence, front, cache, role);
      CacheOnlyGrows(Setting(c, model, evidence, providers[|providers| - 1]), Runs(c, model, evidence, front, cache), Ordered(c.roles));
    }
  }

  // ----- Progress

  /** How many requests one run can afford. */
  function Affordable(c: Config): int
    requires c.live ==> c.perCall > 0.0
  {
    if !c.live then 0 else Min(c.maxCalls, (c.maxCost / c.perCall).Floor)
  }

  function Min(a: int, b: int): int {
    if a <= b then a else b
  }

  function Max(a: int, b: int): int {
    if a <= b then b else a
  }

  lemma AffordableMeans(c: Config, calls: nat)
    requires Valid(c) && c.live
    ensures Affordable(c) >= 0
    ensures calls < Affordable(c) <==> calls < c.maxCalls && Price(calls, c.perCall) + c.perCall <= c.maxCost
  {
    hide Price;
    var ratio := c.maxCost / c.perCall;
    PriceStep(calls, c.perCall);
    PriceCompare(calls + 1, ratio, c.maxCost, c.perCall);
  }

  lemma PriceCompare(count: nat, ratio: real, total: real, perCall: real)
    requires perCall > 0.0 && total > 0.0 && ratio == total / perCall
    ensures ratio >= 0.0
    ensures count <= ratio.Floor <==> Price(count, perCall) <= total
  {
    assert ratio * perCall == total;
    assert count <= ratio.Floor <==> count as real <= ratio;
    if count as real <= ratio {
      Scale(count as real, ratio, perCall);
    } else {
      ScaleStrict(ratio, count as real, perCall);
    }
  }

  lemma Scale(a: real, b: real, k: real)
    requires a <= b && k > 0.0
    ensures a * k <= b * k
  {
  }

  lemma ScaleStrict(a: real, b: real, k: real)
    requires a < b && k > 0.0
    ensures a * k < b * k
  {
  }

  /** How many of the roles have no readable answer. */
  function Missing(roles: seq<Role>, cache: Cache, model: string, evidence: string): (n: nat)
    ensures n <= |roles|
  {
    if roles == [] then 0
    else
      Missing(roles[..|roles| - 1], cache, model, evidence)
        + if ReadCache(cache, Key(roles[|roles| - 1], evidence, model)).Some? then 0 else 1
  }

  lemma {:induction false} MissingDepends(roles: seq<Role>, a: Cache, b: Cache, model: string, evidence: string)
    requires forall role :: role in roles ==> ReadCache(a, Key(role, evidence, model)) == ReadCache(b, Key(role, evidence, model))
    ensures Missing(roles, a, model, evidence) == Missing(roles, b, model, evidence)
  {
    if roles != [] { MissingDepends(roles[..|roles| - 1], a, b, model, evidence); }
  }

  /** A provider that answers every request on this evidence, with answers that can be cached. */
  ghost predicate Reliable(provider: Provider, evidence: string) {
    forall role, opinions :: provider(role, evidence, opinions).Answer? && provider(role, evidence, opinions).cacheable
  }

  /** A run spends its affordable requests on the missing roles, and each request fills one. */
  lemma {:induction false} StepsProgress(s: Setting, cache: Cache, roles: seq<Role>)
    requires Valid(s.config) && s.config.live && Reliable(s.provider, s.evidence) && Distinct(roles)
    ensures var (r, after) := Steps(s, cache, roles);
      var missing := Missing(roles, cache, s.model, s.evidence);
      && r.calls == Min(Affordable(s.config), missing)
      && Missing(roles, after, s.model, s.evidence) == missing - r.calls
  {
    hide Step, Missing, Reliable, Affordable;
    AffordableMeans(s.config, 0);
    MissingNone(cache, s.model, s.evidence);
    if roles != [] {
      var front, last := roles[..|roles| - 1], roles[|roles| - 1];
      StepsProgress(s, cache, front);
      StepsAccounted(s, cache, front);
      CacheOnlyGrows(s, cache, front);
      var (r, before) := Steps(s, cache, front);
      var after := Step(s, r, before, last).1;
      assert front + [last] == roles && last !in front;
      assert ReadCache(before, KeyOf(s, last)) == ReadCache(cache, KeyOf(s, last));
      StepLeavesOthers(s, r, before, last, front);
      MissingDepends(front, before, after, s.model, s.evidence);
      MissingLast(front, last, cache, s.model, s.evidence);
      MissingLast(front, last, after, s.model, s.evidence);
      LastStep(s, r, before, last);
    }
  }

  lemma MissingNone(cache: Cache, model: string, evidence: string)
    ensures Missing([], cache, model, evidence) == 0
  {
  }

  lemma MissingLast(front: seq<Role>, last: Role, cache: Cache, model: string, evidence: string)
    ensures Missing(front + [last], cache, model, evidence)
      == Missing(front, cache, model, evidence) + if ReadCache(cache, Key(last, evidence, model)).Some? then 0 else 1
  {
    assert (front + [last])[..|front|] == front;
  }

  lemma StepLeavesOthers(s: Setting, r: Report, cache: Cache, role: Role, others: seq<Role>)
    requires role !in others
    ensures forall other :: other in others ==>
      ReadCache(Step(s, r, cache, role).1, Key(other, s.evidence, s.model)) == ReadCache(cache, Key(other, s.evidence, s.model))
  {
    hide Opinions;
  }

  /** With a reliable provider, a missing role is answered exactly when a request is affordable. */
  lemma LastStep(s: Setting, r: Report, cache: Cache, role: Role)
    requires Valid(s.config) && s.config.live && Reliable(s.provider, s.evidence)
    requires r.calls >= 0 && r.cost == Price(r.calls, s.config.perCall)
    ensures var (next, after) := Step(s, r, cache, role);
      var cached := ReadCache(cache, KeyOf(s, role)).Some?;
      && next.calls == r.calls + (if !cached && r.calls < Affordable(s.config) then 1 else 0)
      && (ReadCache(after, KeyOf(s, role)).Some? <==> cached || r.calls < Affordable(s.config))
  {
    hide Opinions, Price;
    AffordableMeans(s.config, r.calls);
    var reply := Ask(s, r, role);
    assert reply.Answer? && reply.cacheable;
  }

  /** After t runs with reliable providers, t times the affordable number of requests have
      been spent on missing roles, and not one request more than there were missing roles. */
  lemma {:induction false} RunsProgress(c: Config, model: string, evidence: string, providers: seq<Provider>, cache: Cache)
    requires Valid(c) && c.live && forall i :: 0 <= i < |providers| ==> Reliable(providers[i], evidence)
    ensures var roles := Ordered(c.roles);
      Missing(roles, Runs(c, model, evidence, providers, cache), model, evidence)
        == Max(0, Missing(roles, cache, model, evidence) - Times(|providers|, Affordable(c)))
  {
    hide Steps, Reliable, Missing;
    if providers == [] {
      assert Times(0, Affordable(c)) == 0;
    } else {
      var n := |providers| - 1;
      var before := Runs(c, model, evidence, providers[..n], cache);
      RunsProgress(c, model, evidence, providers[..n], cache);
      OrderedDistinct(c.roles);
      StepsProgress(Setting(c, model, evidence, providers[n]), before, Ordered(c.roles));
      AffordableMeans(c, 0);
      TimesStep(n, Affordable(c));
    }
  }

  function Times(runs: nat, calls: int): int {
    runs * calls
  }

  lemma TimesStep(runs: nat, calls: int)
    ensures Times(runs + 1, calls) == Times(runs, calls) + calls
  {
  }

  /** With b affordable calls a run, n roles are all cached after ceil(n / b) runs, and the
      next run makes no call and answers every role from the cache. */
  lemma AllCachedInTime(c: Config, model: string, evidence: string, providers: seq<Provider>, cache: Cache, next: Provider)
    requires Valid(c) && c.live && forall i :: 0 <= i < |providers| ==> Reliable(providers[i], evidence)
    requires Affordable(c) >= 1 && |providers| == (|Ordered(c.roles)| + Affordable(c) - 1) / Affordable(c)
    ensures var after := Runs(c, model, evidence, providers, cache);
      var r := Run(Setting(c, model, evidence, next), after).0;
      && Missing(Ordered(c.roles), after, model, evidence) == 0
      && r.calls == 0 && r.cost == 0.0 && r.hits == |Ordered(c.roles)|
  {
    hide Steps, Ordered, Affordable;
    var roles, after := Ordered(c.roles), Runs(c, model, evidence, providers, cache);
    RunsProgress(c, model, evidence, providers, cache);
    CeilCovers(|roles|, Affordable(c));
    NothingMissing(Setting(c, model, evidence, next), after, roles);
  }

  lemma CeilCovers(n: nat, b: int)
    requires b >= 1
    ensures Times((n + b - 1) / b, b) >= n
  {
    var q, r := (n + b - 1) / b, (n + b - 1) % b;
    assert n + b - 1 == q * b + r;
  }

  /** A run with nothing missing asks nobody, whatever the provider would do. */
  lemma {:induction false} NothingMissing(s: Setting, cache: Cache, roles: seq<Role>)
    requires Missing(roles, cache, s.model, s.evidence) == 0
    ensures var (r, after) := Steps(s, cache, roles);
      r.calls == 0 && r.cost == 0.0 && r.hits == |roles| && after == cache
  {
    if roles != [] { NothingMissing(s, cache, roles[..|roles| - 1]); }
  }

  // ----- The committee

  /** Whether the budgets still allow a request. */
  predicate CanAsk(s: Setting, r: Report) {
    s.config.live && r.calls < s.config.maxCalls && r.cost + s.config.perCall <= s.config.maxCost
  }

  /** If a request is still allowed, no role so far was turned away: each is cached, answered,
      or its own request failed. */
  lemma {:induction false} NobodyTurnedAway(s: Setting, cache: Cache, roles: seq<Role>)
    requires Valid(s.config) && CanAsk(s, Steps(s, cache, roles).0)
    ensures forall outcome :: outcome in Steps(s, cache, roles).0.roles && outcome.1.Abstained? ==> outcome.1.reason == ProviderFailure
  {
    if roles != [] {
      NobodyTurnedAway(s, cache, roles[..|roles| - 1]);
    }
  }

  /** The committee is only asked when no specialist was turned away, and then it is shown the
      answers of all specialists but those whose request failed or that abstain themselves. */
  lemma CommitteeSeesTheDesks(s: Setting, cache: Cache)
    requires Valid(s.config) && s.config.enabled && InvestmentCommittee in s.config.roles
    requires var r := Run(s, cache).0; r.roles != [] && Is(r.roles[|r.roles| - 1].1, Requests)
    ensures var (r, before) := Steps(s, cache, Others(s.config.roles));
      && Run(s, cache).0 == Step(s, r, before, InvestmentCommittee).0
      && Ask(s, r, InvestmentCommittee) == s.provider(InvestmentCommittee, s.evidence, Opinions(r.roles))
      && (forall outcome :: outcome in r.roles && outcome.1.Abstained? ==> outcome.1.reason == ProviderFailure)
  {
    hide Opinions;
    var desks, roles := Others(s.config.roles), Ordered(s.config.roles);
    assert roles == desks + [InvestmentCommittee] && roles[..|roles| - 1] == desks;
    assert CanAsk(s, Steps(s, cache, desks).0);
    NobodyTurnedAway(s, cache, desks);
  }

  // ----- Whose answer is reported

  /** Payloads shown to the committee: those of the outcomes at `at`, in order, which are all
      that neither abstained nor carry an abstaining payload. */
  ghost predicate ShownAt(outcomes: seq<(Role, Outcome)>, at: seq<nat>, shown: seq<Payload>) {
    && |shown| == |at|
    && (forall k :: 0 <= k < |at| ==> at[k] < |outcomes| && Counts(outcomes[at[k]].1) && shown[k] == outcomes[at[k]].1.payload)
    && (forall k, l :: 0 <= k < l < |at| ==> at[k] < at[l])
    && (forall i :: 0 <= i < |outcomes| && Counts(outcomes[i].1) ==> i in at)
  }

  /** An answer from the cache or the provider that is not itself an abstention. */
  ghost predicate Counts(outcome: Outcome)
    ensures Counts(outcome) ==> !outcome.Abstained?
  {
    match outcome
    case FromCache(payload) => !payload.abstains
    case FromProvider(payload) => !payload.abstains
    case Abstained(_) => false
  }

  lemma {:induction false} OpinionsAre(outcomes: seq<(Role, Outcome)>) returns (at: seq<nat>)
    ensures ShownAt(outcomes, at, Opinions(outcomes))
  {
    if outcomes == [] {
      at := [];
    } else {
      hide ShownAt, Counts;
      var n := |outcomes| - 1;
      var before := OpinionsAre(outcomes[..n]);
      CountsIff(outcomes[n].1);
      at := if Counts(outcomes[n].1) then before + [n] else before;
      OneMoreShown(outcomes, before, Opinions(outcomes[..n]));
    }
  }

  lemma CountsIff(outcome: Outcome)
    ensures Counts(outcome) <==> !outcome.Abstained? && !outcome.payload.abstains
  {
  }

  lemma OneMoreShown(outcomes: seq<(Role, Outcome)>, at: seq<nat>, shown: seq<Payload>)
    requires outcomes != [] && ShownAt(outcomes[..|outcomes| - 1], at, shown)
    ensures var last := outcomes[|outcomes| - 1].1;
      if Counts(last) then ShownAt(outcomes, at + [|outcomes| - 1], shown + [last.payload]) else ShownAt(outcomes, at, shown)
  {
    hide Counts;
    var n := |outcomes| - 1;
    assert forall i :: 0 <= i < n ==> outcomes[..n][i] == outcomes[i];
    if Counts(outcomes[n].1) {
      var longer: seq<nat> := at + [n];
      forall i | 0 <= i < |outcomes| && Counts(outcomes[i].1) ensures i in longer {
        if i < n {
          assert i in at;
        } else {
          assert longer[|at|] == i;
        }
      }
    }
  }

  ghost predicate Allowed(s: Setting, r: Report) {
    s.config.live && r.calls < s.config.maxCalls && r.cost + s.config.perCall <= s.config.maxCost
  }

  /** What one role ends with. A readable file of its key is reported as it is, and nobody is
      asked. Otherwise, if live calls are on and both budgets allow one, the provider is
      asked, the committee with the answers so far and any other role with none; the call is
      counted and paid for, and its answer reported and kept, unless it fails or cannot be
      kept. Otherwise the role abstains, for the first of the three reasons that applies. */
  lemma TurnMeans(s: Setting, r: Report, cache: Cache, role: Role) returns (at: seq<nat>, shown: seq<Payload>)
    ensures role == InvestmentCommittee ==> ShownAt(r.roles, at, shown)
    ensures role != InvestmentCommittee ==> shown == []
    ensures var key := Key(role, s.evidence, s.model);
      var (next, after) := Step(s, r, cache, role);
      var kept := key in cache && cache[key].Readable?;
      var reply := s.provider(role, s.evidence, shown);
      && |next.roles| == |r.roles| + 1 && next.roles[..|r.roles|] == r.roles && next.roles[|r.roles|].0 == role
      && var outcome := next.roles[|r.roles|].1;
         && (kept ==> outcome == FromCache(cache[key].payload) && after == cache && next.hits == r.hits + 1)
         && (!kept ==> next.hits == r.hits)
         && (kept || !Allowed(s, r) ==> next.calls == r.calls && next.cost == r.cost && after == cache)
         && (!kept && Allowed(s, r) ==> next.calls == r.calls + 1 && next.cost == r.cost + s.config.perCall)
         && (!kept && Allowed(s, r) && reply.Answer? && reply.cacheable ==>
               outcome == FromProvider(reply.payload) && after == cache[key := Readable(reply.payload)])
         && (!kept && Allowed(s, r) && !(reply.Answer? && reply.cacheable) ==>
               outcome == Abstained(ProviderFailure) && after == cache)
         && (!kept && !Allowed(s, r) ==>
               outcome == Abstained(
                 if !s.config.live then LiveCallsDisabled
                 else if r.calls >= s.config.maxCalls then CallBudgetExhausted else CostBudgetExhausted))
  {
    at := OpinionsAre(r.roles);
    shown := if role == InvestmentCommittee then Opinions(r.roles) else [];
    hide Opinions, ShownAt;
  }

  lemma {:induction false} OutcomeAt(s: Setting, cache: Cache, roles: seq<Role>, i: nat)
    requires i < |roles|
    ensures var (r, before) := Steps(s, cache, roles[..i]);
      && |r.roles| == i && |Steps(s, cache, roles).0.roles| == |roles|
      && |Step(s, r, before, roles[i]).0.roles| == i + 1
      && Steps(s, cache, roles).0.roles[i] == Step(s, r, before, roles[i]).0.roles[i]
    decreases |roles|
  {
    hide Step;
    var n := |roles| - 1;
    StepsLength(s, cache, roles[..i]);
    StepsLength(s, cache, roles[..n]);
    var (r, before) := Steps(s, cache, roles[..n]);
    StepAdds(s, r, before, roles[n]);
    if i < n {
      assert roles[..n][..i] == roles[..i];
      OutcomeAt(s, cache, roles[..n], i);
    }
  }

  lemma StepAdds(s: Setting, r: Report, cache: Cache, role: Role)
    ensures var next := Step(s, r, cache, role).0; |next.roles| == |r.roles| + 1 && next.roles[..|r.roles|] == r.roles
  {
    hide Opinions, ReadCache;
  }

  lemma {:induction false} StepsLength(s: Setting, cache: Cache, roles: seq<Role>)
    ensures |Steps(s, cache, roles).0.roles| == |roles|
  {
    hide Step;
    if roles != [] {
      var front := roles[..|roles| - 1];
      StepsLength(s, cache, front);
      StepAdds(s, Steps(s, cache, front).0, Steps(s, cache, front).1, roles[|roles| - 1]);
    }
  }

  /** Whose answer each role of a run reports: that of the file that was kept for its key
      before the run, or the provider's answer to it on this evidence, which the run then
      keeps under its key. */
  lemma ReportedAnswers(s: Setting, cache: Cache, roles: seq<Role>, i: nat)
    requires i < |roles| && Distinct(roles)
    ensures var (result, after) := Steps(s, cache, roles);
      var key := Key(roles[i], s.evidence, s.model);
      && |result.roles| == |roles|
      && var outcome := result.roles[i].1;
         && (outcome.FromCache? <==> key in cache && cache[key].Readable?)
         && (outcome.FromCache? ==> cache[key] == Readable(outcome.payload))
         && (outcome.FromProvider? ==>
               && key in after && after[key] == Readable(outcome.payload)
               && exists shown :: s.provider(roles[i], s.evidence, shown) == Answer(outcome.payload, true))
  {
    hide Step, Steps, ReadCache, ShownAt;
    var key := Key(roles[i], s.evidence, s.model);
    var (r, before) := Steps(s, cache, roles[..i]);
    OutcomeAt(s, cache, roles, i);
    CacheOnlyGrows(s, cache, roles[..i]);
    assert roles[i] !in roles[..i];
    assert ReadCache(before, key) == ReadCache(cache, key);
    ReadIs(before, key);
    ReadIs(cache, key);
    var at, shown := TurnMeans(s, r, before, roles[i]);
    var (next, after) := Step(s, r, before, roles[i]);
    var outcome := next.roles[i].1;
    LaterKeeps(s, cache, roles, i);
    ReadIs(after, key);
    ReadIs(Steps(s, cache, roles).1, key);
    if outcome.FromProvider? {
      assert s.provider(roles[i], s.evidence, shown) == Answer(outcome.payload, true);
    }
  }

  lemma ReadIs(cache: Cache, key: Key)
    ensures ReadCache(cache, key).Some? <==> key in cache && cache[key].Readable?
    ensures ReadCache(cache, key).Some? ==> cache[key] == Readable(ReadCache(cache, key).value)
  {
  }

  /** A file that is readable after a prefix of the roles is unchanged at the end. */
  lemma {:induction false} LaterKeeps(s: Setting, cache: Cache, roles: seq<Role>, i: nat)
    requires i < |roles|
    ensures var (r, before) := Steps(s, cache, roles[..i]);
      var after := Step(s, r, before, roles[i]).1;
      forall key :: ReadCache(after, key).Some? ==> ReadCache(Steps(s, cache, roles).1, key) == ReadCache(after, key)
    decreases |roles|
  {
    var n := |roles| - 1;
    if i < n {
      assert roles[..n][..i] == roles[..i];
      LaterKeeps(s, cache, roles[..n], i);
      var (r, before) := Steps(s, cache, roles[..n]);
      StepKeeps(s, r, before, roles[n]);
      hide Step;
    }
  }

  lemma StepKeeps(s: Setting, r: Report, cache: Cache, role: Role)
    ensures forall key :: ReadCache(cache, key).Some? ==> ReadCache(Step(s, r, cache, role).1, key) == ReadCache(cache, key)
  {
    hide Opinions;
  }

  // ----- Order and names of roles

  lemma {:induction false} OthersConcat(roles: seq<Role>, more: seq<Role>)
    ensures Others(roles + more) == Others(roles) + Others(more)
  {
    if roles == [] {
      assert roles + more == more;
    } else {
      OthersConcat(roles[1..], more);
      assert (roles + more)[1..] == roles[1..] + more;
    }
  }

  /** Specialists are asked in the order in which they are configured, the committee last. */
  lemma AskedInOrder(roles: seq<Role>, i: nat, j: nat)
    requires i < j < |roles| && roles[i] != InvestmentCommittee && roles[j] != InvestmentCommittee
    ensures exists k, l :: 0 <= k < l < |Ordered(roles)| && Ordered(roles)[k] == roles[i] && Ordered(roles)[l] == roles[j]
    ensures InvestmentCommittee in roles ==> Ordered(roles)[|Ordered(roles)| - 1] == InvestmentCommittee
  {
    var first, rest := roles[..j], roles[j..];
    assert roles == first + rest && roles[i] in first && rest[0] == roles[j];
    OthersConcat(first, rest);
    hide Others;
    OthersHead(rest);
    var k :| 0 <= k < |Others(first)| && Others(first)[k] == roles[i];
    assert Ordered(roles)[k] == roles[i] && Ordered(roles)[|Others(first)|] == roles[j];
  }

  lemma OthersHead(roles: seq<Role>)
    requires roles != [] && roles[0] != InvestmentCommittee
    ensures Others(roles) != [] && Others(roles)[0] == roles[0]
  {
  }

  /** A text names its non-blank pieces, stripped, in order. */
  lemma {:induction false} NamedRoles(pieces: seq<string>, more: seq<string>, strip: string -> string, piece: string)
    ensures NonBlank(pieces + more, strip) == NonBlank(pieces, strip) + NonBlank(more, strip)
    ensures NonBlank([piece], strip) == if strip(piece) == "" then [] else [Text(strip(piece))]
  {
    assert [piece][1..] == [] && NonBlank([], strip) == [];
    if pieces == [] {
      assert pieces + more == more;
    } else {
      NamedRoles(pieces[1..], more, strip, piece);
      assert (pieces + more)[1..] == pieces[1..] + more;
    }
  }

  /** A text that names none means every role there is, each once. */
  lemma AllRolesAreMeant(role: Role)
    ensures role in ALL_ROLES && Distinct(ALL_ROLES)
  {
    var i := match role
      case InvestmentCommittee => 0 case ResearchDesk => 1 case InformationDesk => 2 case BacktestDesk => 3
      case PortfolioDesk => 4 case ExecutionSimulationDesk => 5 case LearningDesk => 6;
    assert ALL_ROLES[i] == role;
  }
}
