/** The advisory shadow runner: roles asked within a call and a cost budget, answers kept in
    a persistent cache. */
module Shadow {
  import opened Outcomes

  // ----- Roles

  datatype Role = InvestmentCommittee | ResearchDesk | InformationDesk | BacktestDesk | PortfolioDesk
    | ExecutionSimulationDesk | LearningDesk

  /** A role as configured: already an enumeration member, or text to be parsed. */
  datatype RoleValue = Member(role: Role) | Text(text: string)

  function RoleOf(value: RoleValue, parse: string -> Option<Role>): Option<Role> {
    if value.Member? then Some(value.role) else parse(value.text)
  }

  ghost predicate Distinct<T(!new)>(s: seq<T>) {
    forall i, j :: 0 <= i < j < |s| ==> s[i] != s[j]
  }

  /** `roles` lists each role among `values` once, in the order of first occurrences. */
  ghost predicate Normalizes(values: seq<RoleValue>, parse: string -> Option<Role>, roles: seq<Role>) {
    && Distinct(roles)
    && (forall i :: 0 <= i < |values| ==> RoleOf(values[i], parse).Some? && RoleOf(values[i], parse).value in roles)
    && (forall k :: 0 <= k < |roles| ==> First(values, parse, roles[k]) < |values|)
    && (forall k, l :: 0 <= k < l < |roles| ==> First(values, parse, roles[k]) < First(values, parse, roles[l]))
  }

  /** The position of the first value that is `role`, or the length if there is none. */
  function First(values: seq<RoleValue>, parse: string -> Option<Role>, role: Role): (i: nat)
    ensures i <= |values|
    ensures forall j :: 0 <= j < i ==> RoleOf(values[j], parse) != Some(role)
    ensures i < |values| ==> RoleOf(values[i], parse) == Some(role)
  {
    if values == [] || RoleOf(values[0], parse) == Some(role) then 0 else 1 + First(values[1..], parse, role)
  }

  lemma FirstIs(values: seq<RoleValue>, parse: string -> Option<Role>, role: Role, i: nat)
    requires i < |values| && RoleOf(values[i], parse) == Some(role)
    requires forall j :: 0 <= j < i ==> RoleOf(values[j], parse) != Some(role)
    ensures First(values, parse, role) == i
  {
  }

  // ----- Roles given as text

  const ALL_ROLES := [InvestmentCommittee, ResearchDesk, InformationDesk, BacktestDesk, PortfolioDesk,
                      ExecutionSimulationDesk, LearningDesk]

  /** Roles as a list of values, or as one text with commas. */
  datatype RoleInput = Listed(values: seq<RoleValue>) | CommaSeparated(text: string)

  /** The pieces of a text between its commas. */
  function Split(text: string): (pieces: seq<string>)
    ensures pieces != []
  {
    if text == [] then [""]
    else
      var rest := Split(text[1..]);
      if text[0] == ',' then [""] + rest else [[text[0]] + rest[0]] + rest[1..]
  }

  function Join(pieces: seq<string>): string
    requires pieces != []
  {
    if |pieces| == 1 then pieces[0] else pieces[0] + "," + Join(pieces[1..])
  }

  /** Splitting is undone by joining with commas, and leaves no comma in a piece. */
  lemma {:induction false} SplitJoins(text: string)
    ensures Join(Split(text)) == text && forall piece :: piece in Split(text) ==> ',' !in piece
  {
    if text != [] {
      var rest := Split(text[1..]);
      SplitJoins(text[1..]);
      assert text == [text[0]] + text[1..];
      if text[0] == ',' {
        assert ([""] + rest)[1..] == rest;
      } else {
        assert ([[text[0]] + rest[0]] + rest[1..])[1..] == rest[1..] && rest == [rest[0]] + rest[1..];
      }
    }
  }

  /** The pieces that are not blank, stripped. */
  function NonBlank(pieces: seq<string>, strip: string -> string): seq<RoleValue> {
    if pieces == [] then []
    else (if strip(pieces[0]) != "" then [Text(strip(pieces[0]))] else []) + NonBlank(pieces[1..], strip)
  }

  function ValuesOf(input: RoleInput, strip: string -> string): seq<RoleValue> {
    match input
    case Listed(values) => values
    case CommaSeparated(text) => NonBlank(Split(text), strip)
  }

  /** None when some value names no role; a text that names nothing means all roles. */
  method NormalizeRoles(input: RoleInput, strip: string -> string, parse: string -> Option<Role>) returns (roles: Option<seq<Role>>)
    ensures input.CommaSeparated? && ValuesOf(input, strip) == [] ==> roles == Some(ALL_ROLES)
    ensures input.Listed? || ValuesOf(input, strip) != [] ==>
      var values := ValuesOf(input, strip);
      && (roles.Some? <==> forall i :: 0 <= i < |values| ==> RoleOf(values[i], parse).Some?)
      && (roles.Some? ==> Normalizes(values, parse, roles.value))
  {
    hide First, Split, NonBlank;
    var values := ValuesOf(input, strip);
    if input.CommaSeparated? && values == [] { return Some(ALL_ROLES); }
    var normalized: seq<Role> := [];
    for i := 0 to |values|
      invariant Distinct(normalized)
      invariant forall j :: 0 <= j < i ==> RoleOf(values[j], parse).Some? && RoleOf(values[j], parse).value in normalized
      invariant forall k :: 0 <= k < |normalized| ==> First(values, parse, normalized[k]) < i
      invariant forall k, l :: 0 <= k < l < |normalized| ==> First(values, parse, normalized[k]) < First(values, parse, normalized[l])
    {
      var role := RoleOf(values[i], parse);
      if role.None? { return None; }
      if role.value !in normalized {
        FirstIs(values, parse, role.value, i);
        normalized := normalized + [role.value];
      }
    }
    return Some(normalized);
  }

  // ----- Configuration, cache and provider

  datatype Config = Config(enabled: bool, live: bool, maxCalls: int, maxCost: real, perCall: real, roles: seq<Role>)

  /** What a constructed configuration satisfies. */
  ghost predicate Valid(c: Config) {
    && (c.live ==> c.enabled && c.maxCalls > 0 && c.maxCost > 0.0 && c.perCall > 0.0)
    && Distinct(c.roles)
  }

  /** An advisory payload, which may itself have the status "abstain". */
  datatype Payload = Payload(text: string, abstains: bool)

  /** What one physical request yields. `cacheable` says whether its cache file can be written. */
  datatype Reply = Answer(payload: Payload, cacheable: bool) | Fails

  type Provider = (Role, string, seq<Payload>) -> Reply

  datatype Key = Key(role: Role, evidence: string, model: string)

  /** A cache file whose key and digests check, or one that does not read back. */
  datatype CacheFile = Readable(payload: Payload) | Unreadable

  type Cache = map<Key, CacheFile>

  function ReadCache(cache: Cache, key: Key): Option<Payload> {
    if key in cache && cache[key].Readable? then Some(cache[key].payload) else None
  }

  // ----- One run

  datatype Reason = LiveCallsDisabled | CallBudgetExhausted | CostBudgetExhausted | ProviderFailure

  datatype Outcome = FromCache(payload: Payload) | FromProvider(payload: Payload) | Abstained(reason: Reason)

  datatype Report = Report(calls: int, hits: int, cost: real, abstentions: int, roles: seq<(Role, Outcome)>)

  const EMPTY := Report(0, 0, 0.0, 0, [])

  /** What stays fixed during a run. */
  datatype Setting = Setting(config: Config, model: string, evidence: string, provider: Provider)

  /** Specialists first, the committee last. */
  function Ordered(roles: seq<Role>): seq<Role> {
    Others(roles) + if InvestmentCommittee in roles then [InvestmentCommittee] else []
  }

  function Others(roles: seq<Role>): (r: seq<Role>)
    ensures forall x :: x in r <==> x in roles && x != InvestmentCommittee
  {
    if roles == [] then []
    else if roles[0] == InvestmentCommittee then Others(roles[1..])
    else [roles[0]] + Others(roles[1..])
  }

  /** The specialists' answers so far, which are evidence for the committee. */
  function Opinions(roles: seq<(Role, Outcome)>): seq<Payload> {
    if roles == [] then []
    else
      var outcome := roles[|roles| - 1].1;
      Opinions(roles[..|roles| - 1]) + if !outcome.Abstained? && !outcome.payload.abstains then [outcome.payload] else []
  }

  function Abstain(r: Report, role: Role, reason: Reason): Report {
    r.(abstentions := r.abstentions + 1, roles := r.roles + [(role, Abstained(reason))])
  }

  function KeyOf(s: Setting, role: Role): Key {
    Key(role, s.evidence, s.model)
  }

  function Ask(s: Setting, r: Report, role: Role): Reply {
    s.provider(role, s.evidence, if role == InvestmentCommittee then Opinions(r.roles) else [])
  }

  function Step(s: Setting, r: Report, cache: Cache, role: Role): (Report, Cache) {
    var cached := ReadCache(cache, KeyOf(s, role));
    if cached.Some? then (r.(hits := r.hits + 1, roles := r.roles + [(role, FromCache(cached.value))]), cache)
    else if !s.config.live then (Abstain(r, role, LiveCallsDisabled), cache)
    else if r.calls >= s.config.maxCalls then (Abstain(r, role, CallBudgetExhausted), cache)
    else if r.cost + s.config.perCall > s.config.maxCost then (Abstain(r, role, CostBudgetExhausted), cache)
    else
      var counted := r.(calls := r.calls + 1, cost := r.cost + s.config.perCall);
      var reply := Ask(s, r, role);
      if reply.Answer? && reply.cacheable then
        (counted.(roles := r.roles + [(role, FromProvider(reply.payload))]), cache[KeyOf(s, role) := Readable(reply.payload)])
      else (Abstain(counted, role, ProviderFailure), cache)
  }

  function Steps(s: Setting, cache: Cache, roles: seq<Role>): (Report, Cache) {
    if roles == [] then (EMPTY, cache)
    else
      var (r, after) := Steps(s, cache, roles[..|roles| - 1]);
      Step(s, r, after, roles[|roles| - 1])
  }

  lemma NoSteps(s: Setting, cache: Cache)
    ensures Steps(s, cache, []) == (EMPTY, cache)
  {
  }

  lemma NextStep(s: Setting, cache: Cache, roles: seq<Role>, i: nat)
    requires i < |roles|
    ensures var (r, after) := Steps(s, cache, roles[..i]);
      Steps(s, cache, roles[..i + 1]) == Step(s, r, after, roles[i])
  {
    hide Step;
    assert roles[..i + 1][..i] == roles[..i];
  }

  function Run(s: Setting, cache: Cache): (Report, Cache) {
    if s.config.enabled then Steps(s, cache, Ordered(s.config.roles)) else (EMPTY, cache)
  }

  class ActiveShadowRunner {
    const config: Config
    const model: string
    /** The cache directory, which outlives runs. */
    var cache: Cache

    constructor (config: Config, model: string, cache: Cache)
      ensures this.config == config && this.model == model && this.cache == cache
    {
      this.config, this.model, this.cache := config, model, cache;
    }

    method RunRoles(evidence: string, provider: Provider) returns (result: Report)
      modifies this`cache
      ensures (result, cache) == Run(Setting(config, model, evidence, provider), old(cache))
    {
      hide Steps, Opinions, ReadCache, Ordered;
      result := EMPTY;
      if !config.enabled { return; }
      ghost var s := Setting(config, model, evidence, provider);
      var roles := Ordered(config.roles);
      NoSteps(s, cache);
      for i := 0 to |roles|
        invariant (result, cache) == Steps(s, old(cache), roles[..i])
      {
        var role, key := roles[i], Key(roles[i], evidence, model);
        NextStep(s, old(cache), roles, i);
        var cached := ReadCache(cache, key);
        if cached.Some? {
          result := result.(hits := result.hits + 1, roles := result.roles + [(role, FromCache(cached.value))]);
        } else if !config.live {
          result := Abstain(result, role, LiveCallsDisabled);
        } else if result.calls >= config.maxCalls {
          result := Abstain(result, role, CallBudgetExhausted);
        } else if result.cost + config.perCall > config.maxCost {
          result := Abstain(result, role, CostBudgetExhausted);
        } else {
          var opinions := if role == InvestmentCommittee then Opinions(result.roles) else [];
          result := result.(calls := result.calls + 1, cost := result.cost + config.perCall);
          var reply := provider(role, evidence, opinions);
          if reply.Answer? && reply.cacheable {
            cache := cache[key := Readable(reply.payload)];
            result := result.(roles := result.roles + [(role, FromProvider(reply.payload))]);
          } else {
            result := Abstain(result, role, ProviderFailure);
          }
        }
      }
      assert roles[..|roles|] == roles;
    }
  }
}
