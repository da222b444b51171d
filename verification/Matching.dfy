/** Matching supplied model assessments to an announcement, whatever order they come in. */
module Matching {
  import opened Outcomes

  datatype Method = DeduplicationKey | EventId | SourceLineage | RawContentHash | StrictFallback | TitleOnlyUnique

  /** Identity tokens of an event or an assessment, one set for each lineage method. */
  datatype Tokens = Tokens(keys: set<string>, ids: set<string>, lineage: set<string>, hashes: set<string>)

  datatype Row = Row(symbol: string, pit: Option<string>, tokens: Tokens, strict: Option<string>, title: string)

  /** `content` is everything else that the signature of an assessment covers. */
  datatype Assessment = Assessment(structured: bool, passed: bool, symbol: string, pit: Option<string>, title: string,
                                   tokens: Tokens, strict: set<string>, content: string)

  datatype Outcome =
    | Matched(assessment: Assessment, how: Method)
    | PitUnavailable
    | NotFound
    | Conflicting
    | Ambiguous

  predicate NoTokens(t: Tokens) {
    t.keys == {} && t.ids == {} && t.lineage == {} && t.hashes == {}
  }

  /** The first method by which an assessment identifies the event. */
  function MatchMethod(row: Row, item: Assessment): Option<Method> {
    if row.tokens.keys * item.tokens.keys != {} then Some(DeduplicationKey)
    else if row.tokens.ids * item.tokens.ids != {} then Some(EventId)
    else if row.tokens.lineage * item.tokens.lineage != {} then Some(SourceLineage)
    else if row.tokens.hashes * item.tokens.hashes != {} then Some(RawContentHash)
    else if row.strict.Some? && row.strict.value != "" && row.strict.value in item.strict then Some(StrictFallback)
    else if row.title != "" && row.title == item.title && NoTokens(row.tokens) then Some(TitleOnlyUnique)
    else None
  }

  predicate IsCandidate(row: Row, item: Assessment) {
    item.structured && item.passed && item.symbol == row.symbol && item.pit == row.pit && MatchMethod(row, item).Some?
  }

  function Candidates(row: Row, items: seq<Assessment>): (r: seq<Assessment>)
    ensures forall item :: item in r <==> item in items && IsCandidate(row, item)
  {
    if items == [] then []
    else
      var last := items[|items| - 1];
      Candidates(row, items[..|items| - 1]) + (if IsCandidate(row, last) then [last] else [])
  }

  function Rank(how: Method): nat {
    match how
    case DeduplicationKey => 0
    case EventId => 1
    case SourceLineage => 2
    case RawContentHash => 3
    case StrictFallback => 4
    case TitleOnlyUnique => 5
  }

  /** What the outcome must be: decided by how often which candidate occurs. */
  ghost predicate Decides(row: Row, candidates: multiset<Assessment>, outcome: Outcome) {
    if row.pit == None then outcome == PitUnavailable
    else if candidates == multiset{} then outcome == NotFound
    else if exists a, b :: a in candidates && b in candidates && a != b then outcome == Conflicting
    else
      exists a :: a in candidates &&
        MatchMethod(row, a).Some? &&
        var how := MatchMethod(row, a).value;
        outcome == if how == TitleOnlyUnique && candidates[a] > 1 then Ambiguous else Matched(a, how)
  }

  /** The found candidates, each with its method, in order. */
  ghost predicate Collected(row: Row, items: seq<Assessment>, candidates: seq<(Assessment, Method)>) {
    && |candidates| == |Candidates(row, items)|
    && forall k :: 0 <= k < |candidates| ==>
         candidates[k].0 == Candidates(row, items)[k] && MatchMethod(row, candidates[k].0) == Some(candidates[k].1)
  }

  method MatchAssessment(row: Row, items: seq<Assessment>) returns (outcome: Outcome)
    ensures Decides(row, multiset(Candidates(row, items)), outcome)
  {
    if row.pit == None { return PitUnavailable; }
    var candidates: seq<(Assessment, Method)> := [];
    for i := 0 to |items|
      invariant Collected(row, items[..i], candidates)
    {
      hide MatchMethod;
      assert items[..i + 1][..i] == items[..i];
      var item := items[i];
      if item.structured && item.passed && item.symbol == row.symbol && item.pit == row.pit {
        var how := MatchMethod(row, item);
        if how.Some? { candidates := candidates + [(item, how.value)]; }
      }
    }
    hide Candidates, MatchMethod;
    assert items[..|items|] == items;
    outcome := Choose(row, items, candidates);
  }

  method Choose(row: Row, ghost items: seq<Assessment>, candidates: seq<(Assessment, Method)>) returns (outcome: Outcome)
    requires row.pit.Some? && Collected(row, items, candidates)
    ensures Decides(row, multiset(Candidates(row, items)), outcome)
  {
    hide Candidates, MatchMethod;
    ghost var matching := Candidates(row, items);
    if |candidates| == 0 { return NotFound; }
    assert matching[0] in multiset(matching);
    var signatures: set<Assessment> := {};
    for i := 0 to |candidates|
      invariant forall a :: a in signatures <==> exists k :: 0 <= k < i && candidates[k].0 == a
    {
      signatures := signatures + {candidates[i].0};
    }
    if |signatures| > 1 {
      TwoMembers(signatures);
      ghost var a, b :| a in signatures && b in signatures && a != b;
      assert a in matching && b in matching;
      return Conflicting;
    }
    var bestRank := Rank(candidates[0].1);
    for i := 0 to |candidates|
      invariant exists k :: 0 <= k < |candidates| && bestRank == Rank(candidates[k].1)
    {
      if Rank(candidates[i].1) < bestRank { bestRank := Rank(candidates[i].1); }
    }
    OneMember(signatures, candidates[0].0);
    forall k | 0 <= k < |candidates| ensures candidates[k].0 == candidates[0].0 && candidates[k].1 == candidates[0].1 {
      assert candidates[k].0 in signatures;
    }
    AllEqual(matching, candidates[0].0);
    var best: seq<(Assessment, Method)> := [];
    for i := 0 to |candidates|
      invariant best == candidates[..i]
    {
      if Rank(candidates[i].1) == bestRank { best := best + [candidates[i]]; }
    }
    outcome := if |best| > 1 && best[0].1 == TitleOnlyUnique then Ambiguous else Matched(best[0].0, best[0].1);
  }

  lemma TwoMembers(s: set<Assessment>)
    requires |s| > 1
    ensures exists a, b :: a in s && b in s && a != b
  {
    var a :| a in s;
    assert |s - {a}| >= 1;
    var b :| b in s - {a};
  }

  lemma OneMember(s: set<Assessment>, a: Assessment)
    requires |s| <= 1 && a in s
    ensures s == {a}
  {
    assert |s - {a}| == 0;
  }

  lemma {:induction false} AllEqual(s: seq<Assessment>, a: Assessment)
    requires forall x :: x in s ==> x == a
    ensures multiset(s)[a] == |s| && forall x :: x in multiset(s) ==> x == a
  {
    if s != [] {
      var n := |s| - 1;
      assert s == s[..n] + [s[n]];
      assert s[n] in s && forall x :: x in s[..n] ==> x in s;
      AllEqual(s[..n], a);
    }
  }

  /** The outcome is determined: no two outcomes satisfy the decision. */
  lemma DecisionIsUnique(row: Row, candidates: multiset<Assessment>, first: Outcome, second: Outcome)
    requires Decides(row, candidates, first) && Decides(row, candidates, second)
    ensures first == second
  {
  }

  lemma {:induction false} CandidateCounts(row: Row, items: seq<Assessment>, item: Assessment)
    ensures multiset(Candidates(row, items))[item] == if IsCandidate(row, item) then multiset(items)[item] else 0
  {
    if items != [] {
      CandidateCounts(row, items[..|items| - 1], item);
      assert items == items[..|items| - 1] + [items[|items| - 1]];
    }
  }

  /** Matching does not depend on the order of the assessments: for any permutation of them
      the assessment chosen, the method and the reason are the same. */
  lemma OrderDoesNotMatter(row: Row, items: seq<Assessment>, permuted: seq<Assessment>, first: Outcome, second: Outcome)
    requires multiset(items) == multiset(permuted)
    requires Decides(row, multiset(Candidates(row, items)), first)
    requires Decides(row, multiset(Candidates(row, permuted)), second)
    ensures first == second
  {
    var a, b := multiset(Candidates(row, items)), multiset(Candidates(row, permuted));
    forall item ensures a[item] == b[item] {
      CandidateCounts(row, items, item);
      CandidateCounts(row, permuted, item);
    }
    assert a == b;
    DecisionIsUnique(row, a, first, second);
  }

  // ----- What an outcome means

  ghost predicate Shared(a: set<string>, b: set<string>) {
    exists token :: token in a && token in b
  }

  ghost predicate NoneShared(row: Row, item: Assessment) {
    && !Shared(row.tokens.keys, item.tokens.keys) && !Shared(row.tokens.ids, item.tokens.ids)
    && !Shared(row.tokens.lineage, item.tokens.lineage) && !Shared(row.tokens.hashes, item.tokens.hashes)
  }

  ghost predicate StrictlySame(row: Row, item: Assessment) {
    row.strict.Some? && row.strict.value != "" && row.strict.value in item.strict
  }

  /** The assessment identifies the event in this way and in none that comes before: by a
      shared key, id, lineage or content hash, by the strict fallback, or, for an event
      without any token, by its title alone. */
  ghost predicate Identifies(row: Row, item: Assessment, how: Method) {
    match how
    case DeduplicationKey => Shared(row.tokens.keys, item.tokens.keys)
    case EventId => !Shared(row.tokens.keys, item.tokens.keys) && Shared(row.tokens.ids, item.tokens.ids)
    case SourceLineage =>
      && !Shared(row.tokens.keys, item.tokens.keys) && !Shared(row.tokens.ids, item.tokens.ids)
      && Shared(row.tokens.lineage, item.tokens.lineage)
    case RawContentHash =>
      && !Shared(row.tokens.keys, item.tokens.keys) && !Shared(row.tokens.ids, item.tokens.ids)
      && !Shared(row.tokens.lineage, item.tokens.lineage) && Shared(row.tokens.hashes, item.tokens.hashes)
    case StrictFallback => NoneShared(row, item) && StrictlySame(row, item)
    case TitleOnlyUnique =>
      && NoneShared(row, item) && !StrictlySame(row, item)
      && row.title != "" && row.title == item.title
      && row.tokens.keys == {} && row.tokens.ids == {} && row.tokens.lineage == {} && row.tokens.hashes == {}
  }

  /** A structured assessment that passed, of the event's symbol and availability time, and
      identifies it in some way. */
  ghost predicate Fits(row: Row, item: Assessment) {
    && item.structured && item.passed && item.symbol == row.symbol && item.pit == row.pit
    && exists how :: Identifies(row, item, how)
  }

  lemma MethodIs(row: Row, item: Assessment, how: Method)
    ensures MatchMethod(row, item) == Some(how) <==> Identifies(row, item, how)
  {
    SharedIff(row.tokens.keys, item.tokens.keys);
    SharedIff(row.tokens.ids, item.tokens.ids);
    SharedIff(row.tokens.lineage, item.tokens.lineage);
    SharedIff(row.tokens.hashes, item.tokens.hashes);
    hide Shared;
  }

  lemma SharedIff(a: set<string>, b: set<string>)
    ensures a * b != {} <==> Shared(a, b)
  {
    if Shared(a, b) {
      var token :| token in a && token in b;
      assert token in a * b;
    }
  }

  lemma FitsIff(row: Row, item: Assessment)
    ensures IsCandidate(row, item) <==> Fits(row, item)
  {
    forall how ensures MatchMethod(row, item) == Some(how) <==> Identifies(row, item, how) {
      MethodIs(row, item, how);
    }
    hide MatchMethod, Identifies;
    if MatchMethod(row, item).Some? { assert Identifies(row, item, MatchMethod(row, item).value); }
  }

  /** The outcome of a decision, told by the assessments that fit the event: unavailable
      without an availability time, not found if none fits, conflicting if two different ones
      do; else the one that fits, by the first way it identifies the event, unless that is
      the title alone and it was supplied more than once. */
  lemma OutcomeMeans(row: Row, items: seq<Assessment>, outcome: Outcome)
    requires Decides(row, multiset(Candidates(row, items)), outcome)
    ensures row.pit == None <==> outcome == PitUnavailable
    ensures row.pit.Some? ==>
      && (outcome == NotFound <==> forall item :: item in items ==> !Fits(row, item))
      && (outcome == Conflicting <==> exists a, b :: a in items && b in items && a != b && Fits(row, a) && Fits(row, b))
      && (outcome.Matched? ==>
            && outcome.assessment in items && Fits(row, outcome.assessment) && Identifies(row, outcome.assessment, outcome.how)
            && (outcome.how == TitleOnlyUnique ==> multiset(items)[outcome.assessment] == 1))
      && (outcome == Ambiguous ==>
            exists a :: a in items && Fits(row, a) && Identifies(row, a, TitleOnlyUnique) && multiset(items)[a] > 1)
  {
    var candidates := multiset(Candidates(row, items));
    DecisionMeans(row, candidates, outcome);
    forall item ensures candidates[item] == if Fits(row, item) then multiset(items)[item] else 0 {
      CandidateCounts(row, items, item);
      FitsIff(row, item);
    }
    hide Candidates, Identifies, Fits, Decides;
    forall item ensures item in candidates <==> item in items && Fits(row, item) {
      assert item in items <==> multiset(items)[item] > 0;
    }
  }

  lemma DecisionMeans(row: Row, candidates: multiset<Assessment>, outcome: Outcome)
    requires Decides(row, candidates, outcome)
    ensures row.pit == None <==> outcome == PitUnavailable
    ensures row.pit.Some? ==>
      && (outcome == NotFound <==> forall item :: item !in candidates)
      && (outcome == Conflicting <==> exists a, b :: a in candidates && b in candidates && a != b)
      && (outcome.Matched? ==>
            && outcome.assessment in candidates && Identifies(row, outcome.assessment, outcome.how)
            && (outcome.how == TitleOnlyUnique ==> candidates[outcome.assessment] == 1))
      && (outcome == Ambiguous ==> exists a :: a in candidates && Identifies(row, a, TitleOnlyUnique) && candidates[a] > 1)
  {
    forall item, how ensures MatchMethod(row, item) == Some(how) <==> Identifies(row, item, how) {
      MethodIs(row, item, how);
    }
    CountsEmpty(candidates);
    hide MatchMethod, Identifies;
  }

  lemma CountsEmpty(candidates: multiset<Assessment>)
    ensures candidates == multiset{} <==> forall item :: item !in candidates
  {
    if forall item :: item !in candidates {
      assert forall item :: candidates[item] == 0;
    }
  }
}
