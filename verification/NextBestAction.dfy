/**
 * The next-best-action decision: candidate generation, scoring, ranking and the review
 * policy (src/learning/candidate-generator.ts, nba-engine.ts, review-policy.ts).
 *
 * Scores are reals.  Results that do not depend on the weight table are stated for
 * every score function, so they also hold of the rounded floating-point scores.
 */
module NextBestAction {
  import opened Common
  import opened Sorting

  datatype Action =
    | VisualExplanation | TextExplanation | Flashcards | GrillMe
    | PracticeQuiz | SchemaDiagram | AudioExplanation

  const ALL_ACTIONS: seq<Action> :=
    [VisualExplanation, TextExplanation, Flashcards, GrillMe, PracticeQuiz, SchemaDiagram, AudioExplanation]

  datatype Energy = Low | Medium | High

  datatype Difficulty = Beginner | Intermediate | Advanced

  datatype Input = Input(
    concept: string,
    mastery: real,
    lastAnswers: seq<bool>,
    responseTimeSec: real,
    energy: Energy
  )

  // ── Candidates ────────────────────────────────────────────────────────

  datatype Candidate = Candidate(action: Action, hint: Option<string>)

  /** What the optional suggester did: absent, threw, or answered. */
  datatype Suggestion = NoSuggester | Threw | Suggested(actions: seq<Action>, hint: Option<string>)

  datatype Error = NotIterable | NoCandidates

  function LowerChar(c: char): char {
    if 'A' <= c <= 'Z' then c - 'A' + 'a' else c
  }

  function Lower(s: string): string {
    seq(|s|, i requires 0 <= i < |s| => LowerChar(s[i]))
  }

  /** Lower-case keys that a plain object inherits: looking one up in a table written as
      an object literal finds the inherited member instead of nothing. */
  predicate Inherited(key: string) {
    key == "constructor" || key == "__proto__"
  }

  function Preferred(key: string): seq<Action> {
    if key == "sigmoid" then [VisualExplanation, SchemaDiagram, PracticeQuiz]
    else if key == "derivative" then [VisualExplanation, TextExplanation, PracticeQuiz]
    else []
  }

  function Without(actions: seq<Action>, dropped: seq<Action>): seq<Action> {
    if actions == [] then []
    else (if actions[0] in dropped then [] else [actions[0]]) + Without(actions[1..], dropped)
  }

  function DefaultActions(concept: string): seq<Action> {
    Preferred(Lower(concept)) + Without(ALL_ACTIONS, Preferred(Lower(concept)))
  }

  function Plain(actions: seq<Action>, hint: Option<string>): seq<Candidate> {
    seq(|actions|, i requires 0 <= i < |actions| => Candidate(actions[i], hint))
  }

  function ActionsOf(candidates: seq<Candidate>): seq<Action> {
    seq(|candidates|, i requires 0 <= i < |candidates| => candidates[i].action)
  }

  /** The candidates whose action does not occur earlier in the list. */
  function FirstOccurrences(candidates: seq<Candidate>): seq<Candidate> {
    if candidates == [] then []
    else
      var n := |candidates| - 1;
      var kept := FirstOccurrences(candidates[..n]);
      if candidates[n].action in ActionsOf(candidates[..n]) then kept else kept + [candidates[n]]
  }

  function BaseCandidates(concept: string): seq<Candidate> {
    Plain(DefaultActions(concept), None)
  }

  function Merge(suggestion: Suggestion, base: seq<Candidate>): seq<Candidate> {
    if suggestion.Suggested? then FirstOccurrences(Plain(suggestion.actions, suggestion.hint) + base) else base
  }

  function Generated(concept: string, suggestion: Suggestion): Result<seq<Candidate>, Error> {
    if Inherited(Lower(concept)) then Err(NotIterable) else Ok(Merge(suggestion, BaseCandidates(concept)))
  }

  lemma {:induction false} FirstOccurrencesKeepActions(candidates: seq<Candidate>)
    ensures forall a :: a in ActionsOf(FirstOccurrences(candidates)) <==> a in ActionsOf(candidates)
    ensures NoDuplicates(ActionsOf(FirstOccurrences(candidates)))
  {
    if candidates != [] {
      var n := |candidates| - 1;
      FirstOccurrencesKeepActions(candidates[..n]);
      var kept := FirstOccurrences(candidates[..n]);
      assert ActionsOf(candidates) == ActionsOf(candidates[..n]) + [candidates[n].action];
      assert ActionsOf(kept + [candidates[n]]) == ActionsOf(kept) + [candidates[n].action];
    }
  }

  method GenerateCandidates(concept: string, suggestion: Suggestion) returns (r: Result<seq<Candidate>, Error>)
    ensures r == Generated(concept, suggestion)
  {
    if Inherited(Lower(concept)) {
      return Err(NotIterable);
    }
    var base := BaseCandidates(concept);
    if suggestion.Suggested? {
      base := MergeSuggested(suggestion.actions, suggestion.hint, base);
    }
    return Ok(base);
  }

  /** The two merging loops of the generator: the suggested actions, then the defaults. */
  method MergeSuggested(actions: seq<Action>, hint: Option<string>, base: seq<Candidate>)
    returns (merged: seq<Candidate>)
    ensures merged == FirstOccurrences(Plain(actions, hint) + base)
  {
    var seen: set<Action>;
    merged, seen := TakeSuggested(actions, hint);
    merged := TakeDefaults(Plain(actions, hint), merged, seen, base);
  }

  method TakeSuggested(actions: seq<Action>, hint: Option<string>) returns (merged: seq<Candidate>, seen: set<Action>)
    ensures merged == FirstOccurrences(Plain(actions, hint))
    ensures forall a :: a in seen <==> a in ActionsOf(Plain(actions, hint))
  {
    ghost var all := Plain(actions, hint);
    seen := {};
    merged := [];
    var i := 0;
    while i < |actions|
      invariant 0 <= i <= |actions|
      invariant merged == FirstOccurrences(all[..i])
      invariant forall a :: a in seen <==> a in ActionsOf(all[..i])
    {
      var action := actions[i];
      NextCandidate(all, i);
      i := i + 1;
      if action in seen {
        continue;
      }
      seen := seen + {action};
      merged := merged + [Candidate(action, hint)];
    }
    assert all[..i] == all;
  }

  method TakeDefaults(ghost done: seq<Candidate>, taken: seq<Candidate>, known: set<Action>, base: seq<Candidate>)
    returns (merged: seq<Candidate>)
    requires taken == FirstOccurrences(done)
    requires forall a :: a in known <==> a in ActionsOf(done)
    ensures merged == FirstOccurrences(done + base)
  {
    ghost var all := done + base;
    var seen := known;
    merged := taken;
    var i := 0;
    assert all[..|done|] == done;
    while i < |base|
      invariant 0 <= i <= |base|
      invariant merged == FirstOccurrences(all[..|done| + i])
      invariant forall a :: a in seen <==> a in ActionsOf(all[..|done| + i])
    {
      var c := base[i];
      NextCandidate(all, |done| + i);
      i := i + 1;
      if c.action in seen {
        continue;
      }
      seen := seen + {c.action};
      merged := merged + [c];
    }
    assert all[..|done| + i] == all;
  }

  lemma NextCandidate(all: seq<Candidate>, i: nat)
    requires i < |all|
    ensures all[..i + 1] == all[..i] + [all[i]]
    ensures ActionsOf(all[..i + 1]) == ActionsOf(all[..i]) + [all[i].action]
    ensures FirstOccurrences(all[..i + 1]) ==
            FirstOccurrences(all[..i]) + (if all[i].action in ActionsOf(all[..i]) then [] else [all[i]])
  {
    assert all[..i + 1][..i] == all[..i];
  }

  lemma DistinctMeansOnce(actions: seq<Action>, a: Action)
    requires NoDuplicates(actions) && a in actions
    ensures multiset(actions)[a] == 1
  {
    var i :| 0 <= i < |actions| && actions[i] == a;
    assert actions == actions[..i] + [a] + actions[i + 1..];
    assert a !in actions[..i] && a !in actions[i + 1..];
  }

  lemma EveryActionIsListed(a: Action)
    ensures a in ALL_ACTIONS
  {}

  predicate AllOnce(actions: seq<Action>) {
    multiset(actions) == multiset(ALL_ACTIONS)
  }

  predicate Complete(actions: seq<Action>) {
    NoDuplicates(actions) && forall a: Action :: a in actions
  }

  lemma SameOnce(one: seq<Action>, other: seq<Action>)
    requires NoDuplicates(one) && NoDuplicates(other)
    requires forall a: Action :: a in one && a in other
    ensures multiset(one) == multiset(other)
  {
    forall a: Action ensures multiset(one)[a] == multiset(other)[a] {
      DistinctMeansOnce(one, a);
      DistinctMeansOnce(other, a);
    }
  }

  lemma AllActionsAreComplete()
    ensures Complete(ALL_ACTIONS)
  {
    forall a: Action ensures a in ALL_ACTIONS {
      EveryActionIsListed(a);
    }
  }

  lemma CompleteMeansPermutation(actions: seq<Action>)
    requires Complete(actions)
    ensures AllOnce(actions)
  {
    AllActionsAreComplete();
    SameOnce(actions, ALL_ACTIONS);
  }

  lemma {:induction false} WithoutKeeps(actions: seq<Action>, dropped: seq<Action>)
    requires NoDuplicates(actions)
    ensures NoDuplicates(Without(actions, dropped))
    ensures forall a :: a in Without(actions, dropped) <==> a in actions && a !in dropped
  {
    if actions != [] {
      WithoutKeeps(actions[1..], dropped);
      assert actions == [actions[0]] + actions[1..];
    }
  }

  lemma {:induction false} AppendDistinct(one: seq<Action>, other: seq<Action>)
    requires NoDuplicates(one) && NoDuplicates(other)
    requires forall a :: a in one ==> a !in other
    ensures NoDuplicates(one + other)
  {
    var both := one + other;
    forall i, j | 0 <= i < j < |both| ensures both[i] != both[j] {
      if i < |one| <= j {
        assert both[i] in one && both[j] in other;
      }
    }
  }

  lemma DefaultsAreComplete(concept: string)
    ensures Complete(DefaultActions(concept))
  {
    var preferred := Preferred(Lower(concept));
    WithoutKeeps(ALL_ACTIONS, preferred);
    AppendDistinct(preferred, Without(ALL_ACTIONS, preferred));
    forall a: Action ensures a in DefaultActions(concept) {
      EveryActionIsListed(a);
    }
  }

  /** Generation fails exactly on the two inherited keys, whatever the suggester does;
      otherwise the candidates are a permutation of all the actions. */
  lemma CandidatesAreAllActions(concept: string, suggestion: Suggestion)
    ensures Generated(concept, suggestion).Err? <==> Lower(concept) == "constructor" || Lower(concept) == "__proto__"
    ensures Generated(concept, suggestion).Ok? ==> AllOnce(ActionsOf(Generated(concept, suggestion).value))
  {
    BaseIsComplete(concept);
    MergeIsAllOnce(suggestion, BaseCandidates(concept));
  }

  lemma BaseIsComplete(concept: string)
    ensures Complete(ActionsOf(BaseCandidates(concept)))
  {
    DefaultsAreComplete(concept);
    assert ActionsOf(BaseCandidates(concept)) == DefaultActions(concept);
  }

  lemma MergeIsAllOnce(suggestion: Suggestion, base: seq<Candidate>)
    requires Complete(ActionsOf(base))
    ensures AllOnce(ActionsOf(Merge(suggestion, base)))
  {
    if suggestion.Suggested? {
      var suggested := Plain(suggestion.actions, suggestion.hint);
      FirstOccurrencesKeepActions(suggested + base);
      assert ActionsOf(suggested + base) == ActionsOf(suggested) + ActionsOf(base);
    }
    CompleteMeansPermutation(ActionsOf(Merge(suggestion, base)));
  }

  // ── Ranking ───────────────────────────────────────────────────────────

  type Score = Action -> real

  /** Alphabetical position of the action's name. */
  function NameRank(a: Action): nat {
    match a
    case AudioExplanation => 0
    case Flashcards => 1
    case GrillMe => 2
    case PracticeQuiz => 3
    case SchemaDiagram => 4
    case TextExplanation => 5
    case VisualExplanation => 6
  }

  predicate Before(score: Score, a: Action, b: Action) {
    score(a) > score(b) || (score(a) == score(b) && NameRank(a) < NameRank(b))
  }

  function ByScore(score: Score): (Action, Action) -> bool {
    (a, b) => Before(score, a, b)
  }

  function Rank(score: Score, actions: seq<Action>): seq<Action> {
    Sort(ByScore(score), actions)
  }

  lemma ScoreOrderIsTotal(score: Score)
    ensures StrictOrder(ByScore(score))
    ensures forall actions :: Separates(ByScore(score), actions)
  {
  }

  lemma RankIgnoresOrder(score: Score, one: seq<Action>, other: seq<Action>)
    requires multiset(one) == multiset(other)
    ensures Rank(score, one) == Rank(score, other)
  {
    ScoreOrderIsTotal(score);
    SortIgnoresOrder(ByScore(score), one, other);
  }

  // ── Scoring ───────────────────────────────────────────────────────────

  datatype Factor =
    | Base | RepeatedErrors | LowMastery | SlowResponse | HighErrorRate | MathVisualConcept
    | LowEnergy | MediumEnergy | HighEnergy | MidErrorRate | HigherMastery | MidMastery

  function Weights(a: Action): seq<(Factor, real)> {
    match a
    case VisualExplanation =>
      [(Base, 0.1), (RepeatedErrors, 0.22), (LowMastery, 0.18), (SlowResponse, 0.08),
       (MathVisualConcept, 0.12), (HighErrorRate, 0.08)]
    case SchemaDiagram =>
      [(Base, 0.08), (RepeatedErrors, 0.12), (LowMastery, 0.1), (MathVisualConcept, 0.1), (HighErrorRate, 0.04)]
    case Flashcards =>
      [(Base, 0.08), (LowMastery, 0.15), (SlowResponse, 0.08), (LowEnergy, 0.1), (RepeatedErrors, 0.14)]
    case GrillMe =>
      [(Base, 0.1), (MediumEnergy, 0.15), (HighEnergy, 0.22), (MidErrorRate, 0.1), (HigherMastery, 0.08),
       (RepeatedErrors, 0.12)]
    case TextExplanation => [(Base, 0.08), (HigherMastery, 0.15), (MediumEnergy, 0.06)]
    case PracticeQuiz => [(Base, 0.08), (MidMastery, 0.14), (MediumEnergy, 0.08)]
    case AudioExplanation => [(Base, 0.08), (LowEnergy, 0.12), (SlowResponse, 0.06)]
  }

  function Wrong(answers: seq<bool>): nat {
    if answers == [] then 0 else (if answers[0] then 0 else 1) + Wrong(answers[1..])
  }

  function ErrorRate(answers: seq<bool>): real {
    if answers == [] then 0.0 else Wrong(answers) as real / |answers| as real
  }

  predicate Active(input: Input, factor: Factor) {
    match factor
    case Base => true
    case RepeatedErrors => Wrong(input.lastAnswers) >= 2
    case LowMastery => input.mastery < 0.5
    case SlowResponse => input.responseTimeSec > 20.0
    case HighErrorRate => ErrorRate(input.lastAnswers) >= 0.5
    case MathVisualConcept => Lower(input.concept) in ["sigmoid", "derivative", "gradient", "matrix"]
    case LowEnergy => input.energy == Low
    case MediumEnergy => input.energy == Medium
    case HighEnergy => input.energy == High
    case MidErrorRate => 0.3 <= ErrorRate(input.lastAnswers) < 0.7
    case HigherMastery => input.mastery >= 0.5
    case MidMastery => 0.4 <= input.mastery < 0.7
  }

  /** The weight an action gives to a signal, if the signal is active. */
  function On(input: Input, factor: Factor, weight: real): real {
    if Active(input, factor) then weight else 0.0
  }

  /** Total of the active ones among the first n weights. */
  function WeightSum(input: Input, weights: seq<(Factor, real)>, n: nat): real
    requires n <= |weights|
  {
    if n == 0 then 0.0
    else WeightSum(input, weights, n - 1) + On(input, weights[n - 1].0, weights[n - 1].1)
  }

  function ActiveFactors(input: Input, weights: seq<(Factor, real)>, n: nat): map<Factor, real>
    requires n <= |weights|
  {
    if n == 0 then map[]
    else
      var factors := ActiveFactors(input, weights, n - 1);
      if Active(input, weights[n - 1].0) then factors[weights[n - 1].0 := weights[n - 1].1] else factors
  }

  function Clamp01(n: real): real {
    if n < 0.0 then 0.0 else if n > 1.0 then 1.0 else n
  }

  function ScoreOf(input: Input, a: Action): real {
    Clamp01(WeightSum(input, Weights(a), |Weights(a)|))
  }

  method ScoreCandidate(input: Input, a: Action) returns (score: real, factors: map<Factor, real>)
    ensures score == ScoreOf(input, a)
    ensures factors == ActiveFactors(input, Weights(a), |Weights(a)|)
  {
    var weights := Weights(a);
    factors := map[];
    var sum := 0.0;
    var i := 0;
    while i < |weights|
      invariant 0 <= i <= |weights|
      invariant sum == WeightSum(input, weights, i)
      invariant factors == ActiveFactors(input, weights, i)
    {
      var w := weights[i];
      if Active(input, w.0) {
        factors := factors[w.0 := w.1];
        sum := sum + w.1;
      }
      i := i + 1;
    }
    score := Clamp01(sum);
  }

  lemma UnrollSum(input: Input, w: seq<(Factor, real)>)
    ensures |w| == 3 ==>
      WeightSum(input, w, 3) == On(input, w[0].0, w[0].1) + On(input, w[1].0, w[1].1) + On(input, w[2].0, w[2].1)
    ensures |w| == 5 ==>
      WeightSum(input, w, 5) == On(input, w[0].0, w[0].1) + On(input, w[1].0, w[1].1) + On(input, w[2].0, w[2].1)
      + On(input, w[3].0, w[3].1) + On(input, w[4].0, w[4].1)
    ensures |w| == 6 ==>
      WeightSum(input, w, 6) == On(input, w[0].0, w[0].1) + On(input, w[1].0, w[1].1) + On(input, w[2].0, w[2].1)
      + On(input, w[3].0, w[3].1) + On(input, w[4].0, w[4].1)
      + On(input, w[5].0, w[5].1)
  {
    if |w| >= 3 {
      assert WeightSum(input, w, 1) == On(input, w[0].0, w[0].1);
      assert WeightSum(input, w, 2) == WeightSum(input, w, 1) + On(input, w[1].0, w[1].1);
      assert WeightSum(input, w, 3) == WeightSum(input, w, 2) + On(input, w[2].0, w[2].1);
    }
    if |w| >= 5 {
      assert WeightSum(input, w, 4) == WeightSum(input, w, 3) + On(input, w[3].0, w[3].1);
      assert WeightSum(input, w, 5) == WeightSum(input, w, 4) + On(input, w[4].0, w[4].1);
    }
  }

  // ── The decision ──────────────────────────────────────────────────────

  datatype Reason =
    | Template(key: string) | DefaultTemplate | InheritedMember(key: string) | LowMasteryOf(concept: string)

  datatype Decision = Decision(
    action: Action,
    difficulty: Difficulty,
    reason: Reason,
    decisionScore: real,
    alternatives: seq<Action>,
    requiresHumanReview: bool
  )

  function PickDifficulty(mastery: real): Difficulty {
    if mastery < 0.4 then Beginner else if mastery < 0.7 then Intermediate else Advanced
  }

  function PickReason(concept: string, repeatedErrors: bool): Reason {
    var key := Lower(concept);
    if !repeatedErrors then LowMasteryOf(concept)
    else if key == "sigmoid" || key == "derivative" then Template(key)
    else if Inherited(key) then InheritedMember(key)
    else DefaultTemplate
  }

  function Round2(n: real): real {
    (n * 100.0 + 0.5).Floor as real / 100.0
  }

  method ApplyReviewPolicy(draft: Decision, input: Input) returns (r: Decision)
    ensures r == Reviewed(draft, input)
  {
    var requiresHumanReview := draft.requiresHumanReview;
    if draft.decisionScore < 0.5 {
      requiresHumanReview := true;
    }
    var recentWrong := Wrong(input.lastAnswers);
    if input.mastery >= 0.85 && recentWrong >= 2 {
      requiresHumanReview := true;
    }
    if input.energy == Low && draft.action == GrillMe {
      requiresHumanReview := true;
    }
    r := draft.(requiresHumanReview := requiresHumanReview);
  }

  function Reviewed(draft: Decision, input: Input): Decision {
    draft.(requiresHumanReview :=
      || draft.requiresHumanReview
      || draft.decisionScore < 0.5
      || (input.mastery >= 0.85 && Wrong(input.lastAnswers) >= 2)
      || (input.energy == Low && draft.action == GrillMe))
  }

  function NextTwo(ranked: seq<Action>): seq<Action>
    requires ranked != []
  {
    if |ranked| < 3 then ranked[1..] else ranked[1..3]
  }

  function Draft(score: Score, input: Input, ranked: seq<Action>): Decision
    requires ranked != []
  {
    Decision(
      ranked[0],
      PickDifficulty(input.mastery),
      PickReason(input.concept, Wrong(input.lastAnswers) >= 2),
      Round2(score(ranked[0])),
      NextTwo(ranked),
      false)
  }

  /** The decision for any score function. */
  function DecideBy(score: Score, input: Input, candidates: seq<Candidate>): Result<Decision, Error> {
    var ranked := Rank(score, ActionsOf(candidates));
    if ranked == [] then Err(NoCandidates) else Ok(Reviewed(Draft(score, input, ranked), input))
  }

  function DecideNextAction(input: Input, candidates: seq<Candidate>): Result<Decision, Error> {
    DecideBy(a => ScoreOf(input, a), input, candidates)
  }

  /** Suggestions cannot steer: for every score function, learner input and suggestion
      (any actions in any order, repeated or missing, any hint, or a throw), the decision
      is the one taken on the default candidates. */
  lemma SuggestionsCannotSteer(score: Score, input: Input, suggestion: Suggestion)
    requires Generated(input.concept, suggestion).Ok?
    ensures Generated(input.concept, NoSuggester).Ok?
    ensures DecideBy(score, input, Generated(input.concept, suggestion).value) ==
            DecideBy(score, input, Generated(input.concept, NoSuggester).value)
  {
    CandidatesAreAllActions(input.concept, suggestion);
    CandidatesAreAllActions(input.concept, NoSuggester);
    RankIgnoresOrder(score, ActionsOf(Generated(input.concept, suggestion).value),
                     ActionsOf(Generated(input.concept, NoSuggester).value));
  }

  /** The winner comes before every other action, the alternatives are the next two, and
      everything else comes after them. */
  predicate TopThree(score: Score, winner: Action, alternatives: seq<Action>) {
    && |alternatives| == 2
    && Before(score, winner, alternatives[0])
    && Before(score, alternatives[0], alternatives[1])
    && forall a: Action :: a != winner && a !in alternatives ==> Before(score, alternatives[1], a)
  }

  lemma RankedStartsWithTheTopThree(score: Score, ranked: seq<Action>)
    requires Sorted(ByScore(score), ranked) && AllOnce(ranked)
    ensures |ranked| == 7 && TopThree(score, ranked[0], NextTwo(ranked))
  {
    RankedIsStrict(score, ranked);
    var next := NextTwo(ranked);
    assert next == [ranked[1], ranked[2]];
    forall a: Action | a != ranked[0] && a !in next ensures Before(score, next[1], a) {
      ActionIsRanked(ranked, a);
      var k :| 0 <= k < |ranked| && ranked[k] == a;
      assert ranked[1] in next && ranked[2] in next;
      assert Before(score, ranked[2], ranked[k]);
    }
  }

  lemma TheDecisionIsTheTopThree(score: Score, input: Input, candidates: seq<Candidate>)
    requires AllOnce(ActionsOf(candidates))
    ensures DecideBy(score, input, candidates).Ok?
    ensures var d := DecideBy(score, input, candidates).value; TopThree(score, d.action, d.alternatives)
  {
    ScoreOrderIsTotal(score);
    SortIsSorted(ByScore(score), ActionsOf(candidates));
    RankedStartsWithTheTopThree(score, Rank(score, ActionsOf(candidates)));
  }

  lemma ActionIsRanked(ranked: seq<Action>, a: Action)
    requires AllOnce(ranked)
    ensures exists k :: 0 <= k < |ranked| && ranked[k] == a
  {
    EveryActionIsListed(a);
    assert a in multiset(ranked);
  }

  lemma RankedIsStrict(score: Score, ranked: seq<Action>)
    requires Sorted(ByScore(score), ranked) && AllOnce(ranked)
    ensures |ranked| == 7
    ensures forall i, j :: 0 <= i < j < 7 ==> Before(score, ranked[i], ranked[j])
  {
    assert |ranked| == |multiset(ranked)| == |multiset(ALL_ACTIONS)| == |ALL_ACTIONS|;
    ScoreOrderIsTotal(score);
    forall i, j | 0 <= i < j < 7 ensures Before(score, ranked[i], ranked[j]) {
      OnceMeansDistinct(ranked, i, j);
      assert !ByScore(score)(ranked[j], ranked[i]);
      assert Separates(ByScore(score), ranked);
    }
  }

  lemma OnceMeansDistinct(ranked: seq<Action>, i: nat, j: nat)
    requires i < j < |ranked| && AllOnce(ranked)
    ensures ranked[i] != ranked[j]
  {
    EveryActionIsListed(ranked[i]);
    DistinctMeansOnce(ALL_ACTIONS, ranked[i]);
    assert ranked == ranked[..j] + [ranked[j]] + ranked[j + 1..];
    assert ranked[i] == ranked[..j][i];
    assert multiset(ranked)[ranked[i]] ==
           multiset(ranked[..j])[ranked[i]] + multiset([ranked[j]])[ranked[i]] + multiset(ranked[j + 1..])[ranked[i]];
  }

  // ── What the weight table implies ─────────────────────────────────────

  lemma TopMeansMaximal(score: Score, winner: Action, alternatives: seq<Action>, a: Action)
    requires TopThree(score, winner, alternatives)
    ensures score(a) <= score(winner)
  {
    if a != winner && a !in alternatives {
      assert Before(score, alternatives[1], a);
    }
  }

  lemma TheWinnerIsBest(score: Score, input: Input, candidates: seq<Candidate>, a: Action)
    requires AllOnce(ActionsOf(candidates))
    ensures DecideBy(score, input, candidates).Ok?
    ensures score(a) <= score(DecideBy(score, input, candidates).value.action)
  {
    TheDecisionIsTheTopThree(score, input, candidates);
    var d := DecideBy(score, input, candidates).value;
    TopMeansMaximal(score, d.action, d.alternatives, a);
  }

  lemma VisualOutscoresSchema(input: Input)
    ensures ScoreOf(input, SchemaDiagram) < ScoreOf(input, VisualExplanation)
  {
    UnrollSum(input, Weights(SchemaDiagram));
    UnrollSum(input, Weights(VisualExplanation));
  }

  /** A schema diagram is always outscored by a visual explanation, so it is never chosen. */
  lemma SchemaDiagramIsNeverChosen(input: Input, candidates: seq<Candidate>)
    requires AllOnce(ActionsOf(candidates))
    ensures DecideNextAction(input, candidates).Ok?
    ensures DecideNextAction(input, candidates).value.action != SchemaDiagram
  {
    VisualOutscoresSchema(input);
    var score: Score := a => ScoreOf(input, a);
    TheWinnerIsBest(score, input, candidates, VisualExplanation);
    assert DecideNextAction(input, candidates) == DecideBy(score, input, candidates);
  }

  lemma GrillMeScoresLowAtLowEnergy(input: Input)
    requires input.energy == Low
    ensures ScoreOf(input, GrillMe) <= 0.4
  {
    UnrollSum(input, Weights(GrillMe));
  }

  /** The third review rule adds nothing: at low energy the grilling format scores below
      the low-score threshold, so review is required exactly when the score is low, or
      mastery is high despite two or more wrong answers. */
  lemma ReviewIffLowScoreOrConflict(input: Input, candidates: seq<Candidate>)
    requires candidates != []
    ensures DecideNextAction(input, candidates).Ok?
    ensures var d := DecideNextAction(input, candidates).value;
            && d.decisionScore == ScoreOf(input, d.action)
            && (d.requiresHumanReview <==>
                d.decisionScore < 0.5 || (input.mastery >= 0.85 && Wrong(input.lastAnswers) >= 2))
  {
    var actions := ActionsOf(candidates);
    var ranked := Rank(a => ScoreOf(input, a), actions);
    assert |ranked| == |multiset(ranked)| == |multiset(actions)| == |actions|;
    RoundingIsExact(input, ranked[0]);
    if input.energy == Low {
      GrillMeScoresLowAtLowEnergy(input);
    }
  }

  predicate Hundredths(r: real, n: int) {
    r * 100.0 == n as real
  }

  lemma {:induction false} SumInHundredths(input: Input, w: seq<(Factor, real)>, n: nat, h: seq<nat>)
    requires n <= |w| == |h|
    requires forall i :: 0 <= i < |w| ==> Hundredths(w[i].1, h[i])
    ensures exists k: nat :: Hundredths(WeightSum(input, w, n), k)
  {
    if n == 0 {
      assert Hundredths(WeightSum(input, w, n), 0);
    } else {
      SumInHundredths(input, w, n - 1, h);
      var k: nat :| Hundredths(WeightSum(input, w, n - 1), k);
      assert Hundredths(w[n - 1].1, h[n - 1]);
      assert Hundredths(WeightSum(input, w, n), if Active(input, w[n - 1].0) then k + h[n - 1] else k);
    }
  }

  function WeightsInHundredths(a: Action): seq<nat> {
    match a
    case VisualExplanation => [10, 22, 18, 8, 12, 8]
    case SchemaDiagram => [8, 12, 10, 10, 4]
    case Flashcards => [8, 15, 8, 10, 14]
    case GrillMe => [10, 15, 22, 10, 8, 12]
    case TextExplanation => [8, 15, 6]
    case PracticeQuiz => [8, 14, 8]
    case AudioExplanation => [8, 12, 6]
  }

  /** Every score is a whole number of hundredths, so rounding it to two places is exact. */
  lemma RoundingIsExact(input: Input, a: Action)
    ensures Round2(ScoreOf(input, a)) == ScoreOf(input, a)
  {
    var w := Weights(a);
    SumInHundredths(input, w, |w|, WeightsInHundredths(a));
    var k: nat :| Hundredths(WeightSum(input, w, |w|), k);
    var n := if k > 100 then 100 else k;
    assert Hundredths(ScoreOf(input, a), n);
    assert (n as real + 0.5).Floor == n;
  }
}
