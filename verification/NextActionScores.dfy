/**
 * What the decision depends on (src/learning/nba-engine.ts:25-172,
 * src/learning/review-policy.ts:16-36): scores in whole points out of a hundred, signal by
 * signal, as functions of mastery, energy, response time, concept and the number of wrong
 * answers; and which action wins where.
 */
module NextActionScores {
  import opened Common
  import opened Sorting
  import opened NextBestAction

  // ── Wrong answers ─────────────────────────────────────────────────────

  function WrongAnswers(answers: seq<bool>): nat {
    multiset(answers)[false]
  }

  lemma {:induction false} WrongCounts(answers: seq<bool>)
    ensures Wrong(answers) == WrongAnswers(answers)
  {
    if answers != [] {
      WrongCounts(answers[1..]);
      assert answers == [answers[0]] + answers[1..];
    }
  }

  /** Errors are repeated exactly if two different answers are wrong. */
  lemma RepeatedErrorsIff(input: Input)
    ensures Active(input, RepeatedErrors) <==>
      exists i, j :: 0 <= i < j < |input.lastAnswers| && !input.lastAnswers[i] && !input.lastAnswers[j]
  {
    WrongCounts(input.lastAnswers);
    TwoWrongIff(input.lastAnswers);
  }

  lemma {:induction false} OneWrongIff(answers: seq<bool>)
    ensures WrongAnswers(answers) >= 1 <==> exists i :: 0 <= i < |answers| && !answers[i]
  {
    if WrongAnswers(answers) >= 1 {
      assert false in multiset(answers);
      assert false in answers;
    }
    if i :| 0 <= i < |answers| && !answers[i] {
      assert false in answers;
      assert false in multiset(answers);
    }
  }

  lemma {:induction false} TwoWrongIff(answers: seq<bool>)
    ensures WrongAnswers(answers) >= 2 <==> exists i, j :: 0 <= i < j < |answers| && !answers[i] && !answers[j]
  {
    if answers != [] {
      var n := |answers| - 1;
      var front := answers[..n];
      assert answers == front + [answers[n]];
      TwoWrongIff(front);
      OneWrongIff(front);
      if WrongAnswers(answers) >= 2 {
        if answers[n] {
          var i, j :| 0 <= i < j < |front| && !front[i] && !front[j];
          assert !answers[i] && !answers[j];
        } else {
          var i :| 0 <= i < |front| && !front[i];
          assert !answers[i] && !answers[n];
        }
      }
      if i, j :| 0 <= i < j < |answers| && !answers[i] && !answers[j] {
        assert !front[i];
        if j < n {
          assert !front[j];
        }
      }
    }
  }

  /** The error rate is the share of wrong answers, between none and all; without answers there is none. */
  lemma ErrorRateIsAShare(answers: seq<bool>)
    ensures 0.0 <= ErrorRate(answers) <= 1.0 && ErrorRate([]) == 0.0
    ensures ErrorRate(answers) * |answers| as real == WrongAnswers(answers) as real
  {
    WrongCounts(answers);
    WrongIsNoMoreThanAll(answers);
    if answers != [] {
      ShareTimesWhole(WrongAnswers(answers), |answers|);
    }
  }

  /** It does not depend on the order of the answers. */
  lemma ErrorRateIgnoresOrder(answers: seq<bool>, other: seq<bool>)
    requires multiset(answers) == multiset(other)
    ensures ErrorRate(answers) == ErrorRate(other)
  {
    WrongCounts(answers);
    WrongCounts(other);
    assert |answers| == |multiset(answers)| == |multiset(other)| == |other|;
  }

  lemma ShareTimesWhole(w: nat, n: nat)
    requires w <= n && n > 0
    ensures 0.0 <= w as real / n as real <= 1.0 && (w as real / n as real) * n as real == w as real
  {}

  lemma {:induction false} WrongIsNoMoreThanAll(answers: seq<bool>)
    ensures WrongAnswers(answers) <= |answers|
  {
    if answers != [] {
      WrongIsNoMoreThanAll(answers[1..]);
      assert answers == [answers[0]] + answers[1..];
    }
  }

  // ── Signals and points ────────────────────────────────────────────────

  /** At least `num / den` of the answers are wrong. */
  predicate ShareIsAtLeast(answers: seq<bool>, num: nat, den: nat) {
    answers != [] && num * |answers| <= den * WrongAnswers(answers)
  }

  /** When a signal is on. */
  predicate Signal(input: Input, f: Factor) {
    match f
    case Base => true
    case RepeatedErrors => WrongAnswers(input.lastAnswers) > 1
    case LowMastery => !(input.mastery >= 0.5)
    case HigherMastery => input.mastery >= 0.5
    case MidMastery => !(input.mastery < 0.4) && input.mastery < 0.7
    case SlowResponse => !(input.responseTimeSec <= 20.0)
    case HighErrorRate => ShareIsAtLeast(input.lastAnswers, 1, 2)
    case MidErrorRate => ShareIsAtLeast(input.lastAnswers, 3, 10) && !ShareIsAtLeast(input.lastAnswers, 7, 10)
    case MathVisualConcept => Lower(input.concept) in {"derivative", "gradient", "matrix", "sigmoid"}
    case LowEnergy => input.energy == Energy.Low
    case MediumEnergy => input.energy == Energy.Medium
    case HighEnergy => input.energy == Energy.High
  }

  /** What a signal is worth to an action, in hundredths. */
  function Points(f: Factor, a: Action): nat {
    match f
    case Base => if a.VisualExplanation? || a.GrillMe? then 10 else 8
    case RepeatedErrors =>
      (match a
        case VisualExplanation => 22 case Flashcards => 14 case SchemaDiagram => 12 case GrillMe => 12 case _ => 0)
    case LowMastery =>
      (match a case VisualExplanation => 18 case Flashcards => 15 case SchemaDiagram => 10 case _ => 0)
    case SlowResponse =>
      (match a case VisualExplanation => 8 case Flashcards => 8 case AudioExplanation => 6 case _ => 0)
    case HighErrorRate => (match a case VisualExplanation => 8 case SchemaDiagram => 4 case _ => 0)
    case MathVisualConcept => (match a case VisualExplanation => 12 case SchemaDiagram => 10 case _ => 0)
    case LowEnergy => (match a case AudioExplanation => 12 case Flashcards => 10 case _ => 0)
    case MediumEnergy =>
      (match a case GrillMe => 15 case PracticeQuiz => 8 case TextExplanation => 6 case _ => 0)
    case HighEnergy => if a.GrillMe? then 22 else 0
    case MidErrorRate => if a.GrillMe? then 10 else 0
    case HigherMastery => (match a case TextExplanation => 15 case GrillMe => 8 case _ => 0)
    case MidMastery => if a.PracticeQuiz? then 14 else 0
  }

  function Gain(input: Input, f: Factor, a: Action): nat {
    if Signal(input, f) then Points(f, a) else 0
  }

  /** All the points an action gets. */
  function Total(input: Input, a: Action): nat {
    Gain(input, Base, a)
    + Gain(input, RepeatedErrors, a) + Gain(input, HighErrorRate, a) + Gain(input, MidErrorRate, a)
    + Gain(input, LowMastery, a) + Gain(input, MidMastery, a) + Gain(input, HigherMastery, a)
    + Gain(input, LowEnergy, a) + Gain(input, MediumEnergy, a) + Gain(input, HighEnergy, a)
    + Gain(input, SlowResponse, a) + Gain(input, MathVisualConcept, a)
  }

  lemma ShareIsRate(answers: seq<bool>, num: nat, den: nat)
    requires den > 0 && num > 0
    ensures ErrorRate(answers) >= num as real / den as real <==> ShareIsAtLeast(answers, num, den)
  {
    WrongCounts(answers);
    if answers != [] {
      CompareFractions(WrongAnswers(answers), |answers|, num, den);
    } else {
      assert num as real / den as real > 0.0;
    }
  }

  lemma CompareFractions(w: nat, n: nat, num: nat, den: nat)
    requires n > 0 && den > 0
    ensures w as real / n as real >= num as real / den as real <==> num * n <= den * w
  {
    var left, right := w as real / n as real, num as real / den as real;
    assert left * n as real == w as real && right * den as real == num as real;
    assert left * (n as real * den as real) == w as real * den as real;
    assert right * (n as real * den as real) == num as real * n as real;
    assert (w * den) as real == w as real * den as real;
    assert (num * n) as real == num as real * n as real;
    Scaled(left, right, n as real * den as real);
  }

  lemma Scaled(a: real, b: real, k: real)
    requires k > 0.0
    ensures a >= b <==> a * k >= b * k
  {}

  /** The signals of the program are these. */
  lemma SignalsAre(input: Input, f: Factor)
    ensures Active(input, f) <==> Signal(input, f)
  {
    WrongCounts(input.lastAnswers);
    ShareIsRate(input.lastAnswers, 1, 2);
    ShareIsRate(input.lastAnswers, 3, 10);
    ShareIsRate(input.lastAnswers, 7, 10);
  }

  // ── Scores ────────────────────────────────────────────────────────────

  lemma OnGains(input: Input, f: Factor, a: Action, weight: real)
    requires weight * 100.0 == Points(f, a) as real
    ensures On(input, f, weight) * 100.0 == Gain(input, f, a) as real
  {
    SignalsAre(input, f);
  }

  lemma {:induction false} AllGain(input: Input, a: Action, n: nat)
    requires n <= |Weights(a)|
    ensures WeightSum(input, Weights(a), n) * 100.0 == PartialTotal(input, a, n) as real
  {
    if n > 0 {
      AllGain(input, a, n - 1);
      WeightsAreWorth(a, n - 1);
      OnGains(input, Weights(a)[n - 1].0, a, Weights(a)[n - 1].1);
    }
  }

  lemma WeightsAreWorth(a: Action, i: nat)
    requires i < |Weights(a)|
    ensures Weights(a)[i].1 * 100.0 == Points(Weights(a)[i].0, a) as real
  {}

  /** The points from the first `n` weights of an action. */
  function PartialTotal(input: Input, a: Action, n: nat): nat
    requires n <= |Weights(a)|
  {
    if n == 0 then 0 else PartialTotal(input, a, n - 1) + Gain(input, Weights(a)[n - 1].0, a)
  }

  lemma FirstThree(input: Input, a: Action)
    requires |Weights(a)| >= 3
    ensures PartialTotal(input, a, 3)
         == Gain(input, Weights(a)[0].0, a) + Gain(input, Weights(a)[1].0, a) + Gain(input, Weights(a)[2].0, a)
  {
    assert PartialTotal(input, a, 1) == PartialTotal(input, a, 0) + Gain(input, Weights(a)[0].0, a);
    assert PartialTotal(input, a, 2) == PartialTotal(input, a, 1) + Gain(input, Weights(a)[1].0, a);
  }

  lemma FirstSix(input: Input, a: Action)
    requires |Weights(a)| >= 5
    ensures var three := PartialTotal(input, a, 3);
      && PartialTotal(input, a, 5) == three + Gain(input, Weights(a)[3].0, a) + Gain(input, Weights(a)[4].0, a)
      && (|Weights(a)| == 6 ==>
            PartialTotal(input, a, 6) == PartialTotal(input, a, 5) + Gain(input, Weights(a)[5].0, a))
  {
    assert PartialTotal(input, a, 4) == PartialTotal(input, a, 3) + Gain(input, Weights(a)[3].0, a);
    assert PartialTotal(input, a, 5) == PartialTotal(input, a, 4) + Gain(input, Weights(a)[4].0, a);
  }

  lemma NoPointsNoGain(input: Input, f: Factor, a: Action)
    ensures Points(f, a) == 0 ==> Gain(input, f, a) == 0
  {}

  lemma ShortTables(input: Input, a: Action)
    requires a.TextExplanation? || a.PracticeQuiz? || a.AudioExplanation?
    ensures PartialTotal(input, a, 3) == Total(input, a) && |Weights(a)| == 3
  {
    FirstThree(input, a);
    forall f ensures Points(f, a) == 0 ==> Gain(input, f, a) == 0 {
      NoPointsNoGain(input, f, a);
    }
  }

  lemma LongTables(input: Input, a: Action)
    requires a.SchemaDiagram? || a.Flashcards?
    ensures PartialTotal(input, a, 5) == Total(input, a) && |Weights(a)| == 5
  {
    FirstThree(input, a);
    FirstSix(input, a);
  }

  lemma LongestTables(input: Input, a: Action)
    requires a.VisualExplanation? || a.GrillMe?
    ensures PartialTotal(input, a, 6) == Total(input, a) && |Weights(a)| == 6
  {
    FirstThree(input, a);
    FirstSix(input, a);
  }

  lemma NothingElseIsWorthAnything(input: Input, a: Action)
    ensures PartialTotal(input, a, |Weights(a)|) == Total(input, a)
  {
    if a.TextExplanation? || a.PracticeQuiz? || a.AudioExplanation? {
      ShortTables(input, a);
    } else if a.SchemaDiagram? || a.Flashcards? {
      LongTables(input, a);
    } else {
      LongestTables(input, a);
    }
  }

  /** What an action would get if every signal were on. */
  function AllPoints(a: Action): nat {
    Points(Base, a)
    + Points(RepeatedErrors, a) + Points(HighErrorRate, a) + Points(MidErrorRate, a)
    + Points(LowMastery, a) + Points(MidMastery, a) + Points(HigherMastery, a)
    + Points(LowEnergy, a) + Points(MediumEnergy, a) + Points(HighEnergy, a)
    + Points(SlowResponse, a) + Points(MathVisualConcept, a)
  }

  lemma AllPointsAreBounded(a: Action)
    ensures 8 <= Points(Base, a) && AllPoints(a) <= 78
  {}

  lemma GainsArePoints(input: Input, f: Factor, a: Action)
    ensures Gain(input, f, a) <= Points(f, a) && (f.Base? ==> Gain(input, f, a) == Points(f, a))
  {}

  /** No action can get more than 78 points, so a score is never cut off. */
  lemma TotalsAreBounded(input: Input, a: Action)
    ensures 8 <= Total(input, a) <= 78
  {
    forall f ensures Gain(input, f, a) <= Points(f, a) {
      GainsArePoints(input, f, a);
    }
    GainsArePoints(input, Base, a);
    AllPointsAreBounded(a);
  }

  /** The score of an action, in hundredths, is its total. */
  lemma ScoresAreTotals(input: Input, a: Action)
    ensures ScoreOf(input, a) * 100.0 == Total(input, a) as real
  {
    AllGain(input, a, |Weights(a)|);
    NothingElseIsWorthAnything(input, a);
    TotalsAreBounded(input, a);
  }

  /** The factors listed beside a score are the signals that are on and worth something, at their worth. */
  lemma FactorsAreTheGains(input: Input, a: Action, f: Factor)
    ensures var factors := ActiveFactors(input, Weights(a), |Weights(a)|);
      && (f in factors <==> Gain(input, f, a) > 0)
      && (f in factors ==> factors[f] * 100.0 == Gain(input, f, a) as real)
  {
    forall i | 0 <= i < |Weights(a)| ensures Weights(a)[i].1 * 100.0 == Points(Weights(a)[i].0, a) as real {
      WeightsAreWorth(a, i);
    }
    FactorsOfFirst(input, a, Weights(a), |Weights(a)|, f);
    WorthIsListed(a, f);
  }

  lemma WorthIsListed(a: Action, f: Factor)
    ensures Points(f, a) > 0 <==> Listed(Weights(a), |Weights(a)|, f)
  {
    var w := Weights(a);
    assert w[0].0 == Base && |w| >= 3;
    if Points(f, a) > 0 {
      var i := if w[0].0 == f then 0 else if w[1].0 == f then 1 else if w[2].0 == f then 2
               else if w[3].0 == f then 3 else if w[4].0 == f then 4 else 5;
      assert w[i].0 == f;
    }
  }

  predicate Listed(w: seq<(Factor, real)>, n: nat, f: Factor)
    requires n <= |w|
  {
    exists i :: 0 <= i < n && w[i].0 == f
  }

  lemma ListedUnfolds(w: seq<(Factor, real)>, n: nat, f: Factor)
    requires 0 < n <= |w|
    ensures Listed(w, n, f) <==> Listed(w, n - 1, f) || w[n - 1].0 == f
  {}

  lemma {:induction false} FactorsOfFirst(input: Input, a: Action, w: seq<(Factor, real)>, n: nat, f: Factor)
    requires n <= |w| && forall i :: 0 <= i < |w| ==> w[i].1 * 100.0 == Points(w[i].0, a) as real
    ensures var factors := ActiveFactors(input, w, n);
      && (f in factors <==> Signal(input, f) && Listed(w, n, f))
      && (f in factors ==> factors[f] * 100.0 == Points(f, a) as real)
  {
    if n > 0 {
      FactorsOfFirst(input, a, w, n - 1, f);
      SignalsAre(input, w[n - 1].0);
      ListedUnfolds(w, n, f);
    }
  }

  /** Turning a right answer into a wrong one never speaks against the formats for errors. */
  lemma MoreErrorsSpeakForRepetition(input: Input, i: nat, a: Action)
    requires i < |input.lastAnswers| && input.lastAnswers[i]
    requires a.VisualExplanation? || a.SchemaDiagram? || a.Flashcards?
    ensures ScoreOf(input, a) <= ScoreOf(input.(lastAnswers := input.lastAnswers[i := false]), a)
  {
    var worse := input.(lastAnswers := input.lastAnswers[i := false]);
    OneMoreWrong(input.lastAnswers, i);
    MoreErrorsMorePoints(input, worse, a);
    ScoresAreTotals(input, a);
    ScoresAreTotals(worse, a);
  }

  lemma MoreErrorsMorePoints(input: Input, worse: Input, a: Action)
    requires worse == input.(lastAnswers := worse.lastAnswers) && |worse.lastAnswers| == |input.lastAnswers|
    requires WrongAnswers(worse.lastAnswers) >= WrongAnswers(input.lastAnswers)
    requires a.VisualExplanation? || a.SchemaDiagram? || a.Flashcards?
    ensures Total(input, a) <= Total(worse, a)
  {
    forall f | f != MidErrorRate ensures Gain(input, f, a) <= Gain(worse, f, a) {
      assert Signal(input, f) ==> Signal(worse, f);
    }
  }

  lemma OneMoreWrong(answers: seq<bool>, i: nat)
    requires i < |answers| && answers[i]
    ensures WrongAnswers(answers[i := false]) == WrongAnswers(answers) + 1
  {}

  // ── Which action wins ─────────────────────────────────────────────────

  /** The decision taken among all actions. */
  predicate Decides(input: Input, candidates: seq<Candidate>, a: Action) {
    DecideNextAction(input, candidates).Ok? && DecideNextAction(input, candidates).value.action == a
  }

  /** The decision, taken among all actions, falls on this one with this many points. */
  predicate DecidesAt(input: Input, candidates: seq<Candidate>, a: Action, points: nat) {
    Decides(input, candidates, a)
    && DecideNextAction(input, candidates).value.decisionScore * 100.0 == points as real
  }

  predicate AsksForReview(input: Input, candidates: seq<Candidate>) {
    DecideNextAction(input, candidates).Ok? && DecideNextAction(input, candidates).value.requiresHumanReview
  }

  /** The action with the most points wins, and is reviewed if they are fewer than fifty or
      high mastery conflicts with two wrong answers. */
  lemma MostPointsWin(input: Input, candidates: seq<Candidate>, a: Action)
    requires AllOnce(ActionsOf(candidates))
    requires forall b: Action :: b != a ==> Total(input, b) < Total(input, a)
    ensures DecidesAt(input, candidates, a, Total(input, a))
    ensures AsksForReview(input, candidates) <==>
      Total(input, a) < 50 || (input.mastery >= 0.85 && WrongAnswers(input.lastAnswers) >= 2)
  {
    var score: Score := b => ScoreOf(input, b);
    TheWinnerIsBest(score, input, candidates, a);
    assert DecideNextAction(input, candidates) == DecideBy(score, input, candidates);
    var winner := DecideNextAction(input, candidates).value.action;
    ScoresAreTotals(input, a);
    ScoresAreTotals(input, winner);
    RoundingIsExact(input, winner);
    ReviewIffLowScoreOrConflict(input, candidates);
    WrongCounts(input.lastAnswers);
  }

  /** Of two actions with the most points, the one first by name wins. */
  lemma NamesBreakTies(input: Input, candidates: seq<Candidate>, a: Action, b: Action)
    requires AllOnce(ActionsOf(candidates)) && a != b
    requires Total(input, a) == Total(input, b) && forall c: Action :: Total(input, c) <= Total(input, a)
    ensures Decides(input, candidates, b) ==> Name(b)[0] < Name(a)[0]
  {
    var score: Score := c => ScoreOf(input, c);
    TheDecisionIsTheTopThree(score, input, candidates);
    assert DecideNextAction(input, candidates) == DecideBy(score, input, candidates);
    ScoresAreTotals(input, a);
    ScoresAreTotals(input, b);
    var d := DecideNextAction(input, candidates).value;
    if d.action == b {
      WinnerComesFirst(score, d.action, d.alternatives, a);
    }
  }

  lemma WinnerComesFirst(score: Score, winner: Action, alternatives: seq<Action>, a: Action)
    requires TopThree(score, winner, alternatives) && a != winner
    ensures Before(score, winner, a)
  {
    assert a in alternatives ==> a == alternatives[0] || a == alternatives[1];
  }

  /** The names the program compares; they differ in their first letters. */
  function Name(a: Action): (name: string)
    ensures name != ""
  {
    match a
    case VisualExplanation => "VISUAL_EXPLANATION"
    case TextExplanation => "TEXT_EXPLANATION"
    case Flashcards => "FLASHCARDS"
    case GrillMe => "GRILL_ME"
    case PracticeQuiz => "PRACTICE_QUIZ"
    case SchemaDiagram => "SCHEMA_DIAGRAM"
    case AudioExplanation => "AUDIO_EXPLANATION"
  }

  lemma NamesAreRanked(a: Action, b: Action)
    ensures NameRank(a) < NameRank(b) <==> Name(a)[0] < Name(b)[0]
  {}

  lemma VisualBeats(input: Input, b: Action)
    requires WrongAnswers(input.lastAnswers) >= 2 && input.mastery < 0.5 && input.energy != Energy.High
    requires b != VisualExplanation
    ensures Total(input, b) < Total(input, VisualExplanation) && Total(input, VisualExplanation) >= 50
  {}

  /** A struggling learner who is not at high energy gets a visual explanation, without review. */
  lemma RepeatedErrorsAtLowMastery(input: Input, candidates: seq<Candidate>)
    requires AllOnce(ActionsOf(candidates)) && WrongAnswers(input.lastAnswers) >= 2
    requires input.mastery < 0.5 && input.energy != Energy.High
    ensures Decides(input, candidates, VisualExplanation) && !AsksForReview(input, candidates)
  {
    VisualBeats(input, TextExplanation);
    forall b: Action | b != VisualExplanation ensures Total(input, b) < Total(input, VisualExplanation) {
      VisualBeats(input, b);
    }
    MostPointsWin(input, candidates, VisualExplanation);
  }

  lemma GrillBeatsAtHighEnergy(input: Input, b: Action)
    requires WrongAnswers(input.lastAnswers) < 2 && input.mastery >= 0.5 && input.energy == Energy.High
    requires b != GrillMe
    ensures Total(input, b) < Total(input, GrillMe)
    ensures Total(input, GrillMe) == if Signal(input, MidErrorRate) then 50 else 40
  {}

  /** One wrong answer of two or three. */
  predicate Middling(answers: seq<bool>) {
    2 <= |answers| <= 3 && WrongAnswers(answers) == 1
  }

  lemma OneErrorIsMiddling(input: Input)
    requires WrongAnswers(input.lastAnswers) < 2
    ensures Signal(input, MidErrorRate) <==> Middling(input.lastAnswers)
  {}

  /** A learner at high energy who knows half or more, with at most one error, is grilled;
      without review only if that was one error in two or three answers. */
  lemma HighEnergyAndMastery(input: Input, candidates: seq<Candidate>)
    requires AllOnce(ActionsOf(candidates)) && WrongAnswers(input.lastAnswers) < 2
    requires input.mastery >= 0.5 && input.energy == Energy.High
    ensures DecidesAt(input, candidates, GrillMe, if Middling(input.lastAnswers) then 50 else 40)
    ensures AsksForReview(input, candidates) <==> !Middling(input.lastAnswers)
  {
    OneErrorIsMiddling(input);
    GrillBeatsAtHighEnergy(input, TextExplanation);
    forall b: Action | b != GrillMe ensures Total(input, b) < Total(input, GrillMe) {
      GrillBeatsAtHighEnergy(input, b);
    }
    MostPointsWin(input, candidates, GrillMe);
  }

  lemma GrillBeatsAtMediumEnergy(input: Input, b: Action)
    requires WrongAnswers(input.lastAnswers) == 0 && input.mastery >= 0.5 && input.energy == Energy.Medium
    requires b != GrillMe
    ensures Total(input, b) < Total(input, GrillMe) == 33
  {}

  /** Without errors, at medium energy and half the mastery or more: grilled, for review. */
  lemma MediumEnergyAndMastery(input: Input, candidates: seq<Candidate>)
    requires AllOnce(ActionsOf(candidates)) && WrongAnswers(input.lastAnswers) == 0
    requires input.mastery >= 0.5 && input.energy == Energy.Medium
    ensures DecidesAt(input, candidates, GrillMe, 33) && AsksForReview(input, candidates)
  {
    GrillBeatsAtMediumEnergy(input, TextExplanation);
    forall b: Action | b != GrillMe ensures Total(input, b) < Total(input, GrillMe) {
      GrillBeatsAtMediumEnergy(input, b);
    }
    MostPointsWin(input, candidates, GrillMe);
  }

  predicate VisualConcept(input: Input) {
    Lower(input.concept) in {"derivative", "gradient", "matrix", "sigmoid"}
  }

  lemma FlashcardsBeat(input: Input, b: Action)
    requires WrongAnswers(input.lastAnswers) == 0 && input.mastery < 0.5 && input.energy == Energy.Low
    requires !VisualConcept(input) && b != Flashcards
    ensures Total(input, b) < Total(input, Flashcards) == if input.responseTimeSec > 20.0 then 41 else 33
  {}

  /** Without errors, at low energy and low mastery, with a plain concept: flashcards, for review. */
  lemma LowEnergyAndMastery(input: Input, candidates: seq<Candidate>)
    requires AllOnce(ActionsOf(candidates)) && WrongAnswers(input.lastAnswers) == 0
    requires input.mastery < 0.5 && input.energy == Energy.Low && !VisualConcept(input)
    ensures DecidesAt(input, candidates, Flashcards, if input.responseTimeSec > 20.0 then 41 else 33)
    ensures AsksForReview(input, candidates)
  {
    FlashcardsBeat(input, TextExplanation);
    forall b: Action | b != Flashcards ensures Total(input, b) < Total(input, Flashcards) {
      FlashcardsBeat(input, b);
    }
    MostPointsWin(input, candidates, Flashcards);
  }

  lemma VisualBeatsOnErrorsAlone(input: Input, b: Action)
    requires input.lastAnswers != [] && WrongAnswers(input.lastAnswers) == |input.lastAnswers| >= 2
    requires input.mastery >= 0.5 && input.energy == Energy.Low && b != VisualExplanation
    ensures Total(input, b) < Total(input, VisualExplanation)
    ensures Total(input, VisualExplanation)
         == 40 + (if input.responseTimeSec > 20.0 then 8 else 0) + if VisualConcept(input) then 12 else 0
  {}

  /** A tired learner who knows half or more but answered everything wrong gets a visual explanation. */
  lemma AllWrongAtLowEnergy(input: Input, candidates: seq<Candidate>)
    requires AllOnce(ActionsOf(candidates)) && WrongAnswers(input.lastAnswers) == |input.lastAnswers| >= 2
    requires input.mastery >= 0.5 && input.energy == Energy.Low
    ensures DecidesAt(input, candidates, VisualExplanation,
              40 + (if input.responseTimeSec > 20.0 then 8 else 0) + if VisualConcept(input) then 12 else 0)
  {
    VisualBeatsOnErrorsAlone(input, TextExplanation);
    forall b: Action | b != VisualExplanation ensures Total(input, b) < Total(input, VisualExplanation) {
      VisualBeatsOnErrorsAlone(input, b);
    }
    MostPointsWin(input, candidates, VisualExplanation);
  }

  // ── The rest of the decision ──────────────────────────────────────────

  /** Difficulty follows mastery, the reason the number of wrong answers; review follows the
      score, or high mastery beside two wrong answers. */
  lemma TheRestOfTheDecision(input: Input, candidates: seq<Candidate>)
    requires candidates != []
    ensures DecideNextAction(input, candidates).Ok?
    ensures var d := DecideNextAction(input, candidates).value;
      && (d.difficulty == Beginner <==> input.mastery < 0.4)
      && (d.difficulty == Difficulty.Advanced <==> 0.7 <= input.mastery)
      && (d.reason == LowMasteryOf(input.concept) <==> WrongAnswers(input.lastAnswers) < 2)
      && (d.reason.Template? ==> d.reason.key == Lower(input.concept))
      && (d.reason.Template? <==>
            WrongAnswers(input.lastAnswers) >= 2 && Lower(input.concept) in {"sigmoid", "derivative"})
      && (d.reason.DefaultTemplate? <==>
            WrongAnswers(input.lastAnswers) >= 2 && Lower(input.concept) !in {"sigmoid", "derivative"}
            && Lower(input.concept) !in {"constructor", "__proto__"})
      && d.decisionScore * 100.0 == Total(input, d.action) as real
      && (d.requiresHumanReview <==>
            Total(input, d.action) < 50 || (input.mastery >= 0.85 && WrongAnswers(input.lastAnswers) >= 2))
  {
    ReviewIffLowScoreOrConflict(input, candidates);
    WrongCounts(input.lastAnswers);
    ScoresAreTotals(input, DecideNextAction(input, candidates).value.action);
  }

  // ── Candidates ────────────────────────────────────────────────────────

  /** Without a suggester the candidates are the preferred formats of the concept, then the others. */
  lemma DefaultCandidatesAre(concept: string)
    requires Lower(concept) !in {"constructor", "__proto__"}
    ensures var generated := Generated(concept, NoSuggester);
      && generated.Ok? && generated == Generated(concept, Threw)
      && (forall c :: c in generated.value ==> c.hint.None?)
      && ActionsOf(generated.value) == (
           if Lower(concept) == "sigmoid" then
             [VisualExplanation, SchemaDiagram, PracticeQuiz, TextExplanation, Flashcards, GrillMe, AudioExplanation]
           else if Lower(concept) == "derivative" then
             [VisualExplanation, TextExplanation, PracticeQuiz, Flashcards, GrillMe, SchemaDiagram, AudioExplanation]
           else
             [VisualExplanation, TextExplanation, Flashcards, GrillMe, PracticeQuiz, SchemaDiagram, AudioExplanation])
  {
    PlainActions(DefaultActions(concept), None);
    WithoutNothing();
    WithoutThoseForSigmoid();
    WithoutThoseForDerivative();
  }

  /** Where an action is found first. */
  function FirstAt(actions: seq<Action>, a: Action): nat {
    if actions == [] || actions[0] == a then 0 else 1 + FirstAt(actions[1..], a)
  }

  lemma {:induction false} FirstAtIs(actions: seq<Action>, a: Action)
    ensures if a in actions then FirstAt(actions, a) < |actions| && actions[FirstAt(actions, a)] == a
            else FirstAt(actions, a) == |actions|
  {
    if actions != [] && actions[0] != a {
      FirstAtIs(actions[1..], a);
      assert actions == [actions[0]] + actions[1..];
    }
  }

  lemma {:induction false} FirstAtOfBoth(before: seq<Action>, after: seq<Action>, a: Action)
    ensures FirstAt(before + after, a) == if a in before then FirstAt(before, a) else |before| + FirstAt(after, a)
  {
    if before == [] {
      assert before + after == after;
    } else {
      assert (before + after)[1..] == before[1..] + after;
      assert before == [before[0]] + before[1..];
      FirstAtOfBoth(before[1..], after, a);
    }
  }

  /** Each candidate that is kept is the first of its action, and they are kept in that order. */
  ghost predicate FirstInOrder(all: seq<Candidate>, kept: seq<Candidate>) {
    && (forall c :: c in kept ==>
          && FirstAt(ActionsOf(all), c.action) < |all| && all[FirstAt(ActionsOf(all), c.action)] == c)
    && forall i, j :: 0 <= i < j < |kept| ==>
         FirstAt(ActionsOf(all), kept[i].action) < FirstAt(ActionsOf(all), kept[j].action)
  }

  lemma {:induction false} FirstOccurrencesAreInOrder(all: seq<Candidate>)
    ensures FirstInOrder(all, FirstOccurrences(all))
  {
    if all != [] {
      var n := |all| - 1;
      var front, kept := all[..n], FirstOccurrences(all[..n]);
      FirstOccurrencesAreInOrder(front);
      assert ActionsOf(all) == ActionsOf(front) + [all[n].action];
      forall c | c in kept
        ensures FirstAt(ActionsOf(all), c.action) == FirstAt(ActionsOf(front), c.action) < n
      {
        FirstAtIs(ActionsOf(front), c.action);
        FirstAtOfBoth(ActionsOf(front), [all[n].action], c.action);
      }
      if all[n].action !in ActionsOf(front) {
        FirstAtOfBoth(ActionsOf(front), [all[n].action], all[n].action);
      }
    }
  }

  /**
   * With a suggester, what it suggests comes first, in its order and under its hint, and then
   * the other defaults in theirs: each candidate is where its action is first found.
   */
  lemma SuggestionsComeFirst(concept: string, actions: seq<Action>, hint: Option<string>)
    requires Lower(concept) !in {"constructor", "__proto__"}
    ensures var generated := Generated(concept, Suggested(actions, hint));
      var found := actions + ActionsOf(Generated(concept, NoSuggester).value);
      && generated.Ok?
      && (forall c :: c in generated.value ==> c.hint == if c.action in actions then hint else None)
      && forall i, j :: 0 <= i < j < |generated.value| ==>
           FirstAt(found, generated.value[i].action) < FirstAt(found, generated.value[j].action)
  {
    var base := BaseCandidates(concept);
    var all := Plain(actions, hint) + base;
    PlainActions(actions, hint);
    PlainActions(DefaultActions(concept), None);
    FirstOccurrencesAreInOrder(all);
    assert ActionsOf(all) == actions + ActionsOf(base);
    forall c | c in FirstOccurrences(all) ensures c.hint == if c.action in actions then hint else None {
      FirstAtOfBoth(actions, ActionsOf(base), c.action);
      FirstAtIs(actions, c.action);
    }
  }

  lemma PlainActions(actions: seq<Action>, hint: Option<string>)
    ensures ActionsOf(Plain(actions, hint)) == actions
    ensures forall c :: c in Plain(actions, hint) ==> c.hint == hint
  {}

  function Unless(a: Action, dropped: seq<Action>): seq<Action> {
    if a in dropped then [] else [a]
  }

  lemma WithoutFirst(a: Action, rest: seq<Action>, dropped: seq<Action>)
    ensures Without([a] + rest, dropped) == Unless(a, dropped) + Without(rest, dropped)
  {
    assert ([a] + rest)[1..] == rest;
  }

  lemma WithoutTwo(a: Action, b: Action, rest: seq<Action>, dropped: seq<Action>)
    ensures Without([a, b] + rest, dropped) == Unless(a, dropped) + (Unless(b, dropped) + Without(rest, dropped))
  {
    WithoutFirst(b, rest, dropped);
    WithoutFirst(a, [b] + rest, dropped);
    assert [a] + ([b] + rest) == [a, b] + rest;
  }

  lemma WithoutFour(a: Action, b: Action, c: Action, d: Action, rest: seq<Action>, dropped: seq<Action>)
    ensures Without([a, b, c, d] + rest, dropped)
         == Unless(a, dropped)
           + (Unless(b, dropped) + (Unless(c, dropped) + (Unless(d, dropped) + Without(rest, dropped))))
  {
    WithoutTwo(c, d, rest, dropped);
    WithoutTwo(a, b, [c, d] + rest, dropped);
    assert [a, b] + ([c, d] + rest) == [a, b, c, d] + rest;
  }

  lemma WithoutThree(a: Action, b: Action, c: Action, dropped: seq<Action>)
    ensures Without([a, b, c], dropped) == Unless(a, dropped) + (Unless(b, dropped) + Unless(c, dropped))
  {
    WithoutFirst(c, [], dropped);
    assert [c] + [] == [c];
    WithoutFirst(b, [c], dropped);
    assert [b] + [c] == [b, c];
    WithoutFirst(a, [b, c], dropped);
    assert [a] + [b, c] == [a, b, c];
  }

  lemma WithoutOfAll(dropped: seq<Action>)
    ensures Without(ALL_ACTIONS, dropped)
         == Unless(VisualExplanation, dropped) + (Unless(TextExplanation, dropped)
            + (Unless(Flashcards, dropped) + (Unless(GrillMe, dropped)
            + (Unless(PracticeQuiz, dropped) + (Unless(SchemaDiagram, dropped) + Unless(AudioExplanation, dropped))))))
  {
    var rest := [PracticeQuiz, SchemaDiagram, AudioExplanation];
    WithoutFour(VisualExplanation, TextExplanation, Flashcards, GrillMe, rest, dropped);
    WithoutThree(PracticeQuiz, SchemaDiagram, AudioExplanation, dropped);
    assert ALL_ACTIONS == [VisualExplanation, TextExplanation, Flashcards, GrillMe] + rest;
  }

  lemma WithoutNothing()
    ensures Without(ALL_ACTIONS, []) == ALL_ACTIONS
  {
    WithoutOfAll([]);
  }

  lemma WithoutThoseForSigmoid()
    ensures Without(ALL_ACTIONS, [VisualExplanation, SchemaDiagram, PracticeQuiz])
         == [TextExplanation, Flashcards, GrillMe, AudioExplanation]
  {
    WithoutOfAll([VisualExplanation, SchemaDiagram, PracticeQuiz]);
  }

  lemma WithoutThoseForDerivative()
    ensures Without(ALL_ACTIONS, [VisualExplanation, TextExplanation, PracticeQuiz])
         == [Flashcards, GrillMe, SchemaDiagram, AudioExplanation]
  {
    WithoutOfAll([VisualExplanation, TextExplanation, PracticeQuiz]);
  }
}
