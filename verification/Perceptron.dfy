/** The multiclass perceptron of the classifier experiment (internal/classifier/experiment.go). */
module Perceptron {
  import opened Sums
  import Sorting

  type Vector = map<string, real>

  datatype Example = Example(tag: string, features: Vector)

  datatype Model = Model(labels: seq<string>, bias: Vector, weights: map<string, Vector>)

  const EPOCHS := 14
  const MARGIN_CEIL := 6.0

  /** A key that is missing from a map reads as zero. */
  function At(v: Vector, k: string): real { if k in v then v[k] else 0.0 }

  function Weights(m: Model, tag: string): Vector { if tag in m.weights then m.weights[tag] else map[] }

  ghost function Term(w: Vector, x: Vector): string -> real { k => At(w, k) * At(x, k) }

  ghost function Score(m: Model, tag: string, x: Vector): real {
    At(m.bias, tag) + Sum(x.Keys, Term(Weights(m, tag), x))
  }

  method ScoreOf(m: Model, tag: string, x: Vector) returns (score: real)
    ensures score == Score(m, tag, x)
  {
    score := At(m.bias, tag);
    var w := Weights(m, tag);
    var rest := x.Keys;
    while rest != {}
      invariant rest <= x.Keys
      invariant score + Sum(rest, Term(w, x)) == Score(m, tag, x)
      decreases rest
    {
      var k :| k in rest;
      SumStep(score, rest, Term(w, x), k, At(w, k) * x[k]);
      score := score + At(w, k) * x[k];
      rest := rest - {k};
    }
  }

  /** Position `b` holds the first highest score among the first `n` labels. */
  ghost predicate IsBestAt(m: Model, x: Vector, b: nat, n: nat)
    requires b < n <= |m.labels|
  {
    && (forall i :: 0 <= i < n ==> Score(m, m.labels[i], x) <= Score(m, m.labels[b], x))
    && (forall i :: 0 <= i < b ==> Score(m, m.labels[i], x) < Score(m, m.labels[b], x))
  }

  ghost function BestAt(m: Model, x: Vector, n: nat): (b: nat)
    requires 0 < n <= |m.labels|
    ensures b < n
  {
    if n == 1 then 0
    else
      var b := BestAt(m, x, n - 1);
      if Score(m, m.labels[n - 1], x) > Score(m, m.labels[b], x) then n - 1 else b
  }

  ghost function Predicted(m: Model, x: Vector): string {
    if m.labels == [] then "" else m.labels[BestAt(m, x, |m.labels|)]
  }

  /** The prediction has the highest score, and is the first that has it. */
  lemma {:induction false} BestIsBest(m: Model, x: Vector, n: nat)
    requires 0 < n <= |m.labels|
    ensures IsBestAt(m, x, BestAt(m, x, n), n)
  {
    if n > 1 {
      BestIsBest(m, x, n - 1);
    }
  }

  /** The runner-up as the scan over the labels finds it. */
  ghost function SecondAt(m: Model, x: Vector, n: nat): real
    requires 2 <= n <= |m.labels|
  {
    var best, score := Score(m, m.labels[BestAt(m, x, n - 1)], x), Score(m, m.labels[n - 1], x);
    if score > best then best
    else if n == 2 || score > SecondAt(m, x, n - 1) then score
    else SecondAt(m, x, n - 1)
  }

  /** `second` is the highest of the first `n` scores other than that at `b`. */
  ghost predicate IsSecond(m: Model, x: Vector, n: nat, b: nat, second: real)
    requires n <= |m.labels|
  {
    && (forall i :: 0 <= i < n && i != b ==> Score(m, m.labels[i], x) <= second)
    && (exists i :: 0 <= i < n && i != b && Score(m, m.labels[i], x) == second)
  }

  /** One more label in the scan. */
  lemma ScanStep(m: Model, x: Vector, n: nat)
    requires 2 <= n <= |m.labels|
    ensures var b, score := BestAt(m, x, n - 1), Score(m, m.labels[n - 1], x);
            var best := Score(m, m.labels[b], x);
            && BestAt(m, x, n) == (if score > best then n - 1 else b)
            && SecondAt(m, x, n) == if score > best then best else
                if n == 2 || score > SecondAt(m, x, n - 1) then score else SecondAt(m, x, n - 1)
  {
    hide Score;
  }

  lemma OvertakenIsSecond(m: Model, x: Vector, n: nat, b: nat)
    requires 1 < n <= |m.labels| && b < n - 1 && IsBestAt(m, x, b, n - 1)
    ensures IsSecond(m, x, n, n - 1, Score(m, m.labels[b], x))
  {
    hide Score;
  }

  lemma OnlyOtherIsSecond(m: Model, x: Vector)
    requires 2 <= |m.labels|
    ensures IsSecond(m, x, 2, 0, Score(m, m.labels[1], x)) && BestAt(m, x, 1) == 0
  {
    hide Score;
  }

  /** The scan finds the highest score among the labels other than the best one. */
  lemma {:induction false} SecondIsSecond(m: Model, x: Vector, n: nat)
    requires 2 <= n <= |m.labels|
    ensures IsSecond(m, x, n, BestAt(m, x, n), SecondAt(m, x, n))
  {
    hide Score, BestAt, SecondAt, IsSecond, IsBestAt;
    var b := BestAt(m, x, n - 1);
    BestIsBest(m, x, n - 1);
    ScanStep(m, x, n);
    if Score(m, m.labels[n - 1], x) > Score(m, m.labels[b], x) {
      OvertakenIsSecond(m, x, n, b);
    } else if n == 2 {
      OnlyOtherIsSecond(m, x);
    } else {
      SecondIsSecond(m, x, n - 1);
      SecondStep(m, x, n, b, SecondAt(m, x, n - 1));
    }
  }

  lemma SecondStep(m: Model, x: Vector, n: nat, b: nat, second: real)
    requires 2 < n <= |m.labels| && b < n - 1 && IsSecond(m, x, n - 1, b, second)
    ensures var score := Score(m, m.labels[n - 1], x);
            IsSecond(m, x, n, b, if score > second then score else second)
  {
    hide Score;
    var score := Score(m, m.labels[n - 1], x);
    if score <= second {
      var i :| 0 <= i < n - 1 && i != b && Score(m, m.labels[i], x) == second;
      assert 0 <= i < n && i != b && Score(m, m.labels[i], x) == second;
    }
  }

  /** The score the margin is measured from: the runner-up, or 0 when there is no other tag. */
  ghost function RunnerUp(m: Model, x: Vector): real {
    if |m.labels| < 2 then 0.0 else SecondAt(m, x, |m.labels|)
  }

  function Clamp(margin: real): real {
    if margin < 0.0 then 0.0 else if margin > MARGIN_CEIL then MARGIN_CEIL else margin
  }

  /** What the scan holds after the first `n` labels. */
  ghost predicate Scanned(m: Model, x: Vector, n: nat, tag: string, best: real, seen: bool, second: real)
    requires 0 < n <= |m.labels|
  {
    && tag == m.labels[BestAt(m, x, n)] && best == Score(m, tag, x)
    && (seen <==> n >= 2) && second == if n >= 2 then SecondAt(m, x, n) else 0.0
  }

  lemma ScannedFirst(m: Model, x: Vector)
    requires m.labels != []
    ensures Scanned(m, x, 1, m.labels[0], Score(m, m.labels[0], x), false, 0.0)
  {
  }

  lemma ScannedNext(m: Model, x: Vector, n: nat, tag: string, best: real, seen: bool, second: real)
    requires 0 < n < |m.labels| && Scanned(m, x, n, tag, best, seen, second)
    ensures var score := Score(m, m.labels[n], x);
            if score > best then Scanned(m, x, n + 1, m.labels[n], score, true, best)
            else if !seen || score > second then Scanned(m, x, n + 1, tag, best, true, score)
            else Scanned(m, x, n + 1, tag, best, seen, second)
  {
    hide Score, BestAt, SecondAt;
    ScanStep(m, x, n + 1);
  }

  lemma ScannedAll(m: Model, x: Vector, tag: string, best: real, seen: bool, second: real)
    requires m.labels != [] && Scanned(m, x, |m.labels|, tag, best, seen, second)
    ensures tag == Predicted(m, x) && best - second == Score(m, tag, x) - RunnerUp(m, x)
  {
    hide Score, BestAt, SecondAt;
  }

  /** From a half, with no margin, to one, with the full margin. */
  function ConfidenceOf(margin: real): (c: real)
    ensures 0.5 <= c <= 1.0
  {
    0.5 + 0.5 * (Clamp(margin) / MARGIN_CEIL)
  }

  /** More margin never means less confidence. */
  lemma ConfidenceGrows(a: real, b: real)
    requires a <= b
    ensures ConfidenceOf(a) <= ConfidenceOf(b)
    ensures a <= 0.0 ==> ConfidenceOf(a) == 0.5
    ensures b >= MARGIN_CEIL ==> ConfidenceOf(b) == 1.0
  {
  }

  /** The label with the highest score, the first one on a tie, and a confidence from the margin over the runner-up. */
  method Predict(m: Model, x: Vector) returns (tag: string, confidence: real)
    ensures tag == Predicted(m, x)
    ensures m.labels == [] ==> confidence == 0.0
    ensures m.labels != [] ==> 0.5 <= confidence <= 1.0
    ensures m.labels != [] ==> confidence == ConfidenceOf(Score(m, tag, x) - RunnerUp(m, x))
  {
    if |m.labels| == 0 {
      return "", 0.0;
    }
    hide Score, Scanned, ConfidenceOf, Predicted, RunnerUp;
    var bestLabel := m.labels[0];
    var bestScore := ScoreOf(m, bestLabel, x);
    var seen, secondBest := false, 0.0;
    ScannedFirst(m, x);
    for i := 1 to |m.labels|
      invariant Scanned(m, x, i, bestLabel, bestScore, seen, secondBest)
    {
      var score := ScoreOf(m, m.labels[i], x);
      ScannedNext(m, x, i, bestLabel, bestScore, seen, secondBest);
      if score > bestScore {
        seen, secondBest := true, bestScore;
        bestScore := score;
        bestLabel := m.labels[i];
        continue;
      }
      if !seen || score > secondBest {
        seen, secondBest := true, score;
      }
    }
    ScannedAll(m, x, bestLabel, bestScore, seen, secondBest);
    confidence := ConfidenceOf(bestScore - secondBest);
    tag := bestLabel;
  }

  // ---------------------------------------------------------------- training

  /** `w` plus `c` times `x`. */
  function AddScaled(w: Vector, x: Vector, c: real): Vector {
    map k | k in w.Keys + x.Keys :: At(w, k) + c * At(x, k)
  }

  /** Move the vector of one label by `c` times an example, its bias by `c`. */
  function AddTo(m: Model, tag: string, c: real, x: Vector): Model {
    m.(bias := m.bias[tag := At(m.bias, tag) + c], weights := m.weights[tag := AddScaled(Weights(m, tag), x, c)])
  }

  /** The correction after a mistake: towards the true label, away from the predicted one. */
  function Update(m: Model, ex: Example, predicted: string): Model {
    AddTo(AddTo(m, ex.tag, 1.0, ex.features), predicted, -1.0, ex.features)
  }

  /** A way to label vectors with a model. */
  type Predictor = (Model, Vector) -> string

  /** A pass over the first `n` examples, and its mistakes. */
  ghost function Epoch(predict: Predictor, m: Model, examples: seq<Example>, n: nat): (Model, nat)
    requires n <= |examples|
    decreases n
  {
    if n == 0 then (m, 0)
    else
      var (m1, mistakes) := Epoch(predict, m, examples, n - 1);
      var ex := examples[n - 1];
      var predicted := predict(m1, ex.features);
      if predicted == ex.tag then (m1, mistakes) else (Update(m1, ex, predicted), mistakes + 1)
  }

  /** What training has produced: the model, all updates so far, and whether an epoch passed without one. */
  datatype Progress = Progress(model: Model, updates: nat, clean: bool)

  ghost function Trained(predict: Predictor, m: Model, examples: seq<Example>, epochs: nat): Progress
    decreases epochs
  {
    if epochs == 0 then Progress(m, 0, false)
    else
      var p := Trained(predict, m, examples, epochs - 1);
      if p.clean then p
      else
        var (m1, mistakes) := Epoch(predict, p.model, examples, |examples|);
        Progress(m1, p.updates + mistakes, mistakes == 0)
  }

  /** The whole training run on labels in this order. */
  ghost function Training(labels: seq<string>, examples: seq<Example>): Progress {
    Trained(Predicted, Initial(labels), examples, EPOCHS)
  }

  function Initial(labels: seq<string>): Model {
    Model(labels, map[], map l | l in labels :: map[])
  }

  ghost predicate LabelsOf(labels: seq<string>, examples: seq<Example>) {
    && Sorting.StrictlyAscending(labels)
    && forall l :: l in labels <==> exists i :: 0 <= i < |examples| && examples[i].tag == l
  }

  method SortedUniqueLabels(examples: seq<Example>) returns (labels: seq<string>)
    ensures LabelsOf(labels, examples)
  {
    var seen: set<string> := {};
    labels := [];
    for i := 0 to |examples|
      invariant forall l :: l in labels <==> l in seen
      invariant forall l :: l in seen <==> exists j :: 0 <= j < i && examples[j].tag == l
      invariant forall a, b :: 0 <= a < b < |labels| ==> labels[a] != labels[b]
    {
      if examples[i].tag in seen {
        continue;
      }
      seen := seen + {examples[i].tag};
      labels := labels + [examples[i].tag];
    }
    labels := Sorting.SortStrings(labels);
  }

  /** `AddScaled` restricted to the features in `done`. */
  function AddPart(w: Vector, x: Vector, c: real, done: set<string>): Vector {
    map k | k in w.Keys + done :: if k in done then At(w, k) + c * At(x, k) else At(w, k)
  }

  lemma AddPartStep(w: Vector, x: Vector, c: real, done: set<string>, f: string)
    requires f in x && f !in done
    ensures AddPart(w, x, c, done)[f := At(AddPart(w, x, c, done), f) + c * x[f]] == AddPart(w, x, c, done + {f})
  {
    var part, next := AddPart(w, x, c, done), AddPart(w, x, c, done + {f});
    var stepped := part[f := At(part, f) + c * x[f]];
    assert stepped.Keys == next.Keys;
    forall k | k in next
      ensures stepped[k] == next[k]
    {
      if k == f {
        assert At(part, f) == At(w, f) && At(x, f) == x[f];
      } else {
        assert stepped[k] == part[k];
      }
    }
  }

  lemma AddPartNone(w: Vector, x: Vector, c: real)
    ensures AddPart(w, x, c, {}) == w
  {
    var part := AddPart(w, x, c, {});
    assert w.Keys + {} == w.Keys;
    assert part.Keys == w.Keys;
    assert forall k :: k in w ==> part[k] == w[k];
  }

  lemma AddPartAll(w: Vector, x: Vector, c: real)
    ensures AddPart(w, x, c, x.Keys) == AddScaled(w, x, c)
  {
    var part, all := AddPart(w, x, c, x.Keys), AddScaled(w, x, c);
    assert part.Keys == all.Keys;
    forall k | k in part
      ensures part[k] == all[k]
    {
      if k !in x {
        assert At(x, k) == 0.0;
        assert c * 0.0 == 0.0;
      }
    }
  }

  /** A correction, field by field. */
  lemma UpdateIs(m: Model, ex: Example, predicted: string)
    requires predicted != ex.tag
    ensures var bias := m.bias[ex.tag := At(m.bias, ex.tag) + 1.0];
            Update(m, ex, predicted) ==
              Model(m.labels, bias[predicted := At(bias, predicted) - 1.0],
                    m.weights[ex.tag := AddScaled(Weights(m, ex.tag), ex.features, 1.0)]
                             [predicted := AddScaled(Weights(m, predicted), ex.features, -1.0)])
  {
    hide AddScaled;
  }

  /** The correction, feature by feature in any order. */
  method Correct(m: Model, ex: Example, predicted: string) returns (out: Model)
    requires predicted != ex.tag
    ensures out == Update(m, ex, predicted)
  {
    hide At, AddPart, AddScaled, Update, Weights;
    var bias := m.bias[ex.tag := At(m.bias, ex.tag) + 1.0];
    bias := bias[predicted := At(bias, predicted) - 1.0];
    var x := ex.features;
    var right, wrong := Weights(m, ex.tag), Weights(m, predicted);
    ghost var right0, wrong0 := right, wrong;
    AddPartNone(right, x, 1.0);
    AddPartNone(wrong, x, -1.0);
    var rest := x.Keys;
    ghost var done: set<string> := {};
    while rest != {}
      invariant rest == x.Keys - done && done <= x.Keys
      invariant right == AddPart(right0, x, 1.0, done)
      invariant wrong == AddPart(wrong0, x, -1.0, done)
      decreases rest
    {
      var f :| f in rest;
      AddPartStep(right0, x, 1.0, done, f);
      AddPartStep(wrong0, x, -1.0, done, f);
      right := right[f := At(right, f) + x[f]];
      wrong := wrong[f := At(wrong, f) - x[f]];
      rest := rest - {f};
      done := done + {f};
    }
    assert done == x.Keys;
    AddPartAll(right0, x, 1.0);
    AddPartAll(wrong0, x, -1.0);
    UpdateIs(m, ex, predicted);
    out := Model(m.labels, bias, m.weights[ex.tag := right][predicted := wrong]);
  }

  lemma EpochStep(predict: Predictor, m: Model, examples: seq<Example>, n: nat)
    requires n < |examples|
    ensures var before, ex := Epoch(predict, m, examples, n), examples[n];
            var predicted := predict(before.0, ex.features);
            Epoch(predict, m, examples, n + 1) ==
                if predicted == ex.tag then before else (Update(before.0, ex, predicted), before.1 + 1)
  {
    hide Update;
  }

  lemma EpochStart(predict: Predictor, m: Model, examples: seq<Example>)
    ensures Epoch(predict, m, examples, 0) == (m, 0)
  {
  }

  method RunEpoch(m: Model, examples: seq<Example>) returns (model: Model, mistakes: nat)
    ensures (model, mistakes) == Epoch(Predicted, m, examples, |examples|)
  {
    hide Epoch, Predicted, Update;
    EpochStart(Predicted, m, examples);
    model, mistakes := m, 0;
    for i := 0 to |examples|
      invariant (model, mistakes) == Epoch(Predicted, m, examples, i)
    {
      EpochStep(Predicted, m, examples, i);
      var predicted, confidence := Predict(model, examples[i].features);
      if predicted == examples[i].tag {
        continue;
      }
      mistakes := mistakes + 1;
      model := Correct(model, examples[i], predicted);
    }
  }

  method TrainLinearPerceptron(examples: seq<Example>) returns (model: Model)
    ensures LabelsOf(model.labels, examples)
    ensures model == Training(model.labels, examples).model
  {
    var labels := SortedUniqueLabels(examples);
    model := Initial(labels);
    var epoch := 0;
    while epoch < EPOCHS
      invariant 0 <= epoch <= EPOCHS
      invariant model == Trained(Predicted, Initial(labels), examples, epoch).model
      invariant !Trained(Predicted, Initial(labels), examples, epoch).clean
    {
      var mistakes;
      TrainedStep(Predicted, Initial(labels), examples, epoch);
      model, mistakes := RunEpoch(model, examples);
      epoch := epoch + 1;
      if mistakes == 0 {
        StaysClean(Predicted, Initial(labels), examples, epoch, EPOCHS);
        break;
      }
    }
    TrainedLabels(Predicted, Initial(labels), examples, EPOCHS);
  }

  lemma TrainedStep(predict: Predictor, m: Model, examples: seq<Example>, e: nat)
    requires !Trained(predict, m, examples, e).clean
    ensures var p, r := Trained(predict, m, examples, e),
            Epoch(predict, Trained(predict, m, examples, e).model, examples, |examples|);
            Trained(predict, m, examples, e + 1) == Progress(r.0, p.updates + r.1, r.1 == 0)
  {
  }

  /** Once an epoch passes without a mistake, training is over. */
  lemma {:induction false} StaysClean(predict: Predictor, m: Model, examples: seq<Example>, e: nat, epochs: nat)
    requires e <= epochs && Trained(predict, m, examples, e).clean
    ensures Trained(predict, m, examples, epochs) == Trained(predict, m, examples, e)
    decreases epochs - e
  {
    if e < epochs {
      StaysClean(predict, m, examples, e, epochs - 1);
    }
  }

  lemma {:induction false} EpochLabels(predict: Predictor, m: Model, examples: seq<Example>, n: nat)
    requires n <= |examples|
    ensures Epoch(predict, m, examples, n).0.labels == m.labels
  {
    if n > 0 {
      EpochLabels(predict, m, examples, n - 1);
    }
  }

  lemma {:induction false} TrainedLabels(predict: Predictor, m: Model, examples: seq<Example>, epochs: nat)
    ensures Trained(predict, m, examples, epochs).model.labels == m.labels
  {
    if epochs > 0 {
      TrainedLabels(predict, m, examples, epochs - 1);
      EpochLabels(predict, Trained(predict, m, examples, epochs - 1).model, examples, |examples|);
    }
  }

  // ---------------------------------------------------------------- the mistake bound

  /** All features that occur in the examples. */
  ghost function Space(examples: seq<Example>): set<string> {
    if examples == [] then {} else Space(examples[..|examples| - 1]) + examples[|examples| - 1].features.Keys
  }

  /** Inner product of two feature vectors over the features in `space`. */
  ghost function VectorDot(space: set<string>, v: Vector, w: Vector): real { Sum(space, Term(v, w)) }

  /** Inner product of what two models hold for one label, bias included. */
  ghost function LabelDot(space: set<string>, m: Model, u: Model): string -> real {
    l => At(m.bias, l) * At(u.bias, l) + VectorDot(space, Weights(m, l), Weights(u, l))
  }

  /** Inner product of two models over the given labels and features. */
  ghost function Dot(labels: set<string>, space: set<string>, m: Model, u: Model): real {
    Sum(labels, LabelDot(space, m, u))
  }

  /** Squared norm of an example, its constant bias feature included. */
  ghost function SquaredNorm(x: Vector): real { 1.0 + VectorDot(x.Keys, x, x) }

  lemma DotSymmetric(space: set<string>, v: Vector, w: Vector)
    ensures VectorDot(space, v, w) == VectorDot(space, w, v)
  {
    SumSame(space, Term(v, w), Term(w, v));
  }

  lemma AddScaledAt(w: Vector, x: Vector, c: real, k: string)
    ensures At(AddScaled(w, x, c), k) == At(w, k) + c * At(x, k)
  {
    if k !in w && k !in x {
      assert c * 0.0 == 0.0;
    }
  }

  lemma AddScaledTerm(w: Vector, x: Vector, c: real, u: Vector, k: string)
    ensures Term(AddScaled(w, x, c), u)(k) == Term(w, u)(k) + c * Term(x, u)(k)
  {
    AddScaledAt(w, x, c, k);
    hide AddScaled, At;
    Expand(At(w, k), c, At(x, k), At(u, k));
  }

  /** The inner product is linear in a scaled addition. */
  lemma AddScaledDot(space: set<string>, w: Vector, x: Vector, c: real, u: Vector)
    ensures VectorDot(space, AddScaled(w, x, c), u) == VectorDot(space, w, u) + c * VectorDot(space, x, u)
  {
    hide Sum, Term, AddScaled, At;
    var scaled := k => c * Term(x, u)(k);
    forall k
      ensures Term(AddScaled(w, x, c), u)(k) == Term(w, u)(k) + scaled(k)
    {
      AddScaledTerm(w, x, c, u, k);
    }
    SumAdd(space, Term(AddScaled(w, x, c), u), Term(w, u), scaled);
    SumScale(space, scaled, c, Term(x, u));
  }

  lemma Expand(a: real, c: real, b: real, u: real)
    ensures (a + c * b) * u == a * u + c * (b * u)
  {
  }

  /** Features outside an example do not count in a score. */
  lemma ScoreIsDot(space: set<string>, m: Model, tag: string, x: Vector)
    requires x.Keys <= space
    ensures Score(m, tag, x) == At(m.bias, tag) + VectorDot(space, x, Weights(m, tag))
  {
    var w := Weights(m, tag);
    forall k | k in space - x.Keys
      ensures Term(w, x)(k) == 0.0
    {
      assert At(x, k) == 0.0;
    }
    SumWiden(x.Keys, space, Term(w, x));
    DotSymmetric(space, w, x);
  }

  lemma MovedProduct(bias: real, c: real, other: real, dot: real, moved: real)
    ensures (bias + c) * other + (dot + c * moved) == (bias * other + dot) + c * (other + moved)
  {
  }

  lemma AddToAt(m: Model, tag: string, c: real, x: Vector)
    ensures At(AddTo(m, tag, c, x).bias, tag) == At(m.bias, tag) + c
    ensures Weights(AddTo(m, tag, c, x), tag) == AddScaled(Weights(m, tag), x, c)
  {
  }

  lemma LabelDotMoved(space: set<string>, m: Model, tag: string, c: real, x: Vector, u: Model)
    requires x.Keys <= space
    ensures LabelDot(space, AddTo(m, tag, c, x), u)(tag) == LabelDot(space, m, u)(tag) + c * Score(u, tag, x)
  {
    AddToAt(m, tag, c, x);
    hide VectorDot, Score, AddScaled, At, Weights, AddTo;
    var w, v := Weights(m, tag), Weights(u, tag);
    AddScaledDot(space, w, x, c, v);
    ScoreIsDot(space, u, tag, x);
    MovedProduct(At(m.bias, tag), c, At(u.bias, tag), VectorDot(space, w, v), VectorDot(space, x, v));
  }

  lemma LabelDotKept(space: set<string>, m: Model, tag: string, c: real, x: Vector, u: Model, l: string)
    requires l != tag
    ensures LabelDot(space, AddTo(m, tag, c, x), u)(l) == LabelDot(space, m, u)(l)
  {
    hide AddScaled, VectorDot;
  }

  /**
   Moving one label's vector by `c` times an example moves the inner product with any model
   by `c` times that model's score.
   */
  lemma AddToDot(labels: set<string>, space: set<string>, m: Model, tag: string, c: real, x: Vector, u: Model)
    requires tag in labels && x.Keys <= space
    ensures Dot(labels, space, AddTo(m, tag, c, x), u) == Dot(labels, space, m, u) + c * Score(u, tag, x)
  {
    hide Sum, LabelDot, AddTo, Score;
    var m' := AddTo(m, tag, c, x);
    forall l | l != tag
      ensures LabelDot(space, m', u)(l) == LabelDot(space, m, u)(l)
    {
      LabelDotKept(space, m, tag, c, x, u, l);
    }
    LabelDotMoved(space, m, tag, c, x, u);
    SumChange(labels, LabelDot(space, m, u), LabelDot(space, m', u), tag);
  }

  lemma Regroup(c: real, a: real, b: real)
    ensures c * (a + b) == c * a + c * b
  {
  }

  lemma DotModelsSymmetric(labels: set<string>, space: set<string>, m: Model, u: Model)
    ensures Dot(labels, space, m, u) == Dot(labels, space, u, m)
  {
    forall l
      ensures LabelDot(space, m, u)(l) == LabelDot(space, u, m)(l)
    {
      DotSymmetric(space, Weights(m, l), Weights(u, l));
    }
    SumSame(labels, LabelDot(space, m, u), LabelDot(space, u, m));
  }

  lemma AddToScore(m: Model, tag: string, c: real, x: Vector)
    ensures Score(AddTo(m, tag, c, x), tag, x) == Score(m, tag, x) + c * SquaredNorm(x)
  {
    AddScaledDot(x.Keys, Weights(m, tag), x, c, x);
    hide AddScaled, Sum;
    Regroup(c, 1.0, VectorDot(x.Keys, x, x));
  }

  lemma SquareOfMove(norm: real, mixed: real, moved: real, c: real, score: real, score': real, size: real)
    requires mixed == norm + c * score && moved == mixed + c * score' && score' == score + c * size
    ensures moved == norm + 2.0 * c * score + c * c * size
  {
    assert c * score' == c * score + c * (c * size);
  }

  /** ... and its own squared norm by the square of that. */
  lemma AddToNorm(labels: set<string>, space: set<string>, m: Model, tag: string, c: real, x: Vector)
    requires tag in labels && x.Keys <= space
    ensures var m' := AddTo(m, tag, c, x);
            Dot(labels, space, m', m') == Dot(labels, space, m, m) + 2.0 * c * Score(m, tag, x) + c * c * SquaredNorm(x)
  {
    hide *;
    var m' := AddTo(m, tag, c, x);
    AddToDot(labels, space, m, tag, c, x, m');
    DotModelsSymmetric(labels, space, m, m');
    AddToDot(labels, space, m, tag, c, x, m);
    AddToScore(m, tag, c, x);
    SquareOfMove(Dot(labels, space, m, m), Dot(labels, space, m, m'), Dot(labels, space, m', m'), c,
                 Score(m, tag, x), Score(m', tag, x), SquaredNorm(x));
  }

  lemma OtherScore(m: Model, tag: string, c: real, x: Vector, other: string)
    requires other != tag
    ensures Score(AddTo(m, tag, c, x), other, x) == Score(m, other, x)
  {
  }

  /** One correction: progress towards any separating model, and growth that the mistake keeps small. */
  lemma UpdateEffect(labels: set<string>, space: set<string>, m: Model, ex: Example, predicted: string, u: Model)
    requires ex.tag in labels && predicted in labels && predicted != ex.tag && ex.features.Keys <= space
    requires Score(m, ex.tag, ex.features) <= Score(m, predicted, ex.features)
    ensures var m', x := Update(m, ex, predicted), ex.features;
            && Dot(labels, space, m', u) == Dot(labels, space, m, u) + Score(u, ex.tag, x) - Score(u, predicted, x)
            && Dot(labels, space, m', m') <= Dot(labels, space, m, m) + 2.0 * SquaredNorm(x)
  {
    hide AddTo, Dot, Score, SquaredNorm;
    var x := ex.features;
    var m1 := AddTo(m, ex.tag, 1.0, x);
    AddToDot(labels, space, m, ex.tag, 1.0, x, u);
    AddToDot(labels, space, m1, predicted, -1.0, x, u);
    AddToNorm(labels, space, m, ex.tag, 1.0, x);
    AddToNorm(labels, space, m1, predicted, -1.0, x);
    OtherScore(m, ex.tag, 1.0, x, predicted);
  }

  /** `u` scores the true label of each example above every other by at least `margin`. */
  ghost predicate Separates(u: Model, labels: seq<string>, examples: seq<Example>, margin: real) {
    forall i, l :: 0 <= i < |examples| && l in labels && l != examples[i].tag ==>
      Score(u, examples[i].tag, examples[i].features) - Score(u, l, examples[i].features) >= margin
  }

  ghost predicate Bounded(examples: seq<Example>, radius2: real) {
    forall i :: 0 <= i < |examples| ==> SquaredNorm(examples[i].features) <= radius2
  }

  ghost function SetOf(labels: seq<string>): set<string> { set l | l in labels }

  /** The invariant of training after `n` updates. */
  ghost predicate Potential(labels: seq<string>, space: set<string>, m: Model, u: Model, n: nat, margin: real,
                            radius2: real)
  {
    && m.labels == labels
    && Dot(SetOf(labels), space, m, u) >= margin * n as real
    && Dot(SetOf(labels), space, m, m) <= 2.0 * radius2 * n as real
  }

  lemma {:induction false} SpaceHolds(examples: seq<Example>, i: nat)
    requires i < |examples|
    ensures examples[i].features.Keys <= Space(examples)
  {
    if i < |examples| - 1 {
      SpaceHolds(examples[..|examples| - 1], i);
    }
  }

  lemma PotentialStep(labels: seq<string>, space: set<string>, m: Model, ex: Example, predicted: string, u: Model,
                      n: nat, margin: real, radius2: real)
    requires Potential(labels, space, m, u, n, margin, radius2)
    requires labels != [] && predicted == Predicted(m, ex.features) && predicted != ex.tag && ex.tag in labels
    requires ex.features.Keys <= space && SquaredNorm(ex.features) <= radius2
    requires Score(u, ex.tag, ex.features) - Score(u, predicted, ex.features) >= margin
    ensures Potential(labels, space, Update(m, ex, predicted), u, n + 1, margin, radius2)
  {
    hide Dot, Score, SquaredNorm, AddTo;
    var b := BestAt(m, ex.features, |labels|);
    BestIsBest(m, ex.features, |labels|);
    var t :| 0 <= t < |labels| && labels[t] == ex.tag;
    assert Score(m, labels[t], ex.features) <= Score(m, labels[b], ex.features);
    UpdateEffect(SetOf(labels), space, m, ex, predicted, u);
    UpdateLabels(m, ex, predicted);
    NextMultiple(margin, n);
    NextMultiple(2.0 * radius2, n);
  }

  lemma UpdateLabels(m: Model, ex: Example, predicted: string)
    ensures Update(m, ex, predicted).labels == m.labels
  {
  }

  lemma NextMultiple(c: real, n: nat)
    ensures c * (n + 1) as real == c * n as real + c
  {
  }

  lemma PredictedLabel(labels: seq<string>, space: set<string>, m: Model, x: Vector, u: Model, n: nat, margin: real,
                       radius2: real)
    requires Potential(labels, space, m, u, n, margin, radius2) && labels != []
    ensures Predicted(m, x) in labels
  {
    hide Dot, Score;
    assert m.labels[BestAt(m, x, |m.labels|)] in m.labels;
  }

  lemma SeparatesOne(u: Model, labels: seq<string>, examples: seq<Example>, margin: real, i: nat, l: string)
    requires Separates(u, labels, examples, margin) && i < |examples| && l in labels && l != examples[i].tag
    ensures Score(u, examples[i].tag, examples[i].features) - Score(u, l, examples[i].features) >= margin
  {
  }

  /** Every example has a label of the model, is separated, and is bounded. */
  ghost predicate Learnable(labels: seq<string>, examples: seq<Example>, u: Model, margin: real, radius2: real) {
    && Separates(u, labels, examples, margin) && Bounded(examples, radius2)
    && forall i :: 0 <= i < |examples| ==> examples[i].tag in labels
  }

  lemma ExampleStep(labels: seq<string>, m: Model, examples: seq<Example>, i: nat, u: Model, n: nat, margin: real,
                    radius2: real)
    requires Learnable(labels, examples, u, margin, radius2) && i < |examples|
    requires Potential(labels, Space(examples), m, u, n, margin, radius2)
    ensures var ex := examples[i];
            var predicted := Predicted(m, ex.features);
            predicted != ex.tag ==> Potential(labels, Space(examples), Update(m, ex, predicted), u, n + 1, margin,
                radius2)
  {
    hide Potential, Update, Predicted, Score, SquaredNorm, Space;
    var ex := examples[i];
    var predicted := Predicted(m, ex.features);
    if predicted != ex.tag {
      SpaceHolds(examples, i);
      PredictedLabel(labels, Space(examples), m, ex.features, u, n, margin, radius2);
      SeparatesOne(u, labels, examples, margin, i, predicted);
      PotentialStep(labels, Space(examples), m, ex, predicted, u, n, margin, radius2);
    }
  }

  lemma {:induction false} EpochPotential(labels: seq<string>, m: Model, examples: seq<Example>, n: nat, u: Model,
                                          before: nat, margin: real, radius2: real)
    requires n <= |examples| && Potential(labels, Space(examples), m, u, before, margin, radius2)
    requires Learnable(labels, examples, u, margin, radius2)
    ensures var r := Epoch(Predicted, m, examples, n);
            Potential(labels, Space(examples), r.0, u, before + r.1, margin, radius2)
  {
    hide Potential, Update, Predicted, Learnable, Space;
    if n > 0 {
      EpochPotential(labels, m, examples, n - 1, u, before, margin, radius2);
      var (m1, mistakes) := Epoch(Predicted, m, examples, n - 1);
      ExampleStep(labels, m1, examples, n - 1, u, before + mistakes, margin, radius2);
    }
  }

  lemma {:induction false} TrainedPotential(labels: seq<string>, m: Model, examples: seq<Example>, epochs: nat,
                                            u: Model, margin: real, radius2: real)
    requires Potential(labels, Space(examples), m, u, 0, margin, radius2)
    requires Learnable(labels, examples, u, margin, radius2)
    ensures var p := Trained(Predicted, m, examples, epochs);
            Potential(labels, Space(examples), p.model, u, p.updates, margin, radius2)
  {
    hide Potential, Epoch, Learnable, Space;
    if epochs > 0 {
      TrainedPotential(labels, m, examples, epochs - 1, u, margin, radius2);
      var p := Trained(Predicted, m, examples, epochs - 1);
      EpochPotential(labels, p.model, examples, |examples|, u, p.updates, margin, radius2);
    }
  }

  // ---------------------------------------------------------------- Cauchy-Schwarz

  /** The quadratic form of |v - t w| squared in the products of v and w. */
  function Form(t: real, vv: real, vw: real, ww: real): real { vv - 2.0 * t * vw + t * t * ww }

  lemma SquareNonNegative(x: real)
    ensures x * x >= 0.0
  {
  }

  lemma FormOfSquare(t: real, a: real, b: real, aa: real, ab: real, bb: real)
    requires aa == a * a && ab == a * b && bb == b * b
    ensures Form(t, aa, ab, bb) >= 0.0
  {
    var d := a - t * b;
    SquareNonNegative(d);
    assert d * d == a * a - 2.0 * t * (a * b) + t * t * (b * b);
  }

  lemma AddForms(t: real, a: real, b: real, c: real, a': real, b': real, c': real)
    ensures Form(t, a + a', b + b', c + c') == Form(t, a, b, c) + Form(t, a', b', c')
  {
    assert 2.0 * t * (b + b') == 2.0 * t * b + 2.0 * t * b';
    assert t * t * (c + c') == t * t * c + t * t * c';
  }

  /** Termwise non-negative quadratic forms add up to one. */
  lemma {:induction false} FormSum(keys: set<string>, f: string -> real, g: string -> real, h: string -> real, t: real)
    requires forall k :: k in keys ==> Form(t, f(k), g(k), h(k)) >= 0.0
    ensures Form(t, Sum(keys, f), Sum(keys, g), Sum(keys, h)) >= 0.0
    decreases keys
  {
    if k :| k in keys {
      hide Form;
      SumPick(keys, f, k);
      SumPick(keys, g, k);
      SumPick(keys, h, k);
      FormSum(keys - {k}, f, g, h, t);
      AddForms(t, f(k), g(k), h(k), Sum(keys - {k}, f), Sum(keys - {k}, g), Sum(keys - {k}, h));
    } else {
      assert keys == {} && Sum(keys, f) == Sum(keys, g) == Sum(keys, h) == 0.0;
      assert t * 0.0 == 0.0;
    }
  }

  lemma VectorForm(space: set<string>, v: Vector, w: Vector, t: real)
    ensures Form(t, VectorDot(space, v, v), VectorDot(space, v, w), VectorDot(space, w, w)) >= 0.0
  {
    hide Sum, Form;
    forall k | k in space
      ensures Form(t, Term(v, v)(k), Term(v, w)(k), Term(w, w)(k)) >= 0.0
    {
      FormOfSquare(t, At(v, k), At(w, k), Term(v, v)(k), Term(v, w)(k), Term(w, w)(k));
    }
    FormSum(space, Term(v, v), Term(v, w), Term(w, w), t);
  }

  lemma LabelForm(space: set<string>, m: Model, u: Model, t: real, l: string)
    ensures Form(t, LabelDot(space, m, m)(l), LabelDot(space, m, u)(l), LabelDot(space, u, u)(l)) >= 0.0
  {
    hide VectorDot, Form;
    var v, w := Weights(m, l), Weights(u, l);
    var aa := LabelDot(space, m, m)(l) - VectorDot(space, v, v);
    var ab := LabelDot(space, m, u)(l) - VectorDot(space, v, w);
    var bb := LabelDot(space, u, u)(l) - VectorDot(space, w, w);
    FormOfSquare(t, At(m.bias, l), At(u.bias, l), aa, ab, bb);
    VectorForm(space, v, w, t);
    AddForms(t, aa, ab, bb, VectorDot(space, v, v), VectorDot(space, v, w), VectorDot(space, w, w));
  }

  lemma DotForm(labels: set<string>, space: set<string>, m: Model, u: Model, t: real)
    ensures Form(t, Dot(labels, space, m, m), Dot(labels, space, m, u), Dot(labels, space, u, u)) >= 0.0
  {
    hide Sum, LabelDot, Form;
    forall l | l in labels
      ensures Form(t, LabelDot(space, m, m)(l), LabelDot(space, m, u)(l), LabelDot(space, u, u)(l)) >= 0.0
    {
      LabelForm(space, m, u, t, l);
    }
    FormSum(labels, LabelDot(space, m, m), LabelDot(space, m, u), LabelDot(space, u, u), t);
  }

  /** The value of `t` at which a non-negative quadratic form bounds its mixed coefficient. */
  function Vertex(a: real, b: real, c: real): real {
    if c != 0.0 then b / c else if b != 0.0 then (a + 1.0) / (2.0 * b) else 0.0
  }

  lemma VertexOfLine(a: real, b: real)
    requires b != 0.0
    ensures a - 2.0 * Vertex(a, b, 0.0) * b < 0.0
  {
    assert 2.0 * Vertex(a, b, 0.0) * b == a + 1.0;
  }

  lemma Discriminant(a: real, b: real, c: real)
    requires Form(Vertex(a, b, c), a, b, c) >= 0.0
    requires c >= 0.0
    ensures b * b <= a * c
  {
    var t := Vertex(a, b, c);
    if c != 0.0 {
      assert t * c == b;
      assert t * t * c == t * b;
      assert a - t * b >= 0.0;
      assert (a - t * b) * c >= 0.0;
      assert (a - t * b) * c == a * c - (t * c) * b;
    } else {
      assert t * t * c == 0.0;
      assert b == 0.0 || a - 2.0 * t * b < 0.0 by {
        if b != 0.0 { VertexOfLine(a, b); }
      }
    }
  }

  lemma {:induction false} SelfForm(keys: set<string>, f: string -> real)
    requires forall k :: k in keys ==> f(k) >= 0.0
    ensures Sum(keys, f) >= 0.0
    decreases keys
  {
    if k :| k in keys {
      SumPick(keys, f, k);
      SelfForm(keys - {k}, f);
    }
  }

  lemma DotNonNegative(labels: set<string>, space: set<string>, m: Model)
    ensures Dot(labels, space, m, m) >= 0.0
  {
    hide Sum;
    forall l | l in labels
      ensures LabelDot(space, m, m)(l) >= 0.0
    {
      var w := Weights(m, l);
      forall k ensures Term(w, w)(k) >= 0.0 {
        assert At(w, k) * At(w, k) >= 0.0;
      }
      SelfForm(space, Term(w, w));
      assert At(m.bias, l) * At(m.bias, l) >= 0.0;
    }
    SelfForm(labels, LabelDot(space, m, m));
  }

  /** Cauchy-Schwarz for models. */
  lemma CauchySchwarz(labels: set<string>, space: set<string>, m: Model, u: Model)
    ensures Dot(labels, space, m, u) * Dot(labels, space, m, u) <= Dot(labels, space, m, m) * Dot(labels, space, u, u)
  {
    hide Dot, Form, Vertex;
    var a, b, c := Dot(labels, space, m, m), Dot(labels, space, m, u), Dot(labels, space, u, u);
    DotForm(labels, space, m, u, Vertex(a, b, c));
    DotNonNegative(labels, space, u);
    Discriminant(a, b, c);
  }

  lemma InitialPotential(labels: seq<string>, space: set<string>, u: Model, margin: real, radius2: real)
    ensures Potential(labels, space, Initial(labels), u, 0, margin, radius2)
  {
    hide Sum;
    var m := Initial(labels);
    ZeroDot(SetOf(labels), space, labels, u);
    ZeroDot(SetOf(labels), space, labels, m);
    assert margin * 0.0 == 0.0 && 2.0 * radius2 * 0.0 == 0.0;
  }

  lemma ZeroDot(labels: set<string>, space: set<string>, all: seq<string>, u: Model)
    ensures Dot(labels, space, Initial(all), u) == 0.0
  {
    hide Sum;
    var m := Initial(all);
    forall l
      ensures LabelDot(space, m, u)(l) == 0.0
    {
      var w, v := Weights(m, l), Weights(u, l);
      forall k ensures Term(w, v)(k) == 0.0 {
        assert At(w, k) == 0.0;
      }
      ZeroSum(space, Term(w, v));
      assert At(m.bias, l) == 0.0;
    }
    ZeroSum(labels, LabelDot(space, m, u));
  }

  lemma {:induction false} ZeroSum(keys: set<string>, f: string -> real)
    requires forall k :: k in keys ==> f(k) == 0.0
    ensures Sum(keys, f) == 0.0
    decreases keys
  {
    if k :| k in keys {
      SumPick(keys, f, k);
      ZeroSum(keys - {k}, f);
    }
  }

  lemma BoundFromPotential(margin: real, n: nat, mixed: real, own: real, other: real, radius2: real)
    requires margin >= 0.0 && mixed >= margin * n as real && own <= 2.0 * radius2 * n as real && other >= 0.0
    requires mixed * mixed <= own * other
    ensures n == 0 || margin * margin * n as real <= 2.0 * radius2 * other
  {
    if n > 0 {
      var k := n as real;
      var d := margin * k;
      assert d >= 0.0;
      assert d * d <= mixed * mixed;
      assert own * other <= (2.0 * radius2 * k) * other;
      assert d * d == (margin * margin * k) * k;
      assert (2.0 * radius2 * k) * other == (2.0 * radius2 * other) * k;
      var left, right := margin * margin * k, 2.0 * radius2 * other;
      assert left * k <= right * k;
      Cancel(left, right, k);
    }
  }

  lemma Cancel(a: real, b: real, k: real)
    requires k > 0.0 && a * k <= b * k
    ensures a <= b
  {
    assert (b - a) * k >= 0.0;
  }

  lemma NoExamplesNoDot(labels: seq<string>, examples: seq<Example>, u: Model)
    requires LabelsOf(labels, examples) && examples == []
    ensures Dot(SetOf(labels), Space(examples), u, u) == 0.0
  {
    assert forall l :: l !in labels;
    assert SetOf(labels) == {};
  }

  lemma RadiusPositive(examples: seq<Example>, radius2: real)
    requires examples != [] && Bounded(examples, radius2)
    ensures radius2 >= 1.0
  {
    NonNegativeNorm(examples[0].features);
  }

  lemma ProductNonNegative(a: real, b: real)
    requires a >= 0.0 && b >= 0.0
    ensures 2.0 * a * b >= 0.0
  {
  }

  /** The bound is not negative, even on no examples. */
  lemma NonNegativeBound(labels: seq<string>, examples: seq<Example>, u: Model, radius2: real)
    requires LabelsOf(labels, examples) && Bounded(examples, radius2)
    ensures 2.0 * radius2 * Dot(SetOf(labels), Space(examples), u, u) >= 0.0
  {
    hide Dot, SquaredNorm;
    if examples == [] {
      NoExamplesNoDot(labels, examples, u);
    } else {
      DotNonNegative(SetOf(labels), Space(examples), u);
      RadiusPositive(examples, radius2);
      ProductNonNegative(radius2, Dot(SetOf(labels), Space(examples), u, u));
    }
  }

  lemma NonNegativeNorm(x: Vector)
    ensures SquaredNorm(x) >= 1.0
  {
    forall k ensures Term(x, x)(k) >= 0.0 {
      assert At(x, k) * At(x, k) >= 0.0;
    }
    SelfForm(x.Keys, Term(x, x));
  }

  /**
   The mistake bound.  If some model separates the examples with a margin, and
   every example has bounded norm, then the updates of the whole training run,
   over all epochs, times the squared margin are at most twice the squared radius
   times the squared norm of the separating model.
   */
  lemma MistakeBound(labels: seq<string>, examples: seq<Example>, u: Model, margin: real, radius2: real)
    requires LabelsOf(labels, examples) && margin >= 0.0
    requires Separates(u, labels, examples, margin) && Bounded(examples, radius2)
    ensures margin * margin * Training(labels, examples).updates as real
            <= 2.0 * radius2 * Dot(SetOf(labels), Space(examples), u, u)
  {
    hide Dot, Trained, Separates, SquaredNorm;
    var p := Training(labels, examples);
    var all, space := SetOf(labels), Space(examples);
    InitialPotential(labels, space, u, margin, radius2);
    TrainedPotential(labels, Initial(labels), examples, EPOCHS, u, margin, radius2);
    CauchySchwarz(all, space, p.model, u);
    DotNonNegative(all, space, u);
    BoundFromPotential(margin, p.updates, Dot(all, space, p.model, u), Dot(all, space, p.model, p.model),
        Dot(all, space, u, u), radius2);
    NonNegativeBound(labels, examples, u, radius2);
  }

  // ---------------------------------------------------------------- what training achieves

  /** An epoch without a mistake leaves the model alone, and it labels every example of the epoch right. */
  lemma {:induction false} CleanEpoch(predict: Predictor, m: Model, examples: seq<Example>, n: nat)
    requires n <= |examples| && Epoch(predict, m, examples, n).1 == 0
    ensures Epoch(predict, m, examples, n).0 == m
    ensures forall i :: 0 <= i < n ==> predict(m, examples[i].features) == examples[i].tag
  {
    if n > 0 {
      CleanEpoch(predict, m, examples, n - 1);
    }
  }

  /** Training ends with a model that makes no mistake on the examples, or has made a mistake in every epoch. */
  lemma {:induction false} CleanOrBusy(predict: Predictor, m: Model, examples: seq<Example>, epochs: nat)
    ensures var p := Trained(predict, m, examples, epochs);
            if p.clean then forall i :: 0 <= i < |examples|
                                        ==> predict(p.model, examples[i].features) == examples[i].tag
            else p.updates >= epochs
  {
    if epochs > 0 {
      CleanOrBusy(predict, m, examples, epochs - 1);
      var p := Trained(predict, m, examples, epochs - 1);
      if !p.clean && Epoch(predict, p.model, examples, |examples|).1 == 0 {
        CleanEpoch(predict, p.model, examples, |examples|);
      }
    }
  }

  ghost predicate LabelsAll(m: Model, examples: seq<Example>) {
    forall i :: 0 <= i < |examples| ==> Predicted(m, examples[i].features) == examples[i].tag
  }

  /** If training stopped early, the model labels every example right. */
  lemma StoppedEarlyIsPerfect(labels: seq<string>, examples: seq<Example>)
    requires Training(labels, examples).clean
    ensures LabelsAll(Training(labels, examples).model, examples)
  {
    hide Trained, Predicted;
    CleanOrBusy(Predicted, Initial(labels), examples, EPOCHS);
  }

  /**
   Examples that are separated widely enough are learnt: when fourteen times the
   squared margin exceeds twice the squared radius times the squared norm of the
   separating model, the trained model labels every example right.
   */
  lemma WideMarginIsLearnt(labels: seq<string>, examples: seq<Example>, u: Model, margin: real, radius2: real)
    requires LabelsOf(labels, examples) && margin >= 0.0
    requires Separates(u, labels, examples, margin) && Bounded(examples, radius2)
    requires margin * margin * 14.0 > 2.0 * radius2 * Dot(SetOf(labels), Space(examples), u, u)
    ensures LabelsAll(Training(labels, examples).model, examples)
  {
    hide Dot, Trained, Separates, Bounded, LabelsOf, Predicted;
    var p := Training(labels, examples);
    MistakeBound(labels, examples, u, margin, radius2);
    CleanOrBusy(Predicted, Initial(labels), examples, EPOCHS);
    assert p.clean by {
      MoreUpdates(margin * margin, EPOCHS, p.updates);
    }
  }

  lemma MoreUpdates(square: real, few: nat, many: nat)
    ensures few <= many && square >= 0.0 ==> square * few as real <= square * many as real
  {
  }

  // ---------------------------------------------------------------- spelt out

  lemma InitialScore(labels: seq<string>, tag: string, x: Vector)
    ensures Score(Initial(labels), tag, x) == 0.0
  {
    SumWiden({}, x.Keys, Term(Weights(Initial(labels), tag), x));
  }

  /** Training runs at most fourteen epochs from a model without biases and weights. */
  lemma TrainingSpelled(labels: seq<string>, examples: seq<Example>)
    ensures Training(labels, examples) == Trained(Predicted, Initial(labels), examples, 14)
    ensures Initial(labels).labels == labels
    ensures forall tag, x :: Score(Initial(labels), tag, x) == 0.0
  {
    hide Trained, Score;
    forall tag, x ensures Score(Initial(labels), tag, x) == 0.0 {
      InitialScore(labels, tag, x);
    }
  }

  /**
   A correction adds the example to the vector of the true label and takes it from that of
   the predicted one, biases by one.
   */
  lemma UpdateSpelled(m: Model, ex: Example, predicted: string, tag: string, k: string)
    requires predicted != ex.tag
    ensures var u, step := Update(m, ex, predicted), if tag == ex.tag then 1.0 else
            if tag == predicted then -1.0 else 0.0;
            && u.labels == m.labels && At(u.bias, tag) == At(m.bias, tag) + step
            && At(Weights(u, tag), k) == At(Weights(m, tag), k)
                + step * (if k in ex.features then ex.features[k] else 0.0)
  {
  }

  /**
   The prediction is the first label of highest score, or nothing without labels; the
   runner-up has the highest score of the others.
   */
  lemma PredictedSpelled(m: Model, x: Vector) returns (b: nat)
    ensures m.labels == [] ==> Predicted(m, x) == ""
    ensures m.labels != [] ==>
              && b < |m.labels| && Predicted(m, x) == m.labels[b]
              && (forall i :: 0 <= i < |m.labels| ==> Score(m, m.labels[i], x) <= Score(m, m.labels[b], x))
              && (forall i :: 0 <= i < b ==> Score(m, m.labels[i], x) < Score(m, m.labels[b], x))
    ensures |m.labels| >= 2 ==>
              var second := SecondAt(m, x, |m.labels|);
              && (forall i :: 0 <= i < |m.labels| && i != b ==> Score(m, m.labels[i], x) <= second)
              && (exists i :: 0 <= i < |m.labels| && i != b && Score(m, m.labels[i], x) == second)
  {
    hide Score, BestAt, SecondAt;
    var n := |m.labels|;
    b := 0;
    if n > 0 {
      b := BestAt(m, x, n);
      BestIsBest(m, x, n);
    }
    if n >= 2 {
      SecondIsSecond(m, x, n);
    }
  }

  /** The confidence rises evenly from a half without margin to one at margin six. */
  lemma ConfidenceSpelled(margin: real)
    ensures 0.0 <= margin <= 6.0 ==> ConfidenceOf(margin) == 0.5 + margin / 12.0
    ensures margin < 0.0 ==> ConfidenceOf(margin) == 0.5
    ensures margin > 6.0 ==> ConfidenceOf(margin) == 1.0
  {
  }
}
