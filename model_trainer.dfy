/** `ModelTrainer`: a fixed, ordered registry of three model families, a
    best-so-far slot replaced only on a strictly greater F1 score, one
    tracking run per family and, when a best model exists, one saved
    artifact and one "Best Model Selection" run.

    The randomized hyper-parameter search, the fitting, the predictions and
    the two metrics of one family are one opaque function `evaluate` from
    the family to its outcome or to the exception it raises; the training
    and test data, `cv` and `n_iter` are fixed inside it.  MLflow is an
    append-only log of runs (`Tracker`) and `joblib.dump` an append-only log
    of saved files (`ArtifactStore`). */
module Training {
  import opened Common

  /** A value of a hyper-parameter grid. */
  datatype ParamValue = Real(r: real) | Int(i: int) | NoneValue | Sizes(layers: seq<nat>) | Word(w: string)

  datatype Param = Param(name: string, values: seq<ParamValue>)

  datatype EstimatorKind = LogisticRegression | RandomForest | NeuralNetwork

  /** An unfitted estimator (all three are built with `random_state=42`)
      together with the grid searched for it. */
  datatype Family = Family(name: string, kind: EstimatorKind, randomState: int, grid: seq<Param>)

  /** `self.models`, in insertion order. */
  function Registry(): seq<Family> {
    [ Family("Logistic Regression", LogisticRegression, 42,
        [ Param("C", [Real(0.01), Real(0.1), Int(1), Int(10), Int(100)]),
          Param("max_iter", [Int(500), Int(1000), Int(2000)]) ]),
      Family("Random Forest", RandomForest, 42,
        [ Param("n_estimators", [Int(50), Int(100), Int(200)]),
          Param("max_depth", [NoneValue, Int(10), Int(20)]),
          Param("min_samples_split", [Int(2), Int(5), Int(10)]) ]),
      Family("Neural Network", NeuralNetwork, 42,
        [ Param("hidden_layer_sizes", [Sizes([32]), Sizes([64, 32]), Sizes([128, 64, 32])]),
          Param("activation", [Word("relu"), Word("tanh")]),
          Param("max_iter", [Int(200), Int(500), Int(1000)]) ]) ]
  }

  function Names(fs: seq<Family>): (r: seq<string>)
    ensures |r| == |fs| && forall i :: 0 <= i < |fs| ==> r[i] == fs[i].name
  {
    if fs == [] then [] else [fs[0].name] + Names(fs[1..])
  }

  /** Number of parameter combinations of a grid: the product of the list lengths. */
  function GridSize(grid: seq<Param>): nat {
    if grid == [] then 1 else |grid[0].values| * GridSize(grid[1..])
  }

  /** Candidates `RandomizedSearchCV` tries when every grid entry is a list:
      sampling without replacement, so at most the grid size. */
  function Candidates(grid: seq<Param>, nIter: nat): (n: nat)
    ensures n <= nIter && n <= GridSize(grid)
    ensures n == nIter || n == GridSize(grid)
  {
    if nIter <= GridSize(grid) then nIter else GridSize(grid)
  }

  /** The registry has three families with distinct names, so `results` can
      hold one entry for each. */
  lemma RegistryNames()
    ensures Names(Registry()) == ["Logistic Regression", "Random Forest", "Neural Network"]
    ensures Distinct(Names(Registry()))
  {
  }

  /** The grids have 15, 27 and 18 combinations, so the default `n_iter=10`
      tries ten distinct settings per family. */
  lemma RegistryGrids()
    ensures GridSize(Registry()[0].grid) == 15
    ensures GridSize(Registry()[1].grid) == 27
    ensures GridSize(Registry()[2].grid) == 18
    ensures forall i :: 0 <= i < |Registry()| ==> Candidates(Registry()[i].grid, 10) == 10
  {
    var g0, g1, g2 := Registry()[0].grid, Registry()[1].grid, Registry()[2].grid;
    assert GridSize(g0[2..]) == 1 && GridSize(g1[3..]) == 1 && GridSize(g2[3..]) == 1;
    assert GridSize(g0) == 5 * GridSize(g0[1..]);
    assert GridSize(g1) == 3 * GridSize(g1[1..]) && GridSize(g1[1..]) == 3 * GridSize(g1[2..]);
    assert GridSize(g2) == 3 * GridSize(g2[1..]) && GridSize(g2[1..]) == 2 * GridSize(g2[2..]);
  }

  /** A fitted estimator, `random_search.best_estimator_`; opaque. */
  datatype Estimator = Estimator(handle: nat)

  /** What one family's search yields: the refitted best estimator, its
      parameters, and its test accuracy and weighted F1. */
  datatype Outcome = Outcome(model: Estimator, bestParams: seq<(string, ParamValue)>, accuracy: real, f1: real)

  /** `results[name]`. */
  datatype Metrics = Metrics(accuracy: real, f1: real)

  /** A family that completed, with its outcome. */
  datatype Trial = Trial(name: string, outcome: Outcome)

  /** The best-so-far fields `best_score`, `best_model`, `best_model_name`. */
  datatype Slot = Slot(score: real, model: Option<Estimator>, name: string)

  /** The fields as `__init__` sets them: 0, None, "". */
  const InitialSlot: Slot := Slot(0.0, None, "")

  function SlotOf(t: Trial): Slot {
    Slot(t.outcome.f1, Some(t.outcome.model), t.name)
  }

  /** The update after one family: taken only on a strictly greater F1. */
  function Update(s: Slot, t: Trial): (r: Slot)
    ensures r.score >= s.score
  {
    if t.outcome.f1 > s.score then SlotOf(t) else s
  }

  /** The slot after the families `ts`, in order, starting from `s`. */
  function SelectBest(s: Slot, ts: seq<Trial>): Slot {
    if ts == [] then s else Update(SelectBest(s, ts[..|ts| - 1]), ts[|ts| - 1])
  }

  /** Trial `i` reaches the maximum F1 of `ts`, beats the starting score,
      and is the first trial to reach that maximum. */
  ghost predicate IsFirstMaximum(s: Slot, ts: seq<Trial>, i: int) {
    && 0 <= i < |ts|
    && ts[i].outcome.f1 > s.score
    && (forall j :: 0 <= j < |ts| ==> ts[j].outcome.f1 <= ts[i].outcome.f1)
    && (forall j :: 0 <= j < i ==> ts[j].outcome.f1 < ts[i].outcome.f1)
  }

  /** The selection loop computes the maximum: the resulting score bounds
      the starting score and every F1. */
  lemma {:induction false} SelectBestBounds(s: Slot, ts: seq<Trial>)
    ensures SelectBest(s, ts).score >= s.score
    ensures forall j :: 0 <= j < |ts| ==> ts[j].outcome.f1 <= SelectBest(s, ts).score
  {
    if ts != [] {
      var n := |ts| - 1;
      var init := ts[..n];
      SelectBestBounds(s, init);
      var p := SelectBest(s, init);
      assert SelectBest(s, ts) == Update(p, ts[n]);
      forall j | 0 <= j < |ts| ensures ts[j].outcome.f1 <= SelectBest(s, ts).score {
        if j < n {
          assert init[j] == ts[j];
        }
      }
    }
  }

  /** The slot is either the starting one, exactly when no F1 beats the
      starting score, or that of the first trial reaching the maximum. */
  lemma {:induction false} SelectBestIsFirstMaximum(s: Slot, ts: seq<Trial>)
    ensures SelectBest(s, ts) == s <==> forall j :: 0 <= j < |ts| ==> ts[j].outcome.f1 <= s.score
    ensures SelectBest(s, ts) == s || exists i :: IsFirstMaximum(s, ts, i) && SelectBest(s, ts) == SlotOf(ts[i])
  {
    SelectBestBounds(s, ts);
    if ts != [] {
      var n := |ts| - 1;
      var init := ts[..n];
      SelectBestIsFirstMaximum(s, init);
      SelectBestBounds(s, init);
      var p := SelectBest(s, init);
      assert SelectBest(s, ts) == Update(p, ts[n]);
      if ts[n].outcome.f1 > p.score {
        forall j | 0 <= j < n ensures ts[j].outcome.f1 < ts[n].outcome.f1 {
          assert init[j] == ts[j];
        }
        assert IsFirstMaximum(s, ts, n);
      } else if p != s {
        var i :| IsFirstMaximum(s, init, i) && p == SlotOf(init[i]);
        forall j | 0 <= j < i ensures ts[j].outcome.f1 < ts[i].outcome.f1 {
          assert init[j] == ts[j];
        }
        assert IsFirstMaximum(s, ts, i);
      } else {
        forall j | 0 <= j < |ts| ensures ts[j].outcome.f1 <= s.score {
          if j < n {
            assert init[j] == ts[j];
          }
        }
      }
    }
  }

  /** There is at most one first maximum, so it determines the slot. */
  lemma SelectBestPicksFirstMaximum(s: Slot, ts: seq<Trial>, i: int)
    requires IsFirstMaximum(s, ts, i)
    ensures SelectBest(s, ts) == SlotOf(ts[i])
  {
    SelectBestIsFirstMaximum(s, ts);
    var r := SelectBest(s, ts);
    assert ts[i].outcome.f1 > s.score;
    assert r != s;
    var k :| IsFirstMaximum(s, ts, k) && r == SlotOf(ts[k]);
    assert !(k < i) && !(i < k);
  }

  /** Ties go to the earlier family: a later trial with the same F1 as the
      current best does not take the slot. */
  lemma TieKeepsEarlier(s: Slot, t: Trial)
    requires t.outcome.f1 == s.score
    ensures Update(s, t) == s
  {
  }

  /** If every family scores 0 (or less), the fields keep their initial
      values: no best model and the name "". */
  lemma AllZeroKeepsInitial(ts: seq<Trial>)
    requires forall j :: 0 <= j < |ts| ==> ts[j].outcome.f1 <= 0.0
    ensures SelectBest(InitialSlot, ts) == InitialSlot
    ensures SelectBest(InitialSlot, ts).model.None?
  {
    SelectBestIsFirstMaximum(InitialSlot, ts);
  }

  /** Selecting over `ts1` and then over `ts2` is selecting over both in order. */
  lemma {:induction false} SelectBestAppend(s: Slot, ts1: seq<Trial>, ts2: seq<Trial>)
    ensures SelectBest(SelectBest(s, ts1), ts2) == SelectBest(s, ts1 + ts2)
    decreases |ts2|
  {
    if ts2 == [] {
      assert ts1 + ts2 == ts1;
    } else {
      var n := |ts2| - 1;
      var both := ts1 + ts2;
      assert both[..|both| - 1] == ts1 + ts2[..n];
      assert both[|both| - 1] == ts2[n];
      SelectBestAppend(s, ts1, ts2[..n]);
      assert SelectBest(s, both) == Update(SelectBest(s, ts1 + ts2[..n]), ts2[n]);
    }
  }

  /** The fields are not reset between calls: the slot left by a first call
      over `ts1` changes in a second call over `ts2` only if some F1 of the
      second call is strictly greater than the first call's best. */
  lemma SecondCall(s: Slot, ts1: seq<Trial>, ts2: seq<Trial>)
    ensures (forall j :: 0 <= j < |ts2| ==> ts2[j].outcome.f1 <= SelectBest(s, ts1).score) <==>
      SelectBest(s, ts1 + ts2) == SelectBest(s, ts1)
  {
    SelectBestAppend(s, ts1, ts2);
    SelectBestIsFirstMaximum(SelectBest(s, ts1), ts2);
  }

  /** Calling twice with the same outcomes (the searches are seeded) leaves
      the slot of the first call. */
  lemma RepeatedCallIsIdempotent(s: Slot, ts: seq<Trial>)
    ensures SelectBest(SelectBest(s, ts), ts) == SelectBest(s, ts)
  {
    SelectBestIsFirstMaximum(s, ts);
    SelectBestIsFirstMaximum(SelectBest(s, ts), ts);
  }

  /** The families that complete before the first one that raises, with
      their outcomes; all of `fs` when none raises. */
  function Completed(fs: seq<Family>, evaluate: Family -> Result<Outcome, string>): (r: seq<Trial>)
    ensures |r| <= |fs|
    ensures forall j :: 0 <= j < |r| ==>
      evaluate(fs[j]).Success? && r[j] == Trial(fs[j].name, evaluate(fs[j]).value)
    ensures |r| < |fs| ==> evaluate(fs[|r|]).Failure?
  {
    if fs == [] then []
    else match evaluate(fs[0])
      case Failure(_) => []
      case Success(o) => [Trial(fs[0].name, o)] + Completed(fs[1..], evaluate)
  }

  /** `results` after the trials `ts`. */
  function ResultsOf(ts: seq<Trial>): map<string, Metrics> {
    if ts == [] then map[]
    else
      var t := ts[|ts| - 1];
      ResultsOf(ts[..|ts| - 1])[t.name := Metrics(t.outcome.accuracy, t.outcome.f1)]
  }

  /** The names of the trials, in order. */
  function TrialNames(ts: seq<Trial>): seq<string> {
    seq(|ts|, i requires 0 <= i < |ts| => ts[i].name)
  }

  /** `results` has an entry for every completed family and no other. */
  lemma {:induction false} ResultsKeys(ts: seq<Trial>)
    ensures forall k :: k in ResultsOf(ts) <==> k in TrialNames(ts)
  {
    if ts != [] {
      var n := |ts| - 1;
      var init := ts[..n];
      ResultsKeys(init);
      var names, pre := TrialNames(ts), TrialNames(init);
      assert names == pre + [ts[n].name] by {
        forall i | 0 <= i < n ensures names[i] == pre[i] {
          assert init[i] == ts[i];
        }
      }
      assert ResultsOf(ts).Keys == ResultsOf(init).Keys + {ts[n].name};
    }
  }

  /** With distinct family names, each family's entry holds its own
      accuracy and F1. */
  lemma {:induction false} ResultsOnePerFamily(ts: seq<Trial>)
    requires Distinct(TrialNames(ts))
    ensures forall i :: 0 <= i < |ts| ==>
      ts[i].name in ResultsOf(ts) && ResultsOf(ts)[ts[i].name] == Metrics(ts[i].outcome.accuracy, ts[i].outcome.f1)
  {
    if ts != [] {
      var n := |ts| - 1;
      var init, t := ts[..n], ts[n];
      var names := TrialNames(ts);
      InitNamesDistinct(ts);
      ResultsOnePerFamily(init);
      var m := ResultsOf(init);
      var r := ResultsOf(ts);
      assert r == m[t.name := Metrics(t.outcome.accuracy, t.outcome.f1)];
      forall i | 0 <= i < n
        ensures ts[i].name in r && r[ts[i].name] == Metrics(ts[i].outcome.accuracy, ts[i].outcome.f1)
      {
        assert names[i] != names[n];
        assert init[i] == ts[i];
      }
    }
  }

  lemma InitNamesDistinct(ts: seq<Trial>)
    requires ts != [] && Distinct(TrialNames(ts))
    ensures Distinct(TrialNames(ts[..|ts| - 1]))
  {
    var n := |ts| - 1;
    var init := ts[..n];
    var names, pre := TrialNames(ts), TrialNames(init);
    forall i, j | 0 <= i < j < n ensures pre[i] != pre[j] {
      assert init[i] == ts[i] && init[j] == ts[j];
      assert names[i] != names[j];
    }
  }

  datatype RunStatus = Finished | Failed

  /** One MLflow run: its name, its final status, the parameters, metrics
      and models logged in it. */
  datatype Run = Run(runName: string, status: RunStatus, params: seq<(string, ParamValue)>,
                     metrics: seq<(string, real)>, models: seq<(string, Estimator)>)

  /** `f"{name} (RandomizedSearch)"`. */
  function RunName(familyName: string): string {
    familyName + " (RandomizedSearch)"
  }

  /** The run of a family that completed. */
  function FamilyRun(t: Trial): Run {
    Run(RunName(t.name), Finished, t.outcome.bestParams,
        [("accuracy", t.outcome.accuracy), ("f1_score", t.outcome.f1)], [(t.name, t.outcome.model)])
  }

  /** The run of the family that raised: `with mlflow.start_run` ends it as
      FAILED before anything was logged in it. */
  function FailedRun(familyName: string): Run {
    Run(RunName(familyName), Failed, [], [], [])
  }

  function BestRun(name: string, score: real, model: Estimator): Run {
    Run("Best Model Selection", Finished, [("best_model", Word(name))], [("best_f1_score", score)], [("best_model", model)])
  }

  /** A family's run, finished or failed, is named after the family and can
      never be taken for the "Best Model Selection" run. */
  lemma RunsAreTellable(t: Trial, familyName: string, name: string, score: real, model: Estimator)
    ensures FamilyRun(t).status == Finished && FailedRun(familyName).status == Failed
    ensures FamilyRun(t).runName[..|t.name|] == t.name
    ensures FamilyRun(t).runName != BestRun(name, score, model).runName
    ensures FailedRun(familyName).runName != BestRun(name, score, model).runName
  {
    var best := BestRun(name, score, model).runName;
    assert best[|best| - 1] == 'n';
    var r := RunName(t.name);
    assert r[..|t.name|] == t.name;
    assert r[|r| - 1] == ')';
    var f := RunName(familyName);
    assert f[|f| - 1] == ')';
  }

  function FamilyRuns(ts: seq<Trial>): (r: seq<Run>)
    ensures |r| == |ts| && forall i :: 0 <= i < |ts| ==> r[i] == FamilyRun(ts[i])
  {
    seq(|ts|, i requires 0 <= i < |ts| => FamilyRun(ts[i]))
  }

  const BestModelFile: string := "best_model.pkl"

  /** The MLflow tracking store: the active experiment and the runs, in order. */
  class Tracker {
    var experiment: string
    var runs: seq<Run>

    constructor ()
      ensures experiment == "Default" && runs == []
    {
      experiment, runs := "Default", [];
    }

    /** `mlflow.set_experiment(name)`. */
    method SetExperiment(name: string)
      modifies this
      ensures experiment == name && runs == old(runs)
    {
      experiment := name;
    }

    /** A run that has ended, appended to the log. */
    method Record(r: Run)
      modifies this
      ensures runs == old(runs) + [r] && experiment == old(experiment)
    {
      runs := runs + [r];
    }
  }

  /** The local files written by `joblib.dump`, in order. */
  class ArtifactStore {
    var saves: seq<(string, Estimator)>

    constructor ()
      ensures saves == []
    {
      saves := [];
    }

    method Dump(model: Estimator, file: string)
      modifies this
      ensures saves == old(saves) + [(file, model)]
    {
      saves := saves + [(file, model)];
    }
  }

  /** The log entries and files that follow the loop when it completed:
      a save and a best run exactly when a best model is set. */
  function BestRuns(s: Slot): (r: seq<Run>)
    ensures |r| <= 1 && (|r| == 1 <==> s.model.Some?)
  {
    if s.model.Some? then [BestRun(s.name, s.score, s.model.value)] else []
  }

  function BestSaves(s: Slot): (r: seq<(string, Estimator)>)
    ensures |r| <= 1 && (|r| == 1 <==> s.model.Some?)
  {
    if s.model.Some? then [(BestModelFile, s.model.value)] else []
  }

  /** One more completed family: the slot takes one update, `results`
      gains its entry and the log its run. */
  lemma AppendTrial(start: Slot, ts: seq<Trial>, t: Trial)
    ensures SelectBest(start, ts + [t]) == Update(SelectBest(start, ts), t)
    ensures ResultsOf(ts + [t]) == ResultsOf(ts)[t.name := Metrics(t.outcome.accuracy, t.outcome.f1)]
    ensures FamilyRuns(ts + [t]) == FamilyRuns(ts) + [FamilyRun(t)]
  {
    assert (ts + [t])[..|ts|] == ts;
  }

  /** A prefix of completed families that ends at the first failure, or at
      the end, is what `Completed` returns. */
  lemma CompletedIs(fs: seq<Family>, evaluate: Family -> Result<Outcome, string>, ts: seq<Trial>)
    requires |ts| <= |fs|
    requires forall j :: 0 <= j < |ts| ==>
      evaluate(fs[j]).Success? && ts[j] == Trial(fs[j].name, evaluate(fs[j]).value)
    requires |ts| < |fs| ==> evaluate(fs[|ts|]).Failure?
    ensures ts == Completed(fs, evaluate)
  {
    var c := Completed(fs, evaluate);
    assert |c| == |ts|;
  }

  /** The experiment name used when none is given. */
  const DefaultExperiment: string := "Credit Risk Assessment"

  class ModelTrainer {
    const models: seq<Family>
    var bestModel: Option<Estimator>
    var bestScore: real
    var bestModelName: string

    function Best(): Slot
      reads this
    {
      Slot(bestScore, bestModel, bestModelName)
    }

    /** `ModelTrainer(experiment_name="Credit Risk Assessment")`. */
    constructor (tracker: Tracker, experimentName: string := DefaultExperiment)
      modifies tracker
      ensures models == Registry() && Best() == InitialSlot
      ensures tracker.experiment == experimentName && tracker.runs == old(tracker.runs)
    {
      models := Registry();
      bestModel, bestScore, bestModelName := None, 0.0, "";
      new;
      tracker.SetExperiment(experimentName);
    }

    /** The comparison after each family: a strictly higher F1 replaces the
        best score, model and name. */
    method Consider(t: Trial)
      modifies this
      ensures Best() == Update(old(Best()), t)
    {
      if t.outcome.f1 > bestScore {
        bestScore := t.outcome.f1;
        bestModel := Some(t.outcome.model);
        bestModelName := t.name;
      }
    }

    /** The `for` loop of `train_and_evaluate`: the families in registry
        order, one run and one `results` entry each, the fields updated on a
        strictly greater F1; it stops at the first family that raises, whose
        run ends as FAILED, and reports that exception. */
    method RunFamilies(evaluate: Family -> Result<Outcome, string>, tracker: Tracker)
      returns (results: map<string, Metrics>, raised: Option<string>)
      modifies this, tracker
      ensures Best() == SelectBest(old(Best()), Completed(models, evaluate))
      ensures results == ResultsOf(Completed(models, evaluate))
      ensures tracker.experiment == old(tracker.experiment)
      ensures var ts := Completed(models, evaluate);
        if |ts| < |models| then
          && raised == Some(evaluate(models[|ts|]).error)
          && tracker.runs == old(tracker.runs) + FamilyRuns(ts) + [FailedRun(models[|ts|].name)]
        else
          raised == None && tracker.runs == old(tracker.runs) + FamilyRuns(ts)
    {
      ghost var start := Best();
      ghost var trials: seq<Trial> := [];
      results := map[];
      for i := 0 to |models|
        invariant |trials| == i
        invariant forall j :: 0 <= j < i ==>
          evaluate(models[j]).Success? && trials[j] == Trial(models[j].name, evaluate(models[j]).value)
        invariant Best() == SelectBest(start, trials)
        invariant results == ResultsOf(trials)
        invariant tracker.runs == old(tracker.runs) + FamilyRuns(trials)
        invariant tracker.experiment == old(tracker.experiment)
      {
        var name := models[i].name;
        var o := evaluate(models[i]);
        if o.Failure? {
          tracker.Record(FailedRun(name));
          CompletedIs(models, evaluate, trials);
          return results, Some(o.error);
        }
        var t := Trial(name, o.value);
        AppendTrial(start, trials, t);
        results := results[name := Metrics(o.value.accuracy, o.value.f1)];
        tracker.Record(FamilyRun(t));
        Consider(t);
        ghost var before := trials;
        trials := trials + [t];
        forall j | 0 <= j < i + 1
          ensures evaluate(models[j]).Success? && trials[j] == Trial(models[j].name, evaluate(models[j]).value)
        {
          if j < i {
            assert trials[j] == before[j];
          }
        }
      }
      CompletedIs(models, evaluate, trials);
      raised := None;
    }

    /** `train_and_evaluate`: the loop over the families; on the first
        exception the fields keep what the earlier families set and the
        exception propagates unchanged; otherwise the best model, if any, is
        saved and logged, and the results and the best name are returned. */
    method TrainAndEvaluate(evaluate: Family -> Result<Outcome, string>, tracker: Tracker, store: ArtifactStore)
      returns (r: Result<(map<string, Metrics>, string), string>)
      modifies this, tracker, store
      ensures Best() == SelectBest(old(Best()), Completed(models, evaluate))
      ensures tracker.experiment == old(tracker.experiment)
      ensures var ts := Completed(models, evaluate);
        |ts| < |models| ==>
          && r == Failure(evaluate(models[|ts|]).error)
          && tracker.runs == old(tracker.runs) + FamilyRuns(ts) + [FailedRun(models[|ts|].name)]
          && store.saves == old(store.saves)
      ensures var ts := Completed(models, evaluate);
        |ts| == |models| ==>
          && r == Success((ResultsOf(ts), bestModelName))
          && tracker.runs == old(tracker.runs) + FamilyRuns(ts) + BestRuns(Best())
          && store.saves == old(store.saves) + BestSaves(Best())
    {
      var results, raised := RunFamilies(evaluate, tracker);
      if raised.Some? {
        return Failure(raised.value);
      }
      if bestModel.Some? {
        store.Dump(bestModel.value, BestModelFile);
        tracker.Record(BestRun(bestModelName, bestScore, bestModel.value));
      }
      return Success((results, bestModelName));
    }
  }

  /** When no family raises, every family of the list completes, in order. */
  lemma {:induction false} NoFailureCompletesAll(fs: seq<Family>, evaluate: Family -> Result<Outcome, string>)
    requires forall i :: 0 <= i < |fs| ==> evaluate(fs[i]).Success?
    ensures |Completed(fs, evaluate)| == |fs|
    ensures TrialNames(Completed(fs, evaluate)) == Names(fs)
  {
  }

  /** Selection from the initial fields over any trials: the best model
      stays unset, with the name "" and no save and no best run, exactly
      when no F1 is above 0; otherwise the slot is the first maximum's. */
  lemma InitialSelection(ts: seq<Trial>)
    ensures var s := SelectBest(InitialSlot, ts);
      && (s.model.None? <==> forall i :: 0 <= i < |ts| ==> ts[i].outcome.f1 <= 0.0)
      && (s.model.None? ==> s.name == "" && BestRuns(s) == [] && BestSaves(s) == [])
      && (forall i :: IsFirstMaximum(InitialSlot, ts, i) ==> s.name == ts[i].name)
  {
    SelectBestIsFirstMaximum(InitialSlot, ts);
    var s := SelectBest(InitialSlot, ts);
    if s != InitialSlot {
      var i :| IsFirstMaximum(InitialSlot, ts, i) && s == SlotOf(ts[i]);
    }
    forall i | IsFirstMaximum(InitialSlot, ts, i) ensures s.name == ts[i].name {
      SelectBestPicksFirstMaximum(InitialSlot, ts, i);
    }
  }

  /** A call from the initial fields when no family raises, for any list
      of families: `results` is keyed by exactly the family names, and the
      returned name is "" when no F1 is above 0 and otherwise that of the
      first family with the maximal F1. */
  lemma CallFromInitial(fs: seq<Family>, evaluate: Family -> Result<Outcome, string>)
    requires forall i :: 0 <= i < |fs| ==> evaluate(fs[i]).Success?
    ensures var ts := Completed(fs, evaluate);
      var s := SelectBest(InitialSlot, ts);
      && TrialNames(ts) == Names(fs)
      && (forall k :: k in ResultsOf(ts) <==> k in Names(fs))
      && (s.model.None? <==> forall i :: 0 <= i < |ts| ==> ts[i].outcome.f1 <= 0.0)
      && (s.model.None? ==> s.name == "" && BestRuns(s) == [] && BestSaves(s) == [])
      && (forall i :: IsFirstMaximum(InitialSlot, ts, i) ==> s.name == fs[i].name)
  {
    var ts := Completed(fs, evaluate);
    NoFailureCompletesAll(fs, evaluate);
    ResultsKeys(ts);
    InitialSelection(ts);
  }

  /** The same for a fresh trainer's registry: the results are keyed by
      the three family names. */
  lemma FreshCall(evaluate: Family -> Result<Outcome, string>)
    requires forall i :: 0 <= i < |Registry()| ==> evaluate(Registry()[i]).Success?
    ensures TrialNames(Completed(Registry(), evaluate)) == ["Logistic Regression", "Random Forest", "Neural Network"]
    ensures forall k :: k in ResultsOf(Completed(Registry(), evaluate)) <==>
      k in ["Logistic Regression", "Random Forest", "Neural Network"]
  {
    var ts := Completed(Registry(), evaluate);
    CallFromInitial(Registry(), evaluate);
    RegistryNames();
    var names := Names(Registry());
    assert TrialNames(ts) == names;
    assert forall k :: k in ResultsOf(ts) <==> k in names;
  }
}
