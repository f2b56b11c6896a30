/** `DataTransformation.initiate_data_transformation`: drop the identifier
    column, split off the label column, fit a standard scaler on the
    training features and apply the fitted scaler to both splits.  Reading
    the CSV files is replaced by the two tables read.  The scaler's mean and
    variance arithmetic is not modelled: a fitted scaler is represented by
    what it was fitted FROM, and a scaled matrix by the scaler state and the
    table it was applied to. */
module DataTransformation {
  import opened Common
  import opened Frames

  const IdColumn: string := "Customer ID"
  const LabelColumn: string := "Risk Classification"
  const FailurePrefix: string := "Data transformation failed due to "

  /** The input checks of scikit-learn's StandardScaler that can reject the
      features: a value that is not a number, no rows, no columns, feature
      names different from those seen in `fit`, and `transform` before `fit`. */
  datatype ScalerFault = NonNumericFeature | NoSamples | NoFeatures | FeatureNamesMismatch | NotFitted

  /** The exception caught by the `except` clause. */
  datatype Cause = KeyError(key: string) | ValueError(fault: ScalerFault)

  /** `str(e)`: a KeyError shows its key in quotes; scikit-learn's messages
      are represented by their opening words. */
  function Describe(c: Cause): string {
    match c
    case KeyError(k) => "'" + k + "'"
    case ValueError(NonNumericFeature) => "could not convert string to float"
    case ValueError(NoSamples) => "Found array with 0 sample(s)"
    case ValueError(NoFeatures) => "Found array with 0 feature(s)"
    case ValueError(FeatureNamesMismatch) => "The feature names should match those that were passed during fit."
    case ValueError(NotFitted) => "This StandardScaler instance is not fitted yet."
  }

  /** The message of the re-raised `Exception`. */
  function Message(c: Cause): (m: string)
    ensures |m| >= |FailurePrefix| && m[..|FailurePrefix|] == FailurePrefix
  {
    var d := Describe(c);
    assert (FailurePrefix + d)[..|FailurePrefix|] == FailurePrefix;
    FailurePrefix + d
  }

  /** A fitted scaler: the feature names and the training table it learned from. */
  datatype ScalerState = Fitted(features: seq<string>, sample: Table)

  /** The scaled matrix obtained by applying a fitted scaler to a table. */
  datatype Matrix = Scaled(scaler: ScalerState, input: Table) {
    function Rows(): nat { input.height }
  }

  /** No text value in any column (NaN is accepted by the scaler). */
  predicate AllNumeric(t: Table) {
    forall i, j :: 0 <= i < |t.cols| && 0 <= j < |t.cols[i]| ==> !t.cols[i][j].Text?
  }

  /** What `fit` rejects, in the order scikit-learn checks it: the float
      conversion, then the sample count, then the feature count. */
  function FitFault(x: Table): (f: Option<ScalerFault>)
    ensures f.None? <==> AllNumeric(x) && x.height > 0 && |x.names| > 0
    ensures f.Some? ==> f.value in {NonNumericFeature, NoSamples, NoFeatures}
  {
    if !AllNumeric(x) then Some(NonNumericFeature)
    else if x.height == 0 then Some(NoSamples)
    else if |x.names| == 0 then Some(NoFeatures)
    else None
  }

  /** What `transform` rejects, in the order scikit-learn checks it: the
      feature names first, but only when the input has columns (a frame
      without columns has no feature names, which only warns), then the
      float conversion, the sample count and the feature count. */
  function TransformFault(st: ScalerState, x: Table): (f: Option<ScalerFault>)
    ensures f.None? <==> x.names == st.features && AllNumeric(x) && x.height > 0 && |x.names| > 0
    ensures f == Some(FeatureNamesMismatch) <==> |x.names| > 0 && x.names != st.features
  {
    if |x.names| > 0 && x.names != st.features then Some(FeatureNamesMismatch)
    else if !AllNumeric(x) then Some(NonNumericFeature)
    else if x.height == 0 then Some(NoSamples)
    else if |x.names| == 0 then Some(NoFeatures)
    else None
  }

  /** `sc.transform(x)` for the scaler's current state. */
  function Apply(state: Option<ScalerState>, x: Table): (r: Result<Matrix, ScalerFault>)
    ensures r.Success? ==> state.Some? && r.value == Scaled(state.value, x) && r.value.Rows() == x.height
    ensures state.None? ==> r == Failure(NotFitted)
    ensures state.Some? ==> (r.Success? <==> TransformFault(state.value, x).None?)
    ensures state.Some? && r.Failure? ==> r.error != NotFitted
  {
    match state
    case None => Failure(NotFitted)
    case Some(st) => if TransformFault(st, x).Some? then Failure(TransformFault(st, x).value) else Success(Scaled(st, x))
  }

  /** `StandardScaler()`: `fit_transform` gives it state, `transform` reads it. */
  class StandardScaler {
    var state: Option<ScalerState>

    constructor ()
      ensures state == None
    {
      state := None;
    }

    /** `fit` resets the scaler and validates `x`. A rejected `x` leaves no
        usable fitted state (`None`); an accepted one is learned from. */
    method FitTransform(x: Table) returns (r: Result<Matrix, ScalerFault>)
      modifies this
      ensures FitFault(x).Some? ==> state == None && r == Failure(FitFault(x).value)
      ensures FitFault(x).None? ==>
        state == Some(Fitted(x.names, x)) && r == Success(Scaled(Fitted(x.names, x), x))
    {
      state := None;
      var fault := FitFault(x);
      if fault.Some? {
        return Failure(fault.value);
      }
      state := Some(Fitted(x.names, x));
      r := Success(Scaled(state.value, x));
    }

    method Transform(x: Table) returns (r: Result<Matrix, ScalerFault>)
      ensures r == Apply(state, x)
    {
      r := Apply(state, x);
    }
  }

  /** The returned tuple `(X_train_scaled, X_test_scaled, y_train, y_test)`. */
  datatype Split = Split(xTrain: Matrix, xTest: Matrix, yTrain: seq<Cell>, yTest: seq<Cell>)

  /** The feature table of a split: without the identifier and the label. */
  function Features(t: Table): (x: Table)
    requires WellFormed(t)
    ensures WellFormed(x) && x.height == t.height
    ensures IdColumn !in x.names && LabelColumn !in x.names
    ensures forall m :: m in x.names <==> m in t.names && m != IdColumn && m != LabelColumn
    ensures IsSubsequence(x.names, t.names)
  {
    var x := DropColumn(DropColumn(t, IdColumn), LabelColumn);
    SubsequenceTransitive(x.names, DropColumn(t, IdColumn).names, t.names);
    x
  }

  lemma {:induction false} SubsequenceTransitive(a: seq<string>, b: seq<string>, c: seq<string>)
    requires IsSubsequence(a, b) && IsSubsequence(b, c)
    ensures IsSubsequence(a, c)
    decreases |c|
  {
    if a != [] {
      if b[0] == c[0] && IsSubsequence(b[1..], c[1..]) {
        if a[0] == b[0] && IsSubsequence(a[1..], b[1..]) {
          SubsequenceTransitive(a[1..], b[1..], c[1..]);
        } else {
          SubsequenceTransitive(a, b[1..], c[1..]);
        }
      } else {
        SubsequenceTransitive(a, b, c[1..]);
      }
    }
  }

  /** `df['Risk Classification']` after the identifier was dropped: the
      label column of the split as read, or None where KeyError is raised. */
  function Labels(t: Table): (r: Option<seq<Cell>>)
    requires WellFormed(t)
    ensures r == Column(t, LabelColumn)
  {
    Column(DropColumn(t, IdColumn), LabelColumn)
  }

  /** What `initiate_data_transformation` computes, in its order: the train
      labels, the test labels, `fit_transform` on the train features, then
      `transform` on the test features; a Cause where an exception escapes. */
  function Transformation(train: Table, test: Table): (r: Result<Split, Cause>)
    requires WellFormed(train) && WellFormed(test)
    ensures r.Failure? && r.error.KeyError? ==> r.error.key == LabelColumn
    ensures r.Failure? && r.error.ValueError? ==> r.error.fault != NotFitted
  {
    match Labels(train)
    case None => Failure(KeyError(LabelColumn))
    case Some(yTrain) =>
      match Labels(test)
      case None => Failure(KeyError(LabelColumn))
      case Some(yTest) =>
        Scale(Features(train), Features(test), yTrain, yTest)
  }

  /** The scaler part of the call: `fit_transform` on the train features,
      then `transform` on the test features with the state just fitted. */
  function Scale(xTrain: Table, xTest: Table, yTrain: seq<Cell>, yTest: seq<Cell>): (r: Result<Split, Cause>)
    ensures r.Failure? ==> r.error.ValueError? && r.error.fault != NotFitted
    ensures r.Success? ==> r.value.xTrain.scaler == r.value.xTest.scaler == Fitted(xTrain.names, xTrain)
  {
    match FitFault(xTrain)
    case Some(f) => Failure(ValueError(f))
    case None =>
      var st := Fitted(xTrain.names, xTrain);
      match TransformFault(st, xTest)
      case Some(f) => Failure(ValueError(f))
      case None => Success(Split(Scaled(st, xTrain), Scaled(st, xTest), yTrain, yTest))
  }

  /** What the caller sees: the split, or the rewrapped message. */
  function Reported(res: Result<Split, Cause>): (r: Result<Split, string>)
    ensures r.Success? <==> res.Success?
    ensures r.Success? ==> r.value == res.value
    ensures r.Failure? ==> |r.error| >= |FailurePrefix| && r.error[..|FailurePrefix|] == FailurePrefix
  {
    match res
    case Success(s) => Success(s)
    case Failure(c) => Failure(Message(c))
  }

  /** `initiate_data_transformation` as written: in-place drops on two frames, a
      fresh scaler fitted on train and reused on test, and every exception
      re-raised as `Exception("Data transformation failed due to ...")`. */
  method InitiateDataTransformation(train: Table, test: Table) returns (r: Result<Split, string>)
    requires WellFormed(train) && WellFormed(test)
    ensures r == Reported(Transformation(train, test))
  {
    var trainDf := new DataFrame(train);
    var testDf := new DataFrame(test);
    trainDf.DropInPlace(IdColumn);
    testDf.DropInPlace(IdColumn);
    var xTrain := DropColumn(trainDf.View(), LabelColumn);
    var yTrain := trainDf.Get(LabelColumn);
    assert yTrain == Labels(train);
    if yTrain.None? {
      assert Transformation(train, test) == Failure(KeyError(LabelColumn));
      return Failure(Message(KeyError(LabelColumn)));
    }
    var xTest := DropColumn(testDf.View(), LabelColumn);
    var yTest := testDf.Get(LabelColumn);
    assert yTest == Labels(test);
    if yTest.None? {
      assert Transformation(train, test) == Failure(KeyError(LabelColumn));
      return Failure(Message(KeyError(LabelColumn)));
    }
    assert xTrain == Features(train) && xTest == Features(test);
    assert Transformation(train, test) == Scale(xTrain, xTest, yTrain.value, yTest.value);
    r := ScaleFeatures(xTrain, xTest, yTrain.value, yTest.value);
  }

  /** The scaler steps of the call: a fresh `StandardScaler`, `fit_transform`
      on the train features, `transform` on the test features, each fault
      re-raised with the common message. */
  method ScaleFeatures(xTrain: Table, xTest: Table, yTrain: seq<Cell>, yTest: seq<Cell>) returns (r: Result<Split, string>)
    ensures r == Reported(Scale(xTrain, xTest, yTrain, yTest))
  {
    var sc := new StandardScaler();
    var xTrainScaled := sc.FitTransform(xTrain);
    if xTrainScaled.Failure? {
      return Failure(Message(ValueError(xTrainScaled.error)));
    }
    var xTestScaled := sc.Transform(xTest);
    if xTestScaled.Failure? {
      return Failure(Message(ValueError(xTestScaled.error)));
    }
    return Success(Split(xTrainScaled.value, xTestScaled.value, yTrain, yTest));
  }

  /** On success the feature tables hold neither the identifier nor the
      label, keep the other columns in input order, and the labels are the
      label column of each split, one per row. */
  lemma SuccessShape(train: Table, test: Table)
    requires WellFormed(train) && WellFormed(test)
    requires Transformation(train, test).Success?
    ensures var s := Transformation(train, test).value;
      && s.xTrain.input == Features(train) && s.xTest.input == Features(test)
      && s.yTrain == Column(train, LabelColumn).value && s.yTest == Column(test, LabelColumn).value
      && |s.yTrain| == train.height == s.xTrain.Rows()
      && |s.yTest| == test.height == s.xTest.Rows()
  {
  }

  /** The scaler is fitted on the training features alone and the test
      matrix is produced with that same state: whatever the test split is,
      the training matrix and the scaler state are the same. */
  lemma ScalerFittedOnTrainOnly(train: Table, test1: Table, test2: Table)
    requires WellFormed(train) && WellFormed(test1) && WellFormed(test2)
    requires Transformation(train, test1).Success? && Transformation(train, test2).Success?
    ensures var s1 := Transformation(train, test1).value;
      var s2 := Transformation(train, test2).value;
      && s1.xTrain == s2.xTrain
      && s1.xTest.scaler == s1.xTrain.scaler == s2.xTest.scaler
      && s1.xTrain.scaler == Fitted(Features(train).names, Features(train))
  {
    FittedState(train, test1);
    FittedState(train, test2);
  }

  /** The state a successful call fits, and the two matrices built with it. */
  lemma FittedState(train: Table, test: Table)
    requires WellFormed(train) && WellFormed(test)
    requires Transformation(train, test).Success?
    ensures var st := Fitted(Features(train).names, Features(train));
      var s := Transformation(train, test).value;
      s.xTrain == Scaled(st, Features(train)) && s.xTest.scaler == st
  {
    assert Labels(train).Some? && Labels(test).Some?;
    assert FitFault(Features(train)).None?;
  }

  /** A split without the label column fails with KeyError, before the
      scaler is touched; the message names the column. */
  lemma MissingLabelFails(train: Table, test: Table)
    requires WellFormed(train) && WellFormed(test)
    requires LabelColumn !in train.names || LabelColumn !in test.names
    ensures Transformation(train, test) == Failure(KeyError(LabelColumn))
    ensures Reported(Transformation(train, test)) == Failure(Message(KeyError(LabelColumn)))
  {
  }

  /** The message a missing label column produces. */
  lemma KeyErrorMessage()
    ensures Message(KeyError(LabelColumn)) == "Data transformation failed due to 'Risk Classification'"
  {
    assert Describe(KeyError(LabelColumn)) == "'" + LabelColumn + "'";
  }

  /** A missing identifier column is never an error: the only KeyError
      the call raises names the label column. */
  lemma IdentifierOptional(train: Table, test: Table)
    requires WellFormed(train) && WellFormed(test)
    ensures Transformation(train, test) != Failure(KeyError(IdColumn))
  {
  }

  /** Dropping the identifier beforehand changes nothing. */
  lemma IdentifierDroppedBefore(train: Table, test: Table)
    requires WellFormed(train) && WellFormed(test)
    ensures Transformation(DropColumn(train, IdColumn), DropColumn(test, IdColumn)) == Transformation(train, test)
  {
    var a, b := DropColumn(train, IdColumn), DropColumn(test, IdColumn);
    assert DropColumn(a, IdColumn) == a;
    assert DropColumn(b, IdColumn) == b;
    assert Labels(a) == Labels(train) && Labels(b) == Labels(test);
    assert Features(a) == Features(train) && Features(b) == Features(test);
  }

  /** A test split with no feature column (only the identifier and the
      label, say) is rejected by `transform` for having no features, not for its names. */
  lemma NoTestFeaturesFails(train: Table, test: Table)
    requires WellFormed(train) && WellFormed(test)
    requires LabelColumn in train.names && LabelColumn in test.names
    requires FitFault(Features(train)).None?
    requires Features(test).names == []
    requires test.height > 0
    ensures Transformation(train, test) == Failure(ValueError(NoFeatures))
    ensures Reported(Transformation(train, test)) == Failure(Message(ValueError(NoFeatures)))
  {
    var x := Features(test);
    assert AllNumeric(x) by {
      assert |x.cols| == 0;
    }
  }

  /** With both labels present, the outcome depends on the scaler checks only:
      it succeeds exactly when the training features pass `fit` and the test
      features pass `transform` with the same names. */
  lemma SuccessExactly(train: Table, test: Table)
    requires WellFormed(train) && WellFormed(test)
    ensures Transformation(train, test).Success? <==>
      && LabelColumn in train.names && LabelColumn in test.names
      && FitFault(Features(train)).None?
      && Features(test).names == Features(train).names
      && AllNumeric(Features(test)) && test.height > 0
  {
  }
}
