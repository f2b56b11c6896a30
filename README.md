# Credit-risk pipeline core, modelled in Dafny

This project models the decision logic of a small credit-risk repository:
- the model-selection loop of `ModelTrainer`, with its three-family registry, its best-so-far fields and its MLflow and `joblib` side effects;
- the feature and label split with the train-only scaler of `DataTransformation`;
- the rule-based risk label;
- the synthetic-data rules: the credit-score rule, the category to source fallback and the row structure of the generator;
- the cleaning rules applied before data is stored in MongoDB;
- the text preprocessor shared by training and prediction in the transaction classifier.

Learners, metrics, the scaler's arithmetic, date parsing, float formatting, the median and all randomness are opaque inputs. They are modelled as function-typed parameters or as symbolic values.

Files and modules:
- `common.dfy` (`Common`): `Option`, `Result`, subsequences and distinctness.
- `text_rules.dfy` (`TextRules`): ASCII lower-casing, Python's ASCII `\s`, and a character filter with its uniqueness and idempotence lemmas.
- `frames.dfy` (`Frames`): the pandas operations used, on a column-oriented `Table` value. It has a `DataFrame` class for the in-place calls.
- `synthetic_data.dfy` (`SyntheticData`): the generator.
- `risk_classifier.dfy` (`RiskClassifier`): `classify_risk` and the labelling of a table.
- `load_to_mongo.dfy` (`MongoCleaning`): `clean_transaction_data` and `clean_bureau_data`.
- `nlp_transaction.dfy` (`NlpTransaction`): `preprocess_text` and `predict_category`.
- `data_transformation.dfy` (`DataTransformation`): `initiate_data_transformation` and a symbolic `StandardScaler` class.
- `model_trainer.dfy` (`Training`): the `ModelTrainer` class, the MLflow `Tracker` and the `ArtifactStore`.

Design choices:
- Each imperative part of the source is a method or class proved against a pure specification function. The properties are proved as lemmas about that function.
- The selection loop is `Training.ModelTrainer.RunFamilies`, called by `Training.ModelTrainer.TrainAndEvaluate` and specified by `SelectBest`, `Completed`, `ResultsOf`, `FamilyRuns`, `BestRuns` and `BestSaves`.
- The bureau generator is `SyntheticData.GenerateBureau` and `SyntheticData.CreditScore`, specified by `Unclamped` and `Clamp`.
- The cleaners are `MongoCleaning.CleanTransactionData` and `MongoCleaning.CleanBureauData`, specified by `CleanTransactions` and `CleanBureau`.

Behaviour of the code that the model keeps:
- `train_and_evaluate` stops at the first family that raises. Later families are not tried, and the exception propagates.
- The best-so-far fields live on the trainer object. Nothing resets them between calls.
- On a fresh trainer, or when no earlier call set a best model, a call in which no F1 score is above 0 saves and logs no best model and returns the name "" (`Training.InitialSelection`). Otherwise the best-so-far fields of an earlier call are kept, saved and logged again.
- `initiate_data_transformation` rewraps every exception in a new `Exception` whose message starts "Data transformation failed due to ".
- The tracker is an append-only log of runs. Nothing reads it back.

## Model

| member | source | states |
|---|---|---|
| Training.Registry | TASK_3/src/components/model_trainer.py:17-32 | The three families in dict order, each with its estimator kind, `random_state=42` and its parameter grid as written. Its shape is stated by `RegistryNames` and `RegistryGrids`. |
| Training.RegistryNames | TASK_3/src/components/model_trainer.py:17-32 | The registry holds exactly "Logistic Regression", "Random Forest" and "Neural Network", in that order, and the names are distinct. |
| Training.RegistryGrids | TASK_3/src/components/model_trainer.py:17-48 | The grids have 15, 27 and 18 combinations, so the default `n_iter=10` tries ten settings per family. |
| Training.Candidates | TASK_3/src/components/model_trainer.py:48 | The randomized search tries at most `n_iter` settings and at most the grid size, and exactly one of the two. |
| Training.Update | TASK_3/src/components/model_trainer.py:71-74 | One update never lowers the best score. |
| Training.SelectBest | TASK_3/src/components/model_trainer.py:43-74 | The best slot after the families in order, each applying `Update`. Its meaning, the first maximum above the starting score, is stated by `SelectBestBounds`, `SelectBestIsFirstMaximum` and `SelectBestPicksFirstMaximum`. |
| Training.SelectBestBounds | TASK_3/src/components/model_trainer.py:71-74 | After the loop, the best score is at least its starting value and at least every family's F1. |
| Training.SelectBestIsFirstMaximum | TASK_3/src/components/model_trainer.py:71-74 | The slot keeps its starting value exactly when no F1 beats the starting score. Otherwise it holds the score, model and name of the first family reaching the maximum F1. |
| Training.SelectBestPicksFirstMaximum | TASK_3/src/components/model_trainer.py:71-74 | The first family with the maximal F1, when that F1 beats the starting score, is the one selected, so earlier families win ties. |
| Training.TieKeepsEarlier | TASK_3/src/components/model_trainer.py:71 | A family whose F1 equals the current best score does not take the slot. |
| Training.AllZeroKeepsInitial | TASK_3/src/components/model_trainer.py:33-74 | If no F1 is above 0, the fields stay 0, None and "". |
| Training.SelectBestAppend | TASK_3/src/components/model_trainer.py:38-74 | Selecting over the families of two calls in sequence is selection over all of them in order. |
| Training.SecondCall | TASK_3/src/components/model_trainer.py:38-74 | A second call on the same trainer changes the best slot exactly when some later F1 is strictly above the first call's best. |
| Training.RepeatedCallIsIdempotent | TASK_3/src/components/model_trainer.py:38-74 | Repeating a call with the same outcomes leaves the slot the first call produced. |
| Training.Completed | TASK_3/src/components/model_trainer.py:43-49 | The completed families are a prefix of the registry, each with its own outcome. The family after that prefix, if any, is the first that raised. |
| Training.ResultsOf | TASK_3/src/components/model_trainer.py:41-61 | The `results[name] = {...}` dictionary after the completed families, each entry written in loop order (a later equal name overwrites). Its key set and entries are stated by `ResultsKeys` and `ResultsOnePerFamily`, and `TrainAndEvaluate` returns it. |
| Training.ResultsKeys | TASK_3/src/components/model_trainer.py:41-61 | `results` has a key for every completed family and no other key. |
| Training.ResultsOnePerFamily | TASK_3/src/components/model_trainer.py:41-61 | With distinct names, each family's entry holds that family's accuracy and F1. |
| Training.RunName | TASK_3/src/components/model_trainer.py:44 | A family run is named by the family name followed by " (RandomizedSearch)"; what that name guarantees is stated by `RunsAreTellable`. |
| Training.FamilyRun | TASK_3/src/components/model_trainer.py:44-68 | A completed family's run: finished, with the best parameters, the accuracy and F1 metrics and the model logged under the family name. |
| Training.FamilyRuns | TASK_3/src/components/model_trainer.py:44-68 | One `mlflow.start_run` per completed family, in loop order: as many runs as trials, the i-th being that trial's `FamilyRun`. |
| Training.FailedRun | TASK_3/src/components/model_trainer.py:44-49 | The run of the family that raised: ended as failed, with nothing logged. |
| Training.BestRun | TASK_3/src/components/model_trainer.py:82-85 | The "Best Model Selection" run: the best name as parameter, the best F1 as metric and the best model. |
| Training.RunsAreTellable | TASK_3/src/components/model_trainer.py:44-85 | Family runs are finished, failed runs are failed, a family run's name starts with the family name, and no family run is named like the best-model run. |
| Training.BestRuns | TASK_3/src/components/model_trainer.py:77-85 | One "Best Model Selection" run follows exactly when a best model is set. |
| Training.BestSaves | TASK_3/src/components/model_trainer.py:77-78 | One save of "best_model.pkl" follows exactly when a best model is set. |
| Training.Tracker.SetExperiment | TASK_3/src/components/model_trainer.py:36 | Sets the active experiment; the runs are unchanged. |
| Training.Tracker.Record | TASK_3/src/components/model_trainer.py:44 | Appends one ended run to the log and changes nothing else. |
| Training.ArtifactStore.Dump | TASK_3/src/components/model_trainer.py:78 | Appends one saved file to the store. |
| Training.ModelTrainer.constructor | TASK_3/src/components/model_trainer.py:16-36 | The experiment name defaults to "Credit Risk Assessment". The trainer starts with the registry and the fields 0, None and "". The tracker's experiment is set and its runs are unchanged. |
| Training.ModelTrainer.Consider | TASK_3/src/components/model_trainer.py:71-74 | The best fields take one update: a strictly higher F1 replaces score, model and name. |
| Training.ModelTrainer.RunFamilies | TASK_3/src/components/model_trainer.py:41-74 | The loop over the registry leaves the best fields at the selection over the completed families and `results` at their metrics. It logs one run per completed family, then one FAILED run and the error of the family that raised, if any. |
| Training.ModelTrainer.TrainAndEvaluate | TASK_3/src/components/model_trainer.py:38-91 | The new best fields are the selection over the completed families, starting from the old fields. The tracker gains one run per completed family in registry order. If a family raised, one FAILED run follows, nothing is saved, and the same error propagates. Otherwise the best run and the save follow exactly when a best model is set, and the results and the best name are returned. |
| Training.NoFailureCompletesAll | TASK_3/src/components/model_trainer.py:43 | When no family raises, every family completes, in registry order. |
| Training.InitialSelection | TASK_3/src/components/model_trainer.py:33-85 | Starting from 0, None and "": there is no best model, the name stays "", and nothing is saved or logged as best exactly when every F1 is at most 0. Otherwise the selected name is that of the first family with the maximal F1. |
| Training.CallFromInitial | TASK_3/src/components/model_trainer.py:33-87 | For any list of families none of which raises: all complete in order, `results` is keyed by exactly their names, and the returned name is as `InitialSelection` states. |
| Training.FreshCall | TASK_3/src/components/model_trainer.py:17-87 | A fresh trainer with no failures completes "Logistic Regression", "Random Forest" and "Neural Network" in that order and returns results keyed by exactly those names. |
| DataTransformation.Describe | TASK_3/src/components/data_transformation.py:26-42 | `str(e)` of each cause: a KeyError quotes its key; each scikit-learn fault is its message's opening words. |
| DataTransformation.Message | TASK_3/src/components/data_transformation.py:40-42 | Every rewrapped message begins with "Data transformation failed due to ". |
| DataTransformation.Reported | TASK_3/src/components/data_transformation.py:37-42 | What the caller of `initiate_data_transformation` gets: it fails exactly when the transformation fails, a success passes the split through unchanged, and every failure message begins with "Data transformation failed due to ". |
| DataTransformation.FitFault | TASK_3/src/components/data_transformation.py:32 | `fit` accepts exactly a numeric table with rows and columns; otherwise it reports the float conversion, then the sample count, then the feature count. |
| DataTransformation.TransformFault | TASK_3/src/components/data_transformation.py:33 | `transform` accepts exactly a numeric, non-empty table with columns whose names are the fitted ones. A name mismatch is reported exactly when the input has columns, because a frame without columns has no feature names. |
| DataTransformation.Apply | TASK_3/src/components/data_transformation.py:33 | Before `fit`, `transform` fails as not fitted. After it, `transform` succeeds exactly when `TransformFault` finds nothing, never reports "not fitted", and a successful matrix carries the fitted state and one row per input row. |
| DataTransformation.StandardScaler.constructor | TASK_3/src/components/data_transformation.py:31 | A new scaler is unfitted. |
| DataTransformation.StandardScaler.FitTransform | TASK_3/src/components/data_transformation.py:32 | `fit` resets the scaler. When the input is valid, the scaler's state is fitted from exactly that table; when it is not, the validation fault is returned and the scaler has no usable fitted state. |
| DataTransformation.StandardScaler.Transform | TASK_3/src/components/data_transformation.py:33 | `transform` uses the current state and does not change it. |
| DataTransformation.Features | TASK_3/src/components/data_transformation.py:20-27 | The feature table has neither "Customer ID" nor "Risk Classification". It has every other column, in input order, and the same row count. |
| DataTransformation.Labels | TASK_3/src/components/data_transformation.py:20-28 | Reading the label after dropping the identifier gives the label column of the split as read, or nothing where KeyError is raised. |
| DataTransformation.Transformation | TASK_3/src/components/data_transformation.py:20-38 | The outcome of the call: the train labels, the test labels, then the scaler steps. A KeyError can only name "Risk Classification", and no failure is "not fitted". |
| DataTransformation.Scale | TASK_3/src/components/data_transformation.py:31-33 | `fit_transform` on the train features and then `transform` on the test features. Failures are scaler faults other than "not fitted", and on success both matrices carry the state fitted from the train features. |
| DataTransformation.InitiateDataTransformation | TASK_3/src/components/data_transformation.py:11-42 | The in-place drops, the label lookups and the scaler calls give the specified split. Any failure becomes the rewrapped message of its cause. |
| DataTransformation.ScaleFeatures | TASK_3/src/components/data_transformation.py:31-42 | A fresh scaler is fitted on the train features and applied to the test features. The result is the specified split, or the rewrapped message of the `fit` or `transform` fault. |
| DataTransformation.SuccessShape | TASK_3/src/components/data_transformation.py:25-38 | On success both matrices are built from the feature tables. `y_train` and `y_test` are exactly the label columns, one label per row, and each matrix has its split's row count. |
| DataTransformation.ScalerFittedOnTrainOnly | TASK_3/src/components/data_transformation.py:31-33 | The scaler state is fitted from the training features alone. The test matrix uses that same state, and the test split never changes the training matrix. |
| DataTransformation.MissingLabelFails | TASK_3/src/components/data_transformation.py:26-42 | A split without "Risk Classification" fails with KeyError before scaling, and the caller gets the rewrapped KeyError message. |
| DataTransformation.KeyErrorMessage | TASK_3/src/components/data_transformation.py:26-42 | The message for the missing label is "Data transformation failed due to 'Risk Classification'". |
| DataTransformation.IdentifierOptional | TASK_3/src/components/data_transformation.py:20-21 | A missing "Customer ID" is never an error: the only KeyError names the label column. |
| DataTransformation.IdentifierDroppedBefore | TASK_3/src/components/data_transformation.py:20-21 | Removing "Customer ID" before the call changes nothing. |
| DataTransformation.NoTestFeaturesFails | TASK_3/src/components/data_transformation.py:33 | A test split with no feature column, after train passes `fit`, fails with the 0-features error and its rewrapped message. |
| DataTransformation.SuccessExactly | TASK_3/src/components/data_transformation.py:25-33 | The call succeeds exactly when three things hold: both labels are present, the training features pass `fit`, and the test features have the training feature names, are numeric and are non-empty. |
| RiskClassifier.ClassifyRisk | TASK_3/risk_classifier.py:3-8 | High risk when the credit score is below 650, or there are at least 3 missed payments, or utilization is above 0.7, or the debt-to-income ratio is above 0.6; low risk otherwise. Its properties are stated by the lemmas below. |
| RiskClassifier.LabelText | TASK_3/risk_classifier.py:6-8 | Each label is "High Risk" or "Low Risk". "High Risk" appears exactly for the high-risk class. |
| RiskClassifier.EachConditionIsHighRisk | TASK_3/risk_classifier.py:4-6 | A score below 650, 3 or more missed payments, utilization above 0.7 or a ratio above 0.6 each alone gives high risk. |
| RiskClassifier.LowRiskExactly | TASK_3/risk_classifier.py:4-8 | Low risk holds exactly when score ≥ 650, missed ≤ 2, utilization ≤ 0.7 and ratio ≤ 0.6, so the boundary values are low risk. |
| RiskClassifier.Monotone | TASK_3/risk_classifier.py:4-5 | Worsening any input never turns high risk into low risk. |
| RiskClassifier.LabelRows | TASK_3/risk_classifier.py:14 | Labelling keeps every row in place and gives it exactly one of the two labels, its own classification. |
| RiskClassifier.CleanCustomerIsLowRisk | TASK_3/risk_classifier.py:4-8 | A generated customer with no loans and low utilization, debt and ratio scores 900 and is low risk. |
| SyntheticData.SourceOptions | TASK_0/generate_synthetic_data.py:23-38 | `sources.get(category, [category])` is never empty, and a category without a key offers only itself. |
| SyntheticData.MakeTransaction | TASK_0/generate_synthetic_data.py:37-42 | A transaction carries the customer id and the date. Its category is one of the seven, and its source is from that category's options. A salary amount lies in 30000..100000 and any other amount in 50..5000. |
| SyntheticData.Uniform | TASK_0/generate_synthetic_data.py:39 | `random.uniform(lo, hi)` from a drawn fraction in [0, 1): lies between `lo` and `hi` when `lo <= hi`, below `hi` when `lo < hi`, and is `lo` for the fraction 0. |
| SyntheticData.FallbackSourceIsCategory | TASK_0/generate_synthetic_data.py:19-38 | "Salary Credit", "Cash Withdrawals" and "Transfers" have no key in the sources table, so their source is the category name. |
| SyntheticData.UnmatchedSourceListsUnused | TASK_0/generate_synthetic_data.py:28-38 | The lists under "Cash Withdrawal" and "Transfer" are never drawn from. |
| SyntheticData.GenerateTransactions | TASK_0/generate_synthetic_data.py:33-43 | Each customer gets exactly 50 rows carrying that customer's id. The i-th row is built from the i-th draw. |
| SyntheticData.GenerateAllTransactions | TASK_0/generate_synthetic_data.py:11-48 | The table has 50 000 rows. Row k belongs to customer k / 50 + 1 and is that customer's (k mod 50)-th transaction. |
| SyntheticData.CustomerBlocks | TASK_0/generate_synthetic_data.py:46-48 | Ids lie in 1..1000, and customer c owns exactly rows 50(c−1) to 50c−1. |
| SyntheticData.MissedPayments | TASK_0/generate_synthetic_data.py:66 | Missed payments are 0 without loans and otherwise lie in 0..6. |
| SyntheticData.Unclamped | TASK_0/generate_synthetic_data.py:71-81 | The score before clamping is at most 900. It is exactly 900 when no penalty applies, and at least 650 without missed payments. |
| SyntheticData.Clamp | TASK_0/generate_synthetic_data.py:84 | `max(lo, min(x, hi))` lies in `lo..hi`, is `x` inside that range, `hi` above it and `lo` below it. |
| SyntheticData.CreditScore | TASK_0/generate_synthetic_data.py:71-84 | The score from the step-by-step decrements is the clamp to 300..900 of 900 minus the penalties, and it lies in 300..900. |
| SyntheticData.BureauRowOf | TASK_0/generate_synthetic_data.py:64-86 | A bureau row has 0..5 loans and 0..6 missed payments, with none missed when there are no loans. |
| SyntheticData.ScoreInRange | TASK_0/generate_synthetic_data.py:84 | The clamped score always lies in 300..900. |
| SyntheticData.LowerClampUnreached | TASK_0/generate_synthetic_data.py:64-84 | For generated rows the penalties total at most 430. The score is at least 470 and equals the unclamped value. |
| SyntheticData.MissedPaymentsMonotone | TASK_0/generate_synthetic_data.py:76-77 | More missed payments never raise the score. |
| SyntheticData.GenerateBureau | TASK_0/generate_synthetic_data.py:62-86 | There are 1000 rows, and row i belongs to customer i + 1 and is built from that customer's draws. |
| MongoCleaning.NormaliseDescription | TASK_1/load_to_mongo.py:34 | A normalised description holds only a–z, 0–9 and space, in input order. It keeps every such character of the lower-cased input. |
| MongoCleaning.NormaliseDescriptionUnique | TASK_1/load_to_mongo.py:34 | The normalised description is the only string with those properties. |
| MongoCleaning.NormaliseDescriptionIdempotent | TASK_1/load_to_mongo.py:34 | Normalising twice equals normalising once. |
| MongoCleaning.TransactionDefaults | TASK_1/load_to_mongo.py:24-28 | The fill values: Amount 0, Category "Unknown", Date the given day's text. |
| MongoCleaning.ConvertDates | TASK_1/load_to_mongo.py:30 | The conversion fails exactly when some value cannot be parsed. Otherwise each date becomes its ISO text and NaT becomes missing. |
| MongoCleaning.NormaliseDescriptions | TASK_1/load_to_mongo.py:34 | Every value, missing ones included (as "nan"), becomes its normalised text. |
| MongoCleaning.CleanTransactions | TASK_1/load_to_mongo.py:21-36 | The frame after the fill, the date conversion, the row drop and the description normalisation, and the error that escaped, if any. The frame stays well formed. Its properties are stated by the lemmas below. |
| MongoCleaning.CleanTransactionData | TASK_1/load_to_mongo.py:21-36 | Mutates the given frame into the specified cleaned table. It returns that same frame, or the exception that escaped after the earlier changes. |
| MongoCleaning.TransactionFill | TASK_1/load_to_mongo.py:24-28 | A missing Amount becomes 0, a missing Category "Unknown" and a missing Date today's date. Present values and other columns are unchanged. |
| MongoCleaning.NoDateColumnFails | TASK_1/load_to_mongo.py:24-30 | Without a Date column the frame is filled and then KeyError escapes. |
| MongoCleaning.ConvertedHasNoMissing | TASK_1/load_to_mongo.py:30 | When no date parses to NaT, the converted column has no missing value. |
| MongoCleaning.SuccessfulCleaningKeepsRows | TASK_1/load_to_mongo.py:30-31 | On success the Date column holds only dates and the columns are unchanged. No row is lost unless a date parsed to NaT. |
| MongoCleaning.DescriptionsNormalised | TASK_1/load_to_mongo.py:33-34 | After cleaning, every description holds only `[a-z0-9 ]`. |
| MongoCleaning.BureauDefaults | TASK_1/load_to_mongo.py:40-47 | The fill values: the given median for Credit Score and 0 for the five other numeric columns. |
| MongoCleaning.CleanBureau | TASK_1/load_to_mongo.py:40-47 | Cleaning fails with KeyError exactly when there is no Credit Score column. Otherwise the columns and the row count are kept. |
| MongoCleaning.CleanBureauData | TASK_1/load_to_mongo.py:38-49 | Fills the given frame in place and returns that same frame. On KeyError the frame is unchanged. |
| MongoCleaning.BureauFill | TASK_1/load_to_mongo.py:40-47 | A missing Credit Score becomes the column's median, and the five other listed columns get 0. Present values and unlisted columns are unchanged. |
| NlpTransaction.PreprocessString | TASK_2/nlp_based_transaction.py:19-22 | The output holds only lower-case letters, digits and whitespace, in input order. It is never longer than the input and keeps every such character of the lower-cased input. |
| NlpTransaction.PreprocessText | TASK_2/nlp_based_transaction.py:19-22 | `str(text)` first, so every cell is accepted, then the string preprocessor. |
| NlpTransaction.PreprocessUnique | TASK_2/nlp_based_transaction.py:21 | The preprocessed text is the only string with those properties. |
| NlpTransaction.PreprocessIdempotent | TASK_2/nlp_based_transaction.py:20-21 | Preprocessing twice equals preprocessing once. |
| NlpTransaction.MissingSourceIsNan | TASK_2/nlp_based_transaction.py:20 | `str` makes the function total, and a missing Source becomes "nan". |
| NlpTransaction.WhitespaceDiffersFromDescriptions | TASK_2/nlp_based_transaction.py:21 | Tabs and newlines survive preprocessing, but the description normaliser of the loader removes them. |
| NlpTransaction.TabsKept | TASK_2/nlp_based_transaction.py:21 | "a\tb\n" is unchanged by preprocessing. |
| NlpTransaction.TabsDropped | TASK_1/load_to_mongo.py:34 | The description normaliser turns "a\tb\n" into "ab". |
| NlpTransaction.CleanTextColumn | TASK_2/nlp_based_transaction.py:24 | One cleaned text per row, in row order. |
| NlpTransaction.PredictCategory | TASK_2/nlp_based_transaction.py:52-61 | The model sees the preprocessed request text. |
| NlpTransaction.TrainServeConsistency | TASK_2/nlp_based_transaction.py:24-61 | A request equal to a training Source is classified from exactly that row's cleaned text. An already cleaned request is classified as its raw form. |
| Frames.Column | TASK_3/src/components/data_transformation.py:26-28 | `df[n]` fails exactly when the column is absent. Otherwise it gives that column, one value per row. |
| Frames.DropColumn | TASK_3/src/components/data_transformation.py:20-27 | Dropping with `errors='ignore'` removes the column if present and is the identity otherwise. The other columns keep their order and values. |
| Frames.FillColumn | TASK_1/load_to_mongo.py:24-28 | Missing values become the fill value and present ones stay. |
| Frames.FillNaTable | TASK_1/load_to_mongo.py:24-47 | Every listed existing column is filled, and keys without a column are ignored. Names and row count are unchanged. |
| Frames.SetColumn | TASK_1/load_to_mongo.py:30-34 | Assigning a column changes only that column. |
| Frames.DropMissingRows | TASK_1/load_to_mongo.py:31 | Keeps, in every column, exactly the rows whose value in the subset column is present. |
| Frames.DropMissingRowsNoop | TASK_1/load_to_mongo.py:31 | With no missing value in the subset column, no row is dropped. |
| Frames.DataFrame.constructor | TASK_3/src/components/data_transformation.py:14-15 | A frame read from a file holds that table. |
| Frames.DataFrame.Get | TASK_3/src/components/data_transformation.py:26-28 | Reads the column without changing the frame. |
| Frames.DataFrame.DropInPlace | TASK_3/src/components/data_transformation.py:20-21 | The in-place drop leaves the frame holding the dropped table. |
| Frames.DataFrame.FillNaInPlace | TASK_1/load_to_mongo.py:24-47 | The in-place fill leaves the frame holding the filled table. |
| Frames.DataFrame.Assign | TASK_1/load_to_mongo.py:30-34 | The column assignment leaves the frame holding the table with that column replaced. |
| Frames.DataFrame.DropNaInPlace | TASK_1/load_to_mongo.py:31 | The in-place `dropna` leaves the frame holding the filtered table. |
| TextRules.IsSpace | TASK_2/nlp_based_transaction.py:21 | `\s` in a `str` pattern, on ASCII: holds exactly for tab, line feed, vertical tab, form feed, carriage return, the separators 0x1C-0x1F and space, and never for a letter or a digit. |
| TextRules.Lower | TASK_2/nlp_based_transaction.py:20 | Lower-casing keeps the length and maps each character by ASCII lower-casing. |
| TextRules.Filter | TASK_2/nlp_based_transaction.py:21 | `re.sub` with a negated character class: the result holds only admitted characters, is a subsequence of the input, and has as many characters as the input has admitted ones. |

## Left out

- `RandomizedSearchCV`'s sampling and cross-validation, the estimators' `fit` and `predict`, and `accuracy_score`/`f1_score` are not modelled. Of the search, only the number of settings tried is modelled (`Training.Candidates`). These are floating-point library code. One family's search is the opaque `evaluate` parameter of `Training.ModelTrainer.TrainAndEvaluate`, which also carries the data, `cv` and `n_iter`.
- The exceptions modelled in the trainer are those the search raises. Failures of the MLflow and `joblib` calls themselves are not modelled.
- MLflow run ids, timestamps, the tracking server and the model flavour are not modelled. A run is its name, status, parameters, metrics and logged models.
- `logging` is not modelled. It is output only, including the error logged before the re-raise.
- `if self.best_model:` is truthiness, modelled as "a best model is set". All three fitted estimators are truthy: the forest's length is its `n_estimators`, at least 50.
- The `StandardScaler` mean and variance arithmetic is not modelled. A fitted scaler is the table it was fitted from, and a scaled matrix is that state and its input. Only the validation checks that can reject the features are modelled.
- DataTransformation.StandardScaler.FitTransform: a rejected fit is modelled as no state at all. scikit-learn may already have recorded `feature_names_in_` before the check raises. Nothing reads that attribute afterwards, because the exception ends the call.
- DataTransformation.Describe: the scikit-learn and pandas error texts are represented by their opening words, not their full messages.
- Reading the CSV files at TASK_3/src/components/data_transformation.py:14-15 and its errors are not modelled. The two tables read are the inputs.
- The model only captures the problems listed in `ScalerFault`. Other problems that make the training data invalid are not modelled.
- `TASK_3/src/pipelines/training_pipeline.py` is glue around a `DataIngestion` class that is not part of this model.
- CSV writing, `load_csv`'s file check, `dotenv`, `store_in_mongodb`, and the FastAPI and uvicorn endpoint are I/O and network. They are not modelled.
- Randomness in the generator is not modelled: Faker, `np.random.choice`, `random.uniform` and `random.randint`. Each draw is an input function of the customer id (and transaction number).
- The `round(..., 2)` of the generated values is not modelled. A transaction amount is computed unrounded from its drawn fraction by `SyntheticData.Uniform`. Utilization, outstanding debt and the debt-to-income ratio are drawn inputs that stand for the rounded values.
- The `random.sample` messy-data injection at TASK_0/generate_synthetic_data.py:52-55 is not modelled. It is random overwrites of ten cells per column.
- For customers without loans the generator skips the `randint(0, 6)` draw. The model instead always draws and ignores the value, which differs only in the random stream.
- `pd.to_datetime` format inference is not modelled. Pandas infers one format for the whole column; the model parses each cell with the given `parse` function.
- `datetime.today()` is the `today` parameter. Python's rendering of floats by `str` and `astype(str)` is the `showNum` parameter.
- The median of the Credit Score column is the `median` parameter.
- Case mapping and `\s` are modelled for ASCII only. Unicode lower-casing and Unicode whitespace are not modelled.
- NaN comparisons in `classify_risk` are not modelled: bureau rows hold numbers.
- Cell types are not modelled beyond missing, text and number.
- The vectorizer, the random forest and `train_test_split` of the transaction classifier are not modelled. One opaque `classify` function stands for them.
- `joblib.load` of the saved files at prediction time is not modelled.
