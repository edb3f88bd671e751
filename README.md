# ror-clr batch runner: sweep expansion and batch tally

This project models the batch driver of the ror-clr solver
(`solve_problem_batch.py`), which has three parts:

- **The decoded sweep description.** It is a JSON object. Its required
  `problem_files` list names the problems. Six optional lists give the
  candidate values of the solver parameters:
  - `eps_values`
  - `aggregators`
  - `tie_resolvers`
  - `alpha_weights_lists`
  - `alpha_values_number`
  - `alpha_values_lists`

  An optional list that is absent or empty stands for the solver's default
  value.
- **The expansion (`create_configs`).** It validates the description, fills
  in the defaults and runs six nested loops: file, eps, aggregator, tie
  resolver, weights, and last the two alpha loops. Two rules prune
  combinations:
  - A Borda or Copeland aggregator runs only with the tie resolver
    `NoResolver`.
  - The alpha-values-number loop emits only for Borda and Copeland. The
    alpha-values loop emits only for Default and Weighted.

  Every emitted combination becomes one task: a problem file plus a bag of
  solver parameters, built by `program_parameters_from_values`.
- **The runner loop of `main`.** It hands every task to the solver in order,
  counts the ones that succeed, and reports the total, the successes and
  `total - success` as the failures.

Layout:

- `results.dfy` and `json_values.dfy`: a result type and decoded JSON
  values. Numbers are kept as their literal text, since they are only ever
  carried along.
- `parameters.dfy`: the parameter bag (a map from parameter to value), the
  task, and `ProgramParametersFromValues`.
- `sweep_spec.dfy`: the specification as recursive functions.
  - `Dimension` and `ParseSweep` do validation and defaulting.
  - One function per loop gives the combinations that loop emits over a
    prefix of its list: `NumberCombos`, `ValuesCombos`, `WeightCombos`,
    `WeightsCombos`, `TieCombos`, `AggregatorCombos`, `EpsCombos`,
    `FileCombos`.
  - `Expand` and `Configs` give the ordered task list.
  - A step lemma per loop relates each prefix to the next one.
- `solve_problem_batch.dfy`: the imperative driver.
  - One method per loop. Each appends to the task list and is proved equal
    to the matching function.
  - `CreateConfigs` is proved equal to `Configs`.
  - `RunBatch` is the counting loop. `SolveBatch` chains the two.
- `batch_tally.dfy`: the success count and its properties.
- `sweep_membership.dfy`, `sweep_counts.dfy`, `sweep_order.dfy`,
  `sweep_validation.dfy`: what the expansion emits, how many tasks, in which
  order, and when a description is accepted.
- `sweep_example.dfy`: a worked sweep with one file, the Default and Borda
  aggregators and two tie resolvers. It expands to three tasks.

Modelling choices:

- **Python's `None`.** `None` is the default of the optional alpha
  arguments. It is the JSON `null` value `JNull`. An alpha candidate that
  is `null` in the description therefore yields a task with neither alpha
  field, exactly as the code behaves.
- **Default values.** The default values come from the solver library. They
  are the parameter `defaults: Defaults`.
- **The solver.** It is the predicate `solve`, which says whether solving a
  task returns without raising.
- **Error reporting.** A raised exception or a failed `assert` in
  `create_configs` becomes an `Err` carrying a `ConfigError`.

## Model

| member | source | states |
|---|---|---|
| Parameters.ProgramParametersFromValues | solve_problem_batch.py:17-36 | The task carries the given file. Its bag holds eps, aggregator, tie resolver and weights with the given values. It holds an alpha field exactly when that argument is not `None`, and then with that value. |
| SweepSpec.Dimension | solve_problem_batch.py:47-95 | An optional dimension is handled as follows: present but not a list is rejected naming its key; a non-empty list is taken as given; absent or empty becomes exactly the one default. An accepted dimension is never empty. |
| SweepSpec.ParseSweep | solve_problem_batch.py:39-95 | Missing or non-list `problem_files` is rejected first. An empty one is rejected next. On success every loop list is non-empty and the files are the given list. |
| SweepSpec.TasksOf | solve_problem_batch.py:109-128 | The task list has one task per emitted combination, position by position, each built by `program_parameters_from_values`. |
| SolveProblemBatch.AppendNumberTasks | solve_problem_batch.py:105-116 | The alpha-values-number loop appends one task per candidate, in list order, and only for Borda and Copeland: it appends to the given list exactly the tasks of `NumberCombos`. |
| SolveProblemBatch.AppendValuesTasks | solve_problem_batch.py:117-128 | The alpha-values loop appends one task per candidate, in list order, and only for Default and Weighted: it appends to the given list exactly the tasks of `ValuesCombos`. |
| SolveProblemBatch.AppendWeightsTasks | solve_problem_batch.py:104-128 | For each weights value, the weights loop appends the number-branch tasks and then the values-branch tasks: it appends exactly the tasks of `WeightsCombos`. |
| SolveProblemBatch.AppendTieTasks | solve_problem_batch.py:100-128 | The tie-resolver loop skips every non-`NoResolver` tie resolver for Borda and Copeland and expands all others: it appends exactly the tasks of `TieCombos`. |
| SolveProblemBatch.AppendAggregatorTasks | solve_problem_batch.py:99-128 | The aggregator loop appends each aggregator's tasks in list order: it appends exactly the tasks of `AggregatorCombos`. |
| SolveProblemBatch.AppendEpsTasks | solve_problem_batch.py:98-128 | The eps loop appends each eps value's tasks in list order: it appends exactly the tasks of `EpsCombos`. |
| SolveProblemBatch.ExpandSweep | solve_problem_batch.py:97-129 | The file loop returns exactly `Expand` of the validated sweep. |
| SolveProblemBatch.CreateConfigs | solve_problem_batch.py:39-129 | `create_configs` returns exactly `Configs`: the same error for a rejected description, and the same ordered task list otherwise. |
| SolveProblemBatch.RunBatch | solve_problem_batch.py:150-168 | Every task is attempted in order, whatever the earlier outcomes. The total is the task count. The successes are `Succeeded(tasks)`, at most the total. The failures are `total - success`. |
| SolveProblemBatch.SolveBatch | solve_problem_batch.py:146-168 | A rejected description aborts before any task is attempted. Otherwise exactly the generated tasks are attempted, and the report tallies them. |
| BatchTally.Succeeded | solve_problem_batch.py:154-159 | The success count never exceeds the number of tasks. |
| BatchTally.SucceededAppend | solve_problem_batch.py:154-162 | Counting successes over two runs of tasks adds their counts. |
| BatchTally.SucceededPlusFailed | solve_problem_batch.py:165-168 | The failures reported as `total - success` are exactly the tasks whose solve fails, counted independently. |
| BatchTally.AllSucceeded | solve_problem_batch.py:157-159 | The success count equals the total exactly when every task's solve succeeds. |
| BatchTally.FailureIsolated | solve_problem_batch.py:157-163 | For the success count: a failing task adds no success, and the count is the count of the tasks before it plus that of the tasks after it. It is a statement about the tally, not about later tasks' outcomes. |
| SweepMembership.NumberMembers | solve_problem_batch.py:105-116 | The number loop emits exactly the combinations with its loop values and a number taken from the list, and only for Borda and Copeland. |
| SweepMembership.ValuesMembers | solve_problem_batch.py:117-128 | The values loop emits exactly the combinations with its loop values and an alpha list taken from the list, and only for Default and Weighted. |
| SweepMembership.WeightsMembers | solve_problem_batch.py:104-128 | The weights loop emits exactly the combinations whose weights come from its list and whose alpha setting suits the aggregator. |
| SweepMembership.TieMembers | solve_problem_batch.py:100-128 | The tie-resolver loop emits exactly the combinations whose tie resolver comes from its list and is not pruned. |
| SweepMembership.AggregatorMembers | solve_problem_batch.py:99-128 | The aggregator loop emits exactly the admissible combinations whose aggregator comes from its list. |
| SweepMembership.EpsMembers | solve_problem_batch.py:98-128 | The eps loop emits exactly the admissible combinations whose eps comes from its list. |
| SweepMembership.FileMembers | solve_problem_batch.py:97-128 | The file loop emits exactly the admissible combinations whose file comes from its list. |
| SweepMembership.CombinationsMembers | solve_problem_batch.py:97-128 | The expansion emits a combination if and only if it is admissible. Admissible means: every value comes from its list; a Borda or Copeland aggregator is paired only with `NoResolver`; and the alpha setting belongs to the aggregator's family. |
| SweepMembership.TaskCarries | solve_problem_batch.py:109-128 | The task of an admissible combination carries exactly that combination's file, eps, aggregator, tie resolver and weights. Its alpha candidate sits under the key of its branch, and the other alpha key is absent. A `null` candidate yields no alpha key. The task is therefore admissible. |
| SweepMembership.ExpandedTask | solve_problem_batch.py:97-129 | Every task carries a file, eps, aggregator, tie resolver and weights drawn from the lists. No Borda or Copeland task has a tie resolver other than `NoResolver`. No task has both alpha fields. A number field occurs only with Borda or Copeland and comes from its list. A values field occurs only with Default or Weighted and comes from its list. |
| SweepMembership.ExactlyOneAlpha | solve_problem_batch.py:31-35 | When no alpha candidate is `null`, every task carries exactly one of the two alpha fields. |
| SweepMembership.AdmissibleEmitted | solve_problem_batch.py:97-129 | Every admissible combination's task is in the expansion. |
| SweepCounts.Occurrences | solve_problem_batch.py:101-103 | Counts the entries equal to a value: at most the list length, and zero exactly when the value does not occur. |
| SweepCounts.NumberCount | solve_problem_batch.py:105-116 | The number loop emits one task per candidate for Borda or Copeland, and none otherwise. |
| SweepCounts.ValuesCount | solve_problem_batch.py:117-128 | The values loop emits one task per candidate for Default or Weighted, and none otherwise. |
| SweepCounts.WeightCount | solve_problem_batch.py:104-128 | One weights value yields the number of alpha candidates of the aggregator's family: the number list for Borda/Copeland, the values list for Default/Weighted, and 0 for any other name. |
| SweepCounts.WeightsCount | solve_problem_batch.py:104-128 | The weights loop yields the number of weights values times that per-weights count. |
| SweepCounts.KeptCount | solve_problem_batch.py:100-103 | Borda and Copeland keep one tie resolver per occurrence of `NoResolver`. Every other aggregator keeps all tie resolvers. |
| SweepCounts.TieCount | solve_problem_batch.py:100-128 | The tie-resolver loop yields the kept tie resolvers times the weights count times the per-weights count. |
| SweepCounts.ShareFactors | solve_problem_batch.py:100-128 | The count per (file, eps, weights) triple is as follows: Default/Weighted give the number of tie resolvers times the number of alpha-value lists; Borda/Copeland give the number of `NoResolver` entries times the number of alpha-value counts; any other name gives 0. |
| SweepCounts.AggregatorCount | solve_problem_batch.py:99-128 | The aggregator loop yields the weights count times the sum of the aggregators' shares. |
| SweepCounts.PairCount | solve_problem_batch.py:99-128 | One (file, eps) pair yields the weights count times the summed shares. |
| SweepCounts.EpsCount | solve_problem_batch.py:98-128 | The eps loop yields the number of eps values times the per-eps count. |
| SweepCounts.FileCount | solve_problem_batch.py:97-128 | The file loop yields the number of files times the per-file count. |
| SweepCounts.ExpandCount | solve_problem_batch.py:97-129 | The expansion has files × eps values × weights × (sum over aggregators of their share) tasks. |
| SweepOrder.NumberOrder | solve_problem_batch.py:105-116 | For Borda or Copeland, the k-th task of the number loop carries the k-th number candidate. |
| SweepOrder.ValuesOrder | solve_problem_batch.py:117-128 | For Default or Weighted, the k-th task of the values loop carries the k-th alpha-values list. |
| SweepOrder.WeightOrder | solve_problem_batch.py:104-128 | For one weights value, the tasks are those of the aggregator family's alpha list, in that list's order, and nothing else. |
| SweepOrder.NumbersBeforeValues | solve_problem_batch.py:104-128 | Within one weights value, a task carries a number field exactly when the aggregator is Borda or Copeland. So no alpha-values task precedes an alpha-values-number task. |
| SweepOrder.WeightsAppend | solve_problem_batch.py:104-128 | Running the weights loop over two concatenated lists emits the first list's tasks and then the second's. |
| SweepOrder.WeightsSplit | solve_problem_batch.py:104-128 | The tasks of each weights value form one block, after the blocks of earlier values and before those of later ones. |
| SweepOrder.WeightsBlock | solve_problem_batch.py:104-128 | The weights loop emits one block of `AlphaShare` tasks per weights value. The task at offset k of block q is the k-th task of weights value q. |
| SweepOrder.TieAppend | solve_problem_batch.py:100-128 | Running the tie-resolver loop over two concatenated lists emits the first list's tasks and then the second's. |
| SweepOrder.TieSplit | solve_problem_batch.py:100-128 | The tasks of each tie resolver form one block (empty when pruned), in list order. |
| SweepOrder.AggregatorAppend | solve_problem_batch.py:99-128 | Running the aggregator loop over two concatenated lists emits the first list's tasks and then the second's. |
| SweepOrder.AggregatorSplit | solve_problem_batch.py:99-128 | The tasks of each aggregator form one block, in list order. |
| SweepOrder.EpsAppend | solve_problem_batch.py:98-128 | Running the eps loop over two concatenated lists emits the first list's tasks and then the second's. |
| SweepOrder.EpsSplit | solve_problem_batch.py:98-128 | The tasks of each eps value form one block, in list order. |
| SweepOrder.FileAppend | solve_problem_batch.py:97-128 | Running the file loop over two concatenated lists emits the first list's tasks and then the second's. |
| SweepOrder.FileSplit | solve_problem_batch.py:97-128 | The tasks of each problem file form one block, in list order. |
| SweepOrder.FileOrder | solve_problem_batch.py:97-129 | The tasks at positions q × PerFile up to (q + 1) × PerFile all carry the q-th problem file. |
| SweepOrder.EpsOrder | solve_problem_batch.py:98-128 | Within one file's tasks, the positions p × PerEps up to (p + 1) × PerEps all carry that file and the p-th eps value. |
| SweepValidation.ConfigsAccepts | solve_problem_batch.py:39-95 | The configuration step succeeds exactly when `problem_files` is a non-empty list and every optional dimension present is a list. |
| SweepValidation.ConfigsRejectsFiles | solve_problem_batch.py:41-45 | A missing or non-list `problem_files`, or an empty one, yields the matching error and no tasks. |
| SweepValidation.ConfigsRejectsDimension | solve_problem_batch.py:47-95 | With valid files, the first optional dimension in source order that is present but not a list is the one reported. |
| SweepValidation.ConfigsCount | solve_problem_batch.py:97-129 | An accepted description yields files × eps values × weights × (summed aggregator shares) tasks, counted after defaulting. |
| SweepExample.ExampleConfigs | solve_problem_batch.py:39-129 | The worked sweep yields three tasks in this order: Default with `NoResolver`, Default with `BordaTieResolver` (both with the alpha-values list), then Borda with `NoResolver` (with the alpha-values number). |

## Left out

- Reading the configuration file, its existence check and `exit(1)`
  (`read_batch_runner_config`) are file I/O. The model starts from the
  decoded JSON object.
- A JSON document whose top level is not an object is not modelled. The
  description is a map from keys to values.
- `solve_problem` and the dataset loader call into the external solver. They
  are the predicate `solve`: true when the call returns, false when it
  raises. `solve` depends on the task alone. The model therefore ignores
  any dependence of an outcome on the clock or on earlier tasks, such as
  the output directory that the `sleep` after each success is there to
  change. Properties about failures (`BatchTally.FailureIsolated`) are
  about the count, not about the outcomes of later tasks.
- `RORParameters.add_parameter` and `get_default_parameter_value` belong to
  the solver library and are not part of this model:
  - the bag is a map from parameter to value;
  - the defaults are the `Defaults` argument;
  - any validation `add_parameter` may perform is not modelled.
- `ProgramParameters.py` is not part of this model. The task is the pair
  (parameter bag, file name) that `program_parameters_from_values` passes
  and `main` reads back. The model follows these two call sites. The class
  in `ProgramParameters.py` takes only `ror_parameters` and has no
  `filename`. As written, the constructor call in
  `program_parameters_from_values` and the `filename` read in `main`'s log
  line would raise.
- The `time.sleep(1)` after a success, the progress bar and all logging are
  timing and output effects, not modelled.
- The final success-rate line divides two integers as floating point. It is
  not modelled. It divides by zero when no task is generated: by
  `SweepCounts.ExpandCount` this happens exactly when the summed
  aggregator shares are 0, for example when every aggregator name is
  outside both families.
- `create_configs` appends the default to an empty list it took from the
  decoded description, changing that list in place. The model returns the
  defaulted lists as new values and does not model this aliasing.
- The type checks on the optional dimensions are Python `assert`
  statements. Under `python -O` they are stripped. The model follows the
  default interpreter, where every non-list value is rejected by its
  `assert`. Without the asserts:
  - a number, boolean or `null` still fails, at the `len` check (a
    `TypeError`);
  - an empty string or empty object still fails, at `append` (an
    `AttributeError`);
  - only a non-empty string (character by character) or a non-empty object
    (key by key) is iterated as if it were a list.

  The model does not describe these `-O` outcomes.
- Counting `NoResolver`: a Borda/Copeland count of "1 × the number of
  alpha-values-number candidates" would assume that `NoResolver` appears
  exactly once. The code emits once per occurrence, and so does the model:
  see `SweepCounts.KeptCount` and `SweepCounts.ShareFactors`.
- SweepMembership.ExactlyOneAlpha: "every task sets exactly one alpha
  field" is proved only when no alpha candidate is JSON `null`. A `null`
  candidate becomes Python `None` and yields a task with neither field.
  `SweepMembership.ExpandedTask` still shows that no task sets both.
- SweepOrder.FileOrder, SweepOrder.EpsOrder and SweepOrder.WeightsBlock:
  closed-form positions are stated for the file and eps levels, and for the
  weights level within one tie resolver. The tie-resolver and aggregator
  levels are stated as block decompositions (`…Split`, `…Append`), not as
  closed-form positions, because their blocks differ in size.
