# SqueezeNet regression harness — pass/fail logic

This project models the decision logic of ncnn's SqueezeNet regression test
(`tests/test_squeezenet.cpp`). The test runs one classification per option
record and backend, then decides pass or fail. The model covers three parts:

- **Top-3 selection** (`TopK`). Each class score is paired with its class id.
  The comparator `a.first > b.first` orders pairs by score alone. A partial sort
  brings the three best pairs to the front in descending order. The model seeds
  the best three with the first three pairs, then offers every later pair. This
  is how a heap selection proceeds, and a later pair only displaces the third
  one when the comparator puts it strictly first. The contract (`IsTop3`) admits
  any tie order. The lemmas show which parts of the result the input fixes.
- **Golden comparison** (`GoldenCheck`). Ranks 0, 1 and 2 are checked in order
  against class ids 532, 920 and 716 and scores 0.189459, 0.082801 and 0.034684.
  Within a rank the class id must match exactly before the score is compared.
  The first failing rank gives -1, and if every rank passes the result is 0.
  The tolerance predicate `NearlyEqual` is an abstract parameter `near`.
- **Option records and the driver** (`Configuration`, `Orchestrator`). There
  are four option records. The tolerance is 0.1 when bf16 storage, fp16 packing
  or fp16 storage is on, and 0.01 otherwise. Each record is run on the CPU and
  then, when the Vulkan backend is built in, on the GPU. Both runs use the same
  tolerance. The first nonzero result becomes `main`'s return value and nothing
  after it runs.

Choices of representation:

- Scores are `real`. Selection only uses strict `>` on scores.
- One test run (`test_squeezenet`) is a parameter `test: (Options, real) -> int`.
  `TestSqueezenet` also gives the concrete instance: an abstract inference
  `infer` yields the class scores, which `CheckTop3` then checks.
- The compile-time `NCNN_VULKAN` switch is the boolean `vulkan`.
- `ncnn::Option` defaults are the parameter `defaults`. Records 0 and 1 never set
  `use_bf16_storage`, and no record sets `use_vulkan_compute` itself.

Facts about the code that shape the model:

- `check_top3` and `test_squeezenet` give `epsilon` a default of 0.001
  (tests/test_squeezenet.cpp:64 and :101). `main` always passes 0.01 or 0.1
  (:167-175), so that default is never used and is not modelled.
- The GPU run is compiled in by the `NCNN_VULKAN` preprocessor switch (:188-197).
  It is not chosen at run time. The model makes it the `vulkan` parameter.
- `NearlyEqual`'s formula is not modelled, so `near` stays abstract.

## Model

| member | source | states |
|---|---|---|
| TopK.Before | tests/test_squeezenet.cpp:56-62 | the comparator never orders two pairs with equal scores, so the class id plays no part in it |
| TopK.BeforeIsStrictWeakOrder | tests/test_squeezenet.cpp:56-62 | the comparator is irreflexive, asymmetric and transitive, and equal scores form a transitive incomparability, as `std::partial_sort` requires |
| TopK.Offer | tests/test_squeezenet.cpp:75 | a later pair enters the best three only when the comparator puts it before the third, which then drops out while the other two stay; otherwise nothing changes; descending order is kept |
| TopK.Sort3 | tests/test_squeezenet.cpp:75 | the first three pairs come out as one of their six orders, with non-increasing scores under the score-only comparator |
| TopK.FirstThree | tests/test_squeezenet.cpp:75 | the ordered first three pairs are a correct best-three selection of the first three positions |
| TopK.OfferKeepsBest | tests/test_squeezenet.cpp:75 | offering position n-1 to the best three of the first n-1 positions gives the best three of the first n |
| TopK.Scan | tests/test_squeezenet.cpp:67-75 | the scan over the first n pairs returns three pairs of the input at distinct positions, in non-increasing score order, with no other position scoring above the third |
| TopK.SelectTop3 | tests/test_squeezenet.cpp:64-75 | for a score vector of length at least 3, the selected pairs (s, i) satisfy 0 <= i < size and scores[i] == s, have distinct indices, are sorted descending, and no unselected score exceeds the third |
| TopK.SelectionIsPermutationPrefix | tests/test_squeezenet.cpp:67-75 | the three selected pairs are a sub-multiset of the paired vector (score k, k), so they are the prefix of a permutation of it |
| TopK.SelectedScoresDetermined | tests/test_squeezenet.cpp:56-62 | any two correct selections have the same score at every rank: only the class ids of tied scores can differ |
| TopK.UniqueSelectionWithoutTies | tests/test_squeezenet.cpp:56-75 | when the top three scores are distinct and strictly above the rest, the correct selection is unique |
| TopK.TiesLeaveIndexOrderOpen | tests/test_squeezenet.cpp:58-61 | for four equal scores two different selections are both correct, so the comparator does not fix the tie order |
| GoldenCheck.CheckFrom | tests/test_squeezenet.cpp:80-96 | the verdict from rank i on is Pass iff every later rank matches; otherwise it names the first failing rank, with all earlier ranks matching, as an index mismatch, or as a score mismatch only when the index matched |
| GoldenCheck.CheckRanks | tests/test_squeezenet.cpp:77-98 | the verdict over ranks 0..2 is Pass iff every rank's index equals the golden index and its score is near the golden score |
| GoldenCheck.CheckTop3 | tests/test_squeezenet.cpp:64-99 | the result is 0 or -1, and it is 0 iff for every rank 0..2 the selected index equals the golden index and the selected score is near the golden score |
| GoldenCheck.LaterRanksNotExamined | tests/test_squeezenet.cpp:80-96 | once a rank fails, changing any later rank does not change the verdict |
| GoldenCheck.IndexCheckedBeforeScore | tests/test_squeezenet.cpp:85-89 | with earlier ranks passing, a wrong index at rank r gives an index mismatch at r, whatever that rank's score and whatever the tolerance |
| GoldenCheck.ScoreOutsideToleranceFails | tests/test_squeezenet.cpp:91-95 | with all indices right, the first rank whose score is not near its golden score gives a score mismatch at that rank and the result -1 |
| GoldenCheck.TieAtTopDecidesVerdict | tests/test_squeezenet.cpp:75-89 | when classes 532 and 920 tie for the best score, both orders of the tie are correct selections, and one passes the golden check while the other fails at rank 0 with an index mismatch |
| Configuration.Epsilon | tests/test_squeezenet.cpp:167-175 | the tolerance is 0.1 iff bf16 storage, fp16 packing or fp16 storage is on, and 0.01 iff none is |
| Configuration.EpsilonIgnoresLayoutFlags | tests/test_squeezenet.cpp:167-175 | changing only packing layout, shader pack8, image storage or the backend switch leaves the tolerance unchanged |
| Configuration.EpsilonMonotone | tests/test_squeezenet.cpp:168-175 | switching on any reduced-precision flag never lowers the tolerance |
| Configuration.Configs | tests/test_squeezenet.cpp:135-161 | there are four records built from the defaults: record 0 has no packing and no fp16, records 0 and 1 keep the default bf16 flag, record 2 enables bf16, and record 3 is record 2 with bf16 off |
| Configuration.ConfigEpsilons | tests/test_squeezenet.cpp:143-175 | records 1 to 3 always get tolerance 0.1; record 0 gets 0.1 exactly when the default enables bf16 storage, else 0.01 |
| Orchestrator.CpuRun | tests/test_squeezenet.cpp:179-181 | the CPU run has the backend switch off, every other flag as in the record, and the record's tolerance, which the switch does not move |
| Orchestrator.GpuRun | tests/test_squeezenet.cpp:189-191 | the GPU run has the backend switch on, every other flag as in the record, and the record's tolerance, which the switch does not move |
| Orchestrator.Runs | tests/test_squeezenet.cpp:163-197 | the runs are enumerated record by record: the CPU run (only the backend switch set off) and then, with Vulkan, the GPU run (only the backend switch set on), both with the record's tolerance |
| Orchestrator.Orchestrate | tests/test_squeezenet.cpp:177-200 | the return value is 0 iff every run returns 0, and then all runs executed; otherwise it is the result of the last executed run, and every run before that one passed |
| Orchestrator.FirstFailureWins | tests/test_squeezenet.cpp:181-196 | if run p is the first nonzero one, the return value is its result and exactly p+1 runs executed |
| Orchestrator.LaterResultsIrrelevant | tests/test_squeezenet.cpp:182-196 | two tests that agree on the runs that executed give the same report, so later runs never influence the outcome |
| Orchestrator.LaterRunsIrrelevant | tests/test_squeezenet.cpp:163-200 | after a failure, replacing the runs that were never reached does not change the report |
| Orchestrator.RunMatrix | tests/test_squeezenet.cpp:133-201 | the entry point over the four records returns the first-failure fold over their run enumeration, and 0 iff every record passes on the CPU and, with Vulkan, on the GPU |
| Orchestrator.RunRecords | tests/test_squeezenet.cpp:163-200 | the loop over records, CPU run then GPU run, stopping at the first nonzero result, returns exactly the first-failure fold over the run enumeration, and 0 iff every record passes on every backend tried |
| Orchestrator.FailingRecordStopsMatrix | tests/test_squeezenet.cpp:179-186 | when record c is the first whose CPU run fails, its result is the return value and no run of a later record, nor the GPU run of c, executes |
| Orchestrator.FailingGpuRunStopsMatrix | tests/test_squeezenet.cpp:188-196 | when record c passes on the CPU but is the first to fail on the GPU, that result is the return value and no run of a later record executes |
| Orchestrator.AllRunsPass | tests/test_squeezenet.cpp:163-200 | every run of the enumeration passes iff every record passes on the CPU and, with Vulkan, on the GPU |
| Orchestrator.TestSqueezenet | tests/test_squeezenet.cpp:101-131 | one test run returns 0 or -1, and 0 iff the selection of the inferred scores matches the golden data at every rank |
| Orchestrator.ExitCodeOfHarness | tests/test_squeezenet.cpp:163-200 | with the SqueezeNet test, `main`'s return value is 0 or -1, and 0 iff every record's inferred scores match the golden data on every backend tried |

## Left out

- `generate_ncnn_logo`: the 16x16 table is constant data. Its conversion and
  nearest-neighbour resize happen in `ncnn::Mat::from_pixels` and
  `ncnn::resize_nearest`, which are not part of this model.
- Network loading, `Extractor::input`/`extract` and `substract_mean_normalize`
  are left out. They are foreign calls, file I/O and float tensor arithmetic. An
  abstract `infer` stands in for them in `TestSqueezenet`, or the abstract
  `test` in the driver.
- `NearlyEqual` is in the test utilities, which are not part of this model. It
  is the abstract predicate `near`.
- Float arithmetic is left out. Scores, golden scores and tolerances are exact
  reals, so the rounding of `0.189459f`, `0.1` and `0.01` to `float` is not
  modelled. NaN scores are left out too, because the comparator is not a strict
  weak order on them.
- TopK.SelectTop3: fixes one tie order, the one the seeded scan produces. Under
  ties the library's `std::partial_sort` may order tied pairs differently, or
  keep a different class id at the third rank. Its contract `IsTop3` admits
  every tie order, and `SelectedScoresDetermined` and
  `UniqueSelectionWithoutTies` say what stays fixed. A tie between the scores
  of classes 532 and 920 changes `check_top3`'s verdict
  (`TieAtTopDecidesVerdict`). So under ties `GoldenCheck.CheckTop3`,
  `Orchestrator.TestSqueezenet` and `Orchestrator.ExitCodeOfHarness` describe
  the model's tie order, not necessarily the program's.
- The pairs after position 3 are not modelled as a permuted vector, because the
  harness never reads them. Only the three selected pairs are returned.
- The `fprintf` diagnostics go to standard error and are left out. The
  `Verdict` of `CheckRanks` carries the rank and the expected and actual values
  they print.
- `ncnn::Option` fields that the harness neither sets nor reads are left out.
  They pass from the defaults to every run unchanged.
- A score vector shorter than 3 is excluded by a precondition. For it,
  `vec.begin() + 3` would be past the end.
