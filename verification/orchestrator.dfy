/** The driver of the harness: every option record is tested on the CPU and,
    when the Vulkan backend is built in, then on the GPU, in that order; the
    first nonzero result ends the run and becomes `main`'s return value. The test of one
    option record is a parameter, since it runs the inference engine. */
module Orchestrator {
  import opened Configuration
  import opened TopK
  import opened GoldenCheck

  /** One test run: the option record handed to the test, and its tolerance. */
  datatype Run = Run(opt: Options, epsilon: real)

  /** The run of `c` on the CPU: the backend switch is off, nothing else in the
      record changes, and the tolerance is the record's own. */
  function CpuRun(c: Options): (r: Run)
    ensures !r.opt.useVulkanCompute
    ensures r.opt.(useVulkanCompute := c.useVulkanCompute) == c
    ensures r.epsilon == Epsilon(c) == Epsilon(r.opt)
  {
    Run(c.(useVulkanCompute := false), Epsilon(c))
  }

  /** The run of `c` on the GPU: the backend switch is on, nothing else in the
      record changes, and the tolerance is the record's own. */
  function GpuRun(c: Options): (r: Run)
    ensures r.opt.useVulkanCompute
    ensures r.opt.(useVulkanCompute := c.useVulkanCompute) == c
    ensures r.epsilon == Epsilon(c) == Epsilon(r.opt)
  {
    Run(c.(useVulkanCompute := true), Epsilon(c))
  }

  /** The result of one test run, 0 for a pass. */
  type Test = (Options, real) -> int

  predicate Passes(test: Test, run: Run) {
    test(run.opt, run.epsilon) == 0
  }

  /** The runs of the harness in the order they are attempted. */
  function Runs(configs: seq<Options>, vulkan: bool): (rs: seq<Run>)
    ensures !vulkan ==> |rs| == |configs|
    ensures !vulkan ==> forall i :: 0 <= i < |configs| ==> rs[i] == CpuRun(configs[i])
    ensures vulkan ==> |rs| == 2 * |configs|
    ensures vulkan ==> forall i :: 0 <= i < |configs| ==>
      rs[2 * i] == CpuRun(configs[i]) && rs[2 * i + 1] == GpuRun(configs[i])
    decreases |configs|
  {
    if configs == [] then []
    else
      var rest := Runs(configs[..|configs| - 1], vulkan);
      var last := configs[|configs| - 1];
      rest + [CpuRun(last)] + (if vulkan then [GpuRun(last)] else [])
  }

  /** How a sequence of runs ended: `main`'s return value and how many runs
      executed. */
  datatype Report = Report(code: int, executed: nat)

  /** Runs in order until one returns nonzero. */
  function Orchestrate(runs: seq<Run>, test: Test): (rep: Report)
    ensures rep.executed <= |runs|
    ensures rep.code == 0 <==> AllPass(runs, test)
    ensures rep.code == 0 ==> rep.executed == |runs|
    ensures rep.code != 0 ==>
      && 0 < rep.executed
      && rep.code == test(runs[rep.executed - 1].opt, runs[rep.executed - 1].epsilon)
      && forall j :: 0 <= j < rep.executed - 1 ==> Passes(test, runs[j])
    decreases |runs|
  {
    if runs == [] then Report(0, 0)
    else
      var r := test(runs[0].opt, runs[0].epsilon);
      if r != 0 then Report(r, 1)
      else
        var rest := Orchestrate(runs[1..], test);
        Report(rest.code, rest.executed + 1)
  }

  /** The first failing run decides: its result is the return value and nothing
      after it executes. */
  lemma {:induction false} FirstFailureWins(runs: seq<Run>, test: Test, p: nat)
    requires p < |runs|
    requires forall j :: 0 <= j < p ==> Passes(test, runs[j])
    requires !Passes(test, runs[p])
    ensures Orchestrate(runs, test) == Report(test(runs[p].opt, runs[p].epsilon), p + 1)
    decreases p
  {
    if p > 0 {
      assert Passes(test, runs[0]);
      FirstFailureWins(runs[1..], test, p - 1);
    }
  }

  /** Tests whose results agree on the runs that executed give the same report:
      the results of later runs never matter. */
  lemma {:induction false} LaterResultsIrrelevant(runs: seq<Run>, test: Test, test': Test)
    requires forall j :: 0 <= j < Orchestrate(runs, test).executed ==>
      test'(runs[j].opt, runs[j].epsilon) == test(runs[j].opt, runs[j].epsilon)
    ensures Orchestrate(runs, test') == Orchestrate(runs, test)
    decreases |runs|
  {
    if runs != [] {
      assert test'(runs[0].opt, runs[0].epsilon) == test(runs[0].opt, runs[0].epsilon);
      if Passes(test, runs[0]) {
        var rest := runs[1..];
        forall j | 0 <= j < Orchestrate(rest, test).executed
          ensures test'(rest[j].opt, rest[j].epsilon) == test(rest[j].opt, rest[j].epsilon)
        {
          assert rest[j] == runs[j + 1];
        }
        LaterResultsIrrelevant(rest, test, test');
      }
    }
  }

  /** After a failure, replacing the runs that were never reached changes nothing. */
  lemma {:induction false} LaterRunsIrrelevant(runs: seq<Run>, runs': seq<Run>, test: Test)
    requires Orchestrate(runs, test).code != 0
    requires Orchestrate(runs, test).executed <= |runs'|
    requires runs'[..Orchestrate(runs, test).executed] == runs[..Orchestrate(runs, test).executed]
    ensures Orchestrate(runs', test) == Orchestrate(runs, test)
  {
    var p := Orchestrate(runs, test).executed - 1;
    forall j | 0 <= j <= p
      ensures runs'[j] == runs[j]
    {
      assert runs'[..p + 1][j] == runs[..p + 1][j];
    }
    FirstFailureWins(runs', test, p);
  }

  /** The entry point of the harness: builds the four option records and runs
      them; the result is `main`'s return value. */
  method RunMatrix(defaults: Options, vulkan: bool, test: Test) returns (ret: int)
    ensures ret == Orchestrate(Runs(Configs(defaults), vulkan), test).code
    ensures ret == 0 <==> MatrixPasses(Configs(defaults), vulkan, test)
  {
    var opts := Configs(defaults);
    ret := RunRecords(opts, vulkan, test);
  }

  /** The loop of the entry point over the option records: the CPU run of each
      record, then its GPU run when Vulkan is built in, stopping at the first
      nonzero result. */
  method RunRecords(opts: seq<Options>, vulkan: bool, test: Test) returns (ret: int)
    ensures ret == Orchestrate(Runs(opts, vulkan), test).code
    ensures ret == 0 <==> MatrixPasses(opts, vulkan, test)
  {
    var i := 0;
    while i < |opts|
      invariant 0 <= i <= |opts|
      invariant forall j :: 0 <= j < i ==>
        Passes(test, CpuRun(opts[j])) && (vulkan ==> Passes(test, GpuRun(opts[j])))
    {
      var opt := opts[i];
      var epsilon := Epsilon(opt);
      ret := test(opt.(useVulkanCompute := false), epsilon);
      if ret != 0 {
        FailingRecordStopsMatrix(opts, vulkan, test, i);
        return;
      }
      if vulkan {
        ret := test(opt.(useVulkanCompute := true), epsilon);
        if ret != 0 {
          FailingGpuRunStopsMatrix(opts, test, i);
          return;
        }
      }
      i := i + 1;
    }
    ret := 0;
    AllRunsPass(opts, vulkan, test);
  }

  /** When record `c` is the first whose CPU run fails, that failure is the
      return value and no run of a later record executes (nor the GPU run of `c`). */
  lemma FailingRecordStopsMatrix(configs: seq<Options>, vulkan: bool, test: Test, c: nat)
    requires c < |configs|
    requires forall j :: 0 <= j < c ==>
      Passes(test, CpuRun(configs[j])) && (vulkan ==> Passes(test, GpuRun(configs[j])))
    requires !Passes(test, CpuRun(configs[c]))
    ensures Orchestrate(Runs(configs, vulkan), test) ==
      Report(test(CpuRun(configs[c]).opt, CpuRun(configs[c]).epsilon), (if vulkan then 2 * c else c) + 1)
    ensures !MatrixPasses(configs, vulkan, test)
  {
    var runs := Runs(configs, vulkan);
    RunsBefore(configs, vulkan, test, c);
    FirstFailureWins(runs, test, if vulkan then 2 * c else c);
  }

  /** When record `c` passes on the CPU but fails on the GPU, after every earlier
      record passed on both, that failure is the return value and no run of a later
      record executes. */
  lemma FailingGpuRunStopsMatrix(configs: seq<Options>, test: Test, c: nat)
    requires c < |configs|
    requires forall j :: 0 <= j < c ==> Passes(test, CpuRun(configs[j])) && Passes(test, GpuRun(configs[j]))
    requires Passes(test, CpuRun(configs[c])) && !Passes(test, GpuRun(configs[c]))
    ensures Orchestrate(Runs(configs, true), test) ==
      Report(test(GpuRun(configs[c]).opt, GpuRun(configs[c]).epsilon), 2 * c + 2)
    ensures !MatrixPasses(configs, true, test)
  {
    var runs := Runs(configs, true);
    var p := 2 * c + 1;
    assert runs[p] == GpuRun(configs[c]);
    RunsBefore(configs, true, test, c);
    FirstFailureWins(runs, test, p);
  }

  /** Helper: when the first `i` records pass on every backend tried, so do the
      runs before the first run of record `i` (and, with Vulkan, its CPU run
      when that passes). */
  lemma RunsBefore(configs: seq<Options>, vulkan: bool, test: Test, i: nat)
    requires i <= |configs|
    requires forall j :: 0 <= j < i ==> Passes(test, CpuRun(configs[j]))
    requires vulkan ==> forall j :: 0 <= j < i ==> Passes(test, GpuRun(configs[j]))
    ensures !vulkan ==> forall j :: 0 <= j < i ==> Passes(test, Runs(configs, vulkan)[j])
    ensures vulkan ==> forall j :: 0 <= j < 2 * i ==> Passes(test, Runs(configs, vulkan)[j])
    ensures vulkan && i < |configs| && Passes(test, CpuRun(configs[i])) ==>
      forall j :: 0 <= j < 2 * i + 1 ==> Passes(test, Runs(configs, vulkan)[j])
  {
    var rs := Runs(configs, vulkan);
    if vulkan {
      forall j | 0 <= j < 2 * i
        ensures Passes(test, rs[j])
      {
        var c := j / 2;
        if j % 2 == 0 {
          assert j == 2 * c && rs[2 * c] == CpuRun(configs[c]);
        } else {
          assert j == 2 * c + 1 && rs[2 * c + 1] == GpuRun(configs[c]);
        }
      }
      if i < |configs| {
        assert rs[2 * i] == CpuRun(configs[i]);
      }
    } else {
      forall j | 0 <= j < i
        ensures Passes(test, rs[j])
      {
        assert rs[j] == CpuRun(configs[j]);
      }
    }
  }

  /** The test of one option record in the harness: the class scores that
      inference produces under that record, checked by `check_top3`. */
  function TestSqueezenet(infer: Options -> ClassScores, near: Near, opt: Options, epsilon: real): (r: int)
    ensures r == 0 || r == -1
    ensures r == 0 <==> RanksPassFrom(SelectTop3(infer(opt)), 0, epsilon, near)
  {
    CheckTop3(infer(opt), epsilon, near)
  }

  /** Class scores of one inference; the classifier has at least three classes. */
  type ClassScores = s: seq<real> | |s| >= 3 witness [0.0, 0.0, 0.0]

  /** A run agrees with the golden data under the given inference. */
  predicate Agrees(infer: Options -> ClassScores, near: Near, run: Run) {
    RanksPassFrom(SelectTop3(infer(run.opt)), 0, run.epsilon, near)
  }

  /** Every run of a sequence passes. */
  predicate AllPass(runs: seq<Run>, test: Test) {
    forall j :: 0 <= j < |runs| ==> Passes(test, runs[j])
  }

  /** Every record passes on the CPU and, with Vulkan, on the GPU. */
  predicate MatrixPasses(configs: seq<Options>, vulkan: bool, test: Test) {
    forall i :: 0 <= i < |configs| ==>
      Passes(test, CpuRun(configs[i])) && (vulkan ==> Passes(test, GpuRun(configs[i])))
  }

  /** Every run in the enumeration passes iff every record passes on every
      backend tried. */
  lemma AllRunsPass(configs: seq<Options>, vulkan: bool, test: Test)
    ensures AllPass(Runs(configs, vulkan), test) <==> MatrixPasses(configs, vulkan, test)
  {
    var rs := Runs(configs, vulkan);
    if AllPass(rs, test) {
      forall i | 0 <= i < |configs|
        ensures Passes(test, CpuRun(configs[i])) && (vulkan ==> Passes(test, GpuRun(configs[i])))
      {
        if vulkan {
          assert rs[2 * i] == CpuRun(configs[i]) && rs[2 * i + 1] == GpuRun(configs[i]);
        } else {
          assert rs[i] == CpuRun(configs[i]);
        }
      }
    }
    if MatrixPasses(configs, vulkan, test) {
      RunsBefore(configs, vulkan, test, |configs|);
    }
  }

  /** With the squeezenet test, `main` returns 0 or -1, and it is 0 exactly when
      every record agrees with the golden data on every backend tried. */
  lemma ExitCodeOfHarness(defaults: Options, vulkan: bool, infer: Options -> ClassScores, near: Near)
    ensures Orchestrate(Runs(Configs(defaults), vulkan), (o, e) => TestSqueezenet(infer, near, o, e)).code in {0, -1}
    ensures Orchestrate(Runs(Configs(defaults), vulkan), (o, e) => TestSqueezenet(infer, near, o, e)).code == 0 <==>
      forall i :: 0 <= i < 4 ==>
        Agrees(infer, near, CpuRun(Configs(defaults)[i])) &&
        (vulkan ==> Agrees(infer, near, GpuRun(Configs(defaults)[i])))
  {
    var test: Test := (o, e) => TestSqueezenet(infer, near, o, e);
    var cs := Configs(defaults);
    var runs := Runs(cs, vulkan);
    var rep := Orchestrate(runs, test);
    if rep.code != 0 {
      var last := runs[rep.executed - 1];
      assert rep.code == TestSqueezenet(infer, near, last.opt, last.epsilon);
    }
    AllRunsPass(cs, vulkan, test);
    forall run: Run
      ensures Passes(test, run) <==> Agrees(infer, near, run)
    {
    }
  }
}
