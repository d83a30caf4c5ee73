// Capability test jobs: the state of a job and its protocols is recomputed from
// the results of the models after every change.
module CapabilityJobs {

  datatype Lifecycle = Pending | Active | Done | Cancelled | NoLifecycle

  datatype Outcome = Unknown | Success | Failed | Partial | CancelledOutcome | NoOutcome

  datatype ModelStatus = Queued | Running | Succeeded | FailedStatus | Skipped | Idle

  datatype ProtocolStatus = ProtocolQueued | ProtocolRunning | ProtocolCompleted | ProtocolFailed

  datatype JobStatus = JobQueued | JobRunning | JobCompleted | JobFailed | JobCancelled

  datatype Model = Model(name: string, status: ModelStatus, lifecycle: Lifecycle, outcome: Outcome, streaming: bool)

  datatype Protocol = Protocol(
    name: string,
    status: ProtocolStatus,
    lifecycle: Lifecycle,
    outcome: Outcome,
    success: bool,
    successCount: nat,
    testedModel: string,
    streaming: bool,
    hasError: bool,
    models: seq<Model>)

  datatype Progress = Progress(total: nat, queued: nat, running: nat, success: nat, failed: nat, skipped: nat, completed: nat)

  const NO_PROGRESS := Progress(0, 0, 0, 0, 0, 0, 0)

  datatype Job = Job(
    tests: seq<Protocol>,
    status: JobStatus,
    lifecycle: Lifecycle,
    outcome: Outcome,
    progress: Progress,
    compatible: seq<string>,
    activeOperations: nat,
    startedAt: string,
    updatedAt: string,
    finishedAt: string)

  // ---------- Derived statuses ----------

  function DeriveProtocolStatus(lifecycle: Lifecycle, outcome: Outcome): ProtocolStatus {
    match lifecycle
    case Pending => ProtocolQueued
    case Active => ProtocolRunning
    case Done => if outcome == Success || outcome == Partial then ProtocolCompleted else ProtocolFailed
    case _ => ProtocolFailed
  }

  function DeriveJobStatus(lifecycle: Lifecycle, outcome: Outcome): JobStatus {
    match lifecycle
    case Pending => JobQueued
    case Active => JobRunning
    case Cancelled => JobCancelled
    case Done =>
      (match outcome
       case Success => JobCompleted
       case Partial => JobCompleted
       case CancelledOutcome => JobCancelled
       case _ => JobFailed)
    case NoLifecycle => JobFailed
  }

  function DeriveModelStatus(lifecycle: Lifecycle, outcome: Outcome): ModelStatus {
    match lifecycle
    case Pending => Queued
    case Active => Running
    case Cancelled => Skipped
    case Done => if outcome == Success then Succeeded else if outcome == Failed then FailedStatus else Skipped
    case NoLifecycle => FailedStatus
  }

  // ---------- A protocol from its models ----------

  predicate SomeModel(models: seq<Model>, lifecycle: Lifecycle) {
    exists i :: 0 <= i < |models| && models[i].lifecycle == lifecycle
  }

  predicate SomeOutcome(models: seq<Model>, outcome: Outcome) {
    exists i :: 0 <= i < |models| && models[i].outcome == outcome
  }

  predicate EveryModel(models: seq<Model>, lifecycle: Lifecycle) {
    forall i :: 0 <= i < |models| ==> models[i].lifecycle == lifecycle
  }

  predicate AllCancelled(models: seq<Model>) {
    models != [] && EveryModel(models, Cancelled)
  }

  function Successes(models: seq<Model>): nat {
    if models == [] then 0
    else Successes(models[..|models| - 1]) + if models[|models| - 1].outcome == Success then 1 else 0
  }

  /** The name and streaming flag of the first successful model that has a name. */
  function FirstNamed(models: seq<Model>): (string, bool) {
    if models == [] then ("", false)
    else
      var init := FirstNamed(models[..|models| - 1]);
      var m := models[|models| - 1];
      if init.0 == "" && m.outcome == Success then (m.name, m.streaming) else init
  }

  function ProtocolState(was: Lifecycle, models: seq<Model>): (Lifecycle, Outcome) {
    if was == Cancelled || AllCancelled(models) then (Cancelled, CancelledOutcome)
    else if SomeModel(models, Active) then (Active, if SomeOutcome(models, Success) then Partial else Unknown)
    else if SomeModel(models, Pending) then (Pending, Unknown)
    else if SomeOutcome(models, Success) then
      (Done, if SomeOutcome(models, Failed) || SomeOutcome(models, CancelledOutcome) then Partial else Success)
    else if SomeOutcome(models, Failed) then (Done, Failed)
    else if SomeOutcome(models, CancelledOutcome) then (Cancelled, CancelledOutcome)
    else (Pending, Unknown)
  }

  function RecomputedProtocol(t: Protocol): Protocol {
    var (lifecycle, outcome) := ProtocolState(t.lifecycle, t.models);
    var (name, streaming) := FirstNamed(t.models);
    t.(status := DeriveProtocolStatus(lifecycle, outcome), lifecycle := lifecycle, outcome := outcome,
       success := SomeOutcome(t.models, Success), successCount := Successes(t.models),
       testedModel := if name != "" then name else t.testedModel,
       streaming := if name != "" then streaming else t.streaming,
       hasError := if lifecycle == Done && (outcome == Success || outcome == Partial) then false else t.hasError)
  }

  /** What the loop over the models finds out. */
  datatype Flags = Flags(allTerminal: bool, allCancelled: bool, active: bool, success: bool, failed: bool, cancelled: bool)

  ghost predicate Describes(f: Flags, models: seq<Model>) {
    && (f.allTerminal <==> !SomeModel(models, Pending) && !SomeModel(models, Active))
    && (f.allCancelled <==> EveryModel(models, Cancelled))
    && (f.active <==> SomeModel(models, Active))
    && (f.success <==> SomeOutcome(models, Success))
    && (f.failed <==> SomeOutcome(models, Failed))
    && (f.cancelled <==> SomeOutcome(models, CancelledOutcome))
  }

  method See(f: Flags, m: Model, ghost models: seq<Model>) returns (r: Flags)
    requires Describes(f, models)
    ensures Describes(r, models + [m])
  {
    hide SomeModel, SomeOutcome, EveryModel;
    SomeModelSnoc(models, m);
    SomeOutcomeSnoc(models, m);
    EveryModelSnoc(models, m, Cancelled);
    r := f;
    if m.lifecycle == Pending || m.lifecycle == Active {
      r := r.(allTerminal := false);
    }
    if m.lifecycle == Active {
      r := r.(active := true);
    }
    if m.lifecycle != Cancelled {
      r := r.(allCancelled := false);
    }
    match m.outcome {
      case Success => r := r.(success := true);
      case Failed => r := r.(failed := true);
      case CancelledOutcome => r := r.(cancelled := true);
      case _ =>
    }
  }

  /** The loop over the models. */
  method ScanModels(models: seq<Model>) returns (f: Flags, successCount: nat, firstModel: string, firstStreaming: bool)
    ensures Describes(f, models)
    ensures successCount == Successes(models) && (firstModel, firstStreaming) == FirstNamed(models)
  {
    hide Describes;
    f, successCount, firstModel, firstStreaming := Flags(true, true, false, false, false, false), 0, "", false;
    DescribesNone();
    for i := 0 to |models|
      invariant Describes(f, models[..i])
      invariant successCount == Successes(models[..i])
      invariant (firstModel, firstStreaming) == FirstNamed(models[..i])
    {
      assert models[..i + 1][..i] == models[..i];
      assert models[..i + 1] == models[..i] + [models[i]];
      f := See(f, models[i], models[..i]);
      if models[i].outcome == Success {
        successCount := successCount + 1;
        if firstModel == "" {
          firstModel, firstStreaming := models[i].name, models[i].streaming;
        }
      }
    }
    assert models[..|models|] == models;
  }

  lemma DescribesNone()
    ensures Describes(Flags(true, true, false, false, false, false), [])
  {
  }

  /** The case analysis of recomputeCapabilityProtocol. */
  method Judge(was: Lifecycle, models: seq<Model>, f: Flags) returns (lifecycle: Lifecycle, outcome: Outcome, clearsError: bool)
    requires Describes(f, models)
    ensures (lifecycle, outcome) == ProtocolState(was, models)
    ensures clearsError <==> lifecycle == Done && (outcome == Success || outcome == Partial)
  {
    hide SomeModel, SomeOutcome, EveryModel;
    clearsError := false;
    if was == Cancelled || (|models| > 0 && f.allCancelled) {
      lifecycle, outcome := Cancelled, CancelledOutcome;
    } else if f.active {
      lifecycle, outcome := Active, if f.success then Partial else Unknown;
    } else if !f.allTerminal {
      lifecycle, outcome := Pending, Unknown;
    } else if f.success && (f.failed || f.cancelled) {
      lifecycle, outcome, clearsError := Done, Partial, true;
    } else if f.success {
      lifecycle, outcome, clearsError := Done, Success, true;
    } else if f.failed {
      lifecycle, outcome := Done, Failed;
    } else if f.cancelled {
      lifecycle, outcome := Cancelled, CancelledOutcome;
    } else {
      lifecycle, outcome := Pending, Unknown;
    }
  }

  method RecomputeCapabilityProtocol(test: Protocol) returns (r: Protocol)
    ensures r == RecomputedProtocol(test)
  {
    hide SomeModel, SomeOutcome, EveryModel, Successes, FirstNamed, ProtocolState, DeriveProtocolStatus;
    var f, successCount, firstModel, firstStreaming := ScanModels(test.models);
    r := test.(successCount := successCount, success := f.success);
    if firstModel != "" {
      r := r.(testedModel := firstModel, streaming := firstStreaming);
    }
    var lifecycle, outcome, clearsError := Judge(test.lifecycle, test.models, f);
    r := r.(lifecycle := lifecycle, outcome := outcome, status := DeriveProtocolStatus(lifecycle, outcome));
    if clearsError {
      r := r.(hasError := false);
    }
  }

  lemma EveryModelSnoc(models: seq<Model>, m: Model, lifecycle: Lifecycle)
    ensures EveryModel(models + [m], lifecycle) <==> EveryModel(models, lifecycle) && m.lifecycle == lifecycle
  {
    assert models == (models + [m])[..|models|] && (models + [m])[|models|] == m;
    if EveryModel(models + [m], lifecycle) {
      forall i | 0 <= i < |models|
        ensures models[i].lifecycle == lifecycle
      {
        assert (models + [m])[i].lifecycle == lifecycle;
      }
    }
  }

  lemma SomeModelSnoc(models: seq<Model>, m: Model)
    ensures forall l :: SomeModel(models + [m], l) <==> SomeModel(models, l) || m.lifecycle == l
  {
    forall l
      ensures SomeModel(models + [m], l) <==> SomeModel(models, l) || m.lifecycle == l
    {
      assert (models + [m])[|models|] == m;
      if SomeModel(models, l) {
        var i :| 0 <= i < |models| && models[i].lifecycle == l;
        assert (models + [m])[i].lifecycle == l;
      }
    }
  }

  lemma SomeOutcomeSnoc(models: seq<Model>, m: Model)
    ensures forall o :: SomeOutcome(models + [m], o) <==> SomeOutcome(models, o) || m.outcome == o
  {
    forall o
      ensures SomeOutcome(models + [m], o) <==> SomeOutcome(models, o) || m.outcome == o
    {
      assert (models + [m])[|models|] == m;
      if SomeOutcome(models, o) {
        var i :| 0 <= i < |models| && models[i].outcome == o;
        assert (models + [m])[i].outcome == o;
      }
    }
  }

  // ---------- Progress ----------

  function Counted(p: Progress, status: ModelStatus): Progress {
    var q := p.(total := p.total + 1);
    match status
    case Queued => q.(queued := q.queued + 1)
    case Running => q.(running := q.running + 1)
    case Succeeded => q.(success := q.success + 1, completed := q.completed + 1)
    case FailedStatus => q.(failed := q.failed + 1, completed := q.completed + 1)
    case Skipped => q.(skipped := q.skipped + 1, completed := q.completed + 1)
    case Idle => q
  }

  function Tallied(p: Progress, models: seq<Model>): Progress {
    if models == [] then p else Counted(Tallied(p, models[..|models| - 1]), models[|models| - 1].status)
  }

  function TotalProgress(tests: seq<Protocol>): Progress {
    if tests == [] then NO_PROGRESS else Tallied(TotalProgress(tests[..|tests| - 1]), tests[|tests| - 1].models)
  }

  method CountModels(p: Progress, models: seq<Model>) returns (r: Progress)
    ensures r == Tallied(p, models)
  {
    r := p;
    for i := 0 to |models|
      invariant r == Tallied(p, models[..i])
    {
      assert models[..i + 1][..i] == models[..i];
      r := r.(total := r.total + 1);
      match models[i].status {
        case Queued => r := r.(queued := r.queued + 1);
        case Running => r := r.(running := r.running + 1);
        case Succeeded => r := r.(success := r.success + 1, completed := r.completed + 1);
        case FailedStatus => r := r.(failed := r.failed + 1, completed := r.completed + 1);
        case Skipped => r := r.(skipped := r.skipped + 1, completed := r.completed + 1);
        case Idle =>
      }
    }
    assert models[..|models|] == models;
  }

  // ---------- A job from its protocols ----------

  /** Byte-wise order of strings. */
  predicate AtMost(a: string, b: string) {
    a == "" || (b != "" && (a[0] < b[0] || (a[0] == b[0] && AtMost(a[1..], b[1..]))))
  }

  function Inserted(s: seq<string>, x: string): seq<string> {
    if s == [] || AtMost(x, s[0]) then [x] + s else [s[0]] + Inserted(s[1..], x)
  }

  function Sorted(s: seq<string>): seq<string> {
    if s == [] then [] else Inserted(Sorted(s[..|s| - 1]), s[|s| - 1])
  }

  predicate Worked(t: Protocol) {
    t.outcome == Success || t.outcome == Partial
  }

  function Compatible(tests: seq<Protocol>): seq<string> {
    if tests == [] then []
    else Compatible(tests[..|tests| - 1]) + if Worked(tests[|tests| - 1]) then [tests[|tests| - 1].name] else []
  }

  function RecomputedAll(tests: seq<Protocol>): (r: seq<Protocol>)
    ensures |r| == |tests|
    ensures forall i :: 0 <= i < |tests| ==> r[i] == RecomputedProtocol(tests[i])
  {
    seq(|tests|, i requires 0 <= i < |tests| => RecomputedProtocol(tests[i]))
  }

  predicate SomeTest(tests: seq<Protocol>, lifecycle: Lifecycle) {
    exists i :: 0 <= i < |tests| && tests[i].lifecycle == lifecycle
  }

  predicate SomeResult(tests: seq<Protocol>, outcome: Outcome) {
    exists i :: 0 <= i < |tests| && tests[i].outcome == outcome
  }

  predicate AllTestsCancelled(tests: seq<Protocol>) {
    tests != [] && forall i :: 0 <= i < |tests| ==> tests[i].lifecycle == Cancelled
  }

  /** Lifecycle and outcome of a job that is not cancelled, from its recomputed protocols. */
  function JobState(tests: seq<Protocol>): (Lifecycle, Outcome) {
    var progress := TotalProgress(tests);
    if SomeTest(tests, Active) || progress.running > 0
    then (Active, if SomeResult(tests, Success) || SomeResult(tests, Partial) then Partial else Unknown)
    else if SomeTest(tests, Pending) then (Pending, Unknown)
    else if AllTestsCancelled(tests) then (Cancelled, CancelledOutcome)
    else
      (Done,
       if SomeResult(tests, Partial) then Partial
       else if SomeResult(tests, Success) then Success
       else if SomeResult(tests, Failed) || progress.total > 0 then Failed
       else Unknown)
  }

  function Stamp(at: string, now: string): string {
    if at == "" then now else at
  }

  function Recomputed(j: Job): Job {
    if j.lifecycle == Cancelled then
      j.(progress := TotalProgress(j.tests), compatible := [], activeOperations := 0,
         outcome := CancelledOutcome, status := DeriveJobStatus(Cancelled, CancelledOutcome),
         finishedAt := Stamp(j.finishedAt, j.updatedAt))
    else
      var tests := RecomputedAll(j.tests);
      var progress := TotalProgress(tests);
      var (lifecycle, outcome) := JobState(tests);
      Job(tests, DeriveJobStatus(lifecycle, outcome), lifecycle, outcome, progress, Sorted(Compatible(tests)),
          progress.running,
          if progress.running > 0 || progress.completed > 0 || j.lifecycle == Done then Stamp(j.startedAt, j.updatedAt)
          else j.startedAt,
          j.updatedAt,
          if lifecycle == Active || lifecycle == Pending then "" else Stamp(j.finishedAt, j.updatedAt))
  }

  // ---------- The job, updated in place ----------

  class CapabilityTestJob {
    var tests: seq<Protocol>
    var status: JobStatus
    var lifecycle: Lifecycle
    var outcome: Outcome
    var progress: Progress
    var compatibleProtocols: seq<string>
    var activeOperations: nat
    var startedAt: string
    var updatedAt: string
    var finishedAt: string

    ghost function State(): Job
      reads this
    {
      Job(tests, status, lifecycle, outcome, progress, compatibleProtocols, activeOperations, startedAt, updatedAt, finishedAt)
    }

    /** The loop over the protocols: recomputes each and collects what the job needs. */
    method RecomputeTests() returns (counted: Progress, compatible: seq<string>)
      modifies this`tests
      ensures tests == RecomputedAll(old(tests))
      ensures counted == TotalProgress(tests) && compatible == Compatible(tests)
    {
      hide RecomputedProtocol, Tallied;
      counted, compatible := NO_PROGRESS, [];
      ghost var all := RecomputedAll(tests);
      for i := 0 to |tests|
        invariant |tests| == |all|
        invariant tests[..i] == all[..i] && tests[i..] == old(tests)[i..]
        invariant counted == TotalProgress(all[..i])
        invariant compatible == Compatible(all[..i])
      {
        assert tests[i] == tests[i..][0];
        var test := RecomputeCapabilityProtocol(tests[i]);
        tests := tests[i := test];
        assert all[..i + 1] == all[..i] + [test] && tests[..i + 1] == tests[..i] + [test];
        assert tests[i + 1..] == old(tests)[i + 1..];
        if test.outcome == Success || test.outcome == Partial {
          compatible := compatible + [test.name];
        }
        counted := CountModels(counted, test.models);
      }
      assert all[..|all|] == all && tests[..|tests|] == tests;
    }

    /** The counting loop of a cancelled job. */
    method CountTests() returns (counted: Progress)
      ensures counted == TotalProgress(tests)
    {
      hide Tallied;
      counted := NO_PROGRESS;
      for i := 0 to |tests|
        invariant counted == TotalProgress(tests[..i])
      {
        assert tests[..i + 1][..i] == tests[..i];
        counted := CountModels(counted, tests[i].models);
      }
      assert tests[..|tests|] == tests;
    }

    method Recompute()
      modifies this
      ensures State() == Recomputed(old(State()))
    {
      hide TotalProgress, Compatible, Sorted, SomeTest, SomeResult, AllTestsCancelled;
      if lifecycle == Cancelled {
        progress := CountTests();
        compatibleProtocols := [];
        activeOperations := 0;
        outcome := CancelledOutcome;
        status := DeriveJobStatus(lifecycle, outcome);
        if finishedAt == "" {
          finishedAt := updatedAt;
        }
        return;
      }
      var compatible: seq<string>;
      progress, compatible := RecomputeTests();
      compatibleProtocols := Sorted(compatible);
      activeOperations := progress.running;
      if startedAt == "" && (progress.running > 0 || progress.completed > 0 || lifecycle == Done) {
        startedAt := updatedAt;
      }
      Decide();
    }

    /** The last part of recomputeCapabilityJob. */
    method Decide()
      requires progress == TotalProgress(tests) && lifecycle != Cancelled
      modifies this`lifecycle, this`outcome, this`status, this`finishedAt
      ensures (lifecycle, outcome) == JobState(tests)
      ensures status == DeriveJobStatus(lifecycle, outcome)
      ensures finishedAt == if lifecycle == Active || lifecycle == Pending then "" else Stamp(old(finishedAt), updatedAt)
    {
      hide TotalProgress, SomeTest, SomeResult, AllTestsCancelled;
      if SomeTest(tests, Active) || progress.running > 0 {
        lifecycle := Active;
        outcome := if SomeResult(tests, Success) || SomeResult(tests, Partial) then Partial else Unknown;
        status := DeriveJobStatus(lifecycle, outcome);
        finishedAt := "";
        return;
      }
      if SomeTest(tests, Pending) {
        lifecycle, outcome := Pending, Unknown;
        status := DeriveJobStatus(lifecycle, outcome);
        finishedAt := "";
        return;
      }
      if AllTestsCancelled(tests) {
        lifecycle, outcome := Cancelled, CancelledOutcome;
      } else {
        lifecycle := Done;
        if SomeResult(tests, Partial) {
          outcome := Partial;
        } else if SomeResult(tests, Success) {
          outcome := Success;
        } else if SomeResult(tests, Failed) || progress.total > 0 {
          outcome := Failed;
        } else {
          outcome := Unknown;
        }
      }
      status := DeriveJobStatus(lifecycle, outcome);
      if finishedAt == "" {
        finishedAt := updatedAt;
      }
    }
  }

  // ---------- Progress adds up ----------

  function CountIn(models: seq<Model>, status: ModelStatus): nat {
    if models == [] then 0
    else CountIn(models[..|models| - 1], status) + if models[|models| - 1].status == status then 1 else 0
  }

  function Count(tests: seq<Protocol>, status: ModelStatus): nat {
    if tests == [] then 0 else Count(tests[..|tests| - 1], status) + CountIn(tests[|tests| - 1].models, status)
  }

  function Models(tests: seq<Protocol>): nat {
    if tests == [] then 0 else Models(tests[..|tests| - 1]) + |tests[|tests| - 1].models|
  }

  predicate AddsUp(p: Progress, idle: nat) {
    p.completed == p.success + p.failed + p.skipped && p.total == p.queued + p.running + p.completed + idle
  }

  lemma {:induction false} TalliedCounts(p: Progress, models: seq<Model>)
    ensures var q := Tallied(p, models);
      && q.queued == p.queued + CountIn(models, Queued) && q.running == p.running + CountIn(models, Running)
      && q.success == p.success + CountIn(models, Succeeded) && q.failed == p.failed + CountIn(models, FailedStatus)
      && q.skipped == p.skipped + CountIn(models, Skipped) && q.total == p.total + |models|
    ensures forall idle: nat :: AddsUp(p, idle) ==> AddsUp(Tallied(p, models), idle + CountIn(models, Idle))
  {
    if models != [] {
      TalliedCounts(p, models[..|models| - 1]);
    }
  }

  /** Every model is counted once, under its own status; the total is queued, running, completed and idle. */
  lemma {:induction false} ProgressAddsUp(tests: seq<Protocol>)
    ensures var p := TotalProgress(tests);
      && p.queued == Count(tests, Queued) && p.running == Count(tests, Running)
      && p.success == Count(tests, Succeeded) && p.failed == Count(tests, FailedStatus)
      && p.skipped == Count(tests, Skipped) && p.total == Models(tests)
      && AddsUp(p, Count(tests, Idle))
  {
    hide AddsUp;
    if tests == [] {
      assert AddsUp(NO_PROGRESS, 0) by { NothingAddsUp(); }
    } else {
      ProgressAddsUp(tests[..|tests| - 1]);
      TalliedCounts(TotalProgress(tests[..|tests| - 1]), tests[|tests| - 1].models);
    }
  }

  lemma NothingAddsUp()
    ensures AddsUp(NO_PROGRESS, 0)
  {
  }

  // ---------- Recomputing again changes nothing ----------

  lemma ProtocolIdempotent(t: Protocol)
    ensures RecomputedProtocol(RecomputedProtocol(t)) == RecomputedProtocol(t)
  {
    hide SomeModel, SomeOutcome, EveryModel, Successes, FirstNamed;
  }

  lemma TestsIdempotent(tests: seq<Protocol>)
    ensures RecomputedAll(RecomputedAll(tests)) == RecomputedAll(tests)
  {
    hide RecomputedProtocol;
    forall i | 0 <= i < |tests|
      ensures RecomputedProtocol(RecomputedProtocol(tests[i])) == RecomputedProtocol(tests[i])
    {
      ProtocolIdempotent(tests[i]);
    }
  }

  lemma {:induction false} ProgressOfRecomputed(tests: seq<Protocol>)
    ensures TotalProgress(RecomputedAll(tests)) == TotalProgress(tests)
  {
    if tests != [] {
      ProgressOfRecomputed(tests[..|tests| - 1]);
      assert RecomputedAll(tests)[..|tests| - 1] == RecomputedAll(tests[..|tests| - 1]);
    }
  }

  /** A cancelled protocol has the cancelled outcome. */
  lemma CancelledDidNotWork(t: Protocol)
    ensures RecomputedProtocol(t).lifecycle == Cancelled ==> !Worked(RecomputedProtocol(t))
  {
    hide SomeModel, SomeOutcome, EveryModel, Successes, FirstNamed;
  }

  lemma {:induction false} NoneCompatible(tests: seq<Protocol>)
    requires forall t :: t in tests ==> !Worked(t)
    ensures Compatible(tests) == []
  {
    if tests != [] {
      assert tests[|tests| - 1] in tests;
      NoneCompatible(tests[..|tests| - 1]);
    }
  }

  lemma AllCancelledIncompatible(tests: seq<Protocol>)
    requires AllTestsCancelled(RecomputedAll(tests))
    ensures Compatible(RecomputedAll(tests)) == []
  {
    hide RecomputedProtocol, Worked;
    forall i | 0 <= i < |tests|
      ensures !Worked(RecomputedAll(tests)[i])
    {
      CancelledDidNotWork(tests[i]);
      assert RecomputedAll(tests)[i].lifecycle == Cancelled;
    }
    NoneCompatible(RecomputedAll(tests));
  }

  /** The protocol comes to an end with a result. */
  predicate EndsDone(t: Protocol) {
    && t.lifecycle != Cancelled && !AllCancelled(t.models)
    && !SomeModel(t.models, Active) && !SomeModel(t.models, Pending)
    && (SomeOutcome(t.models, Success) || SomeOutcome(t.models, Failed))
  }

  /** The protocol is cancelled, or nothing but cancellations came out of its models. */
  predicate EndsCancelled(t: Protocol) {
    || t.lifecycle == Cancelled || AllCancelled(t.models)
    || (&& !SomeModel(t.models, Active) && !SomeModel(t.models, Pending)
        && !SomeOutcome(t.models, Success) && !SomeOutcome(t.models, Failed)
        && SomeOutcome(t.models, CancelledOutcome))
  }

  lemma EndsMeans(t: Protocol)
    ensures var r := RecomputedProtocol(t);
      && (r.lifecycle == Done <==> EndsDone(t)) && (r.lifecycle == Cancelled <==> EndsCancelled(t))
      && r.lifecycle != NoLifecycle
  {
    hide SomeModel, SomeOutcome, AllCancelled, Successes, FirstNamed;
  }

  /**
   * The start time is filled in only the second time: every protocol comes to
   * an end, not all of them cancelled, and yet no model counts as run.
   */
  predicate StartsLate(j: Job) {
    && j.startedAt == "" && j.updatedAt != ""
    && j.lifecycle != Cancelled && j.lifecycle != Done
    && TotalProgress(j.tests).running == 0 && TotalProgress(j.tests).completed == 0
    && (forall i :: 0 <= i < |j.tests| ==> EndsDone(j.tests[i]) || EndsCancelled(j.tests[i]))
    && (j.tests == [] || exists i :: 0 <= i < |j.tests| && EndsDone(j.tests[i]))
  }

  lemma EndsTests(tests: seq<Protocol>)
    requires TotalProgress(tests).running == 0
    ensures JobState(RecomputedAll(tests)).0 == Done <==>
      && (forall i :: 0 <= i < |tests| ==> EndsDone(tests[i]) || EndsCancelled(tests[i]))
      && (tests == [] || exists i :: 0 <= i < |tests| && EndsDone(tests[i]))
  {
    hide RecomputedProtocol, TotalProgress, SomeResult, EndsDone, EndsCancelled;
    var r := RecomputedAll(tests);
    ProgressOfRecomputed(tests);
    forall i | 0 <= i < |tests|
      ensures r[i].lifecycle == Done <==> EndsDone(tests[i])
      ensures r[i].lifecycle == Cancelled <==> EndsCancelled(tests[i])
      ensures r[i].lifecycle != NoLifecycle
    {
      EndsMeans(tests[i]);
    }
  }

  /**
   * Recomputing a job twice is recomputing it once, in every field, except
   * that a job which ends without a model having run gets its start time late.
   */
  lemma RecomputeIsIdempotent(j: Job)
    ensures var r := Recomputed(j);
      Recomputed(r) == if StartsLate(j) then r.(startedAt := r.updatedAt) else r
    ensures Recomputed(Recomputed(j)) == Recomputed(j) <==> !StartsLate(j)
  {
    hide RecomputedProtocol, RecomputedAll, TotalProgress, Compatible, Sorted, SomeTest, SomeResult, AllTestsCancelled,
         EndsDone, EndsCancelled;
    if j.lifecycle != Cancelled {
      var tests := RecomputedAll(j.tests);
      TestsIdempotent(j.tests);
      ProgressOfRecomputed(j.tests);
      if TotalProgress(j.tests).running == 0 {
        EndsTests(j.tests);
      }
      if JobState(tests).0 == Cancelled {
        AllCancelledIncompatible(j.tests);
        assert Sorted([]) == [] by { SortedNothing(); }
      }
    }
  }

  lemma SortedNothing()
    ensures Sorted([]) == []
  {
  }

  lemma {:induction false} NoneCompleted(tests: seq<Protocol>, i: nat)
    requires i < |tests| && TotalProgress(tests).completed == 0
    ensures forall m :: m in tests[i].models ==> m.status == Queued || m.status == Running || m.status == Idle
  {
    hide Tallied;
    var init, last := tests[..|tests| - 1], tests[|tests| - 1];
    CompletedSplit(TotalProgress(init), last.models);
    if i < |init| {
      NoneCompleted(init, i);
    }
  }

  lemma {:induction false} CompletedSplit(p: Progress, models: seq<Model>)
    requires Tallied(p, models).completed == 0
    ensures p.completed == 0
    ensures forall m :: m in models ==> m.status == Queued || m.status == Running || m.status == Idle
  {
    if models != [] {
      CompletedSplit(p, models[..|models| - 1]);
      assert models == models[..|models| - 1] + [models[|models| - 1]];
    }
  }

  /** A protocol that ends with a result has a model that ran. */
  lemma EndedHasRun(t: Protocol)
    requires EndsDone(t) && forall m :: m in t.models ==> Consistent(m)
    ensures exists m :: m in t.models && (m.status == Succeeded || m.status == FailedStatus || m.status == Skipped)
  {
    var outcome := if SomeOutcome(t.models, Success) then Success else Failed;
    var i :| 0 <= i < |t.models| && t.models[i].outcome == outcome;
    assert t.models[i] in t.models;
    assert t.models[i].lifecycle != Active && t.models[i].lifecycle != Pending;
  }

  predicate Consistent(m: Model) {
    m.status == DeriveModelStatus(m.lifecycle, m.outcome)
  }

  /** With consistent models only a job without protocols starts late. */
  lemma OnlyEmptyJobsStartLate(j: Job)
    requires forall i, m :: 0 <= i < |j.tests| && m in j.tests[i].models ==> Consistent(m)
    ensures StartsLate(j) <==>
      j.startedAt == "" && j.updatedAt != "" && j.lifecycle != Cancelled && j.lifecycle != Done && j.tests == []
  {
    hide Consistent, EndsDone, EndsCancelled;
    if StartsLate(j) && j.tests != [] {
      hide TotalProgress;
      var i :| 0 <= i < |j.tests| && EndsDone(j.tests[i]);
      NoneCompleted(j.tests, i);
      EndedHasRun(j.tests[i]);
    }
  }

  /** Such a job: its start time is set only by the second recomputation. */
  lemma EmptyJobStartsLate(j: Job)
    requires j.tests == [] && j.startedAt == "" && j.updatedAt != "" && j.lifecycle == Pending
    ensures Recomputed(j).startedAt == "" && Recomputed(Recomputed(j)).startedAt == j.updatedAt
  {
    assert RecomputedAll([]) == [];
    OnlyEmptyJobsStartLate(j);
    RecomputeIsIdempotent(j);
  }

  // ---------- What the states mean ----------

  /** A cancelled job stays cancelled, whatever its models do. */
  lemma CancelledIsAbsorbing(j: Job, tests: seq<Protocol>)
    requires j.lifecycle == Cancelled
    ensures var r := Recomputed(j.(tests := tests));
      && r.lifecycle == Cancelled && r.outcome == CancelledOutcome && r.status == JobCancelled && r.compatible == []
      && r.tests == tests && (j.finishedAt != "" ==> r.finishedAt == j.finishedAt)
  {
  }

  /** Recomputation after each of a series of changes to the results. */
  function Run(j: Job, changes: seq<seq<Protocol>>): Job {
    if changes == [] then j else Recomputed(Run(j, changes[..|changes| - 1]).(tests := changes[|changes| - 1]))
  }

  /** Once cancelled, a job stays cancelled over every later run, keeping its finish time. */
  lemma {:induction false} CancelledForever(j: Job, changes: seq<seq<Protocol>>)
    requires j.lifecycle == Cancelled
    ensures var r := Run(j, changes);
      && r.lifecycle == Cancelled && (j.finishedAt != "" ==> r.finishedAt == j.finishedAt)
      && (changes != [] ==>
            && r.outcome == CancelledOutcome && r.status == JobCancelled && r.compatible == []
            && r.tests == changes[|changes| - 1])
  {
    hide Recomputed;
    if changes != [] {
      var before := Run(j, changes[..|changes| - 1]);
      CancelledForever(j, changes[..|changes| - 1]);
      CancelledIsAbsorbing(before, changes[|changes| - 1]);
    }
  }

  /** Statuses are always the derived ones. */
  lemma StatusIsDerived(j: Job)
    ensures var r := Recomputed(j);
      && r.status == DeriveJobStatus(r.lifecycle, r.outcome)
      && (j.lifecycle != Cancelled ==>
            forall t :: t in r.tests ==> t.status == DeriveProtocolStatus(t.lifecycle, t.outcome))
  {
    hide RecomputedProtocol, TotalProgress, Compatible, Sorted, SomeTest, SomeResult, AllTestsCancelled;
    forall i | 0 <= i < |j.tests|
      ensures var t := RecomputedProtocol(j.tests[i]); t.status == DeriveProtocolStatus(t.lifecycle, t.outcome)
    {
      ProtocolStatusIsDerived(j.tests[i]);
    }
  }

  lemma ProtocolStatusIsDerived(t: Protocol)
    ensures var r := RecomputedProtocol(t); r.status == DeriveProtocolStatus(r.lifecycle, r.outcome)
  {
  }

  lemma {:induction false} CountNone(models: seq<Model>, status: ModelStatus)
    requires forall m :: m in models ==> m.status != status
    ensures CountIn(models, status) == 0
  {
    if models != [] {
      assert models[|models| - 1] in models;
      CountNone(models[..|models| - 1], status);
    }
  }

  /** A protocol that is done has no queued and no running model. */
  lemma DoneProtocolIsSettled(t: Protocol)
    requires forall m :: m in t.models ==> Consistent(m)
    requires RecomputedProtocol(t).lifecycle == Done
    ensures CountIn(t.models, Queued) == 0 && CountIn(t.models, Running) == 0
  {
    assert !SomeModel(t.models, Active) && !SomeModel(t.models, Pending) by { DoneMeans(t); }
    forall m | m in t.models
      ensures m.status != Queued && m.status != Running
    {
      var i :| 0 <= i < |t.models| && t.models[i] == m;
      assert Consistent(m) && m.lifecycle != Active && m.lifecycle != Pending;
    }
    CountNone(t.models, Queued);
    CountNone(t.models, Running);
  }

  lemma DoneMeans(t: Protocol)
    requires RecomputedProtocol(t).lifecycle == Done
    ensures !SomeModel(t.models, Active) && !SomeModel(t.models, Pending)
  {
    hide SomeModel, SomeOutcome, EveryModel, Successes, FirstNamed;
  }

  /** A job that is done has no running model, and a queued one only under a cancelled protocol. */
  lemma DoneJobIsSettled(j: Job, i: nat)
    requires j.lifecycle != Cancelled && Recomputed(j).lifecycle == Done && i < |j.tests|
    requires forall m :: m in j.tests[i].models ==> Consistent(m)
    ensures Recomputed(j).progress.running == 0
    ensures Recomputed(j).tests[i].lifecycle != Cancelled ==>
      CountIn(j.tests[i].models, Queued) == 0 && CountIn(j.tests[i].models, Running) == 0
  {
    hide RecomputedProtocol, TotalProgress, Compatible, Sorted, SomeResult, AllTestsCancelled, CountIn, Consistent;
    var t := Recomputed(j).tests[i];
    assert t == RecomputedProtocol(j.tests[i]);
    assert !SomeTest(Recomputed(j).tests, Active) && !SomeTest(Recomputed(j).tests, Pending);
    assert t.lifecycle != Active && t.lifecycle != Pending;
    RecomputedLifecycle(j.tests[i]);
    if t.lifecycle != Cancelled {
      DoneProtocolIsSettled(j.tests[i]);
    }
  }

  lemma RecomputedLifecycle(t: Protocol)
    ensures RecomputedProtocol(t).lifecycle != NoLifecycle
  {
  }

  /** Success ignores failed protocols: it takes one full success, no partial one, and nothing open. */
  lemma JobSucceedsExactlyWhen(j: Job)
    requires j.lifecycle != Cancelled
    ensures var r := Recomputed(j);
      r.outcome == Success <==>
        r.lifecycle == Done && SomeResult(r.tests, Success) && !SomeResult(r.tests, Partial)
  {
    hide RecomputedProtocol, TotalProgress, Compatible, Sorted, SomeTest, SomeResult, AllTestsCancelled;
  }

  // ---------- The compatible protocols ----------

  lemma {:induction false} AtMostIsTotal(a: string, b: string)
    ensures AtMost(a, b) || AtMost(b, a)
    decreases a
  {
    if a != "" && b != "" && a[0] == b[0] {
      AtMostIsTotal(a[1..], b[1..]);
    }
  }

  predicate Ordered(s: seq<string>) {
    forall i :: 0 < i < |s| ==> AtMost(s[i - 1], s[i])
  }

  lemma {:induction false} InsertedOrdered(s: seq<string>, x: string)
    requires Ordered(s)
    ensures Ordered(Inserted(s, x)) && multiset(Inserted(s, x)) == multiset(s) + multiset{x}
    ensures Inserted(s, x)[0] == x || (s != [] && Inserted(s, x)[0] == s[0])
  {
    hide AtMost, Ordered;
    if s == [] || AtMost(x, s[0]) {
      OrderedCons(x, s);
      return;
    }
    AtMostIsTotal(x, s[0]);
    OrderedTail(s);
    InsertedOrdered(s[1..], x);
    OrderedCons(s[0], Inserted(s[1..], x));
    assert s == [s[0]] + s[1..];
  }

  lemma OrderedTail(s: seq<string>)
    requires Ordered(s) && s != []
    ensures Ordered(s[1..]) && (|s| > 1 ==> AtMost(s[0], s[1]))
  {
    hide AtMost;
    forall i | 0 < i < |s[1..]|
      ensures AtMost(s[1..][i - 1], s[1..][i])
    {
      assert s[1..][i - 1] == s[i] && s[1..][i] == s[i + 1];
    }
  }

  lemma OrderedCons(a: string, rest: seq<string>)
    requires Ordered(rest) && (rest == [] || AtMost(a, rest[0]))
    ensures Ordered([a] + rest)
  {
    hide AtMost;
    var s := [a] + rest;
    forall i | 0 < i < |s|
      ensures AtMost(s[i - 1], s[i])
    {
      assert s[i] == rest[i - 1] && (i > 1 ==> s[i - 1] == rest[i - 2]);
    }
  }

  lemma {:induction false} SortedOrders(s: seq<string>)
    ensures Ordered(Sorted(s)) && multiset(Sorted(s)) == multiset(s)
  {
    if s != [] {
      SortedOrders(s[..|s| - 1]);
      InsertedOrdered(Sorted(s[..|s| - 1]), s[|s| - 1]);
      assert s == s[..|s| - 1] + [s[|s| - 1]];
    }
  }

  /** The compatible protocols are, in order, those whose recomputed outcome is success or partial. */
  lemma CompatibleAreTheWorkingOnes(j: Job)
    requires j.lifecycle != Cancelled
    ensures var r := Recomputed(j);
      Ordered(r.compatible) && multiset(r.compatible) == multiset(Compatible(r.tests))
    ensures forall name :: name in Recomputed(j).compatible <==>
      exists i :: 0 <= i < |Recomputed(j).tests| && Recomputed(j).tests[i].name == name && Worked(Recomputed(j).tests[i])
  {
    hide Ordered, RecomputedProtocol, TotalProgress, Sorted, JobState, Compatible, Worked;
    var r := Recomputed(j);
    SortedOrders(Compatible(r.tests));
    forall name
      ensures name in r.compatible <==> exists i :: 0 <= i < |r.tests| && r.tests[i].name == name && Worked(r.tests[i])
    {
      CompatibleHas(r.tests, name);
      assert name in r.compatible <==> name in multiset(r.compatible);
      assert name in Compatible(r.tests) <==> name in multiset(Compatible(r.tests));
    }
  }

  lemma {:induction false} CompatibleHas(tests: seq<Protocol>, name: string)
    ensures name in Compatible(tests) <==> exists i :: 0 <= i < |tests| && tests[i].name == name && Worked(tests[i])
  {
    if tests != [] {
      var init, t := tests[..|tests| - 1], tests[|tests| - 1];
      CompatibleHas(init, name);
      if name in Compatible(init) {
        var i :| 0 <= i < |init| && init[i].name == name && Worked(init[i]);
        assert tests[i] == init[i];
      }
      if exists i :: 0 <= i < |tests| && tests[i].name == name && Worked(tests[i]) {
        var i :| 0 <= i < |tests| && tests[i].name == name && Worked(tests[i]);
        assert i < |init| ==> init[i] == tests[i];
      }
    }
  }
}
