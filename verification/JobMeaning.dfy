// What the recomputed state of a capability test job says about its models,
// without the functions the recomputation is written with.
module JobMeaning {
  import opened CapabilityJobs

  // ---------- Protocols ----------

  /** Some model is in this stage. */
  predicate HasStage(t: Protocol, stage: Lifecycle) {
    exists m :: m in t.models && m.lifecycle == stage
  }

  /** Some model came out like this. */
  predicate HasResult(t: Protocol, outcome: Outcome) {
    exists m :: m in t.models && m.outcome == outcome
  }

  /** Cancelled before, or every model cancelled. */
  predicate CalledOff(t: Protocol) {
    t.lifecycle == Cancelled || (t.models != [] && forall m :: m in t.models ==> m.lifecycle == Cancelled)
  }

  predicate Says(t: Protocol, lifecycle: Lifecycle, outcome: Outcome, status: ProtocolStatus) {
    t.lifecycle == lifecycle && t.outcome == outcome && t.status == status
  }

  /** A protocol with running or waiting models, or without any result, is open. */
  predicate StaysOpen(t: Protocol) {
    && !CalledOff(t)
    && (HasStage(t, Active) || HasStage(t, Pending)
        || !(HasResult(t, Success) || HasResult(t, Failed) || HasResult(t, CancelledOutcome)))
  }

  lemma SomeModelIs(t: Protocol, stage: Lifecycle)
    ensures SomeModel(t.models, stage) <==> HasStage(t, stage)
  {
    if HasStage(t, stage) {
      var m :| m in t.models && m.lifecycle == stage;
      var i :| 0 <= i < |t.models| && t.models[i] == m;
    }
    if SomeModel(t.models, stage) {
      var i :| 0 <= i < |t.models| && t.models[i].lifecycle == stage;
      assert t.models[i] in t.models;
    }
  }

  lemma SomeOutcomeIs(t: Protocol, outcome: Outcome)
    ensures SomeOutcome(t.models, outcome) <==> HasResult(t, outcome)
  {
    if HasResult(t, outcome) {
      var m :| m in t.models && m.outcome == outcome;
      var i :| 0 <= i < |t.models| && t.models[i] == m;
    }
    if SomeOutcome(t.models, outcome) {
      var i :| 0 <= i < |t.models| && t.models[i].outcome == outcome;
      assert t.models[i] in t.models;
    }
  }

  lemma CalledOffIs(t: Protocol)
    ensures CalledOff(t) <==> t.lifecycle == Cancelled || AllCancelled(t.models)
  {
    if AllCancelled(t.models) {
      forall m | m in t.models ensures m.lifecycle == Cancelled {
        var i :| 0 <= i < |t.models| && t.models[i] == m;
      }
    }
    if CalledOff(t) && t.lifecycle != Cancelled {
      forall i | 0 <= i < |t.models| ensures t.models[i].lifecycle == Cancelled {
        assert t.models[i] in t.models;
      }
    }
  }

  /** The facts the recomputation goes by. */
  lemma Facts(t: Protocol)
    ensures SomeModel(t.models, Active) <==> HasStage(t, Active)
    ensures SomeModel(t.models, Pending) <==> HasStage(t, Pending)
    ensures SomeOutcome(t.models, Success) <==> HasResult(t, Success)
    ensures SomeOutcome(t.models, Failed) <==> HasResult(t, Failed)
    ensures SomeOutcome(t.models, CancelledOutcome) <==> HasResult(t, CancelledOutcome)
    ensures CalledOff(t) <==> t.lifecycle == Cancelled || AllCancelled(t.models)
  {
    hide SomeModel, SomeOutcome, AllCancelled, HasStage, HasResult, CalledOff;
    SomeModelIs(t, Active);
    SomeModelIs(t, Pending);
    SomeOutcomeIs(t, Success);
    SomeOutcomeIs(t, Failed);
    SomeOutcomeIs(t, CancelledOutcome);
    CalledOffIs(t);
  }

  /** A cancelled protocol, and one that is still open. */
  lemma OpenOrCalledOff(t: Protocol)
    ensures var r := RecomputedProtocol(t);
      && (CalledOff(t) ==> Says(r, Cancelled, CancelledOutcome, ProtocolFailed))
      && (!CalledOff(t) && HasStage(t, Active) ==>
            Says(r, Active, if HasResult(t, Success) then Partial else Unknown, ProtocolRunning))
      && (StaysOpen(t) && !HasStage(t, Active) ==> Says(r, Pending, Unknown, ProtocolQueued))
  {
    hide SomeModel, SomeOutcome, AllCancelled, HasStage, HasResult, CalledOff, Successes, FirstNamed;
    Facts(t);
  }

  /** One whose models have all come to an end, with a result. */
  lemma EndedByResults(t: Protocol)
    requires !CalledOff(t) && !StaysOpen(t)
    ensures var r := RecomputedProtocol(t);
      if HasResult(t, Success) then
        Says(r, Done, if HasResult(t, Failed) || HasResult(t, CancelledOutcome) then Partial else Success, ProtocolCompleted)
      else if HasResult(t, Failed) then Says(r, Done, Failed, ProtocolFailed)
      else Says(r, Cancelled, CancelledOutcome, ProtocolFailed)
  {
    hide SomeModel, SomeOutcome, AllCancelled, HasStage, HasResult, CalledOff, Successes, FirstNamed;
    Facts(t);
  }

  /** The successful models of a protocol. */
  ghost function Successful(models: seq<Model>): set<int> {
    set i | 0 <= i < |models| && models[i].outcome == Success
  }

  lemma {:induction false} SuccessesAre(models: seq<Model>)
    ensures Successes(models) == |Successful(models)|
  {
    if models != [] {
      var n := |models| - 1;
      SuccessesAre(models[..n]);
      assert Successful(models) == Successful(models[..n]) + if models[n].outcome == Success then {n} else {};
    }
  }

  lemma {:induction false} FirstNamedIs(models: seq<Model>)
    ensures FirstNamed(models).0 == "" <==> forall i :: 0 <= i < |models| && models[i].outcome == Success ==> models[i].name == ""
    ensures FirstNamed(models).0 != "" ==>
      exists i :: 0 <= i < |models| && IsFirstNamed(models, i) && FirstNamed(models) == (models[i].name, models[i].streaming)
  {
    if models != [] {
      var n := |models| - 1;
      var init := models[..n];
      FirstNamedIs(init);
      if FirstNamed(init).0 != "" {
        var i :| 0 <= i < |init| && IsFirstNamed(init, i) && FirstNamed(init) == (init[i].name, init[i].streaming);
        assert models[i] == init[i] && IsFirstNamed(models, i);
      } else if FirstNamed(models).0 != "" {
        assert IsFirstNamed(models, n);
      }
    }
  }

  /** The first model that succeeded and has a name. */
  predicate IsFirstNamed(models: seq<Model>, i: nat)
    requires i < |models|
  {
    && models[i].outcome == Success && models[i].name != ""
    && forall j :: 0 <= j < i ==> !(models[j].outcome == Success && models[j].name != "")
  }

  /** What else the recomputation writes into a protocol, and what it leaves alone. */
  lemma ProtocolFields(t: Protocol)
    ensures var r := RecomputedProtocol(t);
      && r.name == t.name && r.models == t.models
      && r.successCount == |Successful(t.models)|
      && (r.success <==> Successful(t.models) != {})
      && r.hasError == (t.hasError && r.status != ProtocolCompleted)
  {
    hide Successes, FirstNamed, AllCancelled;
    SuccessesAre(t.models);
    if SomeOutcome(t.models, Success) {
      var i :| 0 <= i < |t.models| && t.models[i].outcome == Success;
      assert i in Successful(t.models);
    }
  }

  /** The tested model is the first that succeeded and has a name, or the one from before. */
  lemma TestedModelIs(t: Protocol)
    ensures var r := RecomputedProtocol(t);
      || ((forall i :: 0 <= i < |t.models| && t.models[i].outcome == Success ==> t.models[i].name == "")
          && r.testedModel == t.testedModel && r.streaming == t.streaming)
      || exists i :: 0 <= i < |t.models| && IsFirstNamed(t.models, i)
           && r.testedModel == t.models[i].name && r.streaming == t.models[i].streaming
  {
    hide FirstNamed, Successes, ProtocolState;
    FirstNamedIs(t.models);
  }

  // ---------- Jobs ----------

  predicate HasTest(r: Job, stage: Lifecycle) {
    exists t :: t in r.tests && t.lifecycle == stage
  }

  predicate HasTestResult(r: Job, outcome: Outcome) {
    exists t :: t in r.tests && t.outcome == outcome
  }

  predicate JobSays(r: Job, lifecycle: Lifecycle, outcome: Outcome, status: JobStatus) {
    r.lifecycle == lifecycle && r.outcome == outcome && r.status == status
  }

  lemma SomeTestIs(r: Job, stage: Lifecycle)
    ensures SomeTest(r.tests, stage) <==> HasTest(r, stage)
  {
    if HasTest(r, stage) {
      var t :| t in r.tests && t.lifecycle == stage;
      var i :| 0 <= i < |r.tests| && r.tests[i] == t;
    }
    if SomeTest(r.tests, stage) {
      var i :| 0 <= i < |r.tests| && r.tests[i].lifecycle == stage;
      assert r.tests[i] in r.tests;
    }
  }

  lemma SomeResultIs(r: Job, outcome: Outcome)
    ensures SomeResult(r.tests, outcome) <==> HasTestResult(r, outcome)
  {
    if HasTestResult(r, outcome) {
      var t :| t in r.tests && t.outcome == outcome;
      var i :| 0 <= i < |r.tests| && r.tests[i] == t;
    }
    if SomeResult(r.tests, outcome) {
      var i :| 0 <= i < |r.tests| && r.tests[i].outcome == outcome;
      assert r.tests[i] in r.tests;
    }
  }

  predicate AllCalledOff(r: Job) {
    r.tests != [] && forall t :: t in r.tests ==> t.lifecycle == Cancelled
  }

  lemma AllCalledOffIs(r: Job)
    ensures AllTestsCancelled(r.tests) <==> AllCalledOff(r)
  {
    if AllTestsCancelled(r.tests) {
      forall t | t in r.tests ensures t.lifecycle == Cancelled {
        var i :| 0 <= i < |r.tests| && r.tests[i] == t;
      }
    }
    if AllCalledOff(r) {
      forall i | 0 <= i < |r.tests| ensures r.tests[i].lifecycle == Cancelled {
        assert r.tests[i] in r.tests;
      }
    }
  }

  lemma JobFacts(r: Job)
    ensures SomeTest(r.tests, Active) <==> HasTest(r, Active)
    ensures SomeTest(r.tests, Pending) <==> HasTest(r, Pending)
    ensures SomeResult(r.tests, Success) <==> HasTestResult(r, Success)
    ensures SomeResult(r.tests, Partial) <==> HasTestResult(r, Partial)
    ensures SomeResult(r.tests, Failed) <==> HasTestResult(r, Failed)
    ensures AllTestsCancelled(r.tests) <==> AllCalledOff(r)
  {
    hide SomeTest, SomeResult, AllTestsCancelled, HasTest, HasTestResult, AllCalledOff;
    SomeTestIs(r, Active);
    SomeTestIs(r, Pending);
    SomeResultIs(r, Success);
    SomeResultIs(r, Partial);
    SomeResultIs(r, Failed);
    AllCalledOffIs(r);
  }

  /** A running model or protocol. */
  predicate Runs(r: Job) {
    HasTest(r, Active) || r.progress.running > 0
  }

  /** What a recomputed job says of its protocols: running, waiting, cancelled, completed if one worked, or failed. */
  lemma JobMeans(j: Job)
    requires j.lifecycle != Cancelled
    ensures var r := Recomputed(j);
      if Runs(r) then
        JobSays(r, Active, if HasTestResult(r, Success) || HasTestResult(r, Partial) then Partial else Unknown, JobRunning)
      else if HasTest(r, Pending) then JobSays(r, Pending, Unknown, JobQueued)
      else if AllCalledOff(r) then JobSays(r, Cancelled, CancelledOutcome, JobCancelled)
      else if HasTestResult(r, Partial) then JobSays(r, Done, Partial, JobCompleted)
      else if HasTestResult(r, Success) then JobSays(r, Done, Success, JobCompleted)
      else JobSays(r, Done, if HasTestResult(r, Failed) || r.progress.total > 0 then Failed else Unknown, JobFailed)
  {
    hide SomeTest, SomeResult, AllTestsCancelled, HasTest, HasTestResult, AllCalledOff, TotalProgress, Compatible, Sorted,
         RecomputedAll;
    JobFacts(Recomputed(j));
  }

  /** When a job started and finished, and how much of it runs. */
  lemma JobTimes(j: Job)
    requires j.lifecycle != Cancelled
    ensures var r := Recomputed(j);
      && r.activeOperations == r.progress.running
      && r.updatedAt == j.updatedAt
      && (j.startedAt != "" ==> r.startedAt == j.startedAt)
      && (j.startedAt == "" ==>
            r.startedAt == if r.progress.running > 0 || r.progress.completed > 0 || j.lifecycle == Done then j.updatedAt else "")
      && (r.lifecycle == Active || r.lifecycle == Pending ==> r.finishedAt == "")
      && (r.lifecycle != Active && r.lifecycle != Pending ==>
            r.finishedAt == if j.finishedAt == "" then j.updatedAt else j.finishedAt)
  {
    hide TotalProgress, Compatible, Sorted, RecomputedAll, JobState, DeriveJobStatus;
  }

  /** Recomputing a cancelled job only counts its models, stops what runs, and notes when it ended. */
  lemma CancelledMeans(j: Job)
    requires j.lifecycle == Cancelled
    ensures var r := Recomputed(j);
      && r.progress == TotalProgress(j.tests) && r.activeOperations == 0
      && r.finishedAt == (if j.finishedAt == "" then j.updatedAt else j.finishedAt)
      && JobSays(r, Cancelled, CancelledOutcome, JobCancelled)
      && r.tests == j.tests && r.startedAt == j.startedAt && r.updatedAt == j.updatedAt && r.compatible == []
  {
    hide TotalProgress;
  }

  // ---------- The order of names ----------

  /** A name comes before the names it begins. */
  lemma {:induction false} PrefixFirst(a: string, more: string)
    ensures AtMost(a, a + more) && (AtMost(a + more, a) <==> more == "")
  {
    if a != "" {
      assert (a + more)[1..] == a[1..] + more;
      PrefixFirst(a[1..], more);
    } else {
      assert a + more == more;
    }
  }

  /** Otherwise the first character that differs decides. */
  lemma {:induction false} FirstDifferenceDecides(common: string, x: char, a: string, y: char, b: string)
    requires x != y
    ensures AtMost(common + [x] + a, common + [y] + b) <==> x < y
  {
    var s, t := common + [x] + a, common + [y] + b;
    if common == "" {
      assert s[0] == x && t[0] == y;
    } else {
      assert s[1..] == common[1..] + [x] + a && t[1..] == common[1..] + [y] + b;
      assert s[0] == t[0] == common[0];
      FirstDifferenceDecides(common[1..], x, a, y, b);
    }
  }
}
