/** Two runs with two nodes: one ends with a DaemonSet that outlives its need, the other with a
    rollout that is stuck. */
module TwoNodes {
  import opened Text
  import opened Ledger
  import opened LedgerLaws
  import opened Selection
  import opened Api
  import opened Worker
  import opened Rollout
  import opened Quiescence
  import opened Passes
  import opened Progress
  import opened Supplies
  import opened Shortage
  import opened Completion
  import Reconcile
  import SysctlConf
  import ScriptConf

  // ---------- A DaemonSet that outlives its need ----------

  /** A profile of the kind with one setting or one script, for all nodes. */
  function SmallSpec(kind: Kind): Spec {
    var all := Selector(map[], []);
    if kind.SysctlProfile? then SysctlSpec([SysctlConf.Sysctl("vm.swappiness", "1")], all, "")
    else ScriptSpec([ScriptConf.Script("s", "true", "")], all)
  }

  const TWO_NODES: Nodes := map["a" := map[], "b" := map[]]

  function EmptyCluster(): State {
    State(Cell([], None, 0), Cell([], TWO_NODES, 0), Cell([], None, 0), Cell([], None, 0), Cell([], None, 0),
          Control(false, Idle, None, false, {}, []), Reports([], map[], [], 0, multiset{}), 0, false)
  }

  /** A profile for the two nodes has just been created. */
  lemma TwoNodesCreated(p: Params) returns (tr: seq<State>)
    ensures IsRun(p, tr) && |tr| == 2 && tr[1] == EnvNext(p, EmptyCluster(), Create(SmallSpec(p.kind)))
  {
    assert IsRun(p, [EmptyCluster()]);
    RunOneMore(p, [EmptyCluster()], EnvStep(Create(SmallSpec(p.kind))));
    tr := [EmptyCluster()] + [Next(p, EmptyCluster(), EnvStep(Create(SmallSpec(p.kind))))];
  }

  /** The rollout to the two nodes, at rest with a ledger that is not complete. */
  ghost predicate RollingTwo(p: Params, s: State) {
    && Quiet(s) && Live(s) && s.ds.now.Some? && Rolling(p, s)
    && s.nodes.now == TWO_NODES && s.profile.now.value.spec == SmallSpec(p.kind)
    && Goal(p, s).1 == {"a", "b"}
  }

  ghost predicate NoReports(s: State) {
    s.rep.runs == [] && s.rep.handlers == map[] && s.profile.now.Some? && s.profile.now.value.status.book == EMPTY_BOOK
  }

  lemma TwoAreSelected(p: Params, s: State)
    requires s.nodes.now == TWO_NODES && s.profile.now.Some? && s.profile.now.value.spec == SmallSpec(p.kind)
    ensures Goal(p, s).1 == {"a", "b"}
  {
  }

  /** With a selected node open, rest means that the DaemonSet is there. */
  lemma RollingAtRest(p: Params, s: State, x: string)
    requires Good(p, s) && Quiet(s) && Live(s) && s.nodes.now == TWO_NODES && s.profile.now.value.spec == SmallSpec(p.kind)
    requires (x == "a" || x == "b") && !NodeApplied(s.profile.now.value.status.book.nodes, x, Goal(p, s).0)
    ensures RollingTwo(p, s)
  {
    AtRest(p, s);
    TwoAreSelected(p, s);
    assert x in Goal(p, s).1;
  }

  lemma TwoNodesRoll(p: Params, s: State) returns (t: State)
    requires s == EnvNext(p, EmptyCluster(), Create(SmallSpec(p.kind))) && Comes(p, s, s)
    ensures Comes(p, s, t) && RollingTwo(p, t) && NoReports(t)
  {
    var a := SeeAll(p, s, s);
    t := Rest(p, s, a);
    RollingAtRest(p, t, "a");
  }

  /** A pod ran, and its report was committed and counted; nothing else happened. */
  ghost predicate ReportedOne(p: Params, s: State, t: State, run: Run) {
    && OnlyReports(s, t) && |t.profile.past| > |s.profile.past|
    && t.rep.runs == s.rep.runs + [run] && t.rep.handlers == s.rep.handlers[|s.rep.runs| := Recorded]
    && t.profile.now.value.status.book == Record(p.kind, s.profile.now.value.status.book, run.report)
  }

  ghost predicate CountedOne(s: State, t: State, id: nat) {
    t == s.(rep := s.rep.(handlers := s.rep.handlers[id := Recorded], metric := t.rep.metric))
  }

  lemma CountOne(p: Params, r: State, s: State, id: nat) returns (t: State)
    requires Comes(p, r, s) && id < |s.rep.runs| && id in s.rep.handlers && s.rep.handlers[id].Committed?
    ensures Comes(p, r, t) && CountedOne(s, t, id)
  {
    t := Come(p, r, s, DealStep(Count(id)));
  }

  lemma RanCommittedCounted(p: Params, s: State, a: State, b: State, t: State, run: Run)
    requires RanOne(s, a, run) && CommittedOne(p, a, b, |s.rep.runs|) && CountedOne(b, t, |s.rep.runs|)
    ensures ReportedOne(p, s, t, run)
  {
  }

  /** A report from a node, of a pod that could start, is committed and counted. */
  lemma ReportFrom(p: Params, r: State, s: State, n: string, host: Host) returns (t: State, run: Run)
    requires Comes(p, r, s) && Rolling(p, s) && CanStart(s, n)
    ensures Comes(p, r, t) && ReportedOne(p, s, t, run) && Spent(t, n)
    ensures run.node == n && run.report.node == n && run.report.hash == Goal(p, s).0
    ensures run.report.success <==> Succeeded(if p.kind.ScriptProfile? then ScriptMode else ApplyMode, s.cm.now.value.data, host, map[])
  {
    var a;
    a, run := WorkOn(p, r, s, n, host);
    var b := CommitAvailable(p, r, a, |s.rep.runs|);
    t := CountOne(p, r, b, |s.rep.runs|);
    RanCommittedCounted(p, s, a, b, t, run);
    SpentSame(a, t, n);
  }

  lemma OnlyFirstApplied(p: Params, s: State)
    requires RollingTwo(p, s)
    requires s.profile.now.value.status.book == Record(p.kind, EMPTY_BOOK, Report("a", Goal(p, s).0, true))
    ensures OnlyOpen(p, s, "b")
  {
    var nodes := s.profile.now.value.status.book.nodes;
    assert nodes == [FreshEntry(Report("a", Goal(p, s).0, true))];
    assert nodes[0].node == "a" && AppliedAt(nodes[0], Goal(p, s).0);
  }

  /** The DaemonSet that outlives its need is reachable, for either kind of profile and any hash: of two
      nodes one reports success, and the other is deleted. */
  lemma OutlivedIsReachable(p: Params) returns (tr: seq<State>)
    ensures IsRun(p, tr) && Outlived(p, tr[|tr| - 1])
  {
    var start := TwoNodesCreated(p);
    RunIsGood(p, start, 1);
    var s := TwoNodesRoll(p, start[1]);
    var t := FirstReports(p, start[1], s);
    var run := RunReaches(p, start, t);
    DeletionOutlivesNeed(p, run, "b");
    tr := run + [EnvNext(p, t, RemoveNode("b")), WithoutNode(t, "b")];
  }

  lemma FirstSucceeds(p: Params, r: State, s: State) returns (t: State)
    requires Comes(p, r, s) && RollingTwo(p, s) && NoReports(s) && Settled(p, s)
    ensures Comes(p, r, t) && OnlyReports(s, t)
    ensures t.profile.now.value.status.book == Record(p.kind, EMPTY_BOOK, Report("a", Goal(p, s).0, true))
  {
    var run;
    assert Placed(s.profile.now.value.spec.selector, TWO_NODES["a"]);
    t, run := ReportFrom(p, r, s, "a", WILLING);
    assert run.report == Report("a", Goal(p, s).0, true);
  }

  lemma FirstReports(p: Params, r: State, s: State) returns (t: State)
    requires Comes(p, r, s) && RollingTwo(p, s) && NoReports(s)
    ensures Comes(p, r, t) && Quiet(t) && t.ds.now.Some? && OnlyOpen(p, t, "b")
  {
    AtRest(p, s);
    var a := FirstSucceeds(p, r, s);
    StillRolling(p, s, a);
    FirstLedger(p.kind, Report("a", Goal(p, s).0, true), Goal(p, a).0);
    t := RestOpen(p, r, a, "b");
    OnlyFirstApplied(p, t);
  }

  lemma FirstLedger(kind: Kind, one: Report, hash: string)
    requires one.node == "a"
    ensures !NodeApplied(Record(kind, EMPTY_BOOK, one).nodes, "b", hash)
  {
    assert Record(kind, EMPTY_BOOK, one).nodes == [FreshEntry(one)];
  }

  lemma StillRolling(p: Params, s: State, t: State)
    requires RollingTwo(p, s) && Settled(p, s) && OnlyReports(s, t)
    ensures Rolling(p, t) && Live(t) && t.profile.now.value.finalizer && Goal(p, t) == Goal(p, s)
    ensures t.nodes.now == TWO_NODES && t.profile.now.value.spec == SmallSpec(p.kind)
    ensures t.ds.now == Some(Wanted(p, t.profile.now.value))
  {
  }

  /** With a node open, a pass leaves the wanted DaemonSet as it is. */
  lemma OpenKeepsDaemonSet(p: Params, s: State, x: string)
    requires Good(p, s) && Live(s) && s.profile.now.value.finalizer && s.ds.now == Some(Wanted(p, s.profile.now.value))
    requires x in Goal(p, s).1 && !NodeApplied(s.profile.now.value.status.book.nodes, x, Goal(p, s).0)
    ensures Reconcile.Passed(p, WorldOf(s), {}).0.ds == s.ds.now && Twice(p, WorldOf(s)).ds == s.ds.now
  {
    InvIsSane(p, s);
    Reconcile.PassSettles(p, WorldOf(s));
    Reconcile.WorkingPassIsFixpoint(p, WorldOf(s));
  }

  /** After a report that leaves a node open, everything comes to rest with the same DaemonSet. */
  lemma RestOpen(p: Params, r: State, b: State, x: string) returns (t: State)
    requires Comes(p, r, b) && b.ctl.pc.Idle? && Live(b) && b.profile.now.value.finalizer
    requires b.nodes.now == TWO_NODES && b.profile.now.value.spec == SmallSpec(p.kind)
    requires b.ds.now == Some(Wanted(p, b.profile.now.value)) && (x == "a" || x == "b")
    requires !NodeApplied(b.profile.now.value.status.book.nodes, x, Goal(p, b).0)
    ensures Comes(p, r, t) && RollingTwo(p, t) && t.rep == b.rep
    ensures t.profile.now.value.status.book == b.profile.now.value.status.book
    ensures t.ds.past == b.ds.past && t.ds.now == b.ds.now && t.nodes.past == b.nodes.past && t.nodes.now == b.nodes.now
  {
    var c := SeeAll(p, r, b);
    TwoAreSelected(p, c);
    OpenKeepsDaemonSet(p, c, x);
    t := Rest(p, r, c);
    RollingAtRest(p, t, x);
  }

  // ---------- A rollout that is stuck ----------

  const REFUSING := Host(map[], (k, v) => false, e => false)

  lemma NoOccurrence(s: string, pattern: string, k: int)
    requires pattern != "" && pattern[0] !in s
    ensures !OccursAt(s, pattern, k)
  {
    if 0 <= k <= |s| - |pattern| {
      assert s[k..k + |pattern|][0] == s[k];
    }
  }

  lemma NoPlaceholder(name: string)
    requires '{' !in name
    ensures Expanded(map[], name) == [name]
  {
    NoOccurrence(name, PLACEHOLDER, IndexOf(name, PLACEHOLDER));
  }

  lemma SmallSettingParses()
    ensures SysctlConf.Parsed(Render(SmallSpec(SysctlProfile))) == [SysctlConf.Entry("vm.swappiness", "1")]
  {
    SysctlConf.PlainSetting(SysctlConf.Sysctl("vm.swappiness", "1"));
  }

  lemma SmallScriptParses()
    ensures |ScriptConf.Parsed(Render(SmallSpec(ScriptProfile)))| == 1
  {
    ScriptConf.PlainScript(ScriptConf.Script("s", "true", ""));
  }

  /** A node that refuses the setting or fails the script makes the worker report a failure. */
  lemma RefusedFails(kind: Kind)
    ensures !Succeeded(if kind.ScriptProfile? then ScriptMode else ApplyMode, Render(SmallSpec(kind)), REFUSING, map[])
  {
    if kind.SysctlProfile? {
      SmallSettingParses();
      var entries := [SysctlConf.Entry("vm.swappiness", "1")];
      NoPlaceholder("vm.swappiness");
      TargetOf(map[], entries, 0, "vm.swappiness");
    } else {
      SmallScriptParses();
      assert !REFUSING.exitsZero(EffectiveScript(ScriptConf.Parsed(Render(SmallSpec(kind)))[0]));
    }
  }

  /** At rest with the DaemonSet there and the rollout not complete, and nothing left to do for the
      system on its own; nor does queueing the profile help. */
  ghost predicate Stuck(p: Params, s: State) {
    && Quiet(s) && Live(s) && s.ds.now.Some?
    && !Complete(s.profile.now.value.status.book.nodes, Goal(p, s).1, Goal(p, s).0)
    && (forall step :: Enabled(p, s, step) ==> !Own(p, s, step))
    && (forall t :: ReachesQueued(p, s, t) ==> !RolledOut(p, s, t))
  }

  /** The rollout to the two nodes after both have reported and been counted. */
  ghost predicate AllReported(s: State) {
    && Spent(s, "a") && Spent(s, "b")
    && (forall r: nat :: r < |s.rep.runs| ==> r in s.rep.handlers)
    && (forall r :: r in s.rep.handlers ==> s.rep.handlers[r].Recorded?)
  }

  lemma WorksOnTwo(p: Params, s: State, j: Job)
    requires RollingTwo(p, s) && JobEnabled(p, s, j) && j.nodeAt == |s.nodes.past|
    ensures j.node == "a" || j.node == "b"
  {
    assert j.node in TWO_NODES;
  }

  lemma NothingLeft(p: Params, s: State, step: Step)
    requires RollingTwo(p, s) && AllReported(s) && Enabled(p, s, step)
    ensures !Own(p, s, step)
  {
    OnlyWorkersWake(p, s, step);
    if step.Work? && step.j.nodeAt == |s.nodes.past| {
      WorksOnTwo(p, s, step.j);
    }
  }

  lemma FailedIsLost(p: Params, s: State)
    requires Base(p, s) && RollingTwo(p, s) && AllReported(s)
    requires !NodeApplied(s.profile.now.value.status.book.nodes, "a", Goal(p, s).0)
    ensures Stuck(p, s)
  {
    forall step | Enabled(p, s, step) ensures !Own(p, s, step) {
      NothingLeft(p, s, step);
    }
    assert "a" in Open(p, s);
    assert !Supply(s, "a", Goal(p, s).0);
    HopelessFromStart(p, s);
    forall t | ReachesQueued(p, s, t) ensures !RolledOut(p, s, t) {
      HopelessIsStuck(p, s, t);
    }
  }

  /** The first node has refused; that was the only report so far. */
  ghost predicate RefusedFirst(p: Params, s: State, t: State, one: Run) {
    && NoReports(s) && ReportedOne(p, s, t, one) && Spent(t, "a") && one.node == "a"
    && one.report.node == "a" && !one.report.success
  }

  lemma FirstRefuses(p: Params, r: State, s: State) returns (t: State, one: Run)
    requires Comes(p, r, s) && RollingTwo(p, s) && NoReports(s)
    ensures Comes(p, r, t) && RefusedFirst(p, s, t, one)
  {
    AtRest(p, s);
    RefusedFails(p.kind);
    t, one := ReportFrom(p, r, s, "a", REFUSING);
  }

  lemma OneSpent(t: State, run: Run, n: string)
    requires t.rep.runs == [run] && run.node != n
    ensures !Spent(t, n)
  {
  }

  lemma SecondCanStart(p: Params, s: State, a: State, one: Run)
    requires RollingTwo(p, s) && Settled(p, s) && RefusedFirst(p, s, a, one)
    ensures CanStart(a, "b")
  {
    OneSpent(a, one, "b");
    assert Placed(s.profile.now.value.spec.selector, TWO_NODES["b"]);
  }

  /** What the two reports leave. */
  lemma BothReported(p: Params, s: State, a: State, t: State, one: Run, two: Run)
    requires RefusedFirst(p, s, a, one) && ReportedOne(p, a, t, two) && two.report.node == "b" && Spent(t, "b")
    ensures AllReported(t) && OnlyReports(s, t)
    ensures forall hash :: !NodeApplied(t.profile.now.value.status.book.nodes, "a", hash)
  {
    SpentStays(a, t, "a");
    forall hash ensures !NodeApplied(t.profile.now.value.status.book.nodes, "a", hash) {
      RefusedLedger(p.kind, one.report, two.report, hash);
    }
  }

  /** The other one succeeds, and everything is counted. */
  lemma SecondSucceeds(p: Params, r: State, s: State, a: State, one: Run) returns (t: State)
    requires RollingTwo(p, s) && Settled(p, s) && Comes(p, r, a) && RefusedFirst(p, s, a, one)
    ensures Comes(p, r, t) && OnlyReports(s, t) && AllReported(t)
    ensures forall hash :: !NodeApplied(t.profile.now.value.status.book.nodes, "a", hash)
  {
    StillRolling(p, s, a);
    SecondCanStart(p, s, a, one);
    var two;
    t, two := ReportFrom(p, r, a, "b", WILLING);
    BothReported(p, s, a, t, one, two);
  }

  /** That comes to rest as it is. */
  lemma RefusedRests(p: Params, r: State, s: State, b: State) returns (t: State)
    requires RollingTwo(p, s) && Settled(p, s) && Comes(p, r, b) && OnlyReports(s, b)
    requires AllReported(b) && forall hash :: !NodeApplied(b.profile.now.value.status.book.nodes, "a", hash)
    ensures Comes(p, r, t) && RollingTwo(p, t) && AllReported(t)
    ensures forall hash :: !NodeApplied(t.profile.now.value.status.book.nodes, "a", hash)
  {
    StillRolling(p, s, b);
    t := RestOpen(p, r, b, "a");
    SpentSame(b, t, "a");
    SpentSame(b, t, "b");
  }

  lemma RefusedLedger(kind: Kind, one: Report, two: Report, hash: string)
    requires one.node == "a" && two.node == "b" && !one.success
    ensures !NodeApplied(Record(kind, Record(kind, EMPTY_BOOK, one), two).nodes, "a", hash)
  {
    assert Record(kind, EMPTY_BOOK, one).nodes == [FreshEntry(one)];
    UpsertApplied([FreshEntry(one)], two, "a", hash);
  }

  /** Both have reported, one of them a failure. */
  ghost predicate OneRefused(p: Params, s: State) {
    && RollingTwo(p, s) && AllReported(s)
    && forall hash :: !NodeApplied(s.profile.now.value.status.book.nodes, "a", hash)
  }

  lemma RefusedIsReached(p: Params, r: State, s: State) returns (t: State)
    requires Comes(p, r, s) && RollingTwo(p, s) && NoReports(s)
    ensures Comes(p, r, t) && OneRefused(p, t)
  {
    AtRest(p, s);
    var a, one := FirstRefuses(p, r, s);
    var b := SecondSucceeds(p, r, s, a, one);
    t := RefusedRests(p, r, s, b);
  }

  lemma RefusedIsStuck(p: Params, tr: seq<State>)
    requires IsRun(p, tr) && OneRefused(p, tr[|tr| - 1])
    ensures Stuck(p, tr[|tr| - 1])
  {
    BaseOfRun(p, tr, |tr| - 1);
    FailedIsLost(p, tr[|tr| - 1]);
  }

  /** A rollout can get stuck, for either kind of profile and any hash, with nothing going wrong but a
      node that refuses once: its pod has reported a failure and never tries again. */
  lemma StuckIsReachable(p: Params) returns (tr: seq<State>)
    ensures IsRun(p, tr) && Stuck(p, tr[|tr| - 1])
  {
    var start := TwoNodesCreated(p);
    RunIsGood(p, start, 1);
    var s := TwoNodesRoll(p, start[1]);
    var t := RefusedIsReached(p, start[1], s);
    tr := RunReaches(p, start, t);
    RefusedIsStuck(p, tr);
  }
}
