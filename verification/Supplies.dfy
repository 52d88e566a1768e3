/** What a rollout can still be completed with. A worker reports once, so a rollout at rest depends
    on the pods that have not reported yet and on the reports that are still on their way; where
    these suffice, the system completes it on its own. */
module Supplies {
  import opened Text
  import opened Ledger
  import opened LedgerLaws
  import opened Selection
  import opened Api
  import opened Worker
  import opened Rollout
  import opened Quiescence
  import opened Passes
  import opened Progress
  import Reconcile

  // ---------- What is left to complete a rollout with ----------

  /** A pod of the current DaemonSet may still start on the node and report. */
  ghost predicate CanStart(s: State, n: string) {
    n != "" && s.ds.now.Some? && Allows(s.ds.now.value.data, s.nodes.now, n) && !Spent(s, n)
  }

  /** The report can still be committed, whatever else is committed before it. */
  predicate Lasting(s: State, id: nat) {
    id < |s.rep.runs| &&
    if id in s.rep.handlers then s.rep.handlers[id].Fetching? || (s.rep.handlers[id].Writing? && s.rep.handlers[id].left >= 2)
    else s.rep.runs[id].report.node != ""
  }

  /** The report can be committed, but perhaps only as the next change of the profile. */
  predicate Available(s: State, id: nat) {
    Lasting(s, id) ||
    (id < |s.rep.runs| && id in s.rep.handlers && s.rep.handlers[id].Writing? && s.rep.handlers[id].at == |s.profile.past|)
  }

  predicate IsSuccess(s: State, id: nat, n: string, hash: string)
    requires id < |s.rep.runs|
  {
    s.rep.runs[id].report == Report(n, hash, true)
  }

  ghost predicate LastingSupply(s: State, n: string, hash: string) {
    CanStart(s, n) || exists id: nat :: Lasting(s, id) && IsSuccess(s, id, n, hash)
  }

  ghost predicate Supply(s: State, n: string, hash: string) {
    CanStart(s, n) || exists id: nat :: Available(s, id) && IsSuccess(s, id, n, hash)
  }

  function Goal(p: Params, s: State): (string, set<string>)
    requires s.profile.now.Some?
  {
    var o := s.profile.now.value;
    (p.hash(Render(o.spec)), Selected(o.spec.selector, s.nodes.now))
  }

  /** The selected nodes that are not recorded as applied at the current hash. */
  ghost function Open(p: Params, s: State): set<string>
    requires s.profile.now.Some?
  {
    Outstanding(s.profile.now.value.status.book.nodes, Goal(p, s).1, Goal(p, s).0)
  }

  /** Every open node has a pod that can still start or a success on its way, and at most one of them
      depends on a report that must be the next change. */
  ghost predicate Supplied(p: Params, s: State)
    requires s.profile.now.Some?
  {
    var hash := Goal(p, s).0;
    && (forall n :: n in Open(p, s) ==> Supply(s, n, hash))
    && (forall m, n :: m in Open(p, s) && n in Open(p, s) && !LastingSupply(s, m, hash) && !LastingSupply(s, n, hash) ==> m == n)
  }

  /** The report leaves a complete rollout complete. */
  predicate KeepsComplete(r: Report, selected: set<string>, hash: string) {
    r.node !in selected || (r.success && r.hash == hash)
  }

  /** Some report can still be committed that leaves the rollout complete, and so wakes the reconciler. */
  ghost predicate CanBeWoken(p: Params, s: State)
    requires s.profile.now.Some?
  {
    || (exists n :: CanStart(s, n))
    || (exists id: nat :: Available(s, id) && KeepsComplete(s.rep.runs[id].report, Goal(p, s).1, Goal(p, s).0))
  }

  ghost predicate Completable(p: Params, s: State)
    requires s.profile.now.Some?
  {
    if Open(p, s) == {} then CanBeWoken(p, s) else Supplied(p, s)
  }

  // ---------- Reports ----------

  /** Only the ledger of the profile and the reports differ. */
  ghost predicate OnlyReports(s: State, t: State) {
    && t == s.(profile := t.profile, rep := t.rep)
    && t.profile.seen == s.profile.seen && |t.profile.past| >= |s.profile.past|
    && s.profile.now.Some? && t.profile.now.Some?
    && var o, q := s.profile.now.value, t.profile.now.value;
       q == o.(status := o.status.(book := q.status.book))
  }

  /** The report was committed to the ledger, and only its handler moved. */
  ghost predicate CommittedOne(p: Params, s: State, t: State, id: nat)
    requires id < |s.rep.runs|
  {
    && OnlyReports(s, t) && |t.profile.past| > |s.profile.past|
    && t.rep.runs == s.rep.runs && id in t.rep.handlers
    && t.rep.handlers == s.rep.handlers[id := Committed]
    && t.profile.now.value.status.book == Record(p.kind, s.profile.now.value.status.book, s.rep.runs[id].report)
  }

  lemma FetchAndCommit(p: Params, r: State, s: State, id: nat) returns (t: State)
    requires Comes(p, r, s) && s.profile.now.Some?
    requires id < |s.rep.runs| && id in s.rep.handlers && s.rep.handlers[id].Fetching?
    ensures Comes(p, r, t) && CommittedOne(p, s, t, id)
  {
    var c := Come(p, r, s, DealStep(Fetch(id, |s.profile.past|)));
    t := Come(p, r, c, DealStep(Commit(id)));
  }

  lemma DeliverAndCommit(p: Params, r: State, s: State, id: nat) returns (t: State)
    requires Comes(p, r, s) && s.profile.now.Some?
    requires id < |s.rep.runs| && id !in s.rep.handlers && s.rep.runs[id].report.node != ""
    ensures Comes(p, r, t) && CommittedOne(p, s, t, id)
  {
    var a := Come(p, r, s, DealStep(Deliver(id)));
    t := FetchAndCommit(p, r, a, id);
  }

  /** A stale handler fetches again. */
  lemma RetryAndCommit(p: Params, r: State, s: State, id: nat) returns (t: State)
    requires Comes(p, r, s) && s.profile.now.Some?
    requires id < |s.rep.runs| && id in s.rep.handlers && s.rep.handlers[id].Writing? && s.rep.handlers[id].left >= 2
    requires s.rep.handlers[id].at != |s.profile.past|
    ensures Comes(p, r, t) && CommittedOne(p, s, t, id)
  {
    var a := Come(p, r, s, DealStep(Commit(id)));
    t := FetchAndCommit(p, r, a, id);
  }

  lemma CommitAvailable(p: Params, r: State, s: State, id: nat) returns (t: State)
    requires Comes(p, r, s) && s.profile.now.Some? && Available(s, id)
    ensures Comes(p, r, t) && CommittedOne(p, s, t, id)
  {
    if id !in s.rep.handlers {
      t := DeliverAndCommit(p, r, s, id);
    } else if s.rep.handlers[id].Fetching? {
      t := FetchAndCommit(p, r, s, id);
    } else if s.rep.handlers[id].at == |s.profile.past| {
      t := Come(p, r, s, DealStep(Commit(id)));
    } else {
      t := RetryAndCommit(p, r, s, id);
    }
  }

  /** The DaemonSet is there with the hash of the ConfigMap and the placement of the profile. */
  ghost predicate Rolling(p: Params, s: State) {
    && s.profile.now.Some? && s.cm.now.Some? && s.ds.now.Some?
    && s.ds.now.value.data.hash == Goal(p, s).0 && p.hash(s.cm.now.value.data) == Goal(p, s).0
    && s.ds.now.value.data.placement == s.profile.now.value.spec.selector.matchLabels
  }

  /** A pod ran on the node and nothing else happened. */
  ghost predicate RanOne(s: State, t: State, run: Run) {
    t == s.(rep := s.rep.(runs := s.rep.runs + [run]))
  }

  lemma WorkOn(p: Params, r: State, s: State, n: string, host: Host) returns (t: State, run: Run)
    requires Comes(p, r, s) && Rolling(p, s) && CanStart(s, n)
    ensures Comes(p, r, t) && RanOne(s, t, run) && run.node == n && Spent(t, n)
    ensures run.report.node == n && run.report.hash == Goal(p, s).0
    ensures run.report.success <==> Succeeded(if p.kind.ScriptProfile? then ScriptMode else ApplyMode, s.cm.now.value.data, host, map[])
  {
    var mode := if p.kind.ScriptProfile? then ScriptMode else ApplyMode;
    var j := Job(mode, n, |s.nodes.past|, |s.cm.past|, |s.ds.past|, host, map[]);
    run := RunOf(p, s, j);
    t := Come(p, r, s, Work(j));
    assert t.rep.runs[|s.rep.runs|] == run;
    assert StillThere(t, run);
  }

  const WILLING := Host(map[], (k, v) => true, e => true)

  lemma SucceedOn(p: Params, r: State, s: State, n: string) returns (t: State, run: Run)
    requires Comes(p, r, s) && Rolling(p, s) && CanStart(s, n)
    ensures Comes(p, r, t) && RanOne(s, t, run) && run.node == n && Spent(t, n)
    ensures run.report == Report(n, Goal(p, s).0, true)
  {
    t, run := WorkOn(p, r, s, n, WILLING);
  }

  lemma SpentElsewhere(s: State, t: State, run: Run, m: string)
    requires RanOne(s, t, run) && run.node != m && Spent(t, m)
    ensures Spent(s, m)
  {
    var r: nat :| r < |t.rep.runs| && t.rep.runs[r].node == m && StillThere(t, t.rep.runs[r]);
    assert StillThere(s, s.rep.runs[r]);
  }

  /** Other nodes lose nothing when a pod runs. */
  lemma RunTakesNothing(s: State, t: State, run: Run, m: string, hash: string)
    requires RanOne(s, t, run) && run.node != m && IdsBounded(s) && LastingSupply(s, m, hash)
    ensures LastingSupply(t, m, hash)
  {
    if CanStart(s, m) {
      if Spent(t, m) {
        SpentElsewhere(s, t, run, m);
      }
      assert CanStart(t, m);
    } else {
      var id: nat :| Lasting(s, id) && IsSuccess(s, id, m, hash);
      assert Lasting(t, id) && IsSuccess(t, id, m, hash);
    }
  }

  /** Nor when another report is committed. */
  lemma CommitTakesNothing(p: Params, s: State, t: State, id: nat, m: string, hash: string)
    requires id < |s.rep.runs| && CommittedOne(p, s, t, id) && s.rep.runs[id].report.node != m && LastingSupply(s, m, hash)
    ensures LastingSupply(t, m, hash)
  {
    if CanStart(s, m) {
      SpentSame(s, t, m);
      assert CanStart(t, m);
    } else {
      var k: nat :| Lasting(s, k) && IsSuccess(s, k, m, hash);
      assert Lasting(t, k) && IsSuccess(t, k, m, hash);
    }
  }

  lemma SpentSame(s: State, t: State, m: string)
    requires t.rep.runs == s.rep.runs && t.ds.past == s.ds.past && t.ds.now == s.ds.now
    requires t.nodes.past == s.nodes.past && t.nodes.now == s.nodes.now
    ensures Spent(t, m) <==> Spent(s, m)
  {
    assert forall v: nat :: t.nodes.At(v) == s.nodes.At(v);
    forall run ensures StillThere(t, run) <==> StillThere(s, run) {}
  }

  /** A success at the hash for a node that has a supply. */
  lemma SupplyOne(p: Params, r: State, s: State, n: string) returns (t: State)
    requires Comes(p, r, s) && Rolling(p, s) && Supply(s, n, Goal(p, s).0)
    ensures Comes(p, r, t) && OnlyReports(s, t) && |t.profile.past| > |s.profile.past|
    ensures t.profile.now.value.status.book ==
            Record(p.kind, s.profile.now.value.status.book, Report(n, Goal(p, s).0, true))
    ensures forall m :: m != n && LastingSupply(s, m, Goal(p, s).0) ==> LastingSupply(t, m, Goal(p, s).0)
  {
    var hash := Goal(p, s).0;
    if id: nat :| Available(s, id) && IsSuccess(s, id, n, hash) {
      t := CommitAvailable(p, r, s, id);
      forall m | m != n && LastingSupply(s, m, hash) ensures LastingSupply(t, m, hash) {
        CommitTakesNothing(p, s, t, id, m, hash);
      }
    } else {
      var a, run := SucceedOn(p, r, s, n);
      var id := |s.rep.runs|;
      t := CommitAvailable(p, r, a, id);
      forall m | m != n && LastingSupply(s, m, hash) ensures LastingSupply(t, m, hash) {
        RunTakesNothing(s, a, run, m, hash);
        CommitTakesNothing(p, a, t, id, m, hash);
      }
    }
  }

  /** With every open node supplied, all of them report success. */
  lemma {:induction false} SupplyAll(p: Params, r: State, s: State) returns (t: State)
    requires Comes(p, r, s) && Rolling(p, s) && UniqueNames(s.profile.now.value.status.book.nodes)
    requires forall n :: n in Open(p, s) ==> LastingSupply(s, n, Goal(p, s).0)
    ensures Comes(p, r, t) && OnlyReports(s, t) && Open(p, t) == {}
    decreases |Open(p, s)|
  {
    if Open(p, s) == {} {
      t := s;
    } else {
      var n :| n in Open(p, s);
      var hash, nodes := Goal(p, s).0, s.profile.now.value.status.book.nodes;
      LastingIsSupply(s, n, hash);
      var a := SupplyOne(p, r, s, n);
      RolloutProgress(nodes, Report(n, hash, true), Goal(p, s).1, hash);
      UpsertNames(nodes, Report(n, hash, true));
      t := SupplyAll(p, r, a);
    }
  }

  lemma LastingIsSupply(s: State, n: string, hash: string)
    requires LastingSupply(s, n, hash)
    ensures Supply(s, n, hash)
  {
    if id: nat :| Lasting(s, id) && IsSuccess(s, id, n, hash) {
      assert Available(s, id);
    }
  }

  /** The open node that depends on the next change goes first, if there is one. */
  lemma SupplySome(p: Params, r: State, s: State) returns (t: State)
    requires Comes(p, r, s) && Rolling(p, s) && UniqueNames(s.profile.now.value.status.book.nodes)
    requires Open(p, s) != {} && Supplied(p, s)
    ensures Comes(p, r, t) && OnlyReports(s, t) && Open(p, t) == {} && |t.profile.past| > |s.profile.past|
  {
    var hash, nodes := Goal(p, s).0, s.profile.now.value.status.book.nodes;
    var n := FirstToGo(p, s);
    var a := SupplyOne(p, r, s, n);
    RolloutProgress(nodes, Report(n, hash, true), Goal(p, s).1, hash);
    UpsertNames(nodes, Report(n, hash, true));
    t := SupplyAll(p, r, a);
  }

  lemma FirstToGo(p: Params, s: State) returns (n: string)
    requires s.profile.now.Some? && Open(p, s) != {} && Supplied(p, s)
    ensures n in Open(p, s)
    ensures forall m :: m in Open(p, s) && m != n ==> LastingSupply(s, m, Goal(p, s).0)
  {
    n :| n in Open(p, s);
    if m :| m in Open(p, s) && !LastingSupply(s, m, Goal(p, s).0) {
      n := m;
    }
  }

  /** A complete rollout stays complete and the profile changes. */
  lemma WakeComplete(p: Params, r: State, s: State) returns (t: State)
    requires Comes(p, r, s) && Rolling(p, s) && UniqueNames(s.profile.now.value.status.book.nodes)
    requires Open(p, s) == {} && CanBeWoken(p, s)
    ensures Comes(p, r, t) && OnlyReports(s, t) && Open(p, t) == {} && |t.profile.past| > |s.profile.past|
  {
    var (hash, selected) := Goal(p, s);
    var nodes := s.profile.now.value.status.book.nodes;
    if n :| CanStart(s, n) {
      t := SupplyOne(p, r, s, n);
      RolloutProgress(nodes, Report(n, hash, true), selected, hash);
    } else {
      var id: nat :| Available(s, id) && KeepsComplete(s.rep.runs[id].report, selected, hash);
      t := CommitAvailable(p, r, s, id);
      RolloutProgress(nodes, s.rep.runs[id].report, selected, hash);
    }
  }

  // ---------- Completing ----------

  /** What the continuation of an unfinished rollout ends with. */
  ghost predicate RolledOut(p: Params, s: State, t: State) {
    && Quiet(t) && s.profile.now.Some? && t.profile.now.Some?
    && t.nodes.now == s.nodes.now
    && var o, q := s.profile.now.value, t.profile.now.value;
       var hash := p.hash(Render(o.spec));
       && q.uid == o.uid && q.spec == o.spec && q.finalizer
       && Complete(q.status.book.nodes, Selected(o.spec.selector, t.nodes.now), hash)
       && q.status.teardownHash == hash && q.status.ready == Some(Ready(true, q.generation))
       && t.cm.now == Some(Owned(o.uid, Render(o.spec))) && t.ds.now.None?
  }

  ghost predicate SameGoal(s: State, t: State) {
    && s.profile.now.Some? && t.profile.now.Some? && t.nodes.now == s.nodes.now
    && t.profile.now.value.uid == s.profile.now.value.uid && t.profile.now.value.spec == s.profile.now.value.spec
  }

  /** A state at rest without the DaemonSet is rolled out. */
  lemma RestIsRolledOut(p: Params, s: State, t: State)
    requires Good(p, t) && Quiet(t) && t.ds.now.None? && SameGoal(s, t) && Goal(p, s).1 != {}
    ensures RolledOut(p, s, t)
  {
    AtRest(p, t);
  }

  /** Once nothing is open, a changed profile wakes the reconciler, which tears down. */
  lemma Land(p: Params, r: State, s: State, c: State) returns (t: State)
    requires Good(p, s) && Quiet(s) && Live(s) && s.ds.now.Some? && Goal(p, s).1 != {}
    requires Comes(p, r, c) && OnlyReports(s, c) && Open(p, c) == {} && |c.profile.past| > |s.profile.past|
    ensures Comes(p, r, t) && RolledOut(p, s, t)
  {
    var d := SeeAll(p, r, c);
    InvIsSane(p, d);
    NothingOpen(p, c);
    t := LandFrom(p, r, d);
    RestIsRolledOut(p, s, t);
  }

  lemma NothingOpen(p: Params, s: State)
    requires s.profile.now.Some? && Goal(p, s).1 != {}
    ensures Open(p, s) == {} <==> Complete(s.profile.now.value.status.book.nodes, Goal(p, s).1, Goal(p, s).0)
  {
    var (hash, selected) := Goal(p, s);
    forall n | n in selected && Open(p, s) == {} ensures NodeApplied(s.profile.now.value.status.book.nodes, n, hash) {
      assert n !in Open(p, s);
    }
  }

  lemma LandFrom(p: Params, r: State, s: State) returns (t: State)
    requires Comes(p, r, s) && Rested(s) && s.ctl.queued && Live(s) && s.profile.now.value.finalizer
    requires Complete(s.profile.now.value.status.book.nodes, Goal(p, s).1, Goal(p, s).0)
    ensures Comes(p, r, t) && Quiet(t) && t.ds.now.None? && SameGoal(s, t)
  {
    InvIsSane(p, s);
    Reconcile.PassSettles(p, WorldOf(s));
    Reconcile.WorkingPassIsFixpoint(p, WorldOf(s));
    t := Rest(p, r, s);
  }

  lemma FinishRollout(p: Params, r: State, s: State) returns (t: State)
    requires Comes(p, r, s) && Quiet(s) && Live(s) && s.ds.now.Some? && Goal(p, s).1 != {}
    requires UniqueNames(s.profile.now.value.status.book.nodes) && Completable(p, s)
    ensures Comes(p, r, t) && RolledOut(p, s, t)
  {
    AtRest(p, s);
    var c;
    if Open(p, s) == {} {
      c := WakeComplete(p, r, s);
    } else {
      c := SupplySome(p, r, s);
    }
    t := Land(p, r, s, c);
  }
}
