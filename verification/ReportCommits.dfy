/** No report is lost or doubled, and the metric agrees with the status, under every
    interleaving of handlers, reconcile passes and edits with stale reads and conflicts. */
module ReportCommits {
  import opened Ledger
  import opened Api
  import opened Rollout

  function ReportAt(runs: seq<Run>, id: nat): Report {
    if id < |runs| then runs[id].report else Report("", "", false)
  }

  /** The reports behind some commits, in commit order. */
  function ReportsOf(runs: seq<Run>, ids: seq<nat>): seq<Report> {
    if ids == [] then []
    else ReportsOf(runs, ids[..|ids| - 1]) + [ReportAt(runs, ids[|ids| - 1])]
  }

  predicate Accepted(h: Handler) {
    h.Committed? || h.Recorded? || h.Lost?
  }

  datatype Which = Every | Counted | Uncounted

  predicate Is(w: Which, h: Handler) {
    match w
    case Every => true
    case Counted => h.Recorded?
    case Uncounted => !h.Recorded?
  }

  /** The nodes of the failing committed reports whose handlers are in the given stage. */
  function FailedNodes(r: Reports, ids: seq<nat>, w: Which): multiset<string> {
    if ids == [] then multiset{}
    else
      var id := ids[|ids| - 1];
      FailedNodes(r, ids[..|ids| - 1], w) +
      (if id in r.handlers && Is(w, r.handlers[id]) && !ReportAt(r.runs, id).success
       then multiset{ReportAt(r.runs, id).node} else multiset{})
  }

  predicate Distinct(ids: seq<nat>) {
    forall i, j :: 0 <= i < j < |ids| ==> ids[i] != ids[j]
  }

  ghost predicate HandlersInv(r: Reports) {
    && (forall id :: id in r.handlers ==> id < |r.runs|)
    && (forall k :: 0 <= k < |r.commits| ==> r.commits[k] in r.handlers && Accepted(r.handlers[r.commits[k]]))
    && (forall id :: id in r.handlers && Accepted(r.handlers[id]) ==> id in r.commits)
    && (forall id :: id in r.handlers && r.handlers[id].Fetching? ==> 1 <= r.handlers[id].left <= MAX_ATTEMPTS)
    && (forall id :: id in r.handlers && r.handlers[id].Writing? ==> 1 <= r.handlers[id].left <= MAX_ATTEMPTS)
    && Distinct(r.commits)
    && r.base <= |r.commits|
  }

  ghost predicate BookInv(p: Params, s: State) {
    s.rep.base <= |s.rep.commits| && s.profile.now.Some? ==>
      s.profile.now.value.status.book ==
      RecordAll(p.kind, EMPTY_BOOK, ReportsOf(s.rep.runs, s.rep.commits[s.rep.base..]))
  }

  ghost predicate MetricInv(s: State) {
    s.rep.metric == FailedNodes(s.rep, s.rep.commits, Counted)
  }

  ghost predicate RepInv(p: Params, s: State) {
    HandlersInv(s.rep) && BookInv(p, s) && MetricInv(s)
  }

  // ---------- Small facts ----------

  lemma {:induction false} ReportsOfMoreRuns(runs: seq<Run>, run: Run, ids: seq<nat>)
    requires forall k :: 0 <= k < |ids| ==> ids[k] < |runs|
    ensures ReportsOf(runs + [run], ids) == ReportsOf(runs, ids)
  {
    if ids != [] {
      ReportsOfMoreRuns(runs, run, ids[..|ids| - 1]);
    }
  }

  /** Only the stages of the committed handlers matter. */
  lemma {:induction false} FailedNodesSame(a: Reports, b: Reports, ids: seq<nat>, w: Which)
    requires forall k :: 0 <= k < |ids| ==>
               && (ids[k] in a.handlers <==> ids[k] in b.handlers)
               && (ids[k] in a.handlers ==> (Is(w, a.handlers[ids[k]]) <==> Is(w, b.handlers[ids[k]])))
               && ReportAt(a.runs, ids[k]) == ReportAt(b.runs, ids[k])
    ensures FailedNodes(a, ids, w) == FailedNodes(b, ids, w)
  {
    if ids != [] {
      FailedNodesSame(a, b, ids[..|ids| - 1], w);
    }
  }

  /** What one report adds to the failures. */
  function FailureOf(r: Report): multiset<string> {
    if r.success then multiset{} else multiset{r.node}
  }

  lemma FailedNodesLast(r: Reports, ids: seq<nat>, w: Which)
    requires ids != [] && ids[|ids| - 1] in r.handlers
    ensures var id := ids[|ids| - 1];
            FailedNodes(r, ids, w) ==
            FailedNodes(r, ids[..|ids| - 1], w) + (if Is(w, r.handlers[id]) then FailureOf(ReportAt(r.runs, id)) else multiset{})
  {
  }

  /** The last commit is the one that is counted now. */
  lemma FailedNodesCountLast(a: Reports, b: Reports, ids: seq<nat>)
    requires Distinct(ids) && ids != []
    requires forall k :: 0 <= k < |ids| ==> ids[k] in a.handlers
    requires var id := ids[|ids| - 1];
             !a.handlers[id].Recorded? && b.runs == a.runs && b.handlers == a.handlers[id := Recorded]
    ensures FailedNodes(b, ids, Counted) == FailedNodes(a, ids, Counted) + FailureOf(ReportAt(a.runs, ids[|ids| - 1]))
  {
    var init, id := ids[..|ids| - 1], ids[|ids| - 1];
    assert forall k :: 0 <= k < |init| ==> init[k] != id;
    FailedNodesSame(a, b, init, Counted);
    FailedNodesLast(a, ids, Counted);
    FailedNodesLast(b, ids, Counted);
  }

  /** Counting one committed handler adds its node. */
  lemma {:induction false} FailedNodesCount(a: Reports, b: Reports, ids: seq<nat>, id: nat)
    requires Distinct(ids) && id in ids
    requires forall k :: 0 <= k < |ids| ==> ids[k] in a.handlers
    requires id in a.handlers && !a.handlers[id].Recorded?
    requires b.runs == a.runs && b.handlers == a.handlers[id := Recorded]
    ensures FailedNodes(b, ids, Counted) == FailedNodes(a, ids, Counted) + FailureOf(ReportAt(a.runs, id))
  {
    var init, last := ids[..|ids| - 1], ids[|ids| - 1];
    if last == id {
      FailedNodesCountLast(a, b, ids);
    } else {
      assert id in init && forall k :: 0 <= k < |init| ==> init[k] == ids[k];
      FailedNodesCount(a, b, init, id);
      FailedNodesLast(a, ids, Counted);
      FailedNodesLast(b, ids, Counted);
    }
  }

  /** Every failing commit is counted or not. */
  lemma {:induction false} FailedNodesSplit(r: Reports, ids: seq<nat>)
    ensures FailedNodes(r, ids, Every) == FailedNodes(r, ids, Counted) + FailedNodes(r, ids, Uncounted)
  {
    if ids != [] {
      FailedNodesSplit(r, ids[..|ids| - 1]);
    }
  }

  lemma {:induction false} FailedNodesSize(r: Reports, ids: seq<nat>)
    requires forall k :: 0 <= k < |ids| ==> ids[k] in r.handlers
    ensures |FailedNodes(r, ids, Every)| == Failures(ReportsOf(r.runs, ids))
  {
    if ids != [] {
      var rs := ReportsOf(r.runs, ids);
      FailedNodesSize(r, ids[..|ids| - 1]);
      assert rs[..|rs| - 1] == ReportsOf(r.runs, ids[..|ids| - 1]);
    }
  }

  // ---------- Steps ----------

  /** A reconcile pass, whichever call it makes, leaves the ledger as it is. */
  lemma ReconcileKeepsLedger(p: Params, s: State)
    requires CallNext(p, s).Some?
    ensures var t := CallNext(p, s).value;
            && t.rep == s.rep
            && (t.profile.now.Some? ==>
                  s.profile.now.Some? && t.profile.now.value.status.book == s.profile.now.value.status.book)
  {
    var o := Snapshot(s).value;
    assert s.profile.At(|s.profile.past|) == s.profile.now;
    if s.ctl.pc.ListNodes? || s.ctl.pc.TearDown? || s.ctl.pc.WriteStatus? {
      assert CallNext(p, s) == DecideCall(p, s, o);
    } else if s.ctl.pc.DropDs? || s.ctl.pc.DropCj? || s.ctl.pc.DropCm? || s.ctl.pc.DropFinalizer? {
      assert CallNext(p, s) == CleanCall(p, s);
    } else {
      assert CallNext(p, s) == PutCall(p, s, o);
    }
  }

  /** Nothing about reports changed. */
  lemma RepSame(p: Params, s: State, t: State)
    requires RepInv(p, s) && t.rep == s.rep
    requires t.profile.now.Some? ==>
               s.profile.now.Some? && t.profile.now.value.status.book == s.profile.now.value.status.book
    ensures RepInv(p, t)
  {
  }

  lemma RepCreate(p: Params, s: State, spec: Spec)
    requires RepInv(p, s) && EnvEnabled(p, s, Create(spec))
    ensures RepInv(p, EnvNext(p, s, Create(spec)))
  {
    var t := EnvNext(p, s, Create(spec));
    assert t.rep.commits[t.rep.base..] == [];
    FailedNodesSame(s.rep, t.rep, s.rep.commits, Counted);
  }

  lemma RepWork(p: Params, s: State, j: Job)
    requires RepInv(p, s) && JobEnabled(p, s, j)
    ensures RepInv(p, Next(p, s, Work(j)))
  {
    var t := Next(p, s, Work(j));
    var ids := s.rep.commits[s.rep.base..];
    assert forall k :: 0 <= k < |ids| ==> ids[k] == s.rep.commits[s.rep.base + k];
    ReportsOfMoreRuns(s.rep.runs, RunOf(p, s, j), ids);
    FailedNodesSame(s.rep, t.rep, s.rep.commits, Counted);
  }

  /** A handler that has committed nothing moves on. */
  lemma RepMove(p: Params, s: State, r: nat, h: Handler)
    requires RepInv(p, s) && r < |s.rep.runs|
    requires r in s.rep.handlers ==> Accepted(s.rep.handlers[r]) == Accepted(h) && s.rep.handlers[r].Recorded? == h.Recorded?
    requires r !in s.rep.handlers ==> !Accepted(h)
    requires h.Fetching? ==> 1 <= h.left <= MAX_ATTEMPTS
    requires h.Writing? ==> 1 <= h.left <= MAX_ATTEMPTS
    ensures RepInv(p, SetHandler(s, r, h))
  {
    var t := SetHandler(s, r, h);
    assert forall k :: 0 <= k < |s.rep.commits| ==> s.rep.commits[k] in s.rep.handlers;
    FailedNodesSame(s.rep, t.rep, s.rep.commits, Counted);
  }

  lemma RepCommit(p: Params, s: State, r: nat)
    requires RepInv(p, s) && DealEnabled(s, Commit(r)) && s.rep.handlers[r].at == |s.profile.past|
    ensures RepInv(p, CommitNext(p, s, r))
  {
    var t := CommitNext(p, s, r);
    assert r !in s.rep.commits;
    CommitHandlers(s.rep, t.rep, r);
    CommitReports(s.rep, t.rep, r);
    assert s.profile.At(|s.profile.past|) == s.profile.now;
  }

  lemma ReportsOfMore(runs: seq<Run>, ids: seq<nat>, id: nat)
    ensures ReportsOf(runs, ids + [id]) == ReportsOf(runs, ids) + [ReportAt(runs, id)]
  {
  }

  lemma FailedNodesMore(r: Reports, ids: seq<nat>, id: nat)
    requires id in r.handlers && !r.handlers[id].Recorded?
    ensures FailedNodes(r, ids + [id], Counted) == FailedNodes(r, ids, Counted)
  {
  }

  /** The fold over the commits grows by the new report, the counted failures stay. */
  lemma CommitReports(a: Reports, b: Reports, r: nat)
    requires HandlersInv(a) && r in a.handlers && r < |a.runs| && r !in a.commits && !a.handlers[r].Recorded?
    requires b == a.(handlers := a.handlers[r := Committed], commits := a.commits + [r])
    ensures ReportsOf(b.runs, b.commits[b.base..]) == ReportsOf(a.runs, a.commits[a.base..]) + [a.runs[r].report]
    ensures FailedNodes(b, b.commits, Counted) == FailedNodes(a, a.commits, Counted)
  {
    assert b.commits[b.base..] == a.commits[a.base..] + [r];
    ReportsOfMore(a.runs, a.commits[a.base..], r);
    FailedNodesMore(b, a.commits, r);
    FailedNodesSame(a, b, a.commits, Counted);
  }

  lemma CommitHandlers(a: Reports, b: Reports, r: nat)
    requires HandlersInv(a) && r in a.handlers && r < |a.runs| && r !in a.commits
    requires b == a.(handlers := a.handlers[r := Committed], commits := a.commits + [r])
    ensures HandlersInv(b)
  {
  }

  lemma RepCount(p: Params, s: State, r: nat)
    requires RepInv(p, s) && DealEnabled(s, Count(r))
    ensures RepInv(p, DealNext(p, s, Count(r)))
  {
    CountReports(s.rep, DealNext(p, s, Count(r)).rep, r);
  }

  lemma CountReports(a: Reports, b: Reports, r: nat)
    requires HandlersInv(a) && a.metric == FailedNodes(a, a.commits, Counted)
    requires r in a.handlers && a.handlers[r].Committed?
    requires b == a.(handlers := a.handlers[r := Recorded], metric := a.metric + FailureOf(ReportAt(a.runs, r)))
    ensures HandlersInv(b) && b.metric == FailedNodes(b, b.commits, Counted)
  {
    FailedNodesCount(a, b, a.commits, r);
  }

  lemma RepDeal(p: Params, s: State, d: Deal)
    requires RepInv(p, s) && DealEnabled(s, d)
    ensures RepInv(p, DealNext(p, s, d))
  {
    match d
    case Deliver(r) => RepMove(p, s, r, DealNext(p, s, d).rep.handlers[r]);
    case Fetch(r, at) => RepMove(p, s, r, DealNext(p, s, d).rep.handlers[r]);
    case Commit(r) =>
      if s.rep.handlers[r].at == |s.profile.past| {
        RepCommit(p, s, r);
      } else {
        RepMove(p, s, r, DealNext(p, s, d).rep.handlers[r]);
      }
    case Count(r) => RepCount(p, s, r);
    case Crash(r) => RepMove(p, s, r, DealNext(p, s, d).rep.handlers[r]);
  }

  lemma RepEnv(p: Params, s: State, e: Env)
    requires RepInv(p, s) && EnvEnabled(p, s, e)
    ensures RepInv(p, EnvNext(p, s, e))
  {
    if e.Create? {
      RepCreate(p, s, e.spec);
    } else {
      RepSame(p, s, EnvNext(p, s, e));
    }
  }

  lemma RepSee(p: Params, s: State, v: See)
    requires RepInv(p, s)
    ensures RepInv(p, SeeNext(s, v))
  {
  }

  lemma RepKeeps(p: Params, s: State, t: State)
    requires RepInv(p, s) && Steps(p, s, t)
    ensures RepInv(p, t)
  {
    var step :| Enabled(p, s, step) && t == Next(p, s, step);
    match step
    case EnvStep(e) => RepEnv(p, s, e);
    case SeeStep(v) => RepSee(p, s, v);
    case Start => RepSame(p, s, t);
    case Call =>
      ReconcileKeepsLedger(p, s);
      RepSame(p, s, t);
    case Fail => RepSame(p, s, t);
    case Work(j) => RepWork(p, s, j);
    case DealStep(d) => RepDeal(p, s, d);
  }

  lemma {:induction false} RunKeepsReports(p: Params, tr: seq<State>, i: nat)
    requires IsRun(p, tr) && i < |tr|
    ensures RepInv(p, tr[i])
  {
    if i > 0 {
      RunKeepsReports(p, tr, i - 1);
      assert StepAt(p, tr, i - 1);
      RepKeeps(p, tr[i - 1], tr[i]);
    }
  }

  // ---------- Over whole runs ----------

  lemma {:induction false} DistinctOnce(ids: seq<nat>, id: nat)
    requires Distinct(ids)
    ensures multiset(ids)[id] == if id in ids then 1 else 0
  {
    if ids != [] {
      DistinctOnce(ids[..|ids| - 1], id);
      assert ids == ids[..|ids| - 1] + [ids[|ids| - 1]];
    }
  }

  /** In every state of every run the committed ledger is the sequential fold of the reports
      committed to this object, in commit order; a report whose handler got its update
      accepted is committed exactly once, any other report not at all. */
  lemma NoReportLostOrDoubled(p: Params, tr: seq<State>, i: nat, id: nat)
    requires IsRun(p, tr) && i < |tr|
    ensures var r := tr[i].rep;
            && r.base <= |r.commits|
            && (tr[i].profile.now.Some? ==>
                  tr[i].profile.now.value.status.book == RecordAll(p.kind, EMPTY_BOOK, ReportsOf(r.runs, r.commits[r.base..])))
            && multiset(r.commits)[id] == if id in r.handlers && Accepted(r.handlers[id]) then 1 else 0
  {
    RunKeepsReports(p, tr, i);
    DistinctOnce(tr[i].rep.commits, id);
  }

  lemma ErroredIsFailures(kind: Kind, rs: seq<Report>)
    requires kind.SysctlProfile?
    ensures RecordAll(kind, EMPTY_BOOK, rs).errored == Wrap(Failures(rs))
  {
    LedgerRefinement(kind, rs);
  }

  lemma MetricAddsUp(r: Reports)
    requires HandlersInv(r) && r.metric == FailedNodes(r, r.commits, Counted)
    ensures r.metric + FailedNodes(r, r.commits, Uncounted) == FailedNodes(r, r.commits, Every)
    ensures |r.metric| + |FailedNodes(r, r.commits, Uncounted)| == Failures(ReportsOf(r.runs, r.commits))
  {
    FailedNodesSplit(r, r.commits);
    FailedNodesSize(r, r.commits);
  }

  /** For an object that was not created again, its error counter is the number of failures. */
  lemma ErroredIsAllFailures(p: Params, s: State)
    requires RepInv(p, s) && p.kind.SysctlProfile? && s.rep.base == 0 && s.profile.now.Some?
    ensures s.profile.now.value.status.book.errored == Wrap(Failures(ReportsOf(s.rep.runs, s.rep.commits)))
  {
    assert s.rep.commits[s.rep.base..] == s.rep.commits;
    ErroredIsFailures(p.kind, ReportsOf(s.rep.runs, s.rep.commits));
  }

  /** The metric, node by node, is the failing commits but for those not yet counted; for an object
      that was not created again, the sum is the status's own error counter. */
  ghost predicate MetricAgrees(p: Params, s: State) {
    var r := s.rep;
    && r.metric + FailedNodes(r, r.commits, Uncounted) == FailedNodes(r, r.commits, Every)
    && (p.kind.SysctlProfile? && r.base == 0 && s.profile.now.Some? ==>
          s.profile.now.value.status.book.errored == Wrap(|r.metric| + |FailedNodes(r, r.commits, Uncounted)|))
  }

  lemma MetricOfState(p: Params, s: State)
    requires RepInv(p, s)
    ensures MetricAgrees(p, s)
  {
    MetricAddsUp(s.rep);
    if p.kind.SysctlProfile? && s.rep.base == 0 && s.profile.now.Some? {
      ErroredIsAllFailures(p, s);
    }
  }

  /** In every state of every run the metric agrees with the commits and with the status. */
  lemma MetricMatchesStatus(p: Params, tr: seq<State>, i: nat)
    requires IsRun(p, tr) && i < |tr|
    ensures MetricAgrees(p, tr[i])
  {
    RunKeepsReports(p, tr, i);
    MetricOfState(p, tr[i]);
  }
}
