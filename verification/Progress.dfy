/** What the system does on its own, by passes that make their calls, caches that move on, and
    workers and handlers that do their work: from every reachable state it can come to rest, and
    finish a deletion. */
module Progress {
  import opened Ledger
  import opened Selection
  import opened Api
  import opened Rollout
  import opened Lifecycle
  import opened Quiescence
  import opened Passes
  import Reconcile
  import ReportCommits

  // ---------- Continuations ----------

  /** The pod that made the run is still there: the DaemonSet is still that version, and it has
      allowed the node ever since. Having reported, such a pod only waits to be stopped. */
  ghost predicate StillThere(s: State, run: Run) {
    && s.ds.now.Some? && run.dsAt == |s.ds.past|
    && forall v: nat :: run.nodeAt <= v <= |s.nodes.past| ==> Allows(s.ds.now.value.data, s.nodes.At(v), run.node)
  }

  predicate Allows(t: Template, nodes: Nodes, n: string) {
    n in nodes && PlacedBy(t.placement, nodes[n])
  }

  /** The pod of the current DaemonSet on this node has already reported. */
  ghost predicate Spent(s: State, n: string) {
    exists r: nat :: r < |s.rep.runs| && s.rep.runs[r].node == n && StillThere(s, s.rep.runs[r])
  }

  /** The system's own steps: nothing from the environment, no queueing from outside, no failure
      of a call that could succeed, no crash. Only pods of the current DaemonSet on current nodes
      start, and each of them reports once, as the worker's main does. */
  ghost predicate Own(p: Params, s: State, step: Step) {
    match step
    case EnvStep(_) => false
    case Fail => CallNext(p, s).None?
    case Work(j) => j.dsAt == |s.ds.past| && j.nodeAt == |s.nodes.past| && !Spent(s, j.node)
    case DealStep(d) => !d.Crash?
    case _ => true
  }

  ghost predicate OwnStep(p: Params, s: State, t: State) {
    exists step :: Enabled(p, s, step) && Own(p, s, step) && t == Next(p, s, step)
  }

  ghost predicate OwnStepAt(p: Params, tr: seq<State>, i: nat)
    requires i + 1 < |tr|
  {
    OwnStep(p, tr[i], tr[i + 1])
  }

  ghost predicate Leads(p: Params, tr: seq<State>, s: State, t: State) {
    && tr != [] && tr[0] == s && tr[|tr| - 1] == t
    && forall i: nat :: i + 1 < |tr| ==> OwnStepAt(p, tr, i)
  }

  ghost predicate Reaches(p: Params, s: State, t: State) {
    exists tr :: Leads(p, tr, s, t)
  }

  lemma ReachSelf(p: Params, s: State)
    ensures Reaches(p, s, s)
  {
    assert Leads(p, [s], s, s);
  }

  lemma ReachStep(p: Params, s: State, t: State, step: Step)
    requires Reaches(p, s, t) && Enabled(p, t, step) && Own(p, t, step)
    ensures Reaches(p, s, Next(p, t, step))
  {
    var tr :| Leads(p, tr, s, t);
    var u := Next(p, t, step);
    var longer := tr + [u];
    assert OwnStep(p, t, u);
    forall i: nat | i + 1 < |longer| ensures OwnStepAt(p, longer, i) {
      if i < |tr| - 1 {
        assert OwnStepAt(p, tr, i);
      }
    }
    assert Leads(p, longer, s, u);
  }

  /** A continuation of a run is a run. */
  lemma {:induction false} RunLeads(p: Params, tr: seq<State>, more: seq<State>, t: State) returns (longer: seq<State>)
    requires IsRun(p, tr) && Leads(p, more, tr[|tr| - 1], t)
    ensures IsRun(p, longer) && longer[|longer| - 1] == t && tr <= longer
    decreases |more|
  {
    if |more| == 1 {
      longer := tr;
    } else {
      var before := more[..|more| - 1];
      forall i: nat | i + 1 < |before| ensures OwnStepAt(p, before, i) {
        assert OwnStepAt(p, more, i);
      }
      longer := RunLeads(p, tr, before, before[|before| - 1]);
      assert OwnStepAt(p, more, |more| - 2);
      var step :| Enabled(p, before[|before| - 1], step) && Own(p, before[|before| - 1], step) && t == Next(p, before[|before| - 1], step);
      RunOneMore(p, longer, step);
      longer := longer + [t];
    }
  }

  lemma RunReaches(p: Params, tr: seq<State>, t: State) returns (longer: seq<State>)
    requires IsRun(p, tr) && Reaches(p, tr[|tr| - 1], t)
    ensures IsRun(p, longer) && longer[|longer| - 1] == t && tr <= longer
  {
    var more :| Leads(p, more, tr[|tr| - 1], t);
    longer := RunLeads(p, tr, more, t);
  }

  // ---------- What holds in every reachable state ----------

  /** Versions are only added. */
  ghost predicate Grows<T>(c: Cell<T>, d: Cell<T>) {
    |c.past| <= |d.past| && forall i: nat :: i <= |c.past| ==> d.At(i) == c.At(i)
  }

  ghost predicate AllGrow(s: State, t: State) {
    Grows(s.profile, t.profile) && Grows(s.nodes, t.nodes) && Grows(s.ds, t.ds)
  }

  lemma CallGrows(p: Params, s: State)
    requires CallNext(p, s).Some?
    ensures AllGrow(s, CallNext(p, s).value)
  {
    var o := Snapshot(s).value;
    if Cleaning(s.ctl.pc) {
      assert CallNext(p, s) == CleanCall(p, s);
    } else if s.ctl.pc.ListNodes? || s.ctl.pc.TearDown? || s.ctl.pc.WriteStatus? {
      assert CallNext(p, s) == DecideCall(p, s, o);
    } else {
      assert CallNext(p, s) == PutCall(p, s, o);
    }
  }

  lemma StepGrows(p: Params, s: State, step: Step)
    requires Enabled(p, s, step)
    ensures AllGrow(s, Next(p, s, step))
  {
    if step.Call? {
      CallGrows(p, s);
    }
  }

  /** Reports on their way: runs come from existing versions, handlers handle runs, and what a
      handler has fetched is an object. */
  ghost predicate FlightInv(s: State) {
    && (forall r: nat :: r < |s.rep.runs| ==> s.rep.runs[r].dsAt <= |s.ds.past| && s.rep.runs[r].nodeAt <= |s.nodes.past|)
    && IdsBounded(s)
    && (forall id :: id in s.rep.handlers && s.rep.handlers[id].Writing? ==> HasFetched(s, s.rep.handlers[id].at))
  }

  ghost predicate IdsBounded(s: State) {
    forall id :: id in s.rep.handlers ==> id < |s.rep.runs|
  }

  predicate HasFetched(s: State, at: nat) {
    at <= |s.profile.past| && s.profile.At(at).Some?
  }

  lemma FlightSame(s: State, t: State)
    requires FlightInv(s) && AllGrow(s, t) && t.rep.runs == s.rep.runs && t.rep.handlers == s.rep.handlers
    ensures FlightInv(t)
  {
  }

  lemma FlightDeal(p: Params, s: State, d: Deal)
    requires FlightInv(s) && DealEnabled(s, d)
    ensures FlightInv(DealNext(p, s, d))
  {
    StepGrows(p, s, DealStep(d));
  }

  lemma FlightWork(p: Params, s: State, j: Job)
    requires FlightInv(s) && JobEnabled(p, s, j)
    ensures FlightInv(Next(p, s, Work(j)))
  {
  }

  lemma FlightKeeps(p: Params, s: State, step: Step)
    requires FlightInv(s) && Enabled(p, s, step)
    ensures FlightInv(Next(p, s, step))
  {
    StepGrows(p, s, step);
    match step
    case Work(j) => FlightWork(p, s, j);
    case DealStep(d) => FlightDeal(p, s, d);
    case EnvStep(e) => FlightSame(s, EnvNext(p, s, e));
    case SeeStep(v) => FlightSame(s, SeeNext(s, v));
    case Start => FlightSame(s, StartNext(s));
    case Fail => FlightSame(s, FailNext(s));
    case Call =>
      CallKeepsReports(p, s);
      FlightSame(s, CallNext(p, s).value);
  }

  lemma CallKeepsReports(p: Params, s: State)
    requires CallNext(p, s).Some?
    ensures CallNext(p, s).value.rep == s.rep
  {
    ReportCommits.ReconcileKeepsLedger(p, s);
  }

  lemma FlightAtStep(p: Params, tr: seq<State>, i: nat)
    requires IsRun(p, tr) && 0 < i < |tr| && FlightInv(tr[i - 1])
    ensures FlightInv(tr[i])
  {
    assert StepAt(p, tr, i - 1);
    var step :| Enabled(p, tr[i - 1], step) && tr[i] == Next(p, tr[i - 1], step);
    FlightKeeps(p, tr[i - 1], step);
  }

  lemma {:induction false} RunKeepsFlight(p: Params, tr: seq<State>, i: nat)
    requires IsRun(p, tr) && i < |tr|
    ensures FlightInv(tr[i])
  {
    if i > 0 {
      RunKeepsFlight(p, tr, i - 1);
      FlightAtStep(p, tr, i);
    }
  }

  ghost predicate Good(p: Params, s: State) {
    Inv(p, s) && QuietInv(p, s) && FlightInv(s)
  }

  lemma StepIsGood(p: Params, s: State, step: Step)
    requires Good(p, s) && Enabled(p, s, step)
    ensures Good(p, Next(p, s, step))
  {
    StepKeeps(p, s, step);
    FlightKeeps(p, s, step);
    assert Steps(p, s, Next(p, s, step));
    QuietKeeps(p, s, Next(p, s, step));
  }

  /** A reachable state with a way to it from the start of the continuation. */
  ghost predicate Comes(p: Params, r: State, s: State) {
    Good(p, s) && Reaches(p, r, s)
  }

  lemma Come(p: Params, r: State, s: State, step: Step) returns (t: State)
    requires Comes(p, r, s) && Enabled(p, s, step) && Own(p, s, step)
    ensures t == Next(p, s, step) && Comes(p, r, t)
  {
    ReachStep(p, r, s, step);
    StepIsGood(p, s, step);
    t := Next(p, s, step);
  }

  // ---------- Running on and catching up ----------

  /** What passes and caches leave alone: the nodes, the reports, and of the object all but its
      status and a finalizer added. Only an object marked for deletion goes. */
  ghost predicate Kept(s: State, t: State) {
    && t.nodes.past == s.nodes.past && t.nodes.now == s.nodes.now && t.rep == s.rep
    && (s.profile.now.None? ==> t.profile.now.None?)
    && (s.profile.now.Some? && !s.profile.now.value.deleting ==> t.profile.now.Some?)
    && (t.profile.now.Some? ==> SameButStatus(s.profile.now.value, t.profile.now.value))
  }

  ghost predicate SameButStatus(o: Obj, q: Obj) {
    && q == o.(status := q.status, finalizer := q.finalizer)
    && q.status.book == o.status.book
    && (o.finalizer ==> q.finalizer)
  }

  lemma CallKeepsObject(p: Params, s: State)
    requires Inv(p, s) && CallNext(p, s).Some?
    ensures Kept(s, CallNext(p, s).value)
  {
    if Cleaning(s.ctl.pc) {
      CleanKeepsObject(p, s);
    } else if s.ctl.pc.ListNodes? || s.ctl.pc.TearDown? || s.ctl.pc.WriteStatus? {
      DecideKeepsObject(p, s);
    } else {
      PutKeepsObject(p, s);
    }
  }

  lemma CleanKeepsObject(p: Params, s: State)
    requires Inv(p, s) && Cleaning(s.ctl.pc) && CleanCall(p, s).Some?
    ensures Kept(s, CleanCall(p, s).value)
  {
    NowIsLast(s);
  }

  lemma DecideKeepsObject(p: Params, s: State)
    requires Inv(p, s) && Snapshot(s).Some? && DecideCall(p, s, Snapshot(s).value).Some?
    ensures Kept(s, DecideCall(p, s, Snapshot(s).value).value)
  {
    NowIsLast(s);
  }

  lemma PutKeepsObject(p: Params, s: State)
    requires Inv(p, s) && Snapshot(s).Some? && PutCall(p, s, Snapshot(s).value).Some?
    ensures Kept(s, PutCall(p, s, Snapshot(s).value).value)
  {
    NowIsLast(s);
  }

  /** The running pass runs to its end. */
  lemma {:induction false} ComePass(p: Params, r: State, s: State)
    requires Comes(p, r, s)
    ensures Comes(p, r, RunPass(p, s, {})) && Kept(s, RunPass(p, s, {}))
    decreases Rank(s.ctl.pc)
  {
    if !s.ctl.pc.Idle? {
      var t := Come(p, r, s, if CallNext(p, s).Some? then Call else Fail);
      if CallNext(p, s).Some? {
        CallKeepsObject(p, s);
      }
      assert t == PassStep(p, s, {});
      ComePass(p, r, t);
    }
  }

  /** All caches are current. */
  function Seen(s: State): State {
    s.(profile := s.profile.(seen := |s.profile.past|), nodes := s.nodes.(seen := |s.nodes.past|),
       cm := s.cm.(seen := |s.cm.past|), ds := s.ds.(seen := |s.ds.past|), cj := s.cj.(seen := |s.cj.past|))
  }

  /** Only flags that the delivery of events sets differ. */
  ghost predicate Flags(c: Control, d: Control) {
    d == c.(queued := d.queued, gone := d.gone) && (c.queued ==> d.queued)
  }

  lemma SeeAllProfile(p: Params, r: State, s: State) returns (t: State)
    requires Comes(p, r, s)
    ensures Comes(p, r, t) && t == s.(profile := s.profile.(seen := |s.profile.past|), ctl := t.ctl) && Flags(s.ctl, t.ctl)
    ensures if s.profile.Fresh() then t == s else t.ctl.queued
  {
    t := s;
    if !s.profile.Fresh() {
      t := Come(p, r, s, SeeStep(SeeProfile(|s.profile.past|)));
    }
  }

  lemma SeeAllNodes(p: Params, r: State, s: State) returns (t: State)
    requires Comes(p, r, s)
    ensures Comes(p, r, t) && t == s.(nodes := s.nodes.(seen := |s.nodes.past|), ctl := t.ctl) && Flags(s.ctl, t.ctl)
    ensures s.nodes.Fresh() ==> t == s
  {
    t := s;
    if !s.nodes.Fresh() {
      t := Come(p, r, s, SeeStep(SeeNodes(|s.nodes.past|)));
    }
  }

  lemma SeeAllCm(p: Params, r: State, s: State) returns (t: State)
    requires Comes(p, r, s)
    ensures Comes(p, r, t) && t == s.(cm := s.cm.(seen := |s.cm.past|), ctl := t.ctl) && Flags(s.ctl, t.ctl)
    ensures if s.cm.Fresh() then t == s else t.ctl.queued
  {
    t := s;
    if !s.cm.Fresh() {
      t := Come(p, r, s, SeeStep(SeeCm(|s.cm.past|)));
    }
  }

  lemma SeeAllDs(p: Params, r: State, s: State) returns (t: State)
    requires Comes(p, r, s)
    ensures Comes(p, r, t) && t == s.(ds := s.ds.(seen := |s.ds.past|), ctl := t.ctl) && Flags(s.ctl, t.ctl)
    ensures if s.ds.Fresh() then t == s else t.ctl.queued
  {
    t := s;
    if !s.ds.Fresh() {
      t := Come(p, r, s, SeeStep(SeeDs(|s.ds.past|)));
    }
  }

  lemma SeeAllCj(p: Params, r: State, s: State) returns (t: State)
    requires Comes(p, r, s)
    ensures Comes(p, r, t) && t == s.(cj := s.cj.(seen := |s.cj.past|), ctl := t.ctl) && Flags(s.ctl, t.ctl)
    ensures if s.cj.Fresh() then t == s else t.ctl.queued
  {
    t := s;
    if !s.cj.Fresh() {
      t := Come(p, r, s, SeeStep(SeeCj(|s.cj.past|)));
    }
  }

  /** All events are delivered. Those of the profile and of what it owns queue it; nothing else
      does it for sure. */
  lemma SeeAll(p: Params, r: State, s: State) returns (t: State)
    requires Comes(p, r, s)
    ensures Comes(p, r, t) && t == Seen(s).(ctl := t.ctl) && Flags(s.ctl, t.ctl)
    ensures !(s.profile.Fresh() && s.cm.Fresh() && s.ds.Fresh() && s.cj.Fresh()) ==> t.ctl.queued
    ensures Caught(s) ==> t == s
  {
    var a := SeeAllProfile(p, r, s);
    var b := SeeAllNodes(p, r, a);
    var c := SeeAllCm(p, r, b);
    var d := SeeAllDs(p, r, c);
    t := SeeAllCj(p, r, d);
  }

  /** Nothing runs and every event is delivered, but perhaps the profile is queued. */
  predicate Rested(s: State) {
    Caught(s) && s.ctl.pc.Idle?
  }

  /** From any reachable state: the running pass ends, then the caches catch up. */
  lemma CatchUp(p: Params, r: State, s: State) returns (t: State)
    requires Comes(p, r, s)
    ensures Comes(p, r, t) && Rested(t) && Kept(s, t)
  {
    ComePass(p, r, s);
    t := SeeAll(p, r, RunPass(p, s, {}));
  }

  lemma InvIsSane(p: Params, s: State)
    requires Inv(p, s)
    ensures Reconcile.Sane(p, WorldOf(s))
  {
    NowIsLast(s);
  }

  /** After a pass, the events it caused queue the profile exactly if it failed or changed something. */
  lemma SeeAfterPass(p: Params, r: State, s: State, u: State) returns (t: State)
    requires Caught(s) && Comes(p, r, u) && PassResult(p, s, u, {})
    ensures Comes(p, r, t) && Rested(t) && WorldOf(t) == WorldOf(u) && t.rep == u.rep
    ensures t.ds.past == u.ds.past && t.nodes.past == u.nodes.past
    ensures !t.ctl.queued <==> Reconcile.Passed(p, WorldOf(s), {}) == (WorldOf(s), true)
  {
    t := SeeAll(p, r, u);
    if WorldOf(u) == WorldOf(s) {
      assert u.profile == s.profile && u.cm == s.cm && u.ds == s.ds && u.cj == s.cj;
    }
  }

  /** One pass and the delivery of the events it causes. It queues the profile again exactly if it
      failed or changed something. */
  lemma Round(p: Params, r: State, s: State) returns (t: State)
    requires Comes(p, r, s) && Rested(s) && s.ctl.queued
    ensures Comes(p, r, t) && Rested(t) && Kept(s, t)
    ensures WorldOf(t) == Reconcile.Passed(p, WorldOf(s), {}).0
    ensures !t.ctl.queued <==> Reconcile.Passed(p, WorldOf(s), {}) == (WorldOf(s), true)
    ensures t.ds.now == s.ds.now ==> t.ds.past == s.ds.past
  {
    var a := Come(p, r, s, Start);
    ComePass(p, r, a);
    FreshPass(p, s, {});
    t := SeeAfterPass(p, r, s, RunPass(p, a, {}));
    assert Kept(s, a) && Kept(a, RunPass(p, a, {})) && Kept(RunPass(p, a, {}), t);
  }

  /** The profile is there to stay and its selector is valid. */
  ghost predicate Live(s: State) {
    s.profile.now.Some? && !s.profile.now.value.deleting && Valid(s.profile.now.value.spec.selector)
  }

  function Twice(p: Params, w: Reconcile.World): Reconcile.World {
    Reconcile.Passed(p, Reconcile.Passed(p, w, {}).0, {}).0
  }

  /** Nothing is left to do for a live profile after two passes. */
  lemma TwiceIsDone(p: Params, s: State)
    requires Inv(p, s) && Live(s)
    ensures Reconcile.Passed(p, Twice(p, WorldOf(s)), {}) == (Twice(p, WorldOf(s)), true)
  {
    var w := WorldOf(s);
    InvIsSane(p, s);
    Reconcile.TwoPassesReachFixpoint(p, w);
    Reconcile.PassIsSafe(p, w, {});
    var w1 := Reconcile.Passed(p, w, {}).0;
    Reconcile.PassIsSafe(p, w1, {});
    LivePass(p, w);
    LivePass(p, w1);
    LivePass(p, Twice(p, w));
  }

  lemma LivePass(p: Params, w: Reconcile.World)
    requires Reconcile.Sane(p, w) && w.profile.Some? && !w.profile.value.deleting && Valid(w.profile.value.spec.selector)
    ensures var (after, ok) := Reconcile.Passed(p, w, {});
            && ok && after.profile.Some? && !after.profile.value.deleting && after.profile.value.finalizer
            && Valid(after.profile.value.spec.selector)
  {
  }

  /** A live profile comes to rest after at most three passes, the last of which changes nothing. */
  lemma Rest(p: Params, r: State, s: State) returns (t: State)
    requires Comes(p, r, s) && Rested(s) && Live(s)
    ensures Comes(p, r, t) && Quiet(t) && Kept(s, t)
    ensures WorldOf(t) == if s.ctl.queued then Twice(p, WorldOf(s)) else WorldOf(s)
    ensures s.ds.now == Reconcile.Passed(p, WorldOf(s), {}).0.ds == Twice(p, WorldOf(s)).ds ==> t.ds.past == s.ds.past
  {
    t := s;
    if s.ctl.queued {
      TwiceIsDone(p, s);
      t := Round(p, r, s);
      if t.ctl.queued {
        t := Round(p, r, t);
      }
      if t.ctl.queued {
        t := Round(p, r, t);
      }
    }
  }

  // ---------- Over whole runs ----------

  lemma RunIsGood(p: Params, tr: seq<State>, i: nat)
    requires IsRun(p, tr) && i < |tr|
    ensures Comes(p, tr[i], tr[i])
  {
    RunKeeps(p, tr, i);
    RunKeepsQuiet(p, tr, i);
    RunKeepsFlight(p, tr, i);
    ReachSelf(p, tr[i]);
  }

  lemma LedgerIsUnique(p: Params, tr: seq<State>, i: nat)
    requires IsRun(p, tr) && i < |tr|
    ensures tr[i].profile.now.Some? ==> UniqueNames(tr[i].profile.now.value.status.book.nodes)
  {
    ReportCommits.RunKeepsReports(p, tr, i);
    if tr[i].profile.now.Some? {
      var rs := ReportCommits.ReportsOf(tr[i].rep.runs, tr[i].rep.commits[tr[i].rep.base..]);
      LedgerRefinement(p.kind, rs);
      MirrorsListed(RecordAll(p.kind, EMPTY_BOOK, rs).nodes, rs, "");
    }
  }

  lemma ComeToRest(p: Params, r: State, s: State) returns (t: State)
    requires Comes(p, r, s) && Live(s)
    ensures Comes(p, r, t) && Quiet(t) && Kept(s, t) && Live(t)
  {
    var a := CatchUp(p, r, s);
    t := Rest(p, r, a);
  }

  /** From every reachable state, whatever happened before, a profile that is not being deleted and
      has a valid selector comes to rest by the system's own steps alone, without a report. */
  lemma LiveComesToRest(p: Params, tr: seq<State>, i: nat)
    requires IsRun(p, tr) && i < |tr| && Live(tr[i])
    ensures exists t :: Reaches(p, tr[i], t) && Quiet(t) && Settled(p, t) && Kept(tr[i], t)
  {
    RunIsGood(p, tr, i);
    var t := ComeToRest(p, tr[i], tr[i]);
    AtRest(p, t);
  }

  /** Without an object, at most one more pass. */
  lemma GoneComesToRest(p: Params, r: State, s: State) returns (t: State)
    requires Comes(p, r, s) && Rested(s) && s.profile.now.None?
    ensures Comes(p, r, t) && Quiet(t) && t.profile.now.None?
  {
    t := s;
    if s.ctl.queued {
      t := Round(p, r, s);
    }
  }

  lemma DeletionEnds(p: Params, r: State, s: State) returns (t: State)
    requires Comes(p, r, s) && Rested(s) && s.ctl.queued
    requires s.profile.now.Some? && s.profile.now.value.deleting && s.profile.now.value.finalizer
    ensures Comes(p, r, t) && Rested(t) && t.profile.now.None?
  {
    t := Round(p, r, s);
  }

  /** A deletion can always be finished, by the system's own steps alone: the object goes, and
      nothing it owned stays. */
  lemma DeletionCanFinish(p: Params, tr: seq<State>, i: nat)
    requires IsRun(p, tr) && i < |tr|
    requires tr[i].profile.now.Some? && tr[i].profile.now.value.deleting
    ensures exists t :: Reaches(p, tr[i], t) && Quiet(t) && t.profile.now.None?
                        && t.cm.now.None? && t.ds.now.None? && t.cj.now.None?
  {
    var s := tr[i];
    RunIsGood(p, tr, i);
    var a := CatchUp(p, s, s);
    if a.profile.now.Some? {
      NowIsLast(a);
      if !a.ctl.queued {
        AtRest(p, a);
      }
      a := DeletionEnds(p, s, a);
    }
    var t := GoneComesToRest(p, s, a);
    AtRest(p, t);
  }
}
