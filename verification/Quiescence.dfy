/** Level-triggered safety: when nothing is pending any more, the cluster is as the spec and the
    ledger say, although caches were stale, calls failed and node deletions were ignored. */
module Quiescence {
  import opened Text
  import opened Ledger
  import opened Selection
  import opened Api
  import opened Rollout
  import opened Lifecycle

  /** No reconcile is queued or running and no event is still on its way to a cache. */
  predicate Quiet(s: State) {
    && !s.ctl.queued && s.ctl.pc.Idle?
    && s.profile.Fresh() && s.nodes.Fresh() && s.cm.Fresh() && s.ds.Fresh() && s.cj.Fresh()
  }

  // ---------- What a pass has put in place ----------

  predicate CmRight(o: Obj, s: State) {
    s.cm.now == Some(Owned(o.uid, Render(o.spec)))
  }

  predicate CjRight(p: Params, o: Obj, s: State) {
    if WantsCronJob(o.spec) then s.cj.now == Some(Owned(o.uid, CronJob(o.spec.driftCheck, p.hash(Render(o.spec)))))
    else s.cj.now.None?
  }

  predicate DsRight(p: Params, o: Obj, s: State, complete: bool) {
    if complete then s.ds.now.None?
    else s.ds.now == Some(Owned(o.uid, Template(p.hash(Render(o.spec)), o.spec.selector.matchLabels)))
  }

  predicate SelectionRight(o: Obj, s: State, selected: set<string>) {
    && Valid(o.spec.selector)
    && Selected(o.spec.selector, s.nodes.Cached()) <= selected
    && (!s.ctl.gone ==> Selected(o.spec.selector, s.nodes.Cached()) == selected)
  }

  predicate ChoiceRight(p: Params, o: Obj, selected: set<string>, complete: bool) {
    complete == Complete(o.status.book.nodes, selected, p.hash(Render(o.spec)))
  }

  predicate AfterCm(pc: Pc) {
    Working(pc) && !pc.PutCm?
  }

  predicate AfterCj(pc: Pc) {
    AfterCm(pc) && !pc.PutCj?
  }

  predicate AfterList(pc: Pc) {
    pc.TearDown? || pc.RollOut? || pc.WriteStatus?
  }

  predicate CompleteOf(pc: Pc)
    requires AfterList(pc)
  {
    pc.TearDown? || (pc.WriteStatus? && pc.complete)
  }

  /** As long as no event was delivered since the running pass started. */
  predicate PassInv(p: Params, s: State) {
    var pc := s.ctl.pc;
    !pc.Idle? && s.profile.At(pc.at).Some? ==>
      var o := s.profile.At(pc.at).value;
      && pc.at == s.profile.seen
      && (AfterCm(pc) && s.cm.Fresh() ==> CmRight(o, s))
      && (AfterCj(pc) && s.cj.Fresh() ==> CjRight(p, o, s))
      && (AfterList(pc) ==> SelectionRight(o, s, pc.selected) && ChoiceRight(p, o, pc.selected, CompleteOf(pc)))
      && (pc.WriteStatus? && s.ds.Fresh() ==> DsRight(p, o, s, pc.complete))
  }

  predicate PassDone(p: Params, o: Obj, s: State, pass: Pass) {
    && pass.at == s.profile.seen
    && (s.cm.Fresh() ==> CmRight(o, s))
    && (s.cj.Fresh() ==> CjRight(p, o, s))
    && SelectionRight(o, s, pass.selected) && ChoiceRight(p, o, pass.selected, pass.complete)
    && (s.ds.Fresh() ==> DsRight(p, o, s, pass.complete))
    && (s.profile.Fresh() ==> o.status == Decided(o, p.hash(Render(o.spec)), pass.selected, pass.complete))
  }

  /** As long as no event was delivered since the last pass started. */
  predicate RestInv(p: Params, s: State) {
    s.ctl.pc.Idle? && s.profile.Cached().Some? ==>
      var o := s.profile.Cached().value;
      if o.deleting then o.finalizer ==> !s.profile.Fresh()
      else if !o.finalizer then !s.profile.Fresh()
      else s.ctl.last.Some? && PassDone(p, o, s, s.ctl.last.value)
  }

  ghost predicate MarkedHasFinalizer(s: State) {
    forall i: nat :: s.profile.At(i).Some? && s.profile.At(i).value.deleting ==> s.profile.At(i).value.finalizer
  }

  ghost predicate QuietInv(p: Params, s: State) {
    MarkedHasFinalizer(s) && (!s.ctl.queued ==> PassInv(p, s) && RestInv(p, s))
  }

  // ---------- Steps ----------

  lemma MarkedPush(s: State, t: State)
    requires MarkedHasFinalizer(s)
    requires t.profile == s.profile.Push(t.profile.now)
    requires t.profile.now.Some? && t.profile.now.value.deleting ==> t.profile.now.value.finalizer
    ensures MarkedHasFinalizer(t)
  {
    forall i: nat | t.profile.At(i).Some? && t.profile.At(i).value.deleting ensures t.profile.At(i).value.finalizer {
      assert i <= |s.profile.past| ==> t.profile.At(i) == s.profile.At(i);
    }
  }

  /** Versions were added to some objects, which leaves their caches behind. */
  ghost predicate Grown<T>(c: Cell<T>, d: Cell<T>) {
    d == c || d == c.Push(d.now)
  }

  /** Cells grown under the same control. */
  ghost predicate AllGrown(s: State, t: State) {
    && Grown(s.profile, t.profile) && Grown(s.nodes, t.nodes)
    && Grown(s.cm, t.cm) && Grown(s.ds, t.ds) && Grown(s.cj, t.cj)
    && t.ctl == s.ctl
  }

  lemma PassGrow(p: Params, s: State, t: State)
    requires Inv(p, s) && PassInv(p, s) && AllGrown(s, t)
    ensures PassInv(p, t)
  {
    assert t.nodes.Cached() == s.nodes.Cached();
    assert !s.ctl.pc.Idle? ==> t.profile.At(s.ctl.pc.at) == s.profile.At(s.ctl.pc.at);
  }

  lemma RestGrow(p: Params, s: State, t: State)
    requires Inv(p, s) && RestInv(p, s) && AllGrown(s, t)
    ensures RestInv(p, t)
  {
    assert t.profile.Cached() == s.profile.Cached();
    assert t.nodes.Cached() == s.nodes.Cached();
  }

  lemma QuietGrow(p: Params, s: State, t: State)
    requires Inv(p, s) && QuietInv(p, s) && MarkedHasFinalizer(t) && AllGrown(s, t)
    ensures QuietInv(p, t)
  {
    if !s.ctl.queued {
      PassGrow(p, s, t);
      RestGrow(p, s, t);
    }
  }

  lemma QuietEnv(p: Params, s: State, e: Env)
    requires Inv(p, s) && QuietInv(p, s) && EnvEnabled(p, s, e)
    ensures QuietInv(p, EnvNext(p, s, e))
  {
    var t := EnvNext(p, s, e);
    NowIsLast(s);
    if e.Create? || e.Edit? || e.Remove? {
      MarkedPush(s, t);
      QuietGrow(p, s, t);
    } else if !e.Requeue? {
      QuietGrow(p, s, t);
    }
  }

  lemma QuietDeal(p: Params, s: State, d: Deal)
    requires Inv(p, s) && QuietInv(p, s) && DealEnabled(s, d)
    ensures QuietInv(p, DealNext(p, s, d))
  {
    var t := DealNext(p, s, d);
    NowIsLast(s);
    if t.profile != s.profile {
      MarkedPush(s, t);
    }
    QuietGrow(p, s, t);
  }

  /** Node events that do not enqueue the profile keep the listed selection right. */
  lemma SelectionStays(o: Obj, s: State, i: nat, selected: set<string>)
    requires SelectionRight(o, s, selected) && s.profile.Cached() == Some(o)
    requires !SeeNext(s, SeeNodes(i)).ctl.queued
    ensures SelectionRight(o, SeeNext(s, SeeNodes(i)), selected)
  {
    var t := SeeNext(s, SeeNodes(i));
    DroppedEventsOnlyShrink(o.spec.selector, s.nodes.Cached(), s.nodes.At(i));
    assert t.nodes.Cached() == s.nodes.At(i);
  }

  lemma QuietSee(p: Params, s: State, v: See)
    requires Inv(p, s) && QuietInv(p, s) && SeeEnabled(s, v)
    ensures QuietInv(p, SeeNext(s, v))
  {
    var t := SeeNext(s, v);
    assert forall k: nat :: t.profile.At(k) == s.profile.At(k);
    if v.SeeNodes? && !t.ctl.queued {
      if AfterList(s.ctl.pc) {
        SelectionStays(s.profile.Cached().value, s, v.i, s.ctl.pc.selected);
      }
      if s.ctl.pc.Idle? && s.ctl.last.Some? && s.profile.Cached().Some? {
        var o := s.profile.Cached().value;
        if !o.deleting && o.finalizer {
          SelectionStays(o, s, v.i, s.ctl.last.value.selected);
        }
      }
    }
  }

  lemma QuietStart(p: Params, s: State)
    requires Inv(p, s) && QuietInv(p, s) && s.ctl.pc.Idle?
    ensures QuietInv(p, StartNext(s))
  {
  }

  lemma QuietClean(p: Params, s: State)
    requires Inv(p, s) && QuietInv(p, s) && Cleaning(s.ctl.pc) && CleanCall(p, s).Some?
    ensures QuietInv(p, CleanCall(p, s).value)
  {
    var t := CleanCall(p, s).value;
    if s.ctl.pc.DropFinalizer? {
      MarkedPush(s, t);
      assert t.profile.Cached() == s.profile.Cached();
    } else {
      assert forall k: nat :: t.profile.At(k) == s.profile.At(k);
    }
  }

  lemma PutRight<T>(c: Cell<Option<Owned<T>>>, want: Owned<T>)
    requires Bounded(c) && Put(c, want).Some?
    ensures Put(c, want).value.Fresh() ==> Put(c, want).value.now == Some(want)
  {
  }

  /** The running pass moves on. */
  lemma QuietMove(p: Params, s: State, t: State)
    requires QuietInv(p, s) && t.profile == s.profile && !t.ctl.pc.Idle?
    requires !t.ctl.queued ==> PassInv(p, t)
    ensures QuietInv(p, t)
  {
  }

  lemma QuietPut(p: Params, s: State)
    requires Inv(p, s) && QuietInv(p, s) && Working(s.ctl.pc)
    requires PutCall(p, s, Snapshot(s).value).Some?
    ensures QuietInv(p, PutCall(p, s, Snapshot(s).value).value)
  {
    var t := PutCall(p, s, Snapshot(s).value).value;
    if !s.ctl.queued {
      match s.ctl.pc
      case PutCm(_) => QuietPutCm(p, s, t);
      case PutCj(_) => QuietPutCj(p, s, t);
      case RollOut(_, _) => QuietRollOut(p, s, t);
      case _ =>
    }
    QuietMove(p, s, t);
  }

  /** A ScriptProfile has no CronJob to put in place. */
  lemma QuietPutCm(p: Params, s: State, t: State)
    requires Inv(p, s) && PassInv(p, s) && s.ctl.pc.PutCm?
    requires Some(t) == PutCall(p, s, Snapshot(s).value)
    ensures PassInv(p, t)
  {
    var o := Snapshot(s).value;
    PutRight(s.cm, Owned(o.uid, Render(o.spec)));
  }

  lemma QuietPutCj(p: Params, s: State, t: State)
    requires Inv(p, s) && PassInv(p, s) && s.ctl.pc.PutCj?
    requires Some(t) == PutCall(p, s, Snapshot(s).value)
    ensures PassInv(p, t)
  {
    var o := Snapshot(s).value;
    if WantsCronJob(o.spec) {
      PutRight(s.cj, Owned(o.uid, CronJob(o.spec.driftCheck, p.hash(Render(o.spec)))));
    }
  }

  lemma QuietRollOut(p: Params, s: State, t: State)
    requires Inv(p, s) && PassInv(p, s) && s.ctl.pc.RollOut?
    requires Some(t) == PutCall(p, s, Snapshot(s).value)
    ensures PassInv(p, t)
  {
    var o := Snapshot(s).value;
    PutRight(s.ds, Owned(o.uid, Template(p.hash(Render(o.spec)), o.spec.selector.matchLabels)));
  }

  lemma QuietAddFinalizer(p: Params, s: State)
    requires Inv(p, s) && QuietInv(p, s) && s.ctl.pc.AddFinalizer?
    requires PutCall(p, s, Snapshot(s).value).Some?
    ensures QuietInv(p, PutCall(p, s, Snapshot(s).value).value)
  {
    var t := PutCall(p, s, Snapshot(s).value).value;
    MarkedPush(s, t);
    assert t.profile.Cached() == s.profile.Cached();
  }

  lemma QuietChoose(p: Params, s: State, t: State)
    requires Inv(p, s) && PassInv(p, s) && (s.ctl.pc.ListNodes? || s.ctl.pc.TearDown?)
    requires Some(t) == DecideCall(p, s, Snapshot(s).value)
    ensures PassInv(p, t)
  {
  }

  /** The last pass is done and the status was as it should be. */
  lemma QuietUnwritten(p: Params, s: State, t: State)
    requires Inv(p, s) && PassInv(p, s) && s.ctl.pc.WriteStatus?
    requires Some(t) == DecideCall(p, s, Snapshot(s).value) && t.profile == s.profile
    ensures PassInv(p, t) && RestInv(p, t)
  {
  }

  /** The last pass is done and wrote the status; the event of that is still to come. */
  lemma QuietWritten(p: Params, s: State, t: State)
    requires Inv(p, s) && PassInv(p, s) && s.ctl.pc.WriteStatus?
    requires Some(t) == DecideCall(p, s, Snapshot(s).value) && t.profile == s.profile.Push(t.profile.now)
    ensures PassInv(p, t) && RestInv(p, t)
  {
    var o, pc := Snapshot(s).value, s.ctl.pc;
    assert t.profile.Cached() == s.profile.Cached() == Some(o) && !t.profile.Fresh();
    assert t.ctl.last == Some(Pass(pc.at, pc.selected, pc.complete));
    assert SelectionRight(o, t, pc.selected);
    assert PassDone(p, o, t, t.ctl.last.value);
  }

  lemma QuietDecide(p: Params, s: State)
    requires Inv(p, s) && QuietInv(p, s) && Working(s.ctl.pc)
    requires DecideCall(p, s, Snapshot(s).value).Some?
    ensures QuietInv(p, DecideCall(p, s, Snapshot(s).value).value)
  {
    var t := DecideCall(p, s, Snapshot(s).value).value;
    if s.ctl.pc.WriteStatus? {
      NowIsLast(s);
      if t.profile == s.profile {
        if !s.ctl.queued {
          QuietUnwritten(p, s, t);
        }
      } else {
        MarkedPush(s, t);
        if !s.ctl.queued {
          QuietWritten(p, s, t);
        }
      }
    } else {
      if !s.ctl.queued {
        QuietChoose(p, s, t);
      }
      QuietMove(p, s, t);
    }
  }

  lemma QuietCall(p: Params, s: State)
    requires Inv(p, s) && QuietInv(p, s) && CallNext(p, s).Some?
    ensures QuietInv(p, CallNext(p, s).value)
  {
    if Cleaning(s.ctl.pc) {
      QuietClean(p, s);
    } else if s.ctl.pc.ListNodes? || s.ctl.pc.TearDown? || s.ctl.pc.WriteStatus? {
      QuietDecide(p, s);
    } else if s.ctl.pc.AddFinalizer? {
      QuietAddFinalizer(p, s);
    } else {
      QuietPut(p, s);
    }
  }

  lemma QuietKeeps(p: Params, s: State, t: State)
    requires Inv(p, s) && QuietInv(p, s) && Steps(p, s, t)
    ensures QuietInv(p, t)
  {
    var step :| Enabled(p, s, step) && t == Next(p, s, step);
    match step
    case EnvStep(e) => QuietEnv(p, s, e);
    case SeeStep(v) => QuietSee(p, s, v);
    case Start => QuietStart(p, s);
    case Call => QuietCall(p, s);
    case Fail => assert forall k: nat :: t.profile.At(k) == s.profile.At(k);
    case Work(j) => QuietGrow(p, s, t);
    case DealStep(d) => QuietDeal(p, s, d);
  }

  lemma {:induction false} RunKeepsQuiet(p: Params, tr: seq<State>, i: nat)
    requires IsRun(p, tr) && i < |tr|
    ensures QuietInv(p, tr[i])
  {
    if i > 0 {
      RunKeepsQuiet(p, tr, i - 1);
      RunKeeps(p, tr, i - 1);
      assert StepAt(p, tr, i - 1);
      QuietKeeps(p, tr[i - 1], tr[i]);
    }
  }

  // ---------- The state at rest ----------

  /** The selection that the last pass listed. */
  function Listed(s: State): set<string> {
    if s.ctl.last.Some? then s.ctl.last.value.selected else {}
  }

  /** Without a profile nothing is left of it. A profile carries the finalizer and its selector is
      valid; ConfigMap, CronJob and DaemonSet are as its spec asks, the DaemonSet absent exactly if
      the selection last listed, which holds every node selected now, is recorded as applied; and
      the status says so. */
  predicate Settled(p: Params, s: State) {
    match s.profile.now
    case None => s.cm.now.None? && s.ds.now.None? && s.cj.now.None?
    case Some(o) =>
      var hash, complete := p.hash(Render(o.spec)), s.ds.now.None?;
      && o.finalizer && !o.deleting && Valid(o.spec.selector)
      && CmRight(o, s) && CjRight(p, o, s) && DsRight(p, o, s, complete)
      && Selected(o.spec.selector, s.nodes.now) <= Listed(s)
      && (!s.ctl.gone ==> Selected(o.spec.selector, s.nodes.now) == Listed(s))
      && complete == Complete(o.status.book.nodes, Listed(s), hash)
      && o.status.observedHash == hash
      && o.status.desiredNodes == Wrap(|Listed(s)|)
      && o.status.ready == Some(Ready(complete, o.generation))
      && (complete ==> o.status.teardownHash == hash)
  }

  lemma AtRest(p: Params, s: State)
    requires Inv(p, s) && QuietInv(p, s) && Quiet(s)
    ensures Settled(p, s)
  {
    assert s.profile.Cached() == s.profile.now && s.nodes.Cached() == s.nodes.now;
  }

  /** In a state at rest, only the environment, a worker or a report handler can move. */
  lemma OnlyWorkersWake(p: Params, s: State, step: Step)
    requires Quiet(s) && Enabled(p, s, step)
    ensures step.EnvStep? || step.Work? || step.DealStep?
  {
  }

  // ---------- Over whole runs ----------

  /** Every quiet state of every run is settled; in particular, if the DaemonSet of a profile is
      absent, then every node it selects now is recorded as applied at the current hash. */
  lemma QuietIsSettled(p: Params, tr: seq<State>, i: nat)
    requires IsRun(p, tr) && i < |tr| && Quiet(tr[i])
    ensures Settled(p, tr[i])
    ensures tr[i].profile.now.Some? && tr[i].ds.now.None? ==>
              var o := tr[i].profile.now.value;
              forall n :: n in Selected(o.spec.selector, tr[i].nodes.now) ==>
                NodeApplied(o.status.book.nodes, n, p.hash(Render(o.spec)))
  {
    RunKeepsQuiet(p, tr, i);
    RunKeeps(p, tr, i);
    AtRest(p, tr[i]);
  }

  /** Some of the nodes is not recorded as applied. */
  ghost predicate SomeOpen(nodes: seq<NodeStatus>, selected: set<string>, hash: string) {
    exists n :: n in selected && !NodeApplied(nodes, n, hash)
  }

  /** The reconciler's comment, that the DaemonSet exists exactly while some selected node is not
      applied, is true of a quiet state exactly if the last pass listed some node, and some node
      that keeps the rollout open is still selected. */
  lemma DaemonSetCommentIsExact(p: Params, tr: seq<State>, i: nat)
    requires IsRun(p, tr) && i < |tr| && Quiet(tr[i]) && tr[i].profile.now.Some?
    ensures var s, o := tr[i], tr[i].profile.now.value;
            var nodes, hash, selected := o.status.book.nodes, p.hash(Render(o.spec)), Selected(o.spec.selector, s.nodes.now);
            (s.ds.now.Some? <==> SomeOpen(nodes, selected, hash)) <==>
            Listed(s) != {} && (SomeOpen(nodes, Listed(s), hash) ==> SomeOpen(nodes, selected, hash))
  {
    QuietIsSettled(p, tr, i);
  }

  /** If no node deletion was seen since the last pass listed the nodes, the DaemonSet is present
      exactly as long as the rollout is incomplete. */
  lemma QuietDaemonSetIsExact(p: Params, tr: seq<State>, i: nat)
    requires IsRun(p, tr) && i < |tr| && Quiet(tr[i]) && !tr[i].ctl.gone && tr[i].profile.now.Some?
    ensures var s := tr[i];
            var o := s.profile.now.value;
            s.ds.now.None? <==> Complete(o.status.book.nodes, Selected(o.spec.selector, s.nodes.now), p.hash(Render(o.spec)))
  {
    QuietIsSettled(p, tr, i);
  }

  /** The node is the only selected one that keeps the rollout open. */
  ghost predicate OnlyOpen(p: Params, s: State, n: string) {
    s.profile.now.Some? &&
    var o := s.profile.now.value;
    var selected := Selected(o.spec.selector, s.nodes.now);
    && n in selected && selected != {n}
    && forall m :: m in selected ==> (NodeApplied(o.status.book.nodes, m, p.hash(Render(o.spec))) <==> m != n)
  }

  /** At rest with the DaemonSet there, although every selected node is recorded as applied. */
  ghost predicate Outlived(p: Params, s: State) {
    && Quiet(s) && s.profile.now.Some? && s.ds.now.Some?
    && var o := s.profile.now.value;
       Complete(o.status.book.nodes, Selected(o.spec.selector, s.nodes.now), p.hash(Render(o.spec)))
  }

  function WithoutNode(s: State, n: string): State {
    var u := s.(nodes := s.nodes.Push(s.nodes.now - {n}));
    SeeNext(u, SeeNodes(|u.nodes.past|))
  }

  lemma StillComplete(p: Params, s: State, n: string)
    requires OnlyOpen(p, s, n) && Quiet(s) && Settled(p, s) && s.ds.now.Some?
    ensures Outlived(p, WithoutNode(s, n))
  {
    var o, v := s.profile.now.value, WithoutNode(s, n);
    var before, after := Selected(o.spec.selector, s.nodes.now), Selected(o.spec.selector, v.nodes.now);
    assert s.profile.Cached() == s.profile.now && s.nodes.Cached() == s.nodes.now;
    assert after == before - {n};
    assert exists m :: m in before && m != n;
  }

  /** Where the comment fails: the last open node is deleted while other nodes are selected. The
      deletion enqueues nothing, so the DaemonSet stays. */
  lemma DeletionOutlivesNeed(p: Params, tr: seq<State>, n: string)
    requires IsRun(p, tr) && Quiet(tr[|tr| - 1]) && tr[|tr| - 1].ds.now.Some? && OnlyOpen(p, tr[|tr| - 1], n)
    ensures var s := tr[|tr| - 1];
            && IsRun(p, tr + [EnvNext(p, s, RemoveNode(n)), WithoutNode(s, n)])
            && Outlived(p, WithoutNode(s, n))
  {
    var s := tr[|tr| - 1];
    QuietIsSettled(p, tr, |tr| - 1);
    StillComplete(p, s, n);
    var u := EnvNext(p, s, RemoveNode(n));
    RunOneMore(p, tr, EnvStep(RemoveNode(n)));
    RunOneMore(p, tr + [u], SeeStep(SeeNodes(|u.nodes.past|)));
    assert tr + [u] + [WithoutNode(s, n)] == tr + [u, WithoutNode(s, n)];
  }

  lemma RunOneMore(p: Params, tr: seq<State>, step: Step)
    requires IsRun(p, tr) && Enabled(p, tr[|tr| - 1], step)
    ensures IsRun(p, tr + [Next(p, tr[|tr| - 1], step)])
  {
    var longer := tr + [Next(p, tr[|tr| - 1], step)];
    forall i: nat | i + 1 < |longer| ensures StepAt(p, longer, i) {
      if i < |tr| - 1 {
        assert StepAt(p, tr, i);
      } else {
        assert Steps(p, tr[|tr| - 1], Next(p, tr[|tr| - 1], step));
      }
    }
  }

  /** A DaemonSet whose hash is not that of the current ConfigMap content means that a reconcile is
      pending: the profile is queued, a pass is running, or an event is on its way that queues it.
      Stale node or CronJob caches are no excuse. */
  lemma StaleHashIsPending(p: Params, tr: seq<State>, i: nat)
    requires IsRun(p, tr) && i < |tr| && tr[i].ds.now.Some?
    requires tr[i].cm.now.Some? ==> tr[i].ds.now.value.data.hash != p.hash(tr[i].cm.now.value.data)
    ensures var s := tr[i];
            s.ctl.queued || !s.ctl.pc.Idle? || !s.profile.Fresh() || !s.cm.Fresh() || !s.ds.Fresh()
  {
    RunKeepsQuiet(p, tr, i);
    RunKeeps(p, tr, i);
  }
}
