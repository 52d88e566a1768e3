/** Where the pods and reports that are left do not suffice, a rollout at rest is never completed:
    what is lost stays lost, however often the profile is queued again. */
module Shortage {
  import opened Text
  import opened Ledger
  import opened LedgerLaws
  import opened Api
  import opened Rollout
  import opened Lifecycle
  import opened Quiescence
  import opened Progress
  import opened Supplies

  // ---------- Not completing ----------

  /** The object but for its status. */
  ghost predicate SameSpec(o: Obj, q: Obj) {
    q == o.(status := q.status)
  }

  ghost predicate GoodVersion(o: Option<Obj>, v: Option<Obj>) {
    o.Some? && v.Some? && SameSpec(o.value, v.value) && UniqueNames(v.value.status.book.nodes)
  }

  /** A rollout at rest, later: passes have changed nothing but the status, and none of them has read
      anything older. */
  ghost predicate Frame(p: Params, s0: State, s: State) {
    && s.nodes == s0.nodes && s.cm == s0.cm && s.ds == s0.ds && s.cj == s0.cj
    && FlightInv(s) && |s0.profile.past| <= |s.profile.past| && |s0.profile.past| <= s.profile.seen <= |s.profile.past|
    && (forall v: nat :: v >= |s0.profile.past| ==> GoodVersion(s0.profile.now, s.profile.At(v)))
    && (!s.ctl.pc.Idle? ==> Working(s.ctl.pc) && !s.ctl.pc.TearDown? && |s0.profile.past| <= s.ctl.pc.at <= s.profile.seen)
    && (s.ctl.pc.WriteStatus? ==> !s.ctl.pc.complete)
    && (p.kind.ScriptProfile? ==> !s.ctl.pc.PutCj?)
  }

  /** Where it starts: at rest, the DaemonSet there. */
  ghost predicate Base(p: Params, s0: State) {
    Good(p, s0) && Quiet(s0) && Live(s0) && s0.ds.now.Some? && Settled(p, s0)
    && UniqueNames(s0.profile.now.value.status.book.nodes)
  }

  /** The node is not recorded as applied in any version from some one on, and passes read no other. */
  ghost predicate OpenFrom(p: Params, s0: State, s: State, x: string, from: nat)
    requires s0.profile.now.Some?
  {
    && x in Goal(p, s0).1
    && (forall v: nat :: v >= from && s.profile.At(v).Some? ==>
          !NodeApplied(s.profile.At(v).value.status.book.nodes, x, Goal(p, s0).0))
    && (s.ctl.queued ==> s.profile.seen >= from)
    && (!s.ctl.pc.Idle? ==> s.ctl.pc.at >= from)
  }

  /** A step of the system on its own, or the profile being queued from outside. */
  ghost predicate OwnOrQueue(p: Params, s: State, step: Step) {
    Own(p, s, step) || step == EnvStep(Requeue)
  }

  /** What a step leaves alone as far as reports go. */
  ghost predicate SameFlight(s: State, t: State) {
    t.rep == s.rep && t.nodes == s.nodes && t.ds == s.ds && |s.profile.past| <= |t.profile.past|
  }

  // No step creates a lasting supply, nor an available report.

  lemma FlightOnlyShrinks(s: State, t: State, x: string, hash: string)
    requires FlightInv(s) && SameFlight(s, t)
    ensures LastingSupply(t, x, hash) <==> LastingSupply(s, x, hash)
    ensures forall id: nat :: Available(t, id) ==> Available(s, id)
    ensures forall n :: CanStart(t, n) <==> CanStart(s, n)
  {
    forall n ensures CanStart(t, n) <==> CanStart(s, n) {
      SpentSame(s, t, n);
    }
    assert forall id: nat :: Lasting(t, id) <==> Lasting(s, id);
    if id: nat :| Lasting(s, id) && IsSuccess(s, id, x, hash) {
      assert Lasting(t, id) && IsSuccess(t, id, x, hash);
    }
  }

  lemma SpentStays(s: State, t: State, x: string)
    requires Spent(s, x) && s.rep.runs <= t.rep.runs && t.ds == s.ds && t.nodes == s.nodes
    ensures Spent(t, x)
  {
    var r: nat :| r < |s.rep.runs| && s.rep.runs[r].node == x && StillThere(s, s.rep.runs[r]);
    assert t.rep.runs[r] == s.rep.runs[r] && StillThere(t, t.rep.runs[r]);
  }

  lemma WorkAddsNothing(p: Params, s: State, j: Job, n: string)
    requires FlightInv(s) && JobEnabled(p, s, j) && Own(p, s, Work(j))
    requires s.ds.now.Some? && !CanStart(s, n)
    ensures var t := Next(p, s, Work(j));
            !CanStart(t, n) && forall id: nat :: Available(t, id) && t.rep.runs[id].report.node == n ==> Available(s, id)
  {
    var t := Next(p, s, Work(j));
    if Spent(s, n) {
      SpentStays(s, t, n);
    }
    assert t.rep.runs[|s.rep.runs|] == RunOf(p, s, j);
    assert j.node == n ==> n == "" by {
      assert Allows(s.ds.now.value.data, s.nodes.now, j.node);
    }
  }

  /** Handlers that move do not make a report available, and do not make an available one lasting. */
  lemma DealAddsNothing(p: Params, s: State, d: Deal, id: nat)
    requires FlightInv(s) && DealEnabled(s, d) && !d.Crash?
    ensures var t := DealNext(p, s, d);
            && (Lasting(t, id) ==> Lasting(s, id))
            && (Available(t, id) ==> Available(s, id))
            && t.rep.runs == s.rep.runs && t.nodes == s.nodes && t.ds == s.ds
  {
  }

  /** After a commit, what was not lasting is gone. */
  lemma PushEndsChances(p: Params, s: State, t: State, id: nat)
    requires FlightInv(s) && |t.profile.past| > |s.profile.past| && t.rep.runs == s.rep.runs
    requires Available(t, id)
    requires id in t.rep.handlers && t.rep.handlers[id].Writing? ==> id in s.rep.handlers && s.rep.handlers[id] == t.rep.handlers[id]
    ensures Lasting(t, id)
  {
  }

  // ---------- Steps that keep a node open ----------

  /** The frame with one node open from some version on. */
  ghost predicate Held(p: Params, s0: State, s: State, x: string, from: nat) {
    s0.profile.now.Some? && Frame(p, s0, s) && OpenFrom(p, s0, s, x, from)
  }

  lemma HeldPush(p: Params, s0: State, s: State, t: State, q: Obj, x: string, from: nat)
    requires Base(p, s0) && Held(p, s0, s, x, from)
    requires t == s.(profile := s.profile.Push(Some(q)), rep := t.rep, ctl := t.ctl) && FlightInv(t)
    requires t.ctl == s.ctl || (t.ctl.pc.Idle? && t.ctl.queued == s.ctl.queued)
    requires SameSpec(s0.profile.now.value, q) && UniqueNames(q.status.book.nodes)
    requires !NodeApplied(q.status.book.nodes, x, Goal(p, s0).0)
    ensures Held(p, s0, t, x, from)
  {
    forall v: nat ensures t.profile.At(v) == if v <= |s.profile.past| then s.profile.At(v) else Some(q) {}
  }

  lemma PutNothing<T>(c: Cell<Option<Owned<T>>>, want: Owned<T>)
    requires c.Fresh() && c.now == Some(want)
    ensures Put(c, want) == Some(c)
  {
  }

  lemma SnapshotIsSame(p: Params, s0: State, s: State, x: string, from: nat)
    requires Base(p, s0) && Held(p, s0, s, x, from) && !s.ctl.pc.Idle?
    ensures Snapshot(s).Some? && SameSpec(s0.profile.now.value, Snapshot(s).value)
    ensures !NodeApplied(Snapshot(s).value.status.book.nodes, x, Goal(p, s0).0)
  {
    assert GoodVersion(s0.profile.now, s.profile.At(s.ctl.pc.at));
  }

  /** A put finds what it wants. */
  lemma PutIsIdle(p: Params, s0: State, s: State, o: Obj)
    requires Base(p, s0) && SameSpec(s0.profile.now.value, o)
    requires s.cm == s0.cm && s.ds == s0.ds && s.cj == s0.cj && Working(s.ctl.pc) && PutCall(p, s, o).Some?
    ensures PutCall(p, s, o).value == s.(ctl := s.ctl.(pc := PutCall(p, s, o).value.ctl.pc))
  {
    var hash := p.hash(Render(o.spec));
    match s.ctl.pc
    case PutCm(_) => PutNothing(s.cm, Owned(o.uid, Render(o.spec)));
    case PutCj(_) =>
      if WantsCronJob(o.spec) {
        PutNothing(s.cj, Owned(o.uid, CronJob(o.spec.driftCheck, hash)));
      }
    case RollOut(_, _) => PutNothing(s.ds, Owned(o.uid, Template(hash, o.spec.selector.matchLabels)));
    case _ =>
  }

  lemma HeldPut(p: Params, s0: State, s: State, x: string, from: nat)
    requires Base(p, s0) && Held(p, s0, s, x, from) && !s.ctl.pc.Idle?
    requires Snapshot(s).Some? && PutCall(p, s, Snapshot(s).value).Some?
    ensures var t := PutCall(p, s, Snapshot(s).value).value; Held(p, s0, t, x, from) && t == s.(ctl := t.ctl)
  {
    SnapshotIsSame(p, s0, s, x, from);
    PutIsIdle(p, s0, s, Snapshot(s).value);
  }

  lemma HeldList(p: Params, s0: State, s: State, x: string, from: nat)
    requires Base(p, s0) && Held(p, s0, s, x, from) && s.ctl.pc.ListNodes?
    requires Snapshot(s).Some? && DecideCall(p, s, Snapshot(s).value).Some?
    ensures var t := DecideCall(p, s, Snapshot(s).value).value; Held(p, s0, t, x, from) && t == s.(ctl := t.ctl)
  {
    SnapshotIsSame(p, s0, s, x, from);
    assert s.nodes.Cached() == s0.nodes.now;
  }

  lemma HeldWrite(p: Params, s0: State, s: State, x: string, from: nat)
    requires Base(p, s0) && Held(p, s0, s, x, from) && s.ctl.pc.WriteStatus?
    requires Snapshot(s).Some? && DecideCall(p, s, Snapshot(s).value).Some?
    ensures var t := DecideCall(p, s, Snapshot(s).value).value; Held(p, s0, t, x, from) && SameFlight(s, t)
  {
    SnapshotIsSame(p, s0, s, x, from);
    assert GoodVersion(s0.profile.now, s.profile.At(s.ctl.pc.at));
    var t := DecideCall(p, s, Snapshot(s).value).value;
    if t.profile != s.profile {
      FlightSame(s, t);
      HeldPush(p, s0, s, t, t.profile.now.value, x, from);
    }
  }

  lemma HeldCall(p: Params, s0: State, s: State, x: string, from: nat)
    requires Base(p, s0) && Held(p, s0, s, x, from) && CallNext(p, s).Some?
    ensures Held(p, s0, CallNext(p, s).value, x, from) && SameFlight(s, CallNext(p, s).value)
  {
    SnapshotIsSame(p, s0, s, x, from);
    if s.ctl.pc.ListNodes? {
      HeldList(p, s0, s, x, from);
    } else if s.ctl.pc.WriteStatus? {
      HeldWrite(p, s0, s, x, from);
    } else {
      HeldPut(p, s0, s, x, from);
    }
  }

  lemma HeldSee(p: Params, s0: State, s: State, v: See, x: string, from: nat)
    requires Base(p, s0) && Held(p, s0, s, x, from) && SeeEnabled(s, v) && from <= |s0.profile.past| + 1
    ensures Held(p, s0, SeeNext(s, v), x, from) && SameFlight(s, SeeNext(s, v))
  {
    var t := SeeNext(s, v);
    assert v.SeeProfile?;
    FlightSame(s, t);
    assert forall k: nat :: t.profile.At(k) == s.profile.At(k);
  }

  lemma HeldStart(p: Params, s0: State, s: State, x: string, from: nat)
    requires Base(p, s0) && Held(p, s0, s, x, from) && s.ctl.pc.Idle? && s.ctl.queued
    ensures Held(p, s0, StartNext(s), x, from) && SameFlight(s, StartNext(s))
  {
    assert GoodVersion(s0.profile.now, s.profile.At(s.profile.seen));
    HeldControl(p, s0, s, StartNext(s), x, from);
  }

  lemma HeldControl(p: Params, s0: State, s: State, t: State, x: string, from: nat)
    requires Base(p, s0) && Held(p, s0, s, x, from) && t == s.(ctl := t.ctl)
    requires t.ctl.queued ==> s.profile.seen >= from
    requires t.ctl.pc.Idle? || (t.ctl.pc == s.ctl.pc) || (t.ctl.pc == PutCm(s.profile.seen) && s.profile.seen >= from)
    ensures Held(p, s0, t, x, from)
  {
  }

  /** A step that has nothing to do with reports. */
  lemma HeldStep(p: Params, s0: State, s: State, step: Step, x: string, from: nat)
    requires Base(p, s0) && Held(p, s0, s, x, from) && Enabled(p, s, step) && OwnOrQueue(p, s, step)
    requires !step.Work? && !step.DealStep? && from <= |s0.profile.past| + 1
    requires step.EnvStep? ==> from <= |s0.profile.past|
    ensures Held(p, s0, Next(p, s, step), x, from) && SameFlight(s, Next(p, s, step))
  {
    match step
    case EnvStep(e) => HeldControl(p, s0, s, EnvNext(p, s, e), x, from);
    case SeeStep(v) => HeldSee(p, s0, s, v, x, from);
    case Start => HeldStart(p, s0, s, x, from);
    case Call => HeldCall(p, s0, s, x, from);
    case Fail => HeldControl(p, s0, s, FailNext(s), x, from);
  }

  lemma HeldWork(p: Params, s0: State, s: State, j: Job, x: string, from: nat)
    requires Base(p, s0) && Held(p, s0, s, x, from) && Enabled(p, s, Work(j))
    ensures Held(p, s0, Next(p, s, Work(j)), x, from)
  {
    FlightKeeps(p, s, Work(j));
  }

  predicate Pushes(s: State, d: Deal)
    requires DealEnabled(s, d)
  {
    d.Commit? && s.rep.handlers[d.run].at == |s.profile.past|
  }

  lemma HeldDeal(p: Params, s0: State, s: State, d: Deal, x: string, from: nat)
    requires Base(p, s0) && Held(p, s0, s, x, from) && DealEnabled(s, d) && !Pushes(s, d)
    ensures Held(p, s0, DealNext(p, s, d), x, from)
  {
    FlightKeeps(p, s, DealStep(d));
  }

  /** A commit leaves the node open, unless it is that node's success at the hash. */
  lemma HeldCommit(p: Params, s0: State, s: State, r: nat, x: string, from: nat)
    requires Base(p, s0) && Held(p, s0, s, x, from) && DealEnabled(s, Commit(r)) && Pushes(s, Commit(r))
    requires |s.profile.past| >= from || s.rep.runs[r].report.node == x
    requires !IsSuccess(s, r, x, Goal(p, s0).0)
    ensures Held(p, s0, DealNext(p, s, Commit(r)), x, from)
  {
    var t, report := DealNext(p, s, Commit(r)), s.rep.runs[r].report;
    FlightKeeps(p, s, DealStep(Commit(r)));
    assert GoodVersion(s0.profile.now, s.profile.At(|s.profile.past|));
    var nodes := s.profile.At(|s.profile.past|).value.status.book.nodes;
    UpsertNames(nodes, report);
    UpsertApplied(nodes, report, x, Goal(p, s0).0);
    HeldPush(p, s0, s, t, t.profile.now.value, x, from);
  }

  // ---------- What is lost stays lost ----------

  /** The node stays open, and nothing can be committed for it. */
  ghost predicate Lost(p: Params, s0: State, s: State, x: string, from: nat) {
    Held(p, s0, s, x, from) && !Supply(s, x, Goal(p, s0).0)
  }

  /** Two open nodes, each of which depends on being the next change. */
  ghost predicate Rivals(p: Params, s0: State, s: State, m: string, n: string) {
    && m != n && Held(p, s0, s, m, |s0.profile.past|) && Held(p, s0, s, n, |s0.profile.past|)
    && !LastingSupply(s, m, Goal(p, s0).0) && !LastingSupply(s, n, Goal(p, s0).0)
  }

  lemma LostDeal(p: Params, s0: State, s: State, d: Deal, x: string, from: nat)
    requires Base(p, s0) && Lost(p, s0, s, x, from) && DealEnabled(s, d) && !d.Crash? && |s.profile.past| >= from
    ensures Lost(p, s0, DealNext(p, s, d), x, from)
  {
    var t := DealNext(p, s, d);
    if Pushes(s, d) {
      assert Available(s, d.run);
      HeldCommit(p, s0, s, d.run, x, from);
    } else {
      HeldDeal(p, s0, s, d, x, from);
    }
    SpentSame(s, t, x);
    if id: nat :| Available(t, id) && IsSuccess(t, id, x, Goal(p, s0).0) {
      DealAddsNothing(p, s, d, id);
    }
  }

  lemma LostWork(p: Params, s0: State, s: State, j: Job, x: string, from: nat)
    requires Base(p, s0) && Lost(p, s0, s, x, from) && Enabled(p, s, Work(j)) && Own(p, s, Work(j))
    ensures Lost(p, s0, Next(p, s, Work(j)), x, from)
  {
    HeldWork(p, s0, s, j, x, from);
    WorkAddsNothing(p, s, j, x);
  }

  lemma LostKeeps(p: Params, s0: State, s: State, step: Step, x: string, from: nat)
    requires Base(p, s0) && Lost(p, s0, s, x, from) && Enabled(p, s, step) && OwnOrQueue(p, s, step)
    requires |s.profile.past| >= from && from <= |s0.profile.past| + 1
    requires step.EnvStep? ==> from <= |s0.profile.past|
    ensures Lost(p, s0, Next(p, s, step), x, from)
  {
    match step
    case Work(j) => LostWork(p, s0, s, j, x, from);
    case DealStep(d) => LostDeal(p, s0, s, d, x, from);
    case _ =>
      HeldStep(p, s0, s, step, x, from);
      FlightOnlyShrinks(s, Next(p, s, step), x, Goal(p, s0).0);
  }

  /** After a rival's success, the other one is lost. */
  lemma RivalLoses(p: Params, s0: State, s: State, r: nat, n: string)
    requires Base(p, s0) && Held(p, s0, s, n, |s0.profile.past|) && !LastingSupply(s, n, Goal(p, s0).0)
    requires DealEnabled(s, Commit(r)) && Pushes(s, Commit(r)) && !IsSuccess(s, r, n, Goal(p, s0).0)
    ensures Lost(p, s0, DealNext(p, s, Commit(r)), n, |s0.profile.past|)
  {
    var t := DealNext(p, s, Commit(r));
    HeldCommit(p, s0, s, r, n, |s0.profile.past|);
    SpentSame(s, t, n);
    if id: nat :| Available(t, id) && IsSuccess(t, id, n, Goal(p, s0).0) {
      PushEndsChances(p, s, t, id);
      DealAddsNothing(p, s, Commit(r), id);
    }
  }

  lemma RivalDeal(p: Params, s0: State, s: State, d: Deal, n: string)
    requires Base(p, s0) && Held(p, s0, s, n, |s0.profile.past|) && !LastingSupply(s, n, Goal(p, s0).0)
    requires DealEnabled(s, d) && !d.Crash? && !Pushes(s, d)
    ensures Held(p, s0, DealNext(p, s, d), n, |s0.profile.past|) && !LastingSupply(DealNext(p, s, d), n, Goal(p, s0).0)
  {
    var t := DealNext(p, s, d);
    HeldDeal(p, s0, s, d, n, |s0.profile.past|);
    SpentSame(s, t, n);
    if id: nat :| Lasting(t, id) && IsSuccess(t, id, n, Goal(p, s0).0) {
      DealAddsNothing(p, s, d, id);
    }
  }

  lemma RivalStep(p: Params, s0: State, s: State, step: Step, n: string)
    requires Base(p, s0) && Held(p, s0, s, n, |s0.profile.past|) && !LastingSupply(s, n, Goal(p, s0).0)
    requires Enabled(p, s, step) && OwnOrQueue(p, s, step) && !step.DealStep?
    ensures Held(p, s0, Next(p, s, step), n, |s0.profile.past|) && !LastingSupply(Next(p, s, step), n, Goal(p, s0).0)
  {
    var t := Next(p, s, step);
    if step.Work? {
      HeldWork(p, s0, s, step.j, n, |s0.profile.past|);
      WorkAddsNothing(p, s, step.j, n);
      if id: nat :| Lasting(t, id) && IsSuccess(t, id, n, Goal(p, s0).0) {
        assert Available(t, id);
        assert Lasting(s, id);
      }
    } else {
      HeldStep(p, s0, s, step, n, |s0.profile.past|);
      FlightOnlyShrinks(s, t, n, Goal(p, s0).0);
    }
  }

  lemma RivalsKeep(p: Params, s0: State, s: State, step: Step, m: string, n: string)
    requires Base(p, s0) && Rivals(p, s0, s, m, n) && Enabled(p, s, step) && OwnOrQueue(p, s, step)
    ensures var t := Next(p, s, step);
            Rivals(p, s0, t, m, n) || Lost(p, s0, t, m, |s0.profile.past|) || Lost(p, s0, t, n, |s0.profile.past|)
  {
    if !step.DealStep? {
      RivalStep(p, s0, s, step, m);
      RivalStep(p, s0, s, step, n);
    } else if !Pushes(s, step.d) {
      RivalDeal(p, s0, s, step.d, m);
      RivalDeal(p, s0, s, step.d, n);
    } else if IsSuccess(s, step.d.run, m, Goal(p, s0).0) {
      RivalLoses(p, s0, s, step.d.run, n);
    } else {
      RivalLoses(p, s0, s, step.d.run, m);
    }
  }

  /** Some node is lost, or two are rivals. */
  ghost predicate Hopeless(p: Params, s0: State, s: State) {
    (exists x :: Lost(p, s0, s, x, |s0.profile.past|)) || (exists m, n :: Rivals(p, s0, s, m, n))
  }

  lemma HopelessKeeps(p: Params, s0: State, s: State, step: Step)
    requires Base(p, s0) && Hopeless(p, s0, s) && Enabled(p, s, step) && OwnOrQueue(p, s, step)
    ensures Hopeless(p, s0, Next(p, s, step))
  {
    if x :| Lost(p, s0, s, x, |s0.profile.past|) {
      LostKeeps(p, s0, s, step, x, |s0.profile.past|);
    } else {
      var m, n :| Rivals(p, s0, s, m, n);
      RivalsKeep(p, s0, s, step, m, n);
    }
  }

  lemma HopelessFromStart(p: Params, s: State)
    requires Base(p, s) && Open(p, s) != {} && !Supplied(p, s)
    ensures Hopeless(p, s, s)
  {
    var hash := Goal(p, s).0;
    var v0 := |s.profile.past|;
    forall x | x in Open(p, s) ensures Held(p, s, s, x, v0) {
      assert forall v: nat :: v >= v0 ==> s.profile.At(v) == s.profile.now;
    }
    if x :| x in Open(p, s) && !Supply(s, x, hash) {
      assert Lost(p, s, s, x, v0);
    } else {
      var m, n :| m in Open(p, s) && n in Open(p, s) && !LastingSupply(s, m, hash) && !LastingSupply(s, n, hash) && m != n;
      assert Rivals(p, s, s, m, n);
    }
  }

  // ---------- Nothing wakes the reconciler ----------

  /** Nothing is open, nothing can wake the reconciler, and nothing but reports has moved. */
  ghost predicate Calm(p: Params, s0: State, s: State) {
    && s == s0.(rep := s.rep) && FlightInv(s)
    && s.profile.now.Some? && Open(p, s) == {} && !CanBeWoken(p, s)
  }

  ghost predicate LostSince(p: Params, s0: State, s: State, x: string) {
    Lost(p, s0, s, x, |s0.profile.past| + 1)
  }

  /** What a bad commit leaves: some node is open from the new version on, and lost. */
  ghost predicate Undone(p: Params, s0: State, s: State) {
    |s.profile.past| > |s0.profile.past| && exists x :: LostSince(p, s0, s, x)
  }

  lemma NotWoken(p: Params, s: State, id: nat)
    requires s.profile.now.Some? && !CanBeWoken(p, s) && Available(s, id)
    ensures !KeepsComplete(s.rep.runs[id].report, Goal(p, s).1, Goal(p, s).0)
  {
  }

  lemma CalmWork(p: Params, s0: State, s: State, j: Job)
    requires Base(p, s0) && Calm(p, s0, s) && Enabled(p, s, Work(j)) && Own(p, s, Work(j))
    ensures Calm(p, s0, Next(p, s, Work(j)))
  {
    var t := Next(p, s, Work(j));
    FlightKeeps(p, s, Work(j));
    forall n ensures !CanStart(t, n) {
      WorkAddsNothing(p, s, j, n);
    }
    forall id: nat | Available(t, id) ensures !KeepsComplete(t.rep.runs[id].report, Goal(p, t).1, Goal(p, t).0) {
      WorkAddsNothing(p, s, j, t.rep.runs[id].report.node);
      assert Available(s, id);
    }
  }

  lemma CalmDeal(p: Params, s0: State, s: State, d: Deal)
    requires Base(p, s0) && Calm(p, s0, s) && DealEnabled(s, d) && !d.Crash? && !Pushes(s, d)
    ensures Calm(p, s0, DealNext(p, s, d))
  {
    var t := DealNext(p, s, d);
    FlightKeeps(p, s, DealStep(d));
    DealAddsNothing(p, s, d, 0);
    forall n ensures !CanStart(t, n) {
      assert !CanStart(s, n);
      SpentSame(s, t, n);
    }
    forall id: nat | Available(t, id) ensures !KeepsComplete(t.rep.runs[id].report, Goal(p, t).1, Goal(p, t).0) {
      DealAddsNothing(p, s, d, id);
    }
  }

  lemma CalmIsHeld(p: Params, s0: State, s: State, x: string)
    requires Base(p, s0) && Calm(p, s0, s) && x in Goal(p, s0).1
    ensures Frame(p, s0, s)
  {
    assert forall v: nat :: v >= |s0.profile.past| ==> s.profile.At(v) == s0.profile.now;
  }

  /** The version that such a commit adds has its node open. */
  lemma CalmPush(p: Params, s0: State, s: State, r: nat)
    requires Base(p, s0) && Calm(p, s0, s) && DealEnabled(s, Commit(r)) && Pushes(s, Commit(r))
    requires s.rep.runs[r].report.node in Goal(p, s0).1
    requires !IsSuccess(s, r, s.rep.runs[r].report.node, Goal(p, s0).0)
    ensures Held(p, s0, DealNext(p, s, Commit(r)), s.rep.runs[r].report.node, |s0.profile.past| + 1)
  {
    var t, report := DealNext(p, s, Commit(r)), s.rep.runs[r].report;
    CalmIsHeld(p, s0, s, report.node);
    FlightKeeps(p, s, DealStep(Commit(r)));
    var nodes := s.profile.now.value.status.book.nodes;
    UpsertNames(nodes, report);
    UpsertApplied(nodes, report, report.node, Goal(p, s0).0);
    forall v: nat ensures t.profile.At(v) == if v <= |s.profile.past| then s.profile.At(v) else t.profile.now {}
  }

  /** The only commits that are possible open their node again. */
  lemma CalmCommit(p: Params, s0: State, s: State, r: nat)
    requires Base(p, s0) && Calm(p, s0, s) && DealEnabled(s, Commit(r)) && Pushes(s, Commit(r))
    ensures Undone(p, s0, DealNext(p, s, Commit(r)))
  {
    var t, x, hash := DealNext(p, s, Commit(r)), s.rep.runs[r].report.node, Goal(p, s0).0;
    NotWoken(p, s, r);
    CalmPush(p, s0, s, r);
    DealAddsNothing(p, s, Commit(r), 0);
    SpentSame(s, t, x);
    assert !CanStart(s, x) && !CanStart(t, x);
    if id: nat :| Available(t, id) && IsSuccess(t, id, x, hash) {
      DealAddsNothing(p, s, Commit(r), id);
      NotWoken(p, s, id);
    }
    assert LostSince(p, s0, t, x);
  }

  ghost predicate Asleep(p: Params, s0: State, s: State) {
    Calm(p, s0, s) || Undone(p, s0, s)
  }

  lemma AsleepKeeps(p: Params, s0: State, s: State, step: Step)
    requires Base(p, s0) && Asleep(p, s0, s) && Enabled(p, s, step) && Own(p, s, step)
    ensures Asleep(p, s0, Next(p, s, step))
  {
    if Undone(p, s0, s) {
      var x :| LostSince(p, s0, s, x);
      LostKeeps(p, s0, s, step, x, |s0.profile.past| + 1);
      StepGrows(p, s, step);
      assert LostSince(p, s0, Next(p, s, step), x);
    } else if step.Work? {
      CalmWork(p, s0, s, step.j);
    } else {
      OnlyWorkersWake(p, s, step);
      if Pushes(s, step.d) {
        CalmCommit(p, s0, s, step.d.run);
      } else {
        CalmDeal(p, s0, s, step.d);
      }
    }
  }
}
