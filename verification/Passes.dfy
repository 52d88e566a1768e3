/** The split pass of the protocol against the atomic one: a pass that nothing disturbs does
    exactly what the reconcile code does, whichever of its calls fail. */
module Passes {
  import opened Text
  import opened Ledger
  import opened Selection
  import opened Api
  import opened Rollout
  import opened Lifecycle
  import Reconcile

  // ---------- A pass on its own ----------

  /** How many calls a pass may still make. */
  function Rank(pc: Pc): nat {
    match pc
    case Idle => 0
    case AddFinalizer(_) => 1
    case DropDs(_) => 4
    case DropCj(_) => 3
    case DropCm(_) => 2
    case DropFinalizer(_) => 1
    case PutCm(_) => 5
    case PutCj(_) => 4
    case ListNodes(_) => 3
    case TearDown(_, _) => 2
    case RollOut(_, _) => 2
    case WriteStatus(_, _, _) => 1
  }

  lemma CallLowersRank(p: Params, s: State)
    requires CallNext(p, s).Some?
    ensures Rank(CallNext(p, s).value.ctl.pc) < Rank(s.ctl.pc)
  {
    var o := Snapshot(s).value;
    if Cleaning(s.ctl.pc) {
      assert CallNext(p, s) == CleanCall(p, s);
    } else if s.ctl.pc.ListNodes? || s.ctl.pc.TearDown? || s.ctl.pc.WriteStatus? {
      DecideLowersRank(p, s, o);
    } else {
      PutLowersRank(p, s, o);
    }
  }

  lemma DecideLowersRank(p: Params, s: State, o: Obj)
    requires DecideCall(p, s, o).Some?
    ensures Rank(DecideCall(p, s, o).value.ctl.pc) < Rank(s.ctl.pc)
  {
  }

  lemma PutLowersRank(p: Params, s: State, o: Obj)
    requires PutCall(p, s, o).Some?
    ensures Rank(PutCall(p, s, o).value.ctl.pc) < Rank(s.ctl.pc)
  {
  }

  /** The API call that the running pass makes next, if it makes one. */
  function CallOf(p: Params, s: State): Option<Reconcile.ApiCall> {
    match (Snapshot(s), s.ctl.pc)
    case (Some(_), AddFinalizer(_)) => Some(Reconcile.UpdateProfile)
    case (Some(_), DropDs(_)) => Some(Reconcile.DeleteDaemonSet)
    case (Some(_), DropCj(_)) => Some(Reconcile.DeleteCronJob)
    case (Some(_), DropCm(_)) => Some(Reconcile.DeleteConfigMap)
    case (Some(_), DropFinalizer(_)) => Some(Reconcile.UpdateProfile)
    case (Some(_), PutCm(_)) => Some(Reconcile.PutConfigMap)
    case (Some(o), PutCj(_)) => Some(if WantsCronJob(o.spec) then Reconcile.PutCronJob else Reconcile.DeleteCronJob)
    case (Some(_), ListNodes(_)) => Some(Reconcile.ListNodes)
    case (Some(_), TearDown(_, _)) => Some(Reconcile.DeleteDaemonSet)
    case (Some(_), RollOut(_, _)) => Some(Reconcile.PutDaemonSet)
    case (Some(o), WriteStatus(_, selected, complete)) =>
      if Decided(o, p.hash(Render(o.spec)), selected, complete) == o.status then None else Some(Reconcile.UpdateStatus)
    case _ => None
  }

  /** The next call is one of those that fail, or cannot succeed. */
  predicate Fails(p: Params, s: State, fails: set<Reconcile.ApiCall>) {
    (CallOf(p, s).Some? && CallOf(p, s).value in fails) || CallNext(p, s).None?
  }

  /** The running pass makes its next call, or ends with an error if that fails. */
  function PassStep(p: Params, s: State, fails: set<Reconcile.ApiCall>): (t: State)
    requires !s.ctl.pc.Idle?
    ensures Rank(t.ctl.pc) < Rank(s.ctl.pc)
  {
    if Fails(p, s, fails) then FailNext(s)
    else
      CallLowersRank(p, s);
      CallNext(p, s).value
  }

  /** The running pass to its end. */
  function RunPass(p: Params, s: State, fails: set<Reconcile.ApiCall>): (t: State)
    ensures t.ctl.pc.Idle?
    decreases Rank(s.ctl.pc)
  {
    if s.ctl.pc.Idle? then s else RunPass(p, PassStep(p, s, fails), fails)
  }

  /** A step of the running pass: a successful call, or the failure of one that fails. */
  ghost predicate PassMove(p: Params, s: State, t: State, fails: set<Reconcile.ApiCall>) {
    && !s.ctl.pc.Idle?
    && if Fails(p, s, fails) then t == FailNext(s) else Some(t) == CallNext(p, s)
  }

  ghost predicate PassMoveAt(p: Params, tr: seq<State>, i: nat, fails: set<Reconcile.ApiCall>)
    requires i + 1 < |tr|
  {
    PassMove(p, tr[i], tr[i + 1], fails)
  }

  /** A whole pass: its start, its moves and nothing else, up to its end. If the profile cannot be
      read, the key just goes back to the queue. */
  ghost predicate IsPass(p: Params, tr: seq<State>, fails: set<Reconcile.ApiCall>) {
    && |tr| >= 2
    && tr[0].ctl.pc.Idle? && tr[0].ctl.queued
    && if Reconcile.GetProfile in fails then |tr| == 2 && tr[1] == tr[0]
       else
         && tr[1] == StartNext(tr[0])
         && (forall i: nat :: 1 <= i < |tr| - 1 ==> PassMoveAt(p, tr, i, fails))
         && tr[|tr| - 1].ctl.pc.Idle?
  }

  lemma {:induction false} PassIsRun(p: Params, tr: seq<State>, i: nat, fails: set<Reconcile.ApiCall>)
    requires IsPass(p, tr, fails) && Reconcile.GetProfile !in fails && 1 <= i < |tr|
    ensures RunPass(p, tr[i], fails) == tr[|tr| - 1]
    decreases |tr| - i
  {
    if i < |tr| - 1 {
      assert PassMoveAt(p, tr, i, fails);
      PassIsRun(p, tr, i + 1, fails);
    }
  }

  /** The states of the running pass. */
  function PassTrace(p: Params, s: State, fails: set<Reconcile.ApiCall>): (tr: seq<State>)
    ensures tr != [] && tr[0] == s && tr[|tr| - 1].ctl.pc.Idle?
    decreases Rank(s.ctl.pc)
  {
    if s.ctl.pc.Idle? then [s] else [s] + PassTrace(p, PassStep(p, s, fails), fails)
  }

  lemma {:induction false} PassTraceMoves(p: Params, s: State, i: nat, fails: set<Reconcile.ApiCall>)
    requires i + 1 < |PassTrace(p, s, fails)|
    ensures PassMoveAt(p, PassTrace(p, s, fails), i, fails)
    decreases i
  {
    if i > 0 {
      var rest := PassTrace(p, PassStep(p, s, fails), fails);
      PassTraceMoves(p, PassStep(p, s, fails), i - 1, fails);
      assert PassMove(p, rest[i - 1], rest[i], fails);
    }
  }

  /** Every pass that is queued can be made, and ends, whichever calls fail. */
  lemma PassEnds(p: Params, s: State, fails: set<Reconcile.ApiCall>)
    requires s.ctl.pc.Idle? && s.ctl.queued
    ensures exists tr :: IsPass(p, tr, fails) && tr[0] == s
  {
    if Reconcile.GetProfile in fails {
      assert IsPass(p, [s, s], fails);
    } else {
      var rest := PassTrace(p, StartNext(s), fails);
      var tr := [s] + rest;
      forall i: nat | 1 <= i < |tr| - 1 ensures PassMoveAt(p, tr, i, fails) {
        PassTraceMoves(p, StartNext(s), i - 1, fails);
        assert PassMove(p, rest[i - 1], rest[i], fails);
      }
      assert IsPass(p, tr, fails) && tr[0] == s;
    }
  }

  // ---------- The outcome of an undisturbed pass ----------

  function WorldOf(s: State): Reconcile.World {
    Reconcile.World(s.profile.now, s.cm.now, s.ds.now, s.cj.now, s.nodes.now)
  }

  predicate Caught(s: State) {
    s.profile.Fresh() && s.nodes.Fresh() && s.cm.Fresh() && s.ds.Fresh() && s.cj.Fresh()
  }

  /** A cell that got a new version got one, with a different value. */
  ghost predicate OnlyReal<T>(c: Cell<T>, d: Cell<T>) {
    d == c || (d == c.Push(d.now) && d.now != c.now)
  }

  /** The pass ended with the world the reconcile code leaves, wrote only what changed, and
      queued the profile again exactly if the code returned an error. */
  ghost predicate PassResult(p: Params, s: State, t: State, fails: set<Reconcile.ApiCall>) {
    && WorldOf(t) == Reconcile.Passed(p, WorldOf(s), fails).0
    && t.ctl.queued == !Reconcile.Passed(p, WorldOf(s), fails).1
    && t.ctl.pc.Idle?
    && t.rep == s.rep && t.uids == s.uids && t.nodes == s.nodes && t.tampered == s.tampered
    && OnlyReal(s.profile, t.profile) && OnlyReal(s.cm, t.cm) && OnlyReal(s.ds, t.ds) && OnlyReal(s.cj, t.cj)
  }

  lemma FreshPut<T>(c: Cell<Option<Owned<T>>>, want: Owned<T>)
    requires c.Fresh() && Reconcile.MayPut(c.now, want.owner)
    ensures Put(c, want).Some? && Put(c, want).value.now == Some(want) && OnlyReal(c, Put(c, want).value)
  {
  }

  /** The caches a pass needs to be current, and nobody else owns what it writes. */
  predicate Undisturbed(s: State, o: Obj) {
    && s.profile.now == Some(o) && !s.ctl.pc.Idle? && s.ctl.pc.at == |s.profile.past| && !s.ctl.queued
    && Reconcile.MayPut(s.cm.now, o.uid) && Reconcile.MayPut(s.ds.now, o.uid) && Reconcile.MayPut(s.cj.now, o.uid)
  }

  /** A pass whose next call fails ends there. */
  lemma PassStops(p: Params, s: State, fails: set<Reconcile.ApiCall>)
    requires !s.ctl.pc.Idle? && Fails(p, s, fails)
    ensures RunPass(p, s, fails) == FailNext(s)
  {
    assert RunPass(p, s, fails) == RunPass(p, FailNext(s), fails);
  }

  lemma PassGoesOn(p: Params, s: State, t: State, fails: set<Reconcile.ApiCall>)
    requires !s.ctl.pc.Idle? && !Fails(p, s, fails) && Some(t) == CallNext(p, s)
    ensures RunPass(p, s, fails) == RunPass(p, t, fails)
  {
  }

  lemma PassPutCm(p: Params, s: State, o: Obj) returns (t: State)
    requires Undisturbed(s, o) && s.ctl.pc.PutCm? && s.cm.Fresh()
    ensures Some(t) == CallNext(p, s) && OnlyReal(s.cm, t.cm) && t.cm.now == Some(Owned(o.uid, Render(o.spec)))
    ensures var at := s.ctl.pc.at;
            t == s.(cm := t.cm, ctl := s.ctl.(pc := if p.kind.SysctlProfile? then PutCj(at) else ListNodes(at)))
  {
    FreshPut(s.cm, Owned(o.uid, Render(o.spec)));
    t := CallNext(p, s).value;
  }

  lemma PassPutCj(p: Params, s: State, o: Obj) returns (t: State)
    requires Undisturbed(s, o) && s.ctl.pc.PutCj? && s.cj.Fresh()
    ensures Some(t) == CallNext(p, s) && OnlyReal(s.cj, t.cj) && t.cj.now == Reconcile.CronJobOf(p, o)
    ensures t == s.(cj := t.cj, ctl := s.ctl.(pc := ListNodes(s.ctl.pc.at)))
  {
    if WantsCronJob(o.spec) {
      FreshPut(s.cj, Owned(o.uid, CronJob(o.spec.driftCheck, p.hash(Render(o.spec)))));
    }
    t := CallNext(p, s).value;
  }

  lemma PassList(p: Params, s: State, o: Obj) returns (t: State)
    requires Undisturbed(s, o) && s.ctl.pc.ListNodes? && s.nodes.Fresh() && Valid(o.spec.selector)
    ensures Some(t) == CallNext(p, s) && t == s.(ctl := s.ctl.(pc := t.ctl.pc, gone := false))
    ensures var selected := Selected(o.spec.selector, s.nodes.now);
            t.ctl.pc == if Complete(o.status.book.nodes, selected, p.hash(Render(o.spec)))
                        then TearDown(s.ctl.pc.at, selected) else RollOut(s.ctl.pc.at, selected)
  {
    t := CallNext(p, s).value;
  }

  lemma PassSwitch(p: Params, s: State, o: Obj) returns (t: State)
    requires Undisturbed(s, o) && (s.ctl.pc.TearDown? || s.ctl.pc.RollOut?) && s.ds.Fresh()
    ensures Some(t) == CallNext(p, s) && OnlyReal(s.ds, t.ds)
    ensures var complete := s.ctl.pc.TearDown?;
            && t.ds.now == (if complete then None
                            else Some(Owned(o.uid, Template(p.hash(Render(o.spec)), o.spec.selector.matchLabels))))
            && t == s.(ds := t.ds, ctl := t.ctl)
            && t.ctl.pc == WriteStatus(s.ctl.pc.at, s.ctl.pc.selected, complete) && t.ctl.queued == s.ctl.queued
  {
    if s.ctl.pc.RollOut? {
      FreshPut(s.ds, Owned(o.uid, Template(p.hash(Render(o.spec)), o.spec.selector.matchLabels)));
    }
    t := CallNext(p, s).value;
  }

  /** The last call, if the status changed. */
  lemma PassWrite(p: Params, s: State, o: Obj, fails: set<Reconcile.ApiCall>) returns (t: State)
    requires Undisturbed(s, o) && s.ctl.pc.WriteStatus?
    ensures t == RunPass(p, s, fails) && OnlyReal(s.profile, t.profile)
    ensures t == s.(profile := t.profile, ctl := t.ctl) && t.ctl.pc.Idle?
    ensures var status := Decided(o, p.hash(Render(o.spec)), s.ctl.pc.selected, s.ctl.pc.complete);
            if status != o.status && Reconcile.UpdateStatus in fails then t.profile == s.profile && t.ctl.queued
            else t.profile.now == Some(o.(status := status)) && !t.ctl.queued
  {
    t := RunPass(p, s, fails);
    if Fails(p, s, fails) {
      PassStops(p, s, fails);
    } else {
      PassGoesOn(p, s, CallNext(p, s).value, fails);
    }
  }

  /** Rolling out or tearing down, then the status. */
  lemma PassChosen(p: Params, s: State, o: Obj, fails: set<Reconcile.ApiCall>) returns (t: State)
    requires Undisturbed(s, o) && (s.ctl.pc.TearDown? || s.ctl.pc.RollOut?) && s.ds.Fresh()
    requires s.ctl.pc.selected == Selected(o.spec.selector, s.nodes.now)
    requires s.ctl.pc.TearDown? <==> Complete(o.status.book.nodes, s.ctl.pc.selected, p.hash(Render(o.spec)))
    ensures t == RunPass(p, s, fails) && t.ctl.pc.Idle?
    ensures (WorldOf(t), !t.ctl.queued) == Reconcile.Switched(p, WorldOf(s), o, fails)
    ensures t == s.(profile := t.profile, ds := t.ds, ctl := t.ctl)
    ensures OnlyReal(s.profile, t.profile) && OnlyReal(s.ds, t.ds)
  {
    var a := PassSwitch(p, s, o);
    if Fails(p, s, fails) {
      PassStops(p, s, fails);
      t := FailNext(s);
    } else {
      PassGoesOn(p, s, a, fails);
      t := PassWrite(p, a, o, fails);
    }
  }

  lemma PassTail(p: Params, s: State, o: Obj, fails: set<Reconcile.ApiCall>) returns (t: State)
    requires Undisturbed(s, o) && s.ctl.pc.ListNodes? && s.ds.Fresh() && s.nodes.Fresh()
    ensures t == RunPass(p, s, fails) && t.ctl.pc.Idle?
    ensures (WorldOf(t), !t.ctl.queued) ==
            if Reconcile.ListNodes in fails || !Valid(o.spec.selector) then (WorldOf(s), false)
            else Reconcile.Switched(p, WorldOf(s), o, fails)
    ensures t == s.(profile := t.profile, ds := t.ds, ctl := t.ctl)
    ensures OnlyReal(s.profile, t.profile) && OnlyReal(s.ds, t.ds)
  {
    if Fails(p, s, fails) {
      PassStops(p, s, fails);
      t := FailNext(s);
    } else {
      var a := PassList(p, s, o);
      PassGoesOn(p, s, a, fails);
      t := PassChosen(p, a, o, fails);
    }
  }

  /** From the CronJob on. */
  lemma PassRest(p: Params, s: State, o: Obj, fails: set<Reconcile.ApiCall>) returns (t: State)
    requires Undisturbed(s, o) && s.ctl.pc.PutCj? && s.ds.Fresh() && s.cj.Fresh() && s.nodes.Fresh()
    requires p.kind.SysctlProfile?
    ensures t == RunPass(p, s, fails) && t.ctl.pc.Idle?
    ensures (WorldOf(t), !t.ctl.queued) == FromCronJob(p, WorldOf(s), o, fails)
    ensures t == s.(profile := t.profile, ds := t.ds, cj := t.cj, ctl := t.ctl)
    ensures OnlyReal(s.profile, t.profile) && OnlyReal(s.ds, t.ds) && OnlyReal(s.cj, t.cj)
  {
    var a := PassPutCj(p, s, o);
    if Fails(p, s, fails) {
      PassStops(p, s, fails);
      t := FailNext(s);
    } else {
      PassGoesOn(p, s, a, fails);
      t := PassTail(p, a, o, fails);
    }
  }

  /** What the reconcile code does from the CronJob on. */
  function FromCronJob(p: Params, w: Reconcile.World, o: Obj, fails: set<Reconcile.ApiCall>): (Reconcile.World, bool) {
    if Reconcile.CronJobFails(p, w, o, fails) then (w, false)
    else
      var w1 := if p.kind.SysctlProfile? then w.(cj := Reconcile.CronJobOf(p, o)) else w;
      if Reconcile.ListNodes in fails || !Valid(o.spec.selector) then (w1, false)
      else Reconcile.Switched(p, w1, o, fails)
  }

  lemma PassWork(p: Params, s: State, o: Obj, fails: set<Reconcile.ApiCall>)
    requires Undisturbed(s, o) && s.ctl.pc.PutCm? && !o.deleting && o.finalizer && Reconcile.GetProfile !in fails
    requires s.cm.Fresh() && s.ds.Fresh() && s.cj.Fresh() && s.nodes.Fresh()
    requires KindOf(o.spec) == p.kind
    ensures PassResult(p, s, RunPass(p, s, fails), fails)
  {
    assert Reconcile.Passed(p, WorldOf(s), fails) == Reconcile.Worked(p, WorldOf(s), o, fails);
    var a := PassPutCm(p, s, o);
    if Fails(p, s, fails) {
      PassStops(p, s, fails);
    } else {
      PassGoesOn(p, s, a, fails);
      assert Reconcile.Worked(p, WorldOf(s), o, fails) == FromCronJob(p, WorldOf(a), o, fails);
      if p.kind.SysctlProfile? {
        var t := PassRest(p, a, o, fails);
      } else {
        var t := PassTail(p, a, o, fails);
      }
    }
  }

  /** The end of a cleanup pass: the ConfigMap, then the finalizer. */
  lemma PassCleanTail(p: Params, s: State, fails: set<Reconcile.ApiCall>) returns (t: State)
    requires s.ctl.pc.DropCm? && s.ctl.pc.at == |s.profile.past| && !s.ctl.queued && s.profile.now.Some?
    ensures t == RunPass(p, s, fails) && t.ctl.pc.Idle? && t == s.(profile := t.profile, cm := t.cm, ctl := t.ctl)
    ensures OnlyReal(s.profile, t.profile) && OnlyReal(s.cm, t.cm)
    ensures if Reconcile.DeleteConfigMap in fails then t == FailNext(s)
            else t.cm.now.None? && if Reconcile.UpdateProfile in fails then t.profile == s.profile && t.ctl.queued
                                   else t.profile.now.None? && !t.ctl.queued
  {
    t := RunPass(p, s, fails);
    if Fails(p, s, fails) {
      PassStops(p, s, fails);
    } else {
      var a := CallNext(p, s).value;
      PassGoesOn(p, s, a, fails);
      assert t == PassStep(p, a, fails);
    }
  }

  /** The middle of a cleanup pass, after the DaemonSet. */
  lemma PassCleanRest(p: Params, s: State, a: State, fails: set<Reconcile.ApiCall>)
    requires s.profile.now.Some? && s.ctl.pc.DropDs? && s.ctl.pc.at == |s.profile.past| && !s.ctl.queued
    requires a == s.(ds := Delete(s.ds), ctl := s.ctl.(pc := if p.kind.SysctlProfile? then DropCj(s.ctl.pc.at) else DropCm(s.ctl.pc.at)))
    requires Reconcile.Passed(p, WorldOf(s), fails) == Reconcile.Cleaned(p, WorldOf(s), fails)
    requires Reconcile.DeleteDaemonSet !in fails && RunPass(p, s, fails) == RunPass(p, a, fails)
    ensures PassResult(p, s, RunPass(p, s, fails), fails)
  {
    if p.kind.ScriptProfile? {
      var t := PassCleanTail(p, a, fails);
    } else if Fails(p, a, fails) {
      PassStops(p, a, fails);
    } else {
      var b := CallNext(p, a).value;
      PassGoesOn(p, a, b, fails);
      var t := PassCleanTail(p, b, fails);
    }
  }

  lemma PassClean(p: Params, s: State, fails: set<Reconcile.ApiCall>)
    requires s.ctl.pc.DropDs? && s.ctl.pc.at == |s.profile.past| && !s.ctl.queued && Reconcile.GetProfile !in fails
    requires s.profile.now.Some? && s.profile.now.value.deleting && s.profile.now.value.finalizer
    ensures PassResult(p, s, RunPass(p, s, fails), fails)
  {
    if Fails(p, s, fails) {
      PassStops(p, s, fails);
    } else {
      var a := CallNext(p, s).value;
      PassGoesOn(p, s, a, fails);
      PassCleanRest(p, s, a, fails);
    }
  }

  lemma PassFinalizer(p: Params, s: State, fails: set<Reconcile.ApiCall>)
    requires s.ctl.pc.AddFinalizer? && s.ctl.pc.at == |s.profile.past| && !s.ctl.queued && Reconcile.GetProfile !in fails
    requires s.profile.now.Some? && !s.profile.now.value.deleting && !s.profile.now.value.finalizer
    ensures PassResult(p, s, RunPass(p, s, fails), fails)
  {
    assert RunPass(p, s, fails) == PassStep(p, s, fails);
  }

  lemma FreshPass(p: Params, s: State, fails: set<Reconcile.ApiCall>)
    requires Inv(p, s) && Caught(s) && s.ctl.pc.Idle? && Reconcile.GetProfile !in fails
    ensures PassResult(p, s, RunPass(p, StartNext(s), fails), fails)
  {
    NowIsLast(s);
    var t := StartNext(s);
    if t.ctl.pc.DropDs? {
      PassClean(p, t, fails);
    } else if t.ctl.pc.AddFinalizer? {
      PassFinalizer(p, t, fails);
    } else if t.ctl.pc.PutCm? {
      PassWork(p, t, s.profile.now.value, fails);
    }
  }

  /** Refinement: every pass of the protocol that starts with current caches and that nothing
      disturbs does what the reconcile code does in one go, for any set of failing calls: it makes
      its calls up to the first of these and takes the failure there. */
  lemma UndisturbedPass(p: Params, tr: seq<State>, fails: set<Reconcile.ApiCall>)
    requires IsPass(p, tr, fails) && Inv(p, tr[0]) && Caught(tr[0])
    ensures PassResult(p, tr[0], tr[|tr| - 1], fails)
  {
    if Reconcile.GetProfile !in fails {
      PassIsRun(p, tr, 1, fails);
      FreshPass(p, tr[0], fails);
    }
  }

  // ---------- Optimistic concurrency ----------

  /** A put changes an object only at the version that the cache shows, or creates what is neither there
      nor cached; it writes what is wanted, and never onto what somebody else controls. */
  lemma PutSeesWhatItWrites<T>(c: Cell<Option<Owned<T>>>, want: Owned<T>)
    requires Put(c, want).Some? && Put(c, want).value != c
    ensures Put(c, want).value == c.Push(Some(want)) && c.now != Some(want)
    ensures if c.now.Some? then c.Fresh() && c.now.value.owner == want.owner else c.Cached().None?
  {
    if c.Cached().Some? {
      assert c.Cached() == c.now;
    }
  }

  /** A pass changes the profile only at the version it read. */
  lemma CallWritesCurrent(p: Params, s: State)
    requires CallNext(p, s).Some? && CallNext(p, s).value.profile != s.profile
    ensures s.ctl.pc.at == |s.profile.past| && Snapshot(s) == s.profile.now
  {
    if Cleaning(s.ctl.pc) {
      assert CallNext(p, s) == CleanCall(p, s);
    } else if s.ctl.pc.ListNodes? || s.ctl.pc.TearDown? || s.ctl.pc.WriteStatus? {
      assert CallNext(p, s) == DecideCall(p, s, Snapshot(s).value);
    } else {
      assert CallNext(p, s) == PutCall(p, s, Snapshot(s).value);
    }
  }

  // ---------- The events that a pass causes ----------

  ghost predicate SeeMoveAt(tr: seq<State>, i: nat)
    requires i + 1 < |tr|
  {
    exists v :: SeeEnabled(tr[i], v) && tr[i + 1] == SeeNext(tr[i], v)
  }

  /** Events are delivered, in any order and with any of them skipped, until all caches are current. */
  ghost predicate IsDelivery(tr: seq<State>) {
    tr != [] && Caught(tr[|tr| - 1]) && forall i: nat :: i + 1 < |tr| ==> SeeMoveAt(tr, i)
  }

  /** The profile is queued or will be by an event of its own or of what it owns. */
  predicate WillQueue(s: State) {
    s.ctl.queued || !s.profile.Fresh() || !s.cm.Fresh() || !s.ds.Fresh() || !s.cj.Fresh()
  }

  lemma {:induction false} DeliveryQueues(tr: seq<State>, i: nat)
    requires IsDelivery(tr) && tr[0].nodes.Fresh() && i < |tr|
    ensures WillQueue(tr[i]) <==> WillQueue(tr[0])
    ensures tr[i].nodes == tr[0].nodes && WorldOf(tr[i]) == WorldOf(tr[0]) && tr[i].ctl.pc == tr[0].ctl.pc
  {
    if i > 0 {
      DeliveryQueues(tr, i - 1);
      assert SeeMoveAt(tr, i - 1);
    }
  }

  /** Every pass from current caches that nothing disturbs, whichever of its calls fail, followed by
      the delivery of the events it caused in whatever order: the profile is queued again exactly if
      the pass failed or changed something. */
  lemma EveryRound(p: Params, tr: seq<State>, more: seq<State>, fails: set<Reconcile.ApiCall>)
    requires IsPass(p, tr, fails) && Inv(p, tr[0]) && Caught(tr[0])
    requires IsDelivery(more) && more[0] == tr[|tr| - 1]
    ensures var (after, ok) := Reconcile.Passed(p, WorldOf(tr[0]), fails);
            && WorldOf(more[|more| - 1]) == after
            && (more[|more| - 1].ctl.queued <==> !ok || after != WorldOf(tr[0]))
  {
    UndisturbedPass(p, tr, fails);
    DeliveryQueues(more, |more| - 1);
    PassQueues(p, tr[0], more[0], fails);
  }

  lemma PassQueues(p: Params, s: State, t: State, fails: set<Reconcile.ApiCall>)
    requires Caught(s) && PassResult(p, s, t, fails)
    ensures WillQueue(t) <==> !Reconcile.Passed(p, WorldOf(s), fails).1 || WorldOf(t) != WorldOf(s)
  {
    assert WorldOf(t) != WorldOf(s) <==>
        t.profile != s.profile || t.cm != s.cm || t.ds != s.ds || t.cj != s.cj;
  }
}
