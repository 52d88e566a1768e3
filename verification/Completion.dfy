/** When a rollout can still be completed: exactly, at rest; and always, once a new version of the
    DaemonSet is due. */
module Completion {
  import opened Text
  import opened Selection
  import opened Api
  import opened Rollout
  import opened Quiescence
  import opened Progress
  import opened Supplies
  import opened Shortage

  // ---------- The exact condition ----------

  ghost predicate OwnOrQueueAt(p: Params, tr: seq<State>, i: nat)
    requires i + 1 < |tr|
  {
    exists step :: Enabled(p, tr[i], step) && OwnOrQueue(p, tr[i], step) && tr[i + 1] == Next(p, tr[i], step)
  }

  ghost predicate LeadsQueued(p: Params, tr: seq<State>, s: State, t: State) {
    && tr != [] && tr[0] == s && tr[|tr| - 1] == t
    && forall i: nat :: i + 1 < |tr| ==> OwnOrQueueAt(p, tr, i)
  }

  /** Reached by the system's own steps, the profile being queued from outside at any time. */
  ghost predicate ReachesQueued(p: Params, s: State, t: State) {
    exists tr :: LeadsQueued(p, tr, s, t)
  }

  lemma HopelessStep(p: Params, s0: State, tr: seq<State>, i: nat)
    requires Base(p, s0) && i + 1 < |tr| && OwnOrQueueAt(p, tr, i) && Hopeless(p, s0, tr[i])
    ensures Hopeless(p, s0, tr[i + 1])
  {
    var step :| Enabled(p, tr[i], step) && OwnOrQueue(p, tr[i], step) && tr[i + 1] == Next(p, tr[i], step);
    HopelessKeeps(p, s0, tr[i], step);
  }

  lemma HopelessAlong(p: Params, s0: State, tr: seq<State>)
    requires tr != [] && Base(p, s0) && Hopeless(p, s0, tr[0])
    requires forall i: nat :: i + 1 < |tr| ==> OwnOrQueueAt(p, tr, i)
    ensures Hopeless(p, s0, tr[|tr| - 1])
  {
    for k := 0 to |tr| - 1
      invariant Hopeless(p, s0, tr[k])
    {
      HopelessStep(p, s0, tr, k);
    }
  }

  lemma AsleepStep(p: Params, s0: State, tr: seq<State>, i: nat)
    requires Base(p, s0) && i + 1 < |tr| && OwnStepAt(p, tr, i) && Asleep(p, s0, tr[i])
    ensures Asleep(p, s0, tr[i + 1])
  {
    var step :| Enabled(p, tr[i], step) && Own(p, tr[i], step) && tr[i + 1] == Next(p, tr[i], step);
    AsleepKeeps(p, s0, tr[i], step);
  }

  lemma AsleepAlong(p: Params, s0: State, tr: seq<State>)
    requires tr != [] && Base(p, s0) && Asleep(p, s0, tr[0])
    requires forall i: nat :: i + 1 < |tr| ==> OwnStepAt(p, tr, i)
    ensures Asleep(p, s0, tr[|tr| - 1])
  {
    for k := 0 to |tr| - 1
      invariant Asleep(p, s0, tr[k])
    {
      AsleepStep(p, s0, tr, k);
    }
  }

  lemma HopelessIsStuck(p: Params, s: State, t: State)
    requires Base(p, s) && Hopeless(p, s, s) && ReachesQueued(p, s, t)
    ensures t.ds.now.Some?
  {
    var tr :| LeadsQueued(p, tr, s, t);
    HopelessAlong(p, s, tr);
  }

  lemma AsleepIsStuck(p: Params, s: State, t: State)
    requires Base(p, s) && Asleep(p, s, s) && Reaches(p, s, t)
    ensures t.ds.now.Some?
  {
    var tr :| Leads(p, tr, s, t);
    AsleepAlong(p, s, tr);
    if Undone(p, s, t) {
      var x :| LostSince(p, s, t, x);
    }
  }

  lemma OwnIsQueued(p: Params, s: State, t: State)
    requires Reaches(p, s, t)
    ensures ReachesQueued(p, s, t)
  {
    var tr :| Leads(p, tr, s, t);
    forall i: nat | i + 1 < |tr| ensures OwnOrQueueAt(p, tr, i) {
      assert OwnStepAt(p, tr, i);
      var step :| Enabled(p, tr[i], step) && Own(p, tr[i], step) && tr[i + 1] == Next(p, tr[i], step);
      assert OwnOrQueue(p, tr[i], step);
    }
    assert LeadsQueued(p, tr, s, t);
  }

  /** First queued from outside, then on its own. */
  lemma QueuedThenOwn(p: Params, s: State, t: State)
    requires Reaches(p, EnvNext(p, s, Requeue), t)
    ensures ReachesQueued(p, s, t)
  {
    var u := EnvNext(p, s, Requeue);
    OwnIsQueued(p, u, t);
    var more :| LeadsQueued(p, more, u, t);
    var tr := [s] + more;
    forall i: nat | i + 1 < |tr| ensures OwnOrQueueAt(p, tr, i) {
      if i == 0 {
        assert tr[0] == s && tr[1] == more[0] == u;
        assert Enabled(p, s, EnvStep(Requeue)) && OwnOrQueue(p, s, EnvStep(Requeue)) && u == Next(p, s, EnvStep(Requeue));
      } else {
        assert OwnOrQueueAt(p, more, i - 1);
        assert tr[i] == more[i - 1] && tr[i + 1] == more[i];
      }
    }
    assert LeadsQueued(p, tr, s, t);
  }

  lemma BaseOfRun(p: Params, tr: seq<State>, i: nat)
    requires IsRun(p, tr) && i < |tr| && Quiet(tr[i]) && tr[i].profile.now.Some? && tr[i].ds.now.Some?
    ensures Base(p, tr[i]) && Comes(p, tr[i], tr[i])
  {
    RunIsGood(p, tr, i);
    AtRest(p, tr[i]);
    LedgerIsUnique(p, tr, i);
  }

  /** At rest in any run, with some node selected: the system can complete the rollout on its own if
      and only if the DaemonSet is gone already, or every open node has a pod that has not reported
      or a success on its way (of those that must be the next change, at most one), or, with no
      node open, some report is to come that wakes the reconciler and keeps it so. */
  lemma RestIsExact(p: Params, tr: seq<State>, i: nat)
    requires IsRun(p, tr) && i < |tr| && Quiet(tr[i]) && tr[i].profile.now.Some? && Goal(p, tr[i]).1 != {}
    ensures (exists t :: Reaches(p, tr[i], t) && RolledOut(p, tr[i], t)) <==> tr[i].ds.now.None? || Completable(p, tr[i])
  {
    var s := tr[i];
    RunIsGood(p, tr, i);
    if s.ds.now.None? {
      RestIsRolledOut(p, s, s);
    } else {
      BaseOfRun(p, tr, i);
      if Completable(p, s) {
        var t := FinishRollout(p, s, s);
      } else if t :| Reaches(p, s, t) && RolledOut(p, s, t) {
        if Open(p, s) == {} {
          AsleepIsStuck(p, s, t);
        } else {
          HopelessFromStart(p, s);
          OwnIsQueued(p, s, t);
          HopelessIsStuck(p, s, t);
        }
      }
    }
  }

  /** The same if the profile may be queued from outside whenever and as often as one likes, as the
      DaemonSet's own status events do: that replaces the report that wakes the reconciler, but no
      reconcile replaces a report that is lost. */
  lemma QueueingIsExact(p: Params, tr: seq<State>, i: nat)
    requires IsRun(p, tr) && i < |tr| && Quiet(tr[i]) && tr[i].profile.now.Some? && Goal(p, tr[i]).1 != {}
    ensures (exists t :: ReachesQueued(p, tr[i], t) && RolledOut(p, tr[i], t)) <==>
            tr[i].ds.now.None? || Open(p, tr[i]) == {} || Supplied(p, tr[i])
  {
    var s := tr[i];
    RunIsGood(p, tr, i);
    if s.ds.now.None? {
      RestIsRolledOut(p, s, s);
      OwnIsQueued(p, s, s);
    } else {
      BaseOfRun(p, tr, i);
      if Open(p, s) == {} {
        var t := QueueAndLand(p, s);
      } else if Supplied(p, s) {
        var t := FinishRollout(p, s, s);
        OwnIsQueued(p, s, t);
      } else if t :| ReachesQueued(p, s, t) && RolledOut(p, s, t) {
        HopelessFromStart(p, s);
        HopelessIsStuck(p, s, t);
      }
    }
  }

  lemma QueueAndLand(p: Params, s: State) returns (t: State)
    requires Base(p, s) && Open(p, s) == {} && Goal(p, s).1 != {}
    ensures ReachesQueued(p, s, t) && RolledOut(p, s, t)
  {
    var u := EnvNext(p, s, Requeue);
    StepIsGood(p, s, EnvStep(Requeue));
    ReachSelf(p, u);
    NothingOpen(p, s);
    t := LandFrom(p, u, u);
    RestIsRolledOut(p, s, t);
    QueuedThenOwn(p, s, t);
  }

  // ---------- A new DaemonSet version ----------

  lemma AllGrowThen(a: State, b: State, c: State)
    requires AllGrow(a, b) && AllGrow(b, c)
    ensures AllGrow(a, c)
  {
  }

  lemma OwnGrows(p: Params, s: State, t: State)
    requires OwnStep(p, s, t)
    ensures AllGrow(s, t)
  {
    var step :| Enabled(p, s, step) && Own(p, s, step) && t == Next(p, s, step);
    StepGrows(p, s, step);
  }

  lemma LeadsGrow(p: Params, tr: seq<State>)
    requires tr != [] && forall i: nat :: i + 1 < |tr| ==> OwnStepAt(p, tr, i)
    ensures AllGrow(tr[0], tr[|tr| - 1])
  {
    for k := 0 to |tr| - 1
      invariant AllGrow(tr[0], tr[k])
    {
      assert OwnStepAt(p, tr, k);
      OwnGrows(p, tr[k], tr[k + 1]);
      AllGrowThen(tr[0], tr[k], tr[k + 1]);
    }
  }

  lemma ReachGrows(p: Params, s: State, t: State)
    requires Reaches(p, s, t)
    ensures AllGrow(s, t)
  {
    var tr :| Leads(p, tr, s, t);
    LeadsGrow(p, tr);
  }

  /** From no version of the DaemonSet later than those of a state has a pod of its runs started. */
  lemma NewVersionIsUnspent(s: State, t: State, n: string)
    requires FlightInv(s) && t.rep == s.rep && AllGrow(s, t) && t.ds.now != s.ds.now
    ensures !Spent(t, n)
  {
    assert s.ds.At(|s.ds.past|) == s.ds.now && t.ds.At(|t.ds.past|) == t.ds.now;
  }

  lemma UnspentIsCompletable(p: Params, s: State)
    requires Base(p, s) && Goal(p, s).1 != {} && "" !in Goal(p, s).1
    requires forall n :: n in Goal(p, s).1 ==> !Spent(s, n)
    ensures Completable(p, s)
  {
    forall n | n in Goal(p, s).1 ensures CanStart(s, n) {
      assert Placed(s.profile.now.value.spec.selector, s.nodes.now[n]);
    }
    var n :| n in Goal(p, s).1;
    assert CanStart(s, n);
  }

  /** The DaemonSet that the profile asks for as long as its rollout is not complete. */
  function Wanted(p: Params, o: Obj): Owned<Template> {
    Owned(o.uid, Template(p.hash(Render(o.spec)), o.spec.selector.matchLabels))
  }

  /** From every reachable state whose DaemonSet is not yet the one its profile asks for, such as
      before the first pass and after a real edit, whatever happened before: a profile that is not
      being deleted and selects some node can be rolled out, torn down and brought to rest, by the
      system's own steps alone. */
  lemma NewVersionRollsOut(p: Params, tr: seq<State>, i: nat)
    requires IsRun(p, tr) && i < |tr| && Live(tr[i])
    requires Goal(p, tr[i]).1 != {} && "" !in Goal(p, tr[i]).1
    requires tr[i].ds.now != Some(Wanted(p, tr[i].profile.now.value))
    ensures exists t :: Reaches(p, tr[i], t) && RolledOut(p, tr[i], t)
  {
    var s := tr[i];
    RunIsGood(p, tr, i);
    LedgerIsUnique(p, tr, i);
    var b := ComeToRest(p, s, s);
    AtRest(p, b);
    if b.ds.now.None? {
      RestIsRolledOut(p, s, b);
    } else {
      ReachGrows(p, s, b);
      forall n | n in Goal(p, b).1 ensures !Spent(b, n) {
        NewVersionIsUnspent(s, b, n);
      }
      UnspentIsCompletable(p, b);
      var t := FinishRollout(p, s, b);
      assert RolledOut(p, s, t);
    }
  }
}
