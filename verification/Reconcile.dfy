/** One reconcile pass as the code runs it, call by call, with any set of calls failing; what
    it keeps, what it puts in place, and that repeating it changes nothing. */
module Reconcile {
  import opened Text
  import opened Ledger
  import opened Selection
  import opened Api
  import SysctlConf
  import ScriptConf

  /** The API calls of a pass. */
  datatype ApiCall =
    | GetProfile | UpdateProfile | PutConfigMap | DeleteConfigMap
    | PutCronJob | DeleteCronJob | ListNodes | PutDaemonSet | DeleteDaemonSet | UpdateStatus

  datatype World = World(
    profile: Option<Obj>,
    cm: Option<Owned<string>>,
    ds: Option<Owned<Template>>,
    cj: Option<Owned<CronJob>>,
    nodes: Nodes
  )

  // ---------- What a pass does ----------

  /** Whether `CreateOrUpdate` may write: nobody else controls the object. */
  predicate MayPut<T>(x: Option<Owned<T>>, uid: nat) {
    x.Some? ==> x.value.owner == uid
  }

  /** Cleanup in order: DaemonSet, CronJob, ConfigMap. */
  function CleanedUp(p: Params, w: World, fails: set<ApiCall>): (World, bool) {
    if DeleteDaemonSet in fails then (w, false)
    else if p.kind.SysctlProfile? && DeleteCronJob in fails then (w.(ds := None), false)
    else
      var w1 := if p.kind.SysctlProfile? then w.(ds := None, cj := None) else w.(ds := None);
      if DeleteConfigMap in fails then (w1, false) else (w1.(cm := None), true)
  }

  /** Cleanup, then the finalizer goes, and the object with it. */
  function Cleaned(p: Params, w: World, fails: set<ApiCall>): (World, bool) {
    var (w1, ok) := CleanedUp(p, w, fails);
    if !ok || UpdateProfile in fails then (w1, false) else (w1.(profile := None), true)
  }

  function CronJobOf(p: Params, o: Obj): Option<Owned<CronJob>> {
    if WantsCronJob(o.spec) then Some(Owned(o.uid, CronJob(o.spec.driftCheck, p.hash(Render(o.spec))))) else None
  }

  predicate CronJobFails(p: Params, w: World, o: Obj, fails: set<ApiCall>) {
    p.kind.SysctlProfile? &&
    if WantsCronJob(o.spec) then PutCronJob in fails || !MayPut(w.cj, o.uid) else DeleteCronJob in fails
  }

  /** The rollout-or-teardown switch and the status write. */
  function Switched(p: Params, w: World, o: Obj, fails: set<ApiCall>): (World, bool) {
    var hash := p.hash(Render(o.spec));
    var selected := Selected(o.spec.selector, w.nodes);
    var complete := Complete(o.status.book.nodes, selected, hash);
    var status := Decided(o, hash, selected, complete);
    if complete && DeleteDaemonSet in fails then (w, false)
    else if !complete && (PutDaemonSet in fails || !MayPut(w.ds, o.uid)) then (w, false)
    else
      var w1 := w.(ds := if complete then None else Some(Owned(o.uid, Template(hash, o.spec.selector.matchLabels))));
      if status == o.status then (w1, true)
      else if UpdateStatus in fails then (w1, false)
      else (w1.(profile := Some(o.(status := status))), true)
  }

  function Worked(p: Params, w: World, o: Obj, fails: set<ApiCall>): (World, bool) {
    if PutConfigMap in fails || !MayPut(w.cm, o.uid) then (w, false)
    else
      var w1 := w.(cm := Some(Owned(o.uid, Render(o.spec))));
      if CronJobFails(p, w, o, fails) then (w1, false)
      else
        var w2 := if p.kind.SysctlProfile? then w1.(cj := CronJobOf(p, o)) else w1;
        if ListNodes in fails || !Valid(o.spec.selector) then (w2, false)
        else Switched(p, w2, o, fails)
  }

  function Passed(p: Params, w: World, fails: set<ApiCall>): (World, bool) {
    if GetProfile in fails then (w, false)
    else match w.profile
      case None => (w, true)
      case Some(o) =>
        if o.deleting then if o.finalizer then Cleaned(p, w, fails) else (w, true)
        else if !o.finalizer then
          if UpdateProfile in fails then (w, false) else (w.(profile := Some(o.(finalizer := true))), true)
        else Worked(p, w, o, fails)
  }

  // ---------- The pass, step by step ----------

  class Cluster {
    const p: Params
    var profile: Option<Obj>
    var cm: Option<Owned<string>>
    var ds: Option<Owned<Template>>
    var cj: Option<Owned<CronJob>>
    var nodes: seq<Node>

    ghost function View(): World
      reads this
    {
      World(profile, cm, ds, cj, ByName(nodes))
    }

    constructor (p: Params, w: World, nodes: seq<Node>)
      requires w.nodes == ByName(nodes)
      ensures this.p == p && View() == w && this.nodes == nodes
    {
      this.p := p;
      profile, cm, ds, cj, this.nodes := w.profile, w.cm, w.ds, w.cj, nodes;
    }

    /** `cleanup` and `cleanupScript`. */
    method Cleanup(fails: set<ApiCall>) returns (ok: bool)
      modifies `ds, `cj, `cm
      ensures (View(), ok) == CleanedUp(p, old(View()), fails)
    {
      if DeleteDaemonSet in fails {
        return false;
      }
      ds := None;
      if p.kind.SysctlProfile? {
        if DeleteCronJob in fails {
          return false;
        }
        cj := None;
      }
      if DeleteConfigMap in fails {
        return false;
      }
      cm := None;
      return true;
    }

    /** `ensureDaemonSet` and `ensureScriptDaemonSet`. */
    method EnsureDaemonSet(o: Obj, hash: string, fails: set<ApiCall>) returns (ok: bool)
      modifies `ds
      ensures ok <==> PutDaemonSet !in fails && MayPut(old(ds), o.uid)
      ensures ds == if ok then Some(Owned(o.uid, Template(hash, o.spec.selector.matchLabels))) else old(ds)
    {
      if PutDaemonSet in fails || !MayPut(ds, o.uid) {
        return false;
      }
      ds := Some(Owned(o.uid, Template(hash, o.spec.selector.matchLabels)));
      return true;
    }

    /** `ensureCronJob` or `ensureNoCronJob`; a ScriptProfile has neither. */
    method ReconcileCronJob(o: Obj, hash: string, fails: set<ApiCall>) returns (ok: bool)
      requires hash == p.hash(Render(o.spec))
      modifies `cj
      ensures ok <==> !CronJobFails(p, old(View()), o, fails)
      ensures cj == if ok && p.kind.SysctlProfile? then CronJobOf(p, o) else old(cj)
    {
      if p.kind.ScriptProfile? {
        return true;
      }
      if WantsCronJob(o.spec) {
        if PutCronJob in fails || !MayPut(cj, o.uid) {
          return false;
        }
        cj := Some(Owned(o.uid, CronJob(o.spec.driftCheck, hash)));
      } else {
        if DeleteCronJob in fails {
          return false;
        }
        cj := None;
      }
      return true;
    }

    /** The rest of `Reconcile` once the nodes are listed: choose, roll out or tear down, write
        the status. */
    method Switch(o: Obj, hash: string, selected: seq<string>, fails: set<ApiCall>) returns (ok: bool)
      requires hash == p.hash(Render(o.spec))
      requires Names(selected) == Selected(o.spec.selector, ByName(nodes)) && NoDuplicates(selected)
      modifies this
      ensures (View(), ok) == Switched(p, old(View()), o, fails) && nodes == old(nodes)
    {
      var complete := AllNodesApplied(o.status.book.nodes, selected, hash);
      NamesCount(selected);
      var status := o.status;
      if complete {
        if DeleteDaemonSet in fails {
          return false;
        }
        ds := None;
        status := status.(teardownHash := hash);
      } else {
        var done := EnsureDaemonSet(o, hash, fails);
        if !done {
          return false;
        }
      }
      status := status.(ready := Some(Ready(complete, o.generation)));
      status := status.(observedHash := hash, desiredNodes := Wrap(|selected|));
      if status != o.status {
        if UpdateStatus in fails {
          return false;
        }
        profile := Some(o.(status := status));
      }
      return true;
    }

    /** `renderSysctlConf` or `renderScripts`. */
    method RenderSpec(spec: Spec) returns (content: string)
      ensures content == Render(spec)
    {
      match spec
      case SysctlSpec(sysctls, _, _) => content := SysctlConf.RenderSysctlConf(sysctls);
      case ScriptSpec(scripts, _) => content := ScriptConf.RenderScripts(scripts);
    }

    /** `selectedNodeNames`, as a set. */
    method ListSelected(sel: Selector) returns (names: Option<seq<string>>)
      requires UniqueNodes(nodes)
      ensures names.None? <==> !Valid(sel)
      ensures names.Some? ==> Names(names.value) == Selected(sel, ByName(nodes)) && NoDuplicates(names.value)
    {
      names := SelectedNodeNames(sel, nodes);
      forall n ensures IsSelected(sel, nodes, n) <==> n in Selected(sel, ByName(nodes)) {
        ListedIsSelected(sel, nodes, n);
      }
    }

    /** `Reconcile` of both controllers. */
    method Reconcile(fails: set<ApiCall>) returns (ok: bool)
      requires UniqueNodes(nodes)
      modifies this
      ensures (View(), ok) == Passed(p, old(View()), fails) && nodes == old(nodes)
    {
      if GetProfile in fails {
        return false;
      }
      if profile.None? {
        return true;
      }
      var o := profile.value;
      if o.deleting {
        if o.finalizer {
          var done := Cleanup(fails);
          if !done {
            return false;
          }
          if UpdateProfile in fails {
            return false;
          }
          profile := None;
        }
        return true;
      }
      if !o.finalizer {
        if UpdateProfile in fails {
          return false;
        }
        profile := Some(o.(finalizer := true));
        return true;
      }
      var content := RenderSpec(o.spec);
      var hash := p.hash(content);
      if PutConfigMap in fails || !MayPut(cm, o.uid) {
        return false;
      }
      cm := Some(Owned(o.uid, content));
      var done := ReconcileCronJob(o, hash, fails);
      if !done {
        return false;
      }
      if ListNodes in fails {
        return false;
      }
      var selected := ListSelected(o.spec.selector);
      if selected.None? {
        return false;
      }
      ok := Switch(o, hash, selected.value, fails);
    }
  }

  // ---------- What a pass keeps ----------

  ghost predicate OwnedByProfile<T>(w: World, x: Option<Owned<T>>) {
    x.Some? ==> w.profile.Some? && w.profile.value.uid == x.value.owner && w.profile.value.finalizer
  }

  /** Everything owned belongs to the finalized profile. */
  ghost predicate Sane(p: Params, w: World) {
    && OwnedByProfile(w, w.cm) && OwnedByProfile(w, w.ds) && OwnedByProfile(w, w.cj)
    && (w.profile.Some? ==> KindOf(w.profile.value.spec) == p.kind)
    && (p.kind.ScriptProfile? ==> w.cj.None?)
  }

  /** A DaemonSet has its ConfigMap. */
  ghost predicate Ordered(w: World) {
    w.ds.Some? ==> w.cm.Some?
  }

  /** What no pass changes, as long as the profile exists. */
  ghost predicate SameIdentity(w: World, after: World) {
    && after.nodes == w.nodes
    && (after.profile.Some? ==>
          && w.profile.Some?
          && after.profile.value.status.book == w.profile.value.status.book
          && after.profile.value.spec == w.profile.value.spec
          && after.profile.value.uid == w.profile.value.uid)
  }

  lemma CleanedIsSafe(p: Params, w: World, fails: set<ApiCall>)
    requires Sane(p, w)
    ensures Sane(p, Cleaned(p, w, fails).0) && SameIdentity(w, Cleaned(p, w, fails).0)
    ensures Ordered(w) ==> Ordered(Cleaned(p, w, fails).0)
  {
  }

  lemma SwitchedIsSafe(p: Params, w: World, o: Obj, fails: set<ApiCall>)
    requires Sane(p, w) && w.profile == Some(o) && o.finalizer && w.cm.Some?
    ensures Sane(p, Switched(p, w, o, fails).0) && SameIdentity(w, Switched(p, w, o, fails).0)
    ensures Ordered(w) ==> Ordered(Switched(p, w, o, fails).0)
  {
  }

  lemma WorkedIsSafe(p: Params, w: World, o: Obj, fails: set<ApiCall>)
    requires Sane(p, w) && w.profile == Some(o) && o.finalizer
    ensures Sane(p, Worked(p, w, o, fails).0) && SameIdentity(w, Worked(p, w, o, fails).0)
    ensures Ordered(w) ==> Ordered(Worked(p, w, o, fails).0)
  {
    var w1 := w.(cm := Some(Owned(o.uid, Render(o.spec))));
    var w2 := if p.kind.SysctlProfile? then w1.(cj := CronJobOf(p, o)) else w1;
    SwitchedIsSafe(p, w2, o, fails);
  }

  /** Whatever calls fail, a pass keeps ownership, the order of ConfigMap and DaemonSet, the
      node ledger and the spec. */
  lemma PassIsSafe(p: Params, w: World, fails: set<ApiCall>)
    requires Sane(p, w)
    ensures Sane(p, Passed(p, w, fails).0) && SameIdentity(w, Passed(p, w, fails).0)
    ensures Ordered(w) ==> Ordered(Passed(p, w, fails).0)
  {
    if w.profile.Some? {
      CleanedIsSafe(p, w, fails);
      if w.profile.value.finalizer {
        WorkedIsSafe(p, w, w.profile.value, fails);
      }
    }
  }

  /** A pass without failing calls puts in place what the spec, the nodes and the ledger ask. */
  lemma PassSettles(p: Params, w: World)
    requires Sane(p, w) && w.profile.Some? && !w.profile.value.deleting && w.profile.value.finalizer
    ensures var (after, ok) := Passed(p, w, {});
            var o := w.profile.value;
            var hash := p.hash(Render(o.spec));
            var selected := Selected(o.spec.selector, w.nodes);
            && after.cm == Some(Owned(o.uid, Render(o.spec)))
            && after.cj == (match o.spec
                            case SysctlSpec(_, _, schedule) =>
                              if schedule == "" then None else Some(Owned(o.uid, CronJob(schedule, hash)))
                            case ScriptSpec(_, _) => None)
            && (ok <==> Valid(o.spec.selector))
            && (ok ==>
                  && (after.ds.None? <==> Complete(o.status.book.nodes, selected, hash))
                  && (after.ds.Some? ==> after.ds == Some(Owned(o.uid, Template(hash, o.spec.selector.matchLabels))))
                  && after.profile == Some(o.(status := Status(
                       hash, if after.ds.None? then hash else o.status.teardownHash, Wrap(|selected|),
                       Some(Ready(after.ds.None?, o.generation)), o.status.book))))
  {
  }

  /** Whatever calls fail: a pass answers success only if it did all it would have done without a
      failure. So after any error that left something undone the key is queued again. */
  lemma SuccessIsWhole(p: Params, w: World, fails: set<ApiCall>)
    ensures Passed(p, w, fails).1 ==> Passed(p, w, fails) == Passed(p, w, {})
  {
  }

  ghost predicate Foreign<T>(x: Option<Owned<T>>, uid: nat) {
    x.Some? && x.value.owner != uid
  }

  /** A working pass never takes over a resource that somebody else controls, and answers with an
      error where it would have to: a foreign ConfigMap stops it at once, a foreign CronJob that is
      wanted, or a foreign DaemonSet while the rollout is not complete, where it gets to it. */
  lemma ForeignIsUntouched(p: Params, w: World, fails: set<ApiCall>)
    requires w.profile.Some? && !w.profile.value.deleting && w.profile.value.finalizer
    ensures var (after, ok) := Passed(p, w, fails);
            var o := w.profile.value;
            && (Foreign(w.cm, o.uid) ==> after == w && !ok)
            && (Foreign(w.cj, o.uid) && p.kind.SysctlProfile? && o.spec.SysctlSpec? && o.spec.driftCheck != "" ==>
                  after.cj == w.cj && !ok)
            && (Foreign(w.ds, o.uid) && !Complete(o.status.book.nodes, Selected(o.spec.selector, w.nodes), p.hash(Render(o.spec))) ==>
                  after.ds == w.ds && !ok)
  {
  }

  /** After a successful working pass, the next one makes the same choice and writes nothing. */
  lemma WorkingPassIsFixpoint(p: Params, w: World)
    requires Sane(p, w) && w.profile.Some? && !w.profile.value.deleting && w.profile.value.finalizer
    ensures var (after, ok) := Passed(p, w, {});
            Passed(p, after, {}) == (after, ok)
  {
    PassIsSafe(p, w, {});
    var (after, ok) := Passed(p, w, {});
    if ok {
      PassSettles(p, w);
      assert after.profile.value.status.book == w.profile.value.status.book;
    }
  }

  /** From any state a finalizer pass and a working pass are enough: every later pass leaves
      the world as it is, so it writes no status and triggers no further pass. */
  lemma TwoPassesReachFixpoint(p: Params, w: World)
    requires Sane(p, w)
    ensures var second := Passed(p, Passed(p, w, {}).0, {}).0;
            Passed(p, second, {}).0 == second
  {
    var first := Passed(p, w, {}).0;
    PassIsSafe(p, w, {});
    if first.profile.Some? && !first.profile.value.deleting && first.profile.value.finalizer {
      WorkingPassIsFixpoint(p, first);
    }
  }
}
