/** What an edit of the spec does to a rollout: a real edit re-opens it, whatever the ledger
    recorded before. */
module Edits {
  import opened Text
  import opened Ledger
  import opened LedgerLaws
  import opened Selection
  import opened Api
  import opened Rollout
  import opened Quiescence
  import Progress
  import Supplies
  import Completion
  import Reconcile
  import SysctlConf
  import ScriptConf

  /** Both specs pass the check and tell the workers to do different things. */
  predicate RealEdit(a: Spec, b: Spec) {
    match (a, b)
    case (SysctlSpec(x, _, _), SysctlSpec(y, _, _)) =>
      SysctlConf.AllWellFormed(x) && SysctlConf.AllWellFormed(y) && SysctlConf.Normals(x) != SysctlConf.Normals(y)
    case (ScriptSpec(x, _), ScriptSpec(y, _)) =>
      ScriptConf.AllWellFormed(x) && ScriptConf.AllWellFormed(y) && ScriptConf.Normals(x) != ScriptConf.Normals(y)
    case _ => false
  }

  /** The hash does not confuse what the two specs render to. */
  predicate TellsApart(p: Params, a: Spec, b: Spec) {
    p.hash(Render(a)) == p.hash(Render(b)) ==> Render(a) == Render(b)
  }

  lemma RealEditChangesHash(p: Params, a: Spec, b: Spec)
    requires RealEdit(a, b) && TellsApart(p, a, b)
    ensures p.hash(Render(a)) != p.hash(Render(b))
  {
    if Render(a) == Render(b) {
      if a.SysctlSpec? {
        SysctlConf.RenderedInjective(a.sysctls, b.sysctls);
      } else {
        ScriptConf.RenderedInjective(a.scripts, b.scripts);
      }
    }
  }

  /** Of script lists that pass the check, the hash changes exactly with what the workers run:
      adding a final newline or spelling out the default interpreter re-opens nothing. */
  lemma ScriptHashIsExact(p: Params, a: Spec, b: Spec)
    requires a.ScriptSpec? && b.ScriptSpec? && TellsApart(p, a, b)
    requires ScriptConf.AllWellFormed(a.scripts) && ScriptConf.AllWellFormed(b.scripts)
    ensures p.hash(Render(a)) != p.hash(Render(b)) <==> RealEdit(a, b)
  {
    ScriptConf.RenderedInjective(a.scripts, b.scripts);
  }

  /** The ledger's last success of the node was at this hash. */
  predicate LastAt(nodes: seq<NodeStatus>, n: string, hash: string) {
    Lookup(nodes, n).Some? && Lookup(nodes, n).value.appliedHash == hash
  }

  /** After a real edit, one selected node last recorded at the old hash is enough for the next
      pass to put the DaemonSet back, at the new hash. */
  lemma RealEditReopens(p: Params, w: Reconcile.World, before: Spec, n: string)
    requires Reconcile.Sane(p, w) && w.profile.Some? && !w.profile.value.deleting && w.profile.value.finalizer
    requires var o := w.profile.value;
             && Valid(o.spec.selector) && n in Selected(o.spec.selector, w.nodes)
             && UniqueNames(o.status.book.nodes) && LastAt(o.status.book.nodes, n, p.hash(Render(before)))
             && RealEdit(before, o.spec) && TellsApart(p, before, o.spec)
    ensures var (after, ok) := Passed(p, w);
            var o := w.profile.value;
            && ok
            && after.ds == Some(Owned(o.uid, Template(p.hash(Render(o.spec)), o.spec.selector.matchLabels)))
            && after.profile.Some?
            && after.profile.value.status.ready == Some(Ready(false, o.generation))
            && after.profile.value.status.observedHash == p.hash(Render(o.spec))
            && after.profile.value.status.teardownHash == o.status.teardownHash
  {
    var o := w.profile.value;
    RealEditChangesHash(p, before, o.spec);
    LookupApplied(o.status.book.nodes, n, p.hash(Render(o.spec)));
    Reconcile.PassSettles(p, w);
  }

  /** A pass none of whose calls fails. */
  function Passed(p: Params, w: Reconcile.World): (Reconcile.World, bool) {
    Reconcile.Passed(p, w, {})
  }

  /** Over whole runs: once everything has come to rest after a real edit, the DaemonSet is
      there, at the new hash, as long as some selected node is last recorded at the old one. */
  lemma RestAfterRealEdit(p: Params, tr: seq<State>, i: nat, before: Spec, n: string)
    requires IsRun(p, tr) && i < |tr| && Quiet(tr[i]) && tr[i].profile.now.Some?
    requires var s, o := tr[i], tr[i].profile.now.value;
             && n in Selected(o.spec.selector, s.nodes.now)
             && LastAt(o.status.book.nodes, n, p.hash(Render(before)))
             && RealEdit(before, o.spec) && TellsApart(p, before, o.spec)
    ensures var o := tr[i].profile.now.value;
            tr[i].ds.now == Some(Owned(o.uid, Template(p.hash(Render(o.spec)), o.spec.selector.matchLabels)))
  {
    var o := tr[i].profile.now.value;
    QuietIsSettled(p, tr, i);
    Progress.LedgerIsUnique(p, tr, i);
    RealEditChangesHash(p, before, o.spec);
    LookupApplied(o.status.book.nodes, n, p.hash(Render(o.spec)));
  }

  /** Over whole runs: as long as the DaemonSet is still that of the old content, or gone, the rollout
      after a real edit can be completed by the system on its own, however the old one ended. */
  lemma RealEditRollsOut(p: Params, tr: seq<State>, i: nat, before: Spec)
    requires IsRun(p, tr) && i < |tr| && Progress.Live(tr[i])
    requires RealEdit(before, tr[i].profile.now.value.spec) && TellsApart(p, before, tr[i].profile.now.value.spec)
    requires tr[i].ds.now.Some? ==> tr[i].ds.now.value.data.hash == p.hash(Render(before))
    requires Supplies.Goal(p, tr[i]).1 != {} && "" !in Supplies.Goal(p, tr[i]).1
    ensures exists t :: Progress.Reaches(p, tr[i], t) && Supplies.RolledOut(p, tr[i], t)
  {
    RealEditChangesHash(p, before, tr[i].profile.now.value.spec);
    Completion.NewVersionRollsOut(p, tr, i);
  }
}
