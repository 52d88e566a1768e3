/** Teardown soundness, end to end: whenever the rollout branch deletes the DaemonSet, every
    node it counted had run a worker on exactly the bytes the spec renders to, without a
    failure. */
module TeardownSoundness {
  import opened Text
  import opened Ledger
  import opened Api
  import opened Worker
  import opened Rollout
  import opened Lifecycle
  import SysctlConf
  import ScriptConf

  // ---------- Evidence ----------

  /** A worker on the node succeeded on mounted bytes with the hash. */
  ghost predicate Evidence(p: Params, run: Run, node: string, hash: string) {
    && run.node == node && p.hash(run.mounted) == hash
    && Succeeded(run.mode, run.mounted, run.host, run.kernel)
  }

  ghost predicate HasEvidence(p: Params, runs: seq<Run>, node: string, hash: string) {
    exists r :: 0 <= r < |runs| && Evidence(p, runs[r], node, hash)
  }

  ghost predicate Justified(p: Params, runs: seq<Run>, nodes: seq<NodeStatus>) {
    forall k :: 0 <= k < |nodes| && nodes[k].phase == Applied ==>
      HasEvidence(p, runs, nodes[k].node, nodes[k].appliedHash)
  }

  ghost predicate CountedSoundly(p: Params, runs: seq<Run>, selected: set<string>, hash: string) {
    selected != {} && forall n :: n in selected ==> HasEvidence(p, runs, n, hash)
  }

  /** What the run recorded is what a worker of this profile does. */
  ghost predicate Genuine(p: Params, s: State, run: Run) {
    && run.report == Report(run.node, p.hash(run.mounted), Succeeded(run.mode, run.mounted, run.host, run.kernel))
    && GatePasses(p.hash(run.mounted), run.expected)
    && (p.kind.ScriptProfile? <==> run.mode.ScriptMode?)
    && (exists i: nat :: s.cm.At(i).Some? && s.cm.At(i).value.data == run.mounted)
    && (exists i: nat :: s.ds.At(i).Some? && s.ds.At(i).value.data.hash == run.expected)
  }

  /** The DaemonSet of this very object was torn down at the hash. */
  ghost predicate TornDown(s: State, uid: nat, hash: string) {
    exists k :: 0 <= k < |s.ctl.teardowns| && s.ctl.teardowns[k].uid == uid && s.ctl.teardowns[k].hash == hash
  }

  ghost predicate Deciding(p: Params, s: State, at: nat, selected: set<string>) {
    s.profile.At(at).Some? ==>
      var o := s.profile.At(at).value;
      Complete(o.status.book.nodes, selected, p.hash(Render(o.spec)))
  }

  ghost predicate RunsInv(p: Params, s: State) {
    forall r :: 0 <= r < |s.rep.runs| ==> Genuine(p, s, s.rep.runs[r])
  }

  ghost predicate LedgersInv(p: Params, s: State) {
    forall i: nat :: s.profile.At(i).Some? ==> Justified(p, s.rep.runs, s.profile.At(i).value.status.book.nodes)
  }

  ghost predicate TeardownInv(p: Params, s: State) {
    && (s.ctl.pc.TearDown? ==> Deciding(p, s, s.ctl.pc.at, s.ctl.pc.selected))
    && (s.ctl.pc.WriteStatus? && s.ctl.pc.complete && s.profile.At(s.ctl.pc.at).Some? ==>
          TornDown(s, s.profile.At(s.ctl.pc.at).value.uid, p.hash(Render(s.profile.At(s.ctl.pc.at).value.spec))))
    && (forall k :: 0 <= k < |s.ctl.teardowns| ==>
          var t := s.ctl.teardowns[k];
          t.hash == p.hash(Render(t.spec)) && CountedSoundly(p, s.rep.runs, t.selected, t.hash))
    && (forall i: nat :: s.profile.At(i).Some? && s.profile.At(i).value.status.teardownHash != "" ==>
          TornDown(s, s.profile.At(i).value.uid, s.profile.At(i).value.status.teardownHash))
  }

  ghost predicate SoundInv(p: Params, s: State) {
    RunsInv(p, s) && LedgersInv(p, s) && TeardownInv(p, s)
  }

  // ---------- Small facts ----------

  lemma MoreRuns(p: Params, runs: seq<Run>, run: Run, node: string, hash: string)
    requires HasEvidence(p, runs, node, hash)
    ensures HasEvidence(p, runs + [run], node, hash)
  {
    var r :| 0 <= r < |runs| && Evidence(p, runs[r], node, hash);
    assert (runs + [run])[r] == runs[r];
  }

  /** Recording a genuine report keeps every applied entry justified. */
  lemma {:induction false} UpsertJustified(p: Params, runs: seq<Run>, nodes: seq<NodeStatus>, id: nat)
    requires Justified(p, runs, nodes) && id < |runs|
    requires var run := runs[id];
             run.report == Report(run.node, p.hash(run.mounted), Succeeded(run.mode, run.mounted, run.host, run.kernel))
    ensures Justified(p, runs, Upsert(nodes, runs[id].report))
  {
    var r := runs[id].report;
    assert r.success ==> Evidence(p, runs[id], r.node, r.hash);
    if k :| 0 <= k < |nodes| && nodes[k].node == r.node && forall i :: 0 <= i < k ==> nodes[i].node != r.node {
      UpsertAt(nodes, r, k);
    } else {
      FirstOrNone(nodes, r.node);
      UpsertNew(nodes, r);
    }
  }

  lemma {:induction false} FirstOrNone(nodes: seq<NodeStatus>, n: string)
    ensures (exists k :: 0 <= k < |nodes| && nodes[k].node == n && forall i :: 0 <= i < k ==> nodes[i].node != n) ||
            (forall i :: 0 <= i < |nodes| ==> nodes[i].node != n)
  {
    if nodes != [] {
      var init, last := nodes[..|nodes| - 1], |nodes| - 1;
      FirstOrNone(init, n);
      assert forall i :: 0 <= i < |init| ==> init[i] == nodes[i];
      if k :| 0 <= k < |init| && init[k].node == n && forall i :: 0 <= i < k ==> init[i].node != n {
        assert nodes[k].node == n && forall i :: 0 <= i < k ==> nodes[i].node != n;
      } else if nodes[last].node == n {
        assert forall i :: 0 <= i < last ==> nodes[i].node != n;
      }
    }
  }

  /** A complete rollout counted only nodes with evidence. */
  lemma CompleteIsSound(p: Params, runs: seq<Run>, nodes: seq<NodeStatus>, selected: set<string>, hash: string)
    requires Justified(p, runs, nodes) && Complete(nodes, selected, hash)
    ensures CountedSoundly(p, runs, selected, hash)
  {
  }

  // ---------- Steps ----------

  ghost predicate Extends<T>(c: Cell<T>, d: Cell<T>) {
    forall i: nat :: i <= |c.past| ==> d.At(i) == c.At(i)
  }

  lemma AtMost<T>(c: Cell<T>, i: nat) returns (k: nat)
    ensures k <= |c.past| && c.At(k) == c.At(i)
  {
    k := if i <= |c.past| then i else |c.past|;
  }

  lemma GenuineStays(p: Params, s: State, t: State, run: Run)
    requires Genuine(p, s, run) && Extends(s.cm, t.cm) && Extends(s.ds, t.ds)
    ensures Genuine(p, t, run)
  {
    var i: nat :| s.cm.At(i).Some? && s.cm.At(i).value.data == run.mounted;
    var j: nat :| s.ds.At(j).Some? && s.ds.At(j).value.data.hash == run.expected;
    var a := AtMost(s.cm, i);
    var b := AtMost(s.ds, j);
    assert t.cm.At(a) == s.cm.At(i);
    assert t.ds.At(b) == s.ds.At(j);
  }

  lemma RunsStay(p: Params, s: State, t: State)
    requires RunsInv(p, s) && t.rep.runs == s.rep.runs && Extends(s.cm, t.cm) && Extends(s.ds, t.ds)
    ensures RunsInv(p, t)
  {
    forall r | 0 <= r < |t.rep.runs| ensures Genuine(p, t, t.rep.runs[r]) {
      GenuineStays(p, s, t, s.rep.runs[r]);
    }
  }

  lemma TornDownStays(s: State, t: State, uid: nat, hash: string)
    requires TornDown(s, uid, hash) && s.ctl.teardowns <= t.ctl.teardowns
    ensures TornDown(t, uid, hash)
  {
  }

  /** Neither the profile's history nor the pass moved in a way that matters. */
  lemma SoundSame(p: Params, s: State, t: State)
    requires Inv(p, s) && SoundInv(p, s)
    requires t.profile.past == s.profile.past && t.profile.now == s.profile.now
    requires t.rep.runs == s.rep.runs && Extends(s.cm, t.cm) && Extends(s.ds, t.ds)
    requires t.ctl.teardowns == s.ctl.teardowns
    requires t.ctl.pc.TearDown? || t.ctl.pc.WriteStatus? ==> t.ctl.pc == s.ctl.pc || (t.ctl.pc.WriteStatus? && !t.ctl.pc.complete)
    ensures SoundInv(p, t)
  {
    RunsStay(p, s, t);
    assert forall i: nat :: t.profile.At(i) == s.profile.At(i);
    assert forall u, h :: TornDown(s, u, h) ==> TornDown(t, u, h);
  }

  lemma LedgersPush(p: Params, s: State, t: State, v: Option<Obj>)
    requires LedgersInv(p, s) && t.profile == s.profile.Push(v) && t.rep.runs == s.rep.runs
    requires v.Some? ==> Justified(p, s.rep.runs, v.value.status.book.nodes)
    ensures LedgersInv(p, t)
  {
    assert forall i: nat :: t.profile.At(i) == if i <= |s.profile.past| then s.profile.At(i) else v;
  }

  lemma TeardownPush(p: Params, s: State, t: State, v: Option<Obj>)
    requires TeardownInv(p, s) && t.profile == s.profile.Push(v) && t.rep.runs == s.rep.runs
    requires v.Some? && v.value.status.teardownHash != "" ==> TornDown(s, v.value.uid, v.value.status.teardownHash)
    requires t.ctl.teardowns == s.ctl.teardowns
    requires t.ctl.pc.Idle? || (t.ctl.pc == s.ctl.pc && s.ctl.pc.at <= |s.profile.past|)
    ensures TeardownInv(p, t)
  {
    assert forall i: nat :: t.profile.At(i) == if i <= |s.profile.past| then s.profile.At(i) else v;
    assert forall u, h :: TornDown(s, u, h) ==> TornDown(t, u, h);
  }

  /** A new version of the profile: none, a fresh object, or one with a justified ledger and a
      teardown hash that is still accounted for. */
  lemma SoundPush(p: Params, s: State, t: State, v: Option<Obj>)
    requires Inv(p, s) && SoundInv(p, s)
    requires t.profile == s.profile.Push(v)
    requires v.Some? ==> Justified(p, s.rep.runs, v.value.status.book.nodes)
    requires v.Some? && v.value.status.teardownHash != "" ==> TornDown(s, v.value.uid, v.value.status.teardownHash)
    requires t.rep.runs == s.rep.runs && t.cm == s.cm && t.ds == s.ds
    requires t.ctl.teardowns == s.ctl.teardowns
    requires t.ctl.pc == s.ctl.pc || t.ctl.pc.Idle?
    ensures SoundInv(p, t)
  {
    RunsStay(p, s, t);
    LedgersPush(p, s, t, v);
    TeardownPush(p, s, t, v);
  }

  lemma SoundEnv(p: Params, s: State, e: Env)
    requires Inv(p, s) && SoundInv(p, s) && EnvEnabled(p, s, e)
    ensures SoundInv(p, EnvNext(p, s, e))
  {
    var t := EnvNext(p, s, e);
    assert s.profile.At(|s.profile.past|) == s.profile.now;
    if e.Create? || e.Edit? || e.Remove? {
      SoundPush(p, s, t, t.profile.now);
    } else {
      SoundSame(p, s, t);
    }
  }

  lemma SoundWork(p: Params, s: State, j: Job)
    requires Inv(p, s) && SoundInv(p, s) && JobEnabled(p, s, j)
    ensures SoundInv(p, Next(p, s, Work(j)))
  {
    var t := Next(p, s, Work(j));
    var run := RunOf(p, s, j);
    assert RunsInv(p, t) by {
      assert Genuine(p, t, run);
      forall r | 0 <= r < |t.rep.runs| ensures Genuine(p, t, t.rep.runs[r]) {
        if r < |s.rep.runs| {
          GenuineStays(p, s, t, s.rep.runs[r]);
        }
      }
    }
    forall n, h | HasEvidence(p, s.rep.runs, n, h) ensures HasEvidence(p, t.rep.runs, n, h) {
      MoreRuns(p, s.rep.runs, run, n, h);
    }
    MoreEvidence(p, s, t);
  }

  /** Only the worker runs changed, and no evidence was lost. */
  lemma MoreEvidence(p: Params, s: State, t: State)
    requires SoundInv(p, s) && RunsInv(p, t)
    requires t.profile == s.profile && t.ctl == s.ctl
    requires forall n, h :: HasEvidence(p, s.rep.runs, n, h) ==> HasEvidence(p, t.rep.runs, n, h)
    ensures SoundInv(p, t)
  {
    assert forall u, h :: TornDown(s, u, h) ==> TornDown(t, u, h);
  }

  lemma SoundDeal(p: Params, s: State, d: Deal)
    requires Inv(p, s) && SoundInv(p, s) && DealEnabled(s, d)
    ensures SoundInv(p, DealNext(p, s, d))
  {
    var t := DealNext(p, s, d);
    if d.Commit? && s.rep.handlers[d.run].at == |s.profile.past| {
      assert s.profile.At(|s.profile.past|) == s.profile.now;
      assert Genuine(p, s, s.rep.runs[d.run]);
      UpsertJustified(p, s.rep.runs, s.profile.now.value.status.book.nodes, d.run);
      SoundPush(p, s, t, t.profile.now);
    } else {
      SoundSame(p, s, t);
    }
  }

  lemma SoundDecide(p: Params, s: State)
    requires Inv(p, s) && SoundInv(p, s) && Working(s.ctl.pc)
    requires DecideCall(p, s, Snapshot(s).value).Some?
    ensures SoundInv(p, DecideCall(p, s, Snapshot(s).value).value)
  {
    var o := Snapshot(s).value;
    var hash := p.hash(Render(o.spec));
    var t := DecideCall(p, s, o).value;
    match s.ctl.pc
    case ListNodes(at) =>
      SoundList(p, s, t);
    case TearDown(at, selected) =>
      SoundTearDown(p, s, t);
    case WriteStatus(at, selected, complete) =>
      if t.profile == s.profile {
        SoundSame(p, s, t);
      } else {
        assert s.profile.At(|s.profile.past|) == s.profile.now;
        SoundPush(p, s, t, t.profile.now);
      }
  }

  lemma SoundList(p: Params, s: State, t: State)
    requires Inv(p, s) && SoundInv(p, s) && s.ctl.pc.ListNodes?
    requires Some(t) == DecideCall(p, s, Snapshot(s).value)
    ensures SoundInv(p, t)
  {
    RunsStay(p, s, t);
    assert t == s.(ctl := t.ctl) && t.ctl.teardowns == s.ctl.teardowns;
    assert t.ctl.pc.TearDown? ==> Deciding(p, t, t.ctl.pc.at, t.ctl.pc.selected);
    SoundChosen(p, s, t);
  }

  /** Only the pass moved on, and a choice to tear down is backed by the ledger it read. */
  lemma SoundChosen(p: Params, s: State, t: State)
    requires SoundInv(p, s) && RunsInv(p, t)
    requires t.profile == s.profile && t.rep == s.rep && t.ctl.teardowns == s.ctl.teardowns
    requires t.ctl.pc.TearDown? ==> Deciding(p, t, t.ctl.pc.at, t.ctl.pc.selected)
    requires !t.ctl.pc.WriteStatus?
    ensures SoundInv(p, t)
  {
    assert forall u, h :: TornDown(s, u, h) ==> TornDown(t, u, h);
  }

  lemma SoundTearDown(p: Params, s: State, t: State)
    requires Inv(p, s) && SoundInv(p, s) && s.ctl.pc.TearDown?
    requires Some(t) == DecideCall(p, s, Snapshot(s).value)
    ensures SoundInv(p, t)
  {
    var o := Snapshot(s).value;
    var hash := p.hash(Render(o.spec));
    RunsStay(p, s, t);
    assert forall i: nat :: t.profile.At(i) == s.profile.At(i);
    assert Justified(p, s.rep.runs, s.profile.At(s.ctl.pc.at).value.status.book.nodes);
    CompleteIsSound(p, s.rep.runs, o.status.book.nodes, s.ctl.pc.selected, hash);
    assert t.ctl.teardowns[|s.ctl.teardowns|] == Teardown(o.uid, o.spec, s.ctl.pc.selected, hash);
    assert TornDown(t, o.uid, hash);
    forall u, h | TornDown(s, u, h) ensures TornDown(t, u, h) {
      TornDownStays(s, t, u, h);
    }
  }

  lemma SoundPut(p: Params, s: State)
    requires Inv(p, s) && SoundInv(p, s) && !s.ctl.pc.Idle?
    requires PutCall(p, s, Snapshot(s).value).Some?
    ensures SoundInv(p, PutCall(p, s, Snapshot(s).value).value)
  {
    var t := PutCall(p, s, Snapshot(s).value).value;
    if s.ctl.pc.AddFinalizer? {
      SoundAddFinalizer(p, s, t);
    } else {
      PutExtends(p, s, t);
      SoundSame(p, s, t);
    }
  }

  lemma SoundAddFinalizer(p: Params, s: State, t: State)
    requires Inv(p, s) && SoundInv(p, s) && s.ctl.pc.AddFinalizer?
    requires Some(t) == PutCall(p, s, Snapshot(s).value)
    ensures SoundInv(p, t)
  {
    assert s.profile.At(s.ctl.pc.at) == s.profile.now;
    assert s.profile.At(|s.profile.past|) == s.profile.now;
    SoundPush(p, s, t, t.profile.now);
  }

  lemma PutExtends(p: Params, s: State, t: State)
    requires !s.ctl.pc.Idle? && !s.ctl.pc.AddFinalizer? && s.profile.At(s.ctl.pc.at).Some?
    requires Some(t) == PutCall(p, s, Snapshot(s).value)
    ensures t.profile == s.profile && t.rep == s.rep && t.ctl.teardowns == s.ctl.teardowns
    ensures Extends(s.cm, t.cm) && Extends(s.ds, t.ds)
    ensures !t.ctl.pc.TearDown? && (t.ctl.pc.WriteStatus? ==> !t.ctl.pc.complete)
  {
  }

  lemma SoundClean(p: Params, s: State)
    requires Inv(p, s) && SoundInv(p, s) && Cleaning(s.ctl.pc) && CleanCall(p, s).Some?
    ensures SoundInv(p, CleanCall(p, s).value)
  {
    var t := CleanCall(p, s).value;
    if s.ctl.pc.DropFinalizer? {
      SoundPush(p, s, t, None);
    } else {
      SoundSame(p, s, t);
    }
  }

  lemma SoundCall(p: Params, s: State)
    requires Inv(p, s) && SoundInv(p, s) && CallNext(p, s).Some?
    ensures SoundInv(p, CallNext(p, s).value)
  {
    if Cleaning(s.ctl.pc) {
      SoundClean(p, s);
    } else if s.ctl.pc.ListNodes? || s.ctl.pc.TearDown? || s.ctl.pc.WriteStatus? {
      SoundDecide(p, s);
    } else {
      SoundPut(p, s);
    }
  }

  lemma SoundSee(p: Params, s: State, v: See)
    requires Inv(p, s) && SoundInv(p, s) && SeeEnabled(s, v)
    ensures SoundInv(p, SeeNext(s, v))
  {
    SoundSame(p, s, SeeNext(s, v));
  }

  lemma SoundKeeps(p: Params, s: State, step: Step)
    requires Inv(p, s) && SoundInv(p, s) && Enabled(p, s, step)
    ensures SoundInv(p, Next(p, s, step))
  {
    match step
    case EnvStep(e) => SoundEnv(p, s, e);
    case Call => SoundCall(p, s);
    case Work(j) => SoundWork(p, s, j);
    case DealStep(d) => SoundDeal(p, s, d);
    case SeeStep(v) => SoundSee(p, s, v);
    case Start => SoundSame(p, s, StartNext(s));
    case Fail => SoundSame(p, s, FailNext(s));
  }

  lemma SoundStep(p: Params, s: State, t: State)
    requires Inv(p, s) && SoundInv(p, s) && Steps(p, s, t)
    ensures SoundInv(p, t)
  {
    var step :| Enabled(p, s, step) && t == Next(p, s, step);
    SoundKeeps(p, s, step);
  }

  lemma SoundAtStep(p: Params, tr: seq<State>, i: nat)
    requires IsRun(p, tr) && 0 < i < |tr| && SoundInv(p, tr[i - 1])
    ensures SoundInv(p, tr[i])
  {
    var s, t := tr[i - 1], tr[i];
    assert Inv(p, s) by {
      RunKeeps(p, tr, i - 1);
    }
    assert Steps(p, s, t) by {
      assert StepAt(p, tr, i - 1);
    }
    SoundStep(p, s, t);
  }

  lemma {:induction false} RunKeepsSound(p: Params, tr: seq<State>, i: nat)
    requires IsRun(p, tr) && i < |tr|
    ensures SoundInv(p, tr[i])
  {
    if i == 0 {
      SoundAtInit(p, tr[i]);
    } else {
      RunKeepsSound(p, tr, i - 1);
      SoundAtStep(p, tr, i);
    }
  }

  lemma SoundAtInit(p: Params, s: State)
    requires Init(s)
    ensures SoundInv(p, s)
  {
  }

  // ---------- Over whole runs ----------

  /** In every run, whenever the rollout branch deleted the DaemonSet for a spec, the selection
      it used was not empty, and each node in it had a worker that passed the gate with bytes
      of the spec's hash mounted and met no failure. */
  lemma TeardownIsSound(p: Params, tr: seq<State>, i: nat, k: nat)
    requires IsRun(p, tr) && i < |tr| && k < |tr[i].ctl.teardowns|
    ensures var t := tr[i].ctl.teardowns[k];
            && t.hash == p.hash(Render(t.spec))
            && CountedSoundly(p, tr[i].rep.runs, t.selected, t.hash)
  {
    RunKeepsSound(p, tr, i);
  }

  /** Every teardown hash ever committed to a status belongs to a teardown of that very object,
      which used a non-empty selection each of whose nodes has the evidence. */
  lemma TeardownHashIsSound(p: Params, tr: seq<State>, i: nat, v: nat)
    requires IsRun(p, tr) && i < |tr|
    requires tr[i].profile.At(v).Some? && tr[i].profile.At(v).value.status.teardownHash != ""
    ensures exists k :: 0 <= k < |tr[i].ctl.teardowns| &&
                        var o, t := tr[i].profile.At(v).value, tr[i].ctl.teardowns[k];
                        && t.uid == o.uid && t.hash == o.status.teardownHash && t.hash == p.hash(Render(t.spec))
                        && CountedSoundly(p, tr[i].rep.runs, t.selected, t.hash)
  {
    RunKeepsSound(p, tr, i);
    var s, o := tr[i], tr[i].profile.At(v).value;
    assert TornDown(s, o.uid, o.status.teardownHash);
    var k :| 0 <= k < |s.ctl.teardowns| && s.ctl.teardowns[k].uid == o.uid && s.ctl.teardowns[k].hash == o.status.teardownHash;
    TeardownIsSound(p, tr, i, k);
  }

  /** No worker acts on bytes other than those of the DaemonSet version that started it. */
  lemma WorkersRespectTheGate(p: Params, tr: seq<State>, i: nat, r: nat)
    requires IsRun(p, tr) && i < |tr| && r < |tr[i].rep.runs|
    ensures var run := tr[i].rep.runs[r];
            && (run.expected != "" ==> p.hash(run.mounted) == run.expected)
            && exists k: nat :: tr[i].ds.At(k).Some? && tr[i].ds.At(k).value.data.hash == run.expected
  {
    RunKeepsSound(p, tr, i);
  }

  /** The hash tells the rendered bytes of a spec from all other bytes the ConfigMap ever held. */
  ghost predicate Distinguishes(p: Params, s: State, content: string) {
    forall i: nat :: s.cm.At(i).Some? && p.hash(s.cm.At(i).value.data) == p.hash(content) ==> s.cm.At(i).value.data == content
  }

  lemma EvidenceOnContent(p: Params, tr: seq<State>, i: nat, k: nat, n: string) returns (r: nat)
    requires IsRun(p, tr) && i < |tr| && k < |tr[i].ctl.teardowns|
    requires n in tr[i].ctl.teardowns[k].selected
    requires Distinguishes(p, tr[i], Render(tr[i].ctl.teardowns[k].spec))
    ensures r < |tr[i].rep.runs|
    ensures var run := tr[i].rep.runs[r];
            && run.node == n && run.mounted == Render(tr[i].ctl.teardowns[k].spec)
            && (p.kind.ScriptProfile? <==> run.mode.ScriptMode?)
            && Succeeded(run.mode, run.mounted, run.host, run.kernel)
  {
    RunKeepsSound(p, tr, i);
    var s, t := tr[i], tr[i].ctl.teardowns[k];
    assert HasEvidence(p, s.rep.runs, n, t.hash);
    var q :| 0 <= q < |s.rep.runs| && Evidence(p, s.rep.runs[q], n, t.hash);
    assert Genuine(p, s, s.rep.runs[q]);
    var j: nat :| s.cm.At(j).Some? && s.cm.At(j).value.data == s.rep.runs[q].mounted;
    r := q;
  }

  /** A node's worker set this setting: every expanded key was written without failure, or in
      check mode read back as wanted. */
  ghost predicate SettingDone(run: Run, setting: SysctlConf.Sysctl) {
    forall key :: key in Expanded(run.host.dirs, Trim(setting.name)) ==>
      if run.mode.ApplyMode? then run.host.accepts(key, Trim(setting.value))
      else key in run.kernel && Trim(run.kernel[key]) == Trim(setting.value)
  }

  /** End to end for settings: what every counted node ran is what the spec said. */
  lemma SysctlEndToEnd(p: Params, tr: seq<State>, i: nat, k: nat, n: string)
    requires IsRun(p, tr) && i < |tr| && k < |tr[i].ctl.teardowns|
    requires n in tr[i].ctl.teardowns[k].selected && p.kind.SysctlProfile?
    requires tr[i].ctl.teardowns[k].spec.SysctlSpec?
    requires SysctlConf.AllWellFormed(tr[i].ctl.teardowns[k].spec.sysctls)
    requires Distinguishes(p, tr[i], Render(tr[i].ctl.teardowns[k].spec))
    ensures exists r :: 0 <= r < |tr[i].rep.runs| && tr[i].rep.runs[r].node == n &&
                        forall q :: 0 <= q < |tr[i].ctl.teardowns[k].spec.sysctls| ==>
                          SettingDone(tr[i].rep.runs[r], tr[i].ctl.teardowns[k].spec.sysctls[q])
  {
    var r := EvidenceOnContent(p, tr, i, k, n);
    var run, sysctls := tr[i].rep.runs[r], tr[i].ctl.teardowns[k].spec.sysctls;
    SysctlConf.RoundTrip(sysctls);
    forall q | 0 <= q < |sysctls| ensures SettingDone(run, sysctls[q]) {
      SettingFromSuccess(run, sysctls, q);
    }
  }

  lemma SettingFromSuccess(run: Run, sysctls: seq<SysctlConf.Sysctl>, q: nat)
    requires q < |sysctls| && !run.mode.ScriptMode?
    requires SysctlConf.Parsed(run.mounted) == SysctlConf.Normals(sysctls)
    requires Succeeded(run.mode, run.mounted, run.host, run.kernel)
    ensures SettingDone(run, sysctls[q])
  {
    var entries := SysctlConf.Normals(sysctls);
    var targets := Targets(run.host.dirs, entries);
    forall key | key in Expanded(run.host.dirs, Trim(sysctls[q].name))
      ensures if run.mode.ApplyMode? then run.host.accepts(key, Trim(sysctls[q].value))
              else key in run.kernel && Trim(run.kernel[key]) == Trim(sysctls[q].value)
    {
      TargetOf(run.host.dirs, entries, q, key);
      var t := Target(key, Trim(sysctls[q].value));
      assert t in targets;
      var j :| 0 <= j < |targets| && targets[j] == t;
      if !run.mode.ApplyMode? {
        assert Inspect(run.kernel, targets[j]).InSpec?;
      }
    }
  }

  /** End to end for scripts: on every counted node every script of the spec, with its own
      content and interpreter, exited with zero. */
  lemma ScriptEndToEnd(p: Params, tr: seq<State>, i: nat, k: nat, n: string)
    requires IsRun(p, tr) && i < |tr| && k < |tr[i].ctl.teardowns|
    requires n in tr[i].ctl.teardowns[k].selected && p.kind.ScriptProfile?
    requires tr[i].ctl.teardowns[k].spec.ScriptSpec?
    requires ScriptConf.AllWellFormed(tr[i].ctl.teardowns[k].spec.scripts)
    requires Distinguishes(p, tr[i], Render(tr[i].ctl.teardowns[k].spec))
    ensures exists r :: 0 <= r < |tr[i].rep.runs| && tr[i].rep.runs[r].node == n &&
                        forall q :: 0 <= q < |tr[i].ctl.teardowns[k].spec.scripts| ==>
                          tr[i].rep.runs[r].host.exitsZero(ScriptConf.Normal(tr[i].ctl.teardowns[k].spec.scripts[q]))
  {
    var r := EvidenceOnContent(p, tr, i, k, n);
    var run, scripts := tr[i].rep.runs[r], tr[i].ctl.teardowns[k].spec.scripts;
    ScriptConf.RoundTrip(scripts);
    forall q | 0 <= q < |scripts| ensures run.host.exitsZero(ScriptConf.Normal(scripts[q])) {
      var entries := ScriptConf.Normals(scripts);
      assert entries[q] == ScriptConf.Normal(scripts[q]);
      assert run.host.exitsZero(EffectiveScript(entries[q]));
    }
  }
}
