/** Finalizer, cleanup and config ordering: what every reachable state keeps about the
    profile object and the resources it owns. */
module Lifecycle {
  import opened Text
  import opened Api
  import opened Rollout

  // ---------- The invariant ----------

  ghost predicate Bounded<T>(c: Cell<T>) {
    c.seen <= |c.past|
  }

  /** How an earlier version relates to a later one: uids grow, and within one uid neither
      the deletion mark nor the finalizer goes away. */
  ghost predicate Older(a: Obj, b: Obj) {
    && a.uid <= b.uid
    && (a.uid == b.uid && a.deleting ==> b.deleting)
    && (a.uid == b.uid && a.finalizer ==> b.finalizer)
  }

  ghost predicate LogInv(p: Params, s: State) {
    && (forall i: nat :: s.profile.At(i).Some? ==>
          s.profile.At(i).value.uid < s.uids && KindOf(s.profile.At(i).value.spec) == p.kind)
    && (forall i: nat, j: nat :: i <= j && s.profile.At(i).Some? && s.profile.At(j).Some? ==>
          Older(s.profile.At(i).value, s.profile.At(j).value))
  }

  ghost predicate Current(s: State, uid: nat) {
    s.profile.now.Some? && s.profile.now.value.uid == uid
  }

  /** The cache has shown a deletion mark on this uid. */
  ghost predicate SawDeletion(s: State, uid: nat) {
    exists k: nat :: k <= s.profile.seen && s.profile.At(k).Some? && s.profile.At(k).value.uid == uid && s.profile.At(k).value.deleting
  }

  ghost predicate SawSince(s: State, uid: nat) {
    exists k: nat :: k <= s.profile.seen && s.profile.At(k).Some? && s.profile.At(k).value.uid >= uid
  }

  ghost predicate FinalizerInv(s: State) {
    && (forall u :: u in s.ctl.cleaning ==> SawDeletion(s, u))
    && (forall i: nat :: s.profile.At(i).Some? && s.profile.At(i).value.finalizer ==>
          SawSince(s, s.profile.At(i).value.uid))
    && (forall i: nat :: s.profile.At(i).Some? && s.profile.At(i).value.finalizer ==>
          Current(s, s.profile.At(i).value.uid) || s.profile.At(i).value.uid in s.ctl.cleaning)
  }

  predicate Cleaning(pc: Pc) {
    pc.DropDs? || pc.DropCj? || pc.DropCm? || pc.DropFinalizer?
  }

  predicate Working(pc: Pc) {
    pc.PutCm? || pc.PutCj? || pc.ListNodes? || pc.TearDown? || pc.RollOut? || pc.WriteStatus?
  }

  ghost predicate PcInv(p: Params, s: State) {
    var pc := s.ctl.pc;
    !pc.Idle? ==>
      && pc.at <= s.profile.seen
      && s.profile.At(pc.at).Some?
      && var o := s.profile.At(pc.at).value;
         && (Cleaning(pc) ==> o.deleting && o.finalizer && o.uid in s.ctl.cleaning)
         && (pc.AddFinalizer? ==> !o.deleting && !o.finalizer)
         && (Working(pc) ==> !o.deleting && o.finalizer && o.uid !in s.ctl.cleaning)
         && (forall i: nat :: s.profile.At(i).Some? && s.profile.At(i).value.finalizer ==>
               s.profile.At(i).value.uid <= o.uid)
         && (pc.DropCj? || pc.PutCj? ==> p.kind.SysctlProfile?)
  }

  ghost predicate OwnedByLive<T>(s: State, x: Option<Owned<T>>) {
    x.Some? ==> Current(s, x.value.owner) && s.profile.now.value.finalizer
  }

  ghost predicate OwnInv(p: Params, s: State) {
    && OwnedByLive(s, s.cm.now) && OwnedByLive(s, s.ds.now) && OwnedByLive(s, s.cj.now)
    && (p.kind.ScriptProfile? ==> s.cj.now.None?)
    && (s.ctl.pc.DropCj? || s.ctl.pc.DropCm? || s.ctl.pc.DropFinalizer? ==> s.ds.now.None?)
    && (s.ctl.pc.DropCm? || s.ctl.pc.DropFinalizer? ==> s.cj.now.None?)
    && (s.ctl.pc.DropFinalizer? ==> s.cm.now.None?)
  }

  ghost predicate BoundInv(s: State) {
    Bounded(s.profile) && Bounded(s.nodes) && Bounded(s.cm) && Bounded(s.ds) && Bounded(s.cj)
  }

  ghost predicate Inv(p: Params, s: State) {
    BoundInv(s) && LogInv(p, s) && FinalizerInv(s) && PcInv(p, s) && OwnInv(p, s)
  }

  // ---------- Steps that leave the profile's history alone ----------

  /** Nothing the invariant looks at changed. */
  lemma SameView(p: Params, s: State, t: State)
    requires Inv(p, s) && BoundInv(t)
    requires t.profile == s.profile && t.uids == s.uids
    requires t.ctl.pc == s.ctl.pc || t.ctl.pc.Idle?
    requires t.ctl.cleaning == s.ctl.cleaning
    requires t.cm.now == s.cm.now || t.cm.now.None?
    requires t.ds.now == s.ds.now || t.ds.now.None?
    requires t.cj.now == s.cj.now || t.cj.now.None?
    ensures Inv(p, t)
  {
  }

  /** A new version of the same object, with the same or one more finalizer or mark. */
  lemma SameObject(p: Params, s: State, t: State, o: Obj)
    requires Inv(p, s) && s.profile.now.Some?
    requires t.profile == s.profile.Push(Some(o)) && Older(s.profile.now.value, o) && o.uid == s.profile.now.value.uid
    requires o.finalizer == s.profile.now.value.finalizer
    requires KindOf(o.spec) == p.kind
    requires t.uids == s.uids && t.cm == s.cm && t.ds == s.ds && t.cj == s.cj && t.nodes == s.nodes
    requires t.ctl.pc == s.ctl.pc || t.ctl.pc.Idle?
    requires t.ctl.cleaning == s.ctl.cleaning
    ensures Inv(p, t)
  {
    PushKeeps(p, s, t, Some(o));
    NowIsLast(s);
    var n := |s.profile.past|;
    forall i: nat, j: nat | i <= j && t.profile.At(i).Some? && t.profile.At(j).Some?
      ensures Older(t.profile.At(i).value, t.profile.At(j).value)
    {
      assert i <= n ==> Older(s.profile.At(i).value, s.profile.At(n).value);
      assert j <= n ==> Older(s.profile.At(i).value, s.profile.At(j).value);
    }
    assert o.finalizer ==> SawSince(s, o.uid);
  }

  lemma NowIsLast(s: State)
    ensures s.profile.At(|s.profile.past|) == s.profile.now
  {
  }

  /** The versions before a push stay where they were. */
  lemma PushKeeps(p: Params, s: State, t: State, v: Option<Obj>)
    requires Inv(p, s) && t.profile == s.profile.Push(v) && t.ctl.cleaning == s.ctl.cleaning
    ensures forall i: nat :: i <= |s.profile.past| ==> t.profile.At(i) == s.profile.At(i)
    ensures forall i: nat :: i > |s.profile.past| ==> t.profile.At(i) == v
    ensures forall u :: SawDeletion(s, u) ==> SawDeletion(t, u)
    ensures forall u :: SawSince(s, u) ==> SawSince(t, u)
  {
  }

  lemma EnvKeeps(p: Params, s: State, e: Env)
    requires Inv(p, s) && EnvEnabled(p, s, e)
    ensures Inv(p, EnvNext(p, s, e))
  {
    var t := EnvNext(p, s, e);
    NowIsLast(s);
    match e
    case Create(spec) => PushKeeps(p, s, t, t.profile.now);
    case Edit(spec) => SameObject(p, s, t, t.profile.now.value);
    case Remove =>
      if s.profile.now.value.finalizer {
        SameObject(p, s, t, t.profile.now.value);
      } else {
        RemoveKeeps(p, s, t);
      }
    case _ => SameView(p, s, t);
  }

  /** An object without the finalizer goes at once; it owns nothing. */
  lemma RemoveKeeps(p: Params, s: State, t: State)
    requires Inv(p, s) && s.profile.now.Some? && !s.profile.now.value.finalizer
    requires t == s.(profile := s.profile.Push(None))
    ensures Inv(p, t)
  {
    PushKeeps(p, s, t, None);
    forall i: nat | t.profile.At(i).Some? && t.profile.At(i).value.finalizer
      ensures t.profile.At(i).value.uid in t.ctl.cleaning
    {
      assert s.profile.At(i) == t.profile.At(i);
      assert s.profile.At(|s.profile.past|) == s.profile.now;
    }
  }

  lemma SeeKeeps(p: Params, s: State, v: See)
    requires Inv(p, s) && SeeEnabled(s, v)
    ensures Inv(p, SeeNext(s, v))
  {
    var t := SeeNext(s, v);
    match v
    case SeeProfile(i) =>
      assert forall k: nat :: t.profile.At(k) == s.profile.At(k);
      forall u | SawDeletion(s, u) ensures SawDeletion(t, u) {
        var k: nat :| k <= s.profile.seen && s.profile.At(k).Some? && s.profile.At(k).value.uid == u && s.profile.At(k).value.deleting;
        assert t.profile.At(k) == s.profile.At(k);
      }
      forall u | SawSince(s, u) ensures SawSince(t, u) {
        var k: nat :| k <= s.profile.seen && s.profile.At(k).Some? && s.profile.At(k).value.uid >= u;
        assert t.profile.At(k) == s.profile.At(k);
      }
    case _ => SameView(p, s, t);
  }

  lemma StartKeeps(p: Params, s: State)
    requires Inv(p, s) && s.ctl.pc.Idle?
    ensures Inv(p, StartNext(s))
  {
    var t := StartNext(s);
    var at := s.profile.seen;
    if s.profile.At(at).Some? {
      var o := s.profile.At(at).value;
      forall i: nat | s.profile.At(i).Some? && s.profile.At(i).value.finalizer
        ensures s.profile.At(i).value.uid <= o.uid
      {
        assert SawSince(s, s.profile.At(i).value.uid);
      }
      if o.uid in s.ctl.cleaning {
        assert SawDeletion(s, o.uid);
        assert o.deleting;
      }
      if o.deleting {
        assert SawDeletion(t, o.uid);
      }
      forall u | u in s.ctl.cleaning ensures SawDeletion(t, u) {
        assert SawDeletion(s, u);
      }
    }
  }

  /** While a cleanup pass runs, whatever is owned belongs to the uid being cleaned up. */
  lemma CleanKeeps(p: Params, s: State)
    requires Inv(p, s) && Cleaning(s.ctl.pc) && CleanCall(p, s).Some?
    ensures Inv(p, CleanCall(p, s).value)
  {
    var t := CleanCall(p, s).value;
    if s.ctl.pc.DropFinalizer? {
      DropFinalizerKeeps(p, s, t);
    } else {
      DropKeeps(p, s, t);
    }
  }

  /** The finalizer goes only when nothing is owned any more. */
  lemma DropFinalizerKeeps(p: Params, s: State, t: State)
    requires Inv(p, s) && s.ctl.pc.DropFinalizer? && s.ctl.pc.at == |s.profile.past|
    requires t == s.(profile := s.profile.Push(None), ctl := s.ctl.(pc := Idle))
    ensures Inv(p, t)
  {
    PushKeeps(p, s, t, None);
    assert s.profile.At(s.ctl.pc.at) == s.profile.now;
  }

  /** A cleanup pass moves on after deleting what it says it deleted. */
  lemma CleanMove(p: Params, s: State, t: State)
    requires Inv(p, s) && Cleaning(s.ctl.pc) && Cleaning(t.ctl.pc) && t.ctl.pc.at == s.ctl.pc.at
    requires BoundInv(t) && t.profile == s.profile && t.uids == s.uids && t.ctl.cleaning == s.ctl.cleaning
    requires t.cm.now == s.cm.now || t.cm.now.None?
    requires t.ds.now == s.ds.now || t.ds.now.None?
    requires t.cj.now == s.cj.now || t.cj.now.None?
    requires t.ctl.pc.DropCj? ==> p.kind.SysctlProfile?
    requires t.ctl.pc.DropDs? || t.ds.now.None?
    requires t.ctl.pc.DropDs? || t.ctl.pc.DropCj? || t.cj.now.None?
    requires t.ctl.pc.DropFinalizer? ==> t.cm.now.None?
    ensures Inv(p, t)
  {
  }

  lemma DropKeeps(p: Params, s: State, t: State)
    requires Inv(p, s) && Cleaning(s.ctl.pc) && !s.ctl.pc.DropFinalizer?
    requires Some(t) == CleanCall(p, s)
    ensures Inv(p, t)
  {
    CleanMove(p, s, t);
  }

  /** A working pass puts resources only for the current, finalized object. */
  lemma WorkingIsCurrent(p: Params, s: State)
    requires Inv(p, s) && Working(s.ctl.pc)
    ensures Current(s, Snapshot(s).value.uid) && s.profile.now.value.finalizer
  {
    var o := s.profile.At(s.ctl.pc.at).value;
    assert s.profile.At(|s.profile.past|) == s.profile.now;
  }

  lemma PutKeeps(p: Params, s: State)
    requires Inv(p, s) && !s.ctl.pc.Idle?
    requires PutCall(p, s, Snapshot(s).value).Some?
    ensures Inv(p, PutCall(p, s, Snapshot(s).value).value)
  {
    var o := Snapshot(s).value;
    var t := PutCall(p, s, o).value;
    if s.ctl.pc.AddFinalizer? {
      AddFinalizerKeeps(p, s, t);
    } else {
      WorkingIsCurrent(p, s);
      PutOwner(p, s, t, o);
      OwnedKeeps(p, s, t);
    }
  }

  lemma PutOwner(p: Params, s: State, t: State, o: Obj)
    requires BoundInv(s) && Working(s.ctl.pc) && Some(t) == PutCall(p, s, o)
    ensures t == s.(cm := t.cm, ds := t.ds, cj := t.cj, ctl := s.ctl.(pc := t.ctl.pc))
    ensures BoundInv(t) && Working(t.ctl.pc) && t.ctl.pc.at == s.ctl.pc.at
    ensures t.cm.now == s.cm.now || (t.cm.now.Some? && t.cm.now.value.owner == o.uid)
    ensures t.ds.now == s.ds.now || (t.ds.now.Some? && t.ds.now.value.owner == o.uid)
    ensures t.cj == s.cj || t.cj.now == s.cj.now || t.cj.now.None? || (t.cj.now.Some? && t.cj.now.value.owner == o.uid)
    ensures t.cj.now.Some? && t.cj != s.cj ==> s.ctl.pc.PutCj?
  {
  }

  lemma OwnedKeeps(p: Params, s: State, t: State)
    requires Inv(p, s) && Working(s.ctl.pc)
    requires Current(s, Snapshot(s).value.uid) && s.profile.now.value.finalizer
    requires BoundInv(t) && Working(t.ctl.pc) && t.ctl.pc.at == s.ctl.pc.at
    requires t.profile == s.profile && t.uids == s.uids && t.ctl.cleaning == s.ctl.cleaning
    requires t.cm.now == s.cm.now || OwnedByLive(s, t.cm.now)
    requires t.ds.now == s.ds.now || OwnedByLive(s, t.ds.now)
    requires t.cj.now == s.cj.now || t.cj.now.None? || (OwnedByLive(s, t.cj.now) && p.kind.SysctlProfile?)
    requires t.ctl.pc.PutCj? ==> p.kind.SysctlProfile?
    ensures Inv(p, t)
  {
  }

  lemma AddFinalizerKeeps(p: Params, s: State, t: State)
    requires Inv(p, s) && s.ctl.pc.AddFinalizer?
    requires Some(t) == PutCall(p, s, Snapshot(s).value)
    ensures Inv(p, t)
  {
    PushKeeps(p, s, t, t.profile.now);
    var at := s.ctl.pc.at;
    assert s.profile.At(at) == s.profile.now;
    assert SawSince(s, s.profile.now.value.uid);
    assert t.profile.now.value.uid == s.profile.now.value.uid;
  }

  lemma DecideKeeps(p: Params, s: State)
    requires Inv(p, s) && Working(s.ctl.pc)
    requires DecideCall(p, s, Snapshot(s).value).Some?
    ensures Inv(p, DecideCall(p, s, Snapshot(s).value).value)
  {
    var t := DecideCall(p, s, Snapshot(s).value).value;
    if s.ctl.pc.WriteStatus? {
      StatusKeeps(p, s, t);
    } else {
      WorkMove(p, s, t);
    }
  }

  /** A working pass moves on, at most having deleted the DaemonSet. */
  lemma WorkMove(p: Params, s: State, t: State)
    requires Inv(p, s) && Working(s.ctl.pc) && Working(t.ctl.pc) && t.ctl.pc.at == s.ctl.pc.at && !t.ctl.pc.PutCj?
    requires BoundInv(t) && t.profile == s.profile && t.uids == s.uids && t.ctl.cleaning == s.ctl.cleaning
    requires t.cm == s.cm && t.cj == s.cj && (t.ds.now == s.ds.now || t.ds.now.None?)
    ensures Inv(p, t)
  {
  }

  lemma StatusKeeps(p: Params, s: State, t: State)
    requires Inv(p, s) && s.ctl.pc.WriteStatus?
    requires Some(t) == DecideCall(p, s, Snapshot(s).value)
    ensures Inv(p, t)
  {
    if t.profile == s.profile {
      SameView(p, s, t);
    } else {
      assert s.profile.At(s.ctl.pc.at) == s.profile.now;
      SameObject(p, s, t, t.profile.now.value);
    }
  }

  lemma DealKeeps(p: Params, s: State, d: Deal)
    requires Inv(p, s) && DealEnabled(s, d)
    ensures Inv(p, DealNext(p, s, d))
  {
    var t := DealNext(p, s, d);
    if d.Commit? && s.rep.handlers[d.run].at == |s.profile.past| {
      SameObject(p, s, t, t.profile.now.value);
    } else {
      SameView(p, s, t);
    }
  }

  lemma StepKeeps(p: Params, s: State, step: Step)
    requires Inv(p, s) && Enabled(p, s, step)
    ensures Inv(p, Next(p, s, step))
  {
    match step
    case EnvStep(e) => EnvKeeps(p, s, e);
    case SeeStep(v) => SeeKeeps(p, s, v);
    case Start => StartKeeps(p, s);
    case Call =>
      if Cleaning(s.ctl.pc) {
        CleanKeeps(p, s);
      } else if s.ctl.pc.ListNodes? || s.ctl.pc.TearDown? || s.ctl.pc.WriteStatus? {
        DecideKeeps(p, s);
      } else {
        PutKeeps(p, s);
      }
    case Fail => SameView(p, s, FailNext(s));
    case Work(j) => SameView(p, s, Next(p, s, step));
    case DealStep(d) => DealKeeps(p, s, d);
  }

  // ---------- ConfigMap before DaemonSet ----------

  ghost predicate Wrote(s: State, uid: nat, content: string) {
    exists i: nat :: s.cm.At(i) == Some(Owned(uid, content))
  }

  predicate ConfigPut(pc: Pc) {
    Working(pc) && !pc.PutCm?
  }

  /** Some ConfigMap version of the same profile object has this hash. */
  ghost predicate HashWritten(p: Params, s: State, d: Owned<Template>) {
    exists i: nat :: s.cm.At(i).Some? && s.cm.At(i).value.owner == d.owner && p.hash(s.cm.At(i).value.data) == d.data.hash
  }

  ghost predicate OrderInv(p: Params, s: State) {
    && (!s.tampered ==>
          forall i: nat :: s.cm.At(i).Some? ==>
            || (s.cm.now.Some? && s.cm.now.value.owner == s.cm.At(i).value.owner)
            || s.cm.At(i).value.owner in s.ctl.cleaning)
    && (ConfigPut(s.ctl.pc) && s.profile.At(s.ctl.pc.at).Some? ==>
          var o := s.profile.At(s.ctl.pc.at).value; Wrote(s, o.uid, Render(o.spec)))
    && (!s.tampered && s.ds.now.Some? ==> s.cm.now.Some?)
    && (forall i: nat :: s.ds.At(i).Some? ==> HashWritten(p, s, s.ds.At(i).value))
  }

  /** The part of the ordering that a step leaves alone if neither resource changes. */
  lemma OrderSame(p: Params, s: State, t: State)
    requires Inv(p, s) && OrderInv(p, s)
    requires t.cm.past == s.cm.past && t.cm.now == s.cm.now && t.ds.past == s.ds.past && t.ds.now == s.ds.now
    requires s.ctl.cleaning <= t.ctl.cleaning && t.tampered == s.tampered
    requires ConfigPut(t.ctl.pc) ==> ConfigPut(s.ctl.pc) && t.ctl.pc.at == s.ctl.pc.at
    requires forall i: nat :: i <= |s.profile.past| ==> t.profile.At(i) == s.profile.At(i)
    ensures OrderInv(p, t)
  {
    assert forall i: nat :: t.cm.At(i) == s.cm.At(i);
    assert forall i: nat :: t.ds.At(i) == s.ds.At(i);
    forall u, c | Wrote(s, u, c) ensures Wrote(t, u, c) {
      var i: nat :| s.cm.At(i) == Some(Owned(u, c));
      assert t.cm.At(i) == Some(Owned(u, c));
    }
    forall i: nat | t.ds.At(i).Some? ensures HashWritten(p, t, t.ds.At(i).value) {
      HashStays(p, s, t, s.ds.At(i).value);
    }
  }

  lemma HashStays(p: Params, s: State, t: State, d: Owned<Template>)
    requires HashWritten(p, s, d)
    requires forall i: nat :: i <= |s.cm.past| ==> t.cm.At(i) == s.cm.At(i)
    ensures HashWritten(p, t, d)
  {
    var i: nat :| s.cm.At(i).Some? && s.cm.At(i).value.owner == d.owner && p.hash(s.cm.At(i).value.data) == d.data.hash;
    var k := if i <= |s.cm.past| then i else |s.cm.past|;
    assert s.cm.At(k) == s.cm.At(i);
    assert t.cm.At(k) == s.cm.At(k);
  }

  /** Deleting either resource. */
  lemma OrderDelete(p: Params, s: State, t: State)
    requires Inv(p, s) && OrderInv(p, s)
    requires t.profile == s.profile && s.ctl.cleaning <= t.ctl.cleaning
    requires t.ds == s.ds || t.ds == Delete(s.ds)
    requires t.cm == s.cm || t.cm == Delete(s.cm)
    requires t.cm != s.cm ==> t.tampered || (t.ds.now.None? && s.cm.now.value.owner in t.ctl.cleaning)
    requires s.tampered ==> t.tampered
    requires ConfigPut(t.ctl.pc) ==> ConfigPut(s.ctl.pc) && t.ctl.pc.at == s.ctl.pc.at
    ensures OrderInv(p, t)
  {
    assert forall i: nat :: i <= |s.cm.past| ==> t.cm.At(i) == s.cm.At(i);
    forall u, c | Wrote(s, u, c) ensures Wrote(t, u, c) {
      WroteStays(s, t, u, c);
    }
    forall i: nat | t.ds.At(i).Some? ensures HashWritten(p, t, t.ds.At(i).value) {
      var k := if i <= |s.ds.past| then i else |s.ds.past|;
      assert t.ds.At(i) == s.ds.At(k);
      HashStays(p, s, t, s.ds.At(k).value);
    }
    if !t.tampered {
      forall i: nat | t.cm.At(i).Some?
        ensures (t.cm.now.Some? && t.cm.now.value.owner == t.cm.At(i).value.owner) || t.cm.At(i).value.owner in t.ctl.cleaning
      {
        assert t.cm.At(i) == s.cm.At(i);
      }
    }
  }

  lemma WroteStays(s: State, t: State, u: nat, c: string)
    requires Wrote(s, u, c)
    requires forall i: nat :: i <= |s.cm.past| ==> t.cm.At(i) == s.cm.At(i)
    ensures Wrote(t, u, c)
  {
    var i: nat :| s.cm.At(i) == Some(Owned(u, c));
    var k := if i <= |s.cm.past| then i else |s.cm.past|;
    assert s.cm.At(k) == s.cm.At(i);
    assert t.cm.At(k) == s.cm.At(k);
  }

  /** During a cleanup pass the ConfigMap, if any, belongs to the uid being cleaned up. */
  lemma CleaningOwner(p: Params, s: State)
    requires Inv(p, s) && Cleaning(s.ctl.pc) && s.cm.now.Some?
    ensures s.cm.now.value.owner in s.ctl.cleaning
  {
    NowIsLast(s);
    assert Older(s.profile.At(s.ctl.pc.at).value, s.profile.now.value);
  }

  lemma OrderPutCm(p: Params, s: State, t: State)
    requires Inv(p, s) && OrderInv(p, s) && s.ctl.pc.PutCm?
    requires Some(t) == PutCall(p, s, Snapshot(s).value)
    ensures OrderInv(p, t)
  {
    var o := Snapshot(s).value;
    assert forall i: nat :: i <= |s.cm.past| ==> t.cm.At(i) == s.cm.At(i);
    assert t.cm != s.cm ==> t.cm.At(|t.cm.past|) == Some(Owned(o.uid, Render(o.spec)));
    assert t.cm == s.cm ==> t.cm.At(s.cm.seen) == Some(Owned(o.uid, Render(o.spec)));
    forall i: nat | t.ds.At(i).Some? ensures HashWritten(p, t, t.ds.At(i).value) {
      HashStays(p, s, t, s.ds.At(i).value);
    }
    if !t.tampered && t.cm != s.cm {
      forall i: nat | t.cm.At(i).Some?
        ensures t.cm.now.value.owner == t.cm.At(i).value.owner || t.cm.At(i).value.owner in t.ctl.cleaning
      {
        assert i <= |s.cm.past| ==> t.cm.At(i) == s.cm.At(i);
        assert s.cm.At(|s.cm.past|) == s.cm.now;
      }
    }
  }

  lemma OrderRollOut(p: Params, s: State, t: State)
    requires Inv(p, s) && OrderInv(p, s) && s.ctl.pc.RollOut?
    requires Some(t) == PutCall(p, s, Snapshot(s).value)
    ensures OrderInv(p, t)
  {
    var o := Snapshot(s).value;
    assert forall i: nat :: t.cm.At(i) == s.cm.At(i);
    WroteStays(s, t, o.uid, Render(o.spec));
    var j: nat :| s.cm.At(j) == Some(Owned(o.uid, Render(o.spec)));
    assert t.cm.At(j).Some?;
    forall i: nat | t.ds.At(i).Some? ensures HashWritten(p, t, t.ds.At(i).value) {
      if i <= |s.ds.past| || t.ds == s.ds {
        HashStays(p, s, t, s.ds.At(i).value);
      } else {
        assert t.ds.At(i).value == Owned(o.uid, Template(p.hash(Render(o.spec)), o.spec.selector.matchLabels));
      }
    }
  }

  lemma OrderClean(p: Params, s: State)
    requires Inv(p, s) && OrderInv(p, s) && Cleaning(s.ctl.pc) && CleanCall(p, s).Some?
    ensures OrderInv(p, CleanCall(p, s).value)
  {
    var t := CleanCall(p, s).value;
    match s.ctl.pc
    case DropDs(_) => OrderDelete(p, s, t);
    case DropCm(_) =>
      if s.cm.now.Some? {
        CleaningOwner(p, s);
      }
      OrderDelete(p, s, t);
    case _ => OrderSame(p, s, t);
  }

  lemma OrderDecide(p: Params, s: State)
    requires Inv(p, s) && OrderInv(p, s) && Working(s.ctl.pc)
    requires DecideCall(p, s, Snapshot(s).value).Some?
    ensures OrderInv(p, DecideCall(p, s, Snapshot(s).value).value)
  {
    var t := DecideCall(p, s, Snapshot(s).value).value;
    if s.ctl.pc.TearDown? {
      OrderDelete(p, s, t);
    } else {
      OrderSame(p, s, t);
    }
  }

  lemma OrderPut(p: Params, s: State)
    requires Inv(p, s) && OrderInv(p, s) && !s.ctl.pc.Idle?
    requires PutCall(p, s, Snapshot(s).value).Some?
    ensures OrderInv(p, PutCall(p, s, Snapshot(s).value).value)
  {
    var t := PutCall(p, s, Snapshot(s).value).value;
    match s.ctl.pc
    case PutCm(_) => OrderPutCm(p, s, t);
    case RollOut(_, _) => OrderRollOut(p, s, t);
    case _ => OrderSame(p, s, t);
  }

  lemma OrderCall(p: Params, s: State)
    requires Inv(p, s) && OrderInv(p, s) && CallNext(p, s).Some?
    ensures OrderInv(p, CallNext(p, s).value)
  {
    if Cleaning(s.ctl.pc) {
      OrderClean(p, s);
    } else if s.ctl.pc.ListNodes? || s.ctl.pc.TearDown? || s.ctl.pc.WriteStatus? {
      OrderDecide(p, s);
    } else {
      OrderPut(p, s);
    }
  }

  lemma OrderEnv(p: Params, s: State, e: Env)
    requires Inv(p, s) && OrderInv(p, s) && EnvEnabled(p, s, e)
    ensures OrderInv(p, EnvNext(p, s, e))
  {
    if e.LoseDs? || e.LoseCm? {
      OrderDelete(p, s, EnvNext(p, s, e));
    } else {
      OrderSame(p, s, EnvNext(p, s, e));
    }
  }

  lemma OrderDeal(p: Params, s: State, d: Deal)
    requires Inv(p, s) && OrderInv(p, s) && DealEnabled(s, d)
    ensures OrderInv(p, DealNext(p, s, d))
  {
  }

  lemma OrderSee(p: Params, s: State, v: See)
    requires Inv(p, s) && OrderInv(p, s)
    ensures OrderInv(p, SeeNext(s, v))
  {
    OrderSame(p, s, SeeNext(s, v));
  }

  lemma OrderKeeps(p: Params, s: State, step: Step)
    requires Inv(p, s) && OrderInv(p, s) && Enabled(p, s, step)
    ensures OrderInv(p, Next(p, s, step))
  {
    match step
    case EnvStep(e) => OrderEnv(p, s, e);
    case SeeStep(v) => OrderSee(p, s, v);
    case Start => OrderSame(p, s, StartNext(s));
    case Call => OrderCall(p, s);
    case Fail => OrderSame(p, s, FailNext(s));
    case Work(_) => OrderSame(p, s, Next(p, s, step));
    case DealStep(d) => OrderDeal(p, s, d);
  }

  // ---------- Over whole runs ----------

  lemma InitKeeps(p: Params, s: State)
    requires Init(s)
    ensures Inv(p, s) && OrderInv(p, s)
  {
  }

  lemma AtStepKeeps(p: Params, tr: seq<State>, i: nat)
    requires IsRun(p, tr) && 0 < i < |tr| && Inv(p, tr[i - 1]) && OrderInv(p, tr[i - 1])
    ensures Inv(p, tr[i]) && OrderInv(p, tr[i])
  {
    assert StepAt(p, tr, i - 1);
    var step :| Enabled(p, tr[i - 1], step) && tr[i] == Next(p, tr[i - 1], step);
    StepKeeps(p, tr[i - 1], step);
    OrderKeeps(p, tr[i - 1], step);
  }

  lemma {:induction false} RunKeeps(p: Params, tr: seq<State>, i: nat)
    requires IsRun(p, tr) && i < |tr|
    ensures Inv(p, tr[i]) && OrderInv(p, tr[i])
  {
    if i == 0 {
      InitKeeps(p, tr[i]);
    } else {
      RunKeeps(p, tr, i - 1);
      AtStepKeeps(p, tr, i);
    }
  }

  /** In every state of every run, with stale caches and failing calls, a ConfigMap, DaemonSet
      or CronJob exists only while the profile object that owns it exists and carries the
      finalizer. */
  lemma FinalizerGuardsResources(p: Params, tr: seq<State>, i: nat)
    requires IsRun(p, tr) && i < |tr|
    ensures OwnedByLive(tr[i], tr[i].cm.now) && OwnedByLive(tr[i], tr[i].ds.now) && OwnedByLive(tr[i], tr[i].cj.now)
  {
    RunKeeps(p, tr, i);
  }

  ghost predicate Owns<T>(x: Option<Owned<T>>, uid: nat) {
    x.Some? && x.value.owner == uid
  }

  lemma GoneStaysGone(p: Params, s: State, step: Step, uid: nat)
    requires Inv(p, s) && Enabled(p, s, step)
    requires uid < s.uids && !Current(s, uid)
    ensures uid < Next(p, s, step).uids && !Current(Next(p, s, step), uid)
  {
    match step
    case EnvStep(e) => assert Next(p, s, step) == EnvNext(p, s, e);
    case Call => GoneAtCall(p, s, uid);
    case _ =>
  }

  lemma GoneAtCall(p: Params, s: State, uid: nat)
    requires Inv(p, s) && CallNext(p, s).Some?
    requires uid < s.uids && !Current(s, uid)
    ensures uid < CallNext(p, s).value.uids && !Current(CallNext(p, s).value, uid)
  {
  }

  lemma GoneAtStep(p: Params, tr: seq<State>, k: nat, uid: nat)
    requires IsRun(p, tr) && k < |tr| - 1
    requires uid < tr[k].uids && !Current(tr[k], uid)
    ensures uid < tr[k + 1].uids && !Current(tr[k + 1], uid)
  {
    RunKeeps(p, tr, k);
    assert StepAt(p, tr, k);
    var step :| Enabled(p, tr[k], step) && tr[k + 1] == Next(p, tr[k], step);
    GoneStaysGone(p, tr[k], step, uid);
  }

  lemma {:induction false} GoneForGood(p: Params, tr: seq<State>, i: nat, j: nat, uid: nat)
    requires IsRun(p, tr) && i <= j < |tr|
    requires uid < tr[i].uids && !Current(tr[i], uid)
    ensures uid < tr[j].uids && !Current(tr[j], uid)
    decreases j
  {
    if i < j {
      GoneForGood(p, tr, i, j - 1, uid);
      GoneAtStep(p, tr, j - 1, uid);
    }
  }

  /** Once an object is gone, no later step of the run brings back anything it owned. */
  lemma NothingComesBack(p: Params, tr: seq<State>, i: nat, j: nat, uid: nat)
    requires IsRun(p, tr) && i <= j < |tr|
    requires uid < tr[i].uids && !Current(tr[i], uid)
    ensures !Owns(tr[j].cm.now, uid) && !Owns(tr[j].ds.now, uid) && !Owns(tr[j].cj.now, uid)
  {
    GoneForGood(p, tr, i, j, uid);
    FinalizerGuardsResources(p, tr, j);
  }

  /** In every state of every run, unless somebody else deleted the ConfigMap, a DaemonSet
      exists only if its ConfigMap does; and every version of the DaemonSet ever carried the
      hash of a ConfigMap content written before. */
  lemma ConfigBeforeDaemonSet(p: Params, tr: seq<State>, i: nat)
    requires IsRun(p, tr) && i < |tr|
    ensures !tr[i].tampered && tr[i].ds.now.Some? ==>
              tr[i].cm.now.Some? && tr[i].cm.now.value.owner == tr[i].ds.now.value.owner
    ensures forall k: nat :: tr[i].ds.At(k).Some? ==> HashWritten(p, tr[i], tr[i].ds.At(k).value)
  {
    RunKeeps(p, tr, i);
  }
}
