/** The rollout protocol of one profile as a step relation: the versioned API store with
    stale caches, one reconciler whose passes are split at their API calls, any number of
    report handlers, worker pods, and an environment that edits, deletes and churns. */
module Rollout {
  import opened Text
  import opened Ledger
  import opened Selection
  import opened Api
  import opened Worker

  // ---------- Versioned objects with a cache ----------

  /** All versions an object had, and which one the manager's cache shows. */
  datatype Cell<T> = Cell(past: seq<T>, now: T, seen: nat) {
    function At(i: nat): T {
      if i < |past| then past[i] else now
    }

    function Cached(): T {
      At(seen)
    }

    predicate Fresh() {
      seen == |past|
    }

    function Push(v: T): Cell<T> {
      Cell(past + [now], v, seen)
    }
  }

  /** `CreateOrUpdate`: reads the cache, then creates, updates or leaves the object. It fails
      on a foreign owner, on creating what exists, and on updating a stale version. */
  function Put<T(==)>(c: Cell<Option<Owned<T>>>, want: Owned<T>): Option<Cell<Option<Owned<T>>>> {
    match c.Cached()
    case None => if c.now.None? then Some(c.Push(Some(want))) else None
    case Some(x) =>
      if x.owner != want.owner then None
      else if x == want then Some(c)
      else if c.Fresh() then Some(c.Push(Some(want)))
      else None
  }

  /** `Delete` by name, ignoring not-found. */
  function Delete<T>(c: Cell<Option<Owned<T>>>): Cell<Option<Owned<T>>> {
    if c.now.None? then c else c.Push(None)
  }

  // ---------- State ----------

  /** Where a reconcile pass is; `at` is the version of the profile it read. */
  datatype Pc =
    | Idle
    | AddFinalizer(at: nat)
    | DropDs(at: nat) | DropCj(at: nat) | DropCm(at: nat) | DropFinalizer(at: nat)
    | PutCm(at: nat) | PutCj(at: nat) | ListNodes(at: nat)
    | TearDown(at: nat, selected: set<string>)
    | RollOut(at: nat, selected: set<string>)
    | WriteStatus(at: nat, selected: set<string>, complete: bool)

  /** A working pass that ended without an error. */
  datatype Pass = Pass(at: nat, selected: set<string>, complete: bool)

  /** A deletion of the DaemonSet by the rollout branch. */
  datatype Teardown = Teardown(uid: nat, spec: Spec, selected: set<string>, hash: string)

  datatype Control = Control(
    queued: bool,
    pc: Pc,
    last: Option<Pass>,         // history: the last pass, if no pass has started since
    gone: bool,                 // history: a node deletion was seen since the last node list
    cleaning: set<nat>,         // history: the uids whose cleanup has begun
    teardowns: seq<Teardown>    // history
  )

  /** One worker process that passed the hash gate, on which version of the node list and from
      which version of the DaemonSet its pod was placed, and the report it sent. */
  datatype Run = Run(mode: Mode, node: string, nodeAt: nat, dsAt: nat, mounted: string, expected: string,
                     host: Host, kernel: Kernel, report: Report)

  datatype Handler =
    | Fetching(left: nat)
    | Writing(left: nat, at: nat)
    | Committed                 // the status update was accepted
    | Recorded                  // and the metric counted
    | Lost                      // committed, then the handler died before counting
    | Ignored                   // the profile was gone
    | GaveUp

  datatype Reports = Reports(
    runs: seq<Run>,
    handlers: map<nat, Handler>,
    commits: seq<nat>,          // history: the runs whose reports were committed, in order
    base: nat,                  // history: how many of them went to earlier incarnations
    metric: multiset<string>    // the errored counter of each node
  )

  datatype State = State(
    profile: Cell<Option<Obj>>,
    nodes: Cell<Nodes>,
    cm: Cell<Option<Owned<string>>>,
    ds: Cell<Option<Owned<Template>>>,
    cj: Cell<Option<Owned<CronJob>>>,
    ctl: Control,
    rep: Reports,
    uids: nat,
    tampered: bool              // history: somebody else deleted the ConfigMap
  )

  /** The attempts of client-go's default retry. */
  const MAX_ATTEMPTS := 5

  ghost predicate Init(s: State) {
    && s.profile == Cell([], None, 0) && s.cm == Cell([], None, 0) && s.ds == Cell([], None, 0) && s.cj == Cell([], None, 0)
    && s.nodes.past == [] && s.nodes.seen == 0
    && s.ctl == Control(false, Idle, None, false, {}, [])
    && s.rep == Reports([], map[], [], 0, multiset{})
    && s.uids == 0 && !s.tampered
  }

  // ---------- The environment ----------

  datatype Env =
    | Create(spec: Spec) | Edit(spec: Spec) | Remove
    | SetNode(name: string, labels: Labels) | RemoveNode(name: string)
    | LoseDs | LoseCj | LoseCm
    | Requeue

  predicate EnvEnabled(p: Params, s: State, e: Env) {
    match e
    case Create(spec) => s.profile.now.None? && KindOf(spec) == p.kind
    case Edit(spec) => s.profile.now.Some? && KindOf(spec) == p.kind
    case Remove => s.profile.now.Some? && !s.profile.now.value.deleting
    case _ => true
  }

  /** Deleting an object with a finalizer only marks it. */
  function Removed(o: Obj): Option<Obj> {
    if o.finalizer then Some(o.(deleting := true, generation := o.generation + 1)) else None
  }

  function EnvNext(p: Params, s: State, e: Env): State
    requires EnvEnabled(p, s, e)
  {
    match e
    case Create(spec) =>
      s.(profile := s.profile.Push(Some(Obj(s.uids, 1, spec, false, false, EMPTY_STATUS))),
         uids := s.uids + 1, rep := s.rep.(base := |s.rep.commits|))
    case Edit(spec) =>
      var o := s.profile.now.value;
      s.(profile := s.profile.Push(Some(o.(spec := spec, generation := o.generation + 1))))
    case Remove => s.(profile := s.profile.Push(Removed(s.profile.now.value)))
    case SetNode(name, labels) => s.(nodes := s.nodes.Push(s.nodes.now[name := labels]))
    case RemoveNode(name) => s.(nodes := s.nodes.Push(s.nodes.now - {name}))
    case LoseDs => s.(ds := Delete(s.ds))
    case LoseCj => s.(cj := Delete(s.cj))
    case LoseCm => s.(cm := Delete(s.cm), tampered := true)
    case Requeue => s.(ctl := s.ctl.(queued := true))
  }

  // ---------- The caches ----------

  datatype See = SeeProfile(i: nat) | SeeNodes(i: nat) | SeeCm(i: nat) | SeeDs(i: nat) | SeeCj(i: nat)

  predicate Ahead<T>(c: Cell<T>, i: nat) {
    c.seen < i <= |c.past|
  }

  predicate SeeEnabled(s: State, v: See) {
    match v
    case SeeProfile(i) => Ahead(s.profile, i)
    case SeeNodes(i) => Ahead(s.nodes, i)
    case SeeCm(i) => Ahead(s.cm, i)
    case SeeDs(i) => Ahead(s.ds, i)
    case SeeCj(i) => Ahead(s.cj, i)
  }

  /** Whether the node events between two cached lists enqueue the cached profile. */
  predicate NodesEnqueue(cached: Option<Obj>, before: Nodes, after: Nodes) {
    cached.Some? && ListEnqueues(cached.value.spec.selector, before, after)
  }

  /** A cache only moves forward; events of the profile and of what it owns enqueue it,
      events of nodes only as the predicate lets them. */
  function SeeNext(s: State, v: See): State {
    match v
    case SeeProfile(i) => s.(profile := s.profile.(seen := i), ctl := s.ctl.(queued := true))
    case SeeNodes(i) =>
      var before, after := s.nodes.Cached(), s.nodes.At(i);
      s.(nodes := s.nodes.(seen := i),
         ctl := s.ctl.(queued := s.ctl.queued || NodesEnqueue(s.profile.Cached(), before, after),
                       gone := s.ctl.gone || !(before.Keys <= after.Keys)))
    case SeeCm(i) => s.(cm := s.cm.(seen := i), ctl := s.ctl.(queued := true))
    case SeeDs(i) => s.(ds := s.ds.(seen := i), ctl := s.ctl.(queued := true))
    case SeeCj(i) => s.(cj := s.cj.(seen := i), ctl := s.ctl.(queued := true))
  }

  // ---------- The reconciler ----------

  function FirstPc(cached: Option<Obj>, at: nat): Pc {
    match cached
    case None => Idle
    case Some(o) =>
      if o.deleting then if o.finalizer then DropDs(at) else Idle
      else if !o.finalizer then AddFinalizer(at)
      else PutCm(at)
  }

  /** A pass starts by taking the key off the queue and reading the cached profile. */
  function StartNext(s: State): State {
    var pc := FirstPc(s.profile.Cached(), s.profile.seen);
    s.(ctl := s.ctl.(queued := false, pc := pc, last := None,
                     cleaning := if pc.DropDs? then s.ctl.cleaning + {s.profile.Cached().value.uid} else s.ctl.cleaning))
  }

  /** The profile version the running pass works on. */
  function Snapshot(s: State): Option<Obj> {
    if s.ctl.pc.Idle? then None else s.profile.At(s.ctl.pc.at)
  }

  function Goto(s: State, pc: Pc): State {
    s.(ctl := s.ctl.(pc := pc))
  }

  function Finish(s: State, at: nat, selected: set<string>, complete: bool): State {
    s.(ctl := s.ctl.(pc := Idle, last := Some(Pass(at, selected, complete))))
  }

  /** Cleanup, then removal of the finalizer and with it of the object. */
  function CleanCall(p: Params, s: State): Option<State> {
    match s.ctl.pc
    case DropDs(at) => Some(Goto(s, if p.kind.SysctlProfile? then DropCj(at) else DropCm(at)).(ds := Delete(s.ds)))
    case DropCj(at) => Some(Goto(s, DropCm(at)).(cj := Delete(s.cj)))
    case DropCm(at) => Some(Goto(s, DropFinalizer(at)).(cm := Delete(s.cm)))
    case DropFinalizer(at) =>
      if at == |s.profile.past| then Some(Goto(s, Idle).(profile := s.profile.Push(None))) else None
    case _ => None
  }

  /** The calls that put the profile's resources in place. */
  function PutCall(p: Params, s: State, o: Obj): Option<State> {
    var hash := p.hash(Render(o.spec));
    match s.ctl.pc
    case AddFinalizer(at) =>
      if at == |s.profile.past|
      then Some(Goto(s, Idle).(profile := s.profile.Push(Some(o.(finalizer := true))))) else None
    case PutCm(at) =>
      (match Put(s.cm, Owned(o.uid, Render(o.spec)))
       case None => None
       case Some(cm) => Some(Goto(s, if p.kind.SysctlProfile? then PutCj(at) else ListNodes(at)).(cm := cm)))
    case PutCj(at) =>
      if !WantsCronJob(o.spec) then Some(Goto(s, ListNodes(at)).(cj := Delete(s.cj)))
      else (match Put(s.cj, Owned(o.uid, CronJob(o.spec.driftCheck, hash)))
            case None => None
            case Some(cj) => Some(Goto(s, ListNodes(at)).(cj := cj)))
    case RollOut(at, selected) =>
      (match Put(s.ds, Owned(o.uid, Template(hash, o.spec.selector.matchLabels)))
       case None => None
       case Some(ds) => Some(Goto(s, WriteStatus(at, selected, false)).(ds := ds)))
    case _ => None
  }

  /** Listing the nodes and choosing, tearing down, writing the status. */
  function DecideCall(p: Params, s: State, o: Obj): Option<State> {
    var hash := p.hash(Render(o.spec));
    match s.ctl.pc
    case ListNodes(at) =>
      if !Valid(o.spec.selector) then None
      else
        var selected := Selected(o.spec.selector, s.nodes.Cached());
        var pc := if Complete(o.status.book.nodes, selected, hash) then TearDown(at, selected) else RollOut(at, selected);
        Some(s.(ctl := s.ctl.(pc := pc, gone := false)))
    case TearDown(at, selected) =>
      Some(s.(ds := Delete(s.ds),
              ctl := s.ctl.(pc := WriteStatus(at, selected, true),
                            teardowns := s.ctl.teardowns + [Teardown(o.uid, o.spec, selected, hash)])))
    case WriteStatus(at, selected, complete) =>
      var status := Decided(o, hash, selected, complete);
      if status == o.status then Some(Finish(s, at, selected, complete))
      else if at == |s.profile.past|
      then Some(Finish(s, at, selected, complete).(profile := s.profile.Push(Some(o.(status := status)))))
      else None
    case _ => None
  }

  /** The next API call of the running pass, if it succeeds. */
  function CallNext(p: Params, s: State): Option<State> {
    match Snapshot(s)
    case None => None
    case Some(o) =>
      match s.ctl.pc
      case DropDs(_) => CleanCall(p, s)
      case DropCj(_) => CleanCall(p, s)
      case DropCm(_) => CleanCall(p, s)
      case DropFinalizer(_) => CleanCall(p, s)
      case ListNodes(_) => DecideCall(p, s, o)
      case TearDown(_, _) => DecideCall(p, s, o)
      case WriteStatus(_, _, _) => DecideCall(p, s, o)
      case _ => PutCall(p, s, o)
  }

  /** Any call can fail, and the manager can die between calls: the key is queued again. */
  function FailNext(s: State): State {
    s.(ctl := s.ctl.(queued := true, pc := Idle))
  }

  // ---------- Workers ----------

  /** A pod started from some version of the DaemonSet, on a node that some version of the node
      list lets it run on, with some version of the ConfigMap mounted, at any later time. */
  datatype Job = Job(mode: Mode, node: string, nodeAt: nat, cmAt: nat, dsAt: nat, host: Host, kernel: Kernel)

  ghost predicate JobEnabled(p: Params, s: State, j: Job) {
    && j.nodeAt <= |s.nodes.past| && j.cmAt <= |s.cm.past| && j.dsAt <= |s.ds.past|
    && s.cm.At(j.cmAt).Some? && s.ds.At(j.dsAt).Some?
    && j.node in s.nodes.At(j.nodeAt) && PlacedBy(s.ds.At(j.dsAt).value.data.placement, s.nodes.At(j.nodeAt)[j.node])
    && (p.kind.ScriptProfile? <==> j.mode.ScriptMode?)
    && GatePasses(p.hash(s.cm.At(j.cmAt).value.data), s.ds.At(j.dsAt).value.data.hash)
  }

  ghost function RunOf(p: Params, s: State, j: Job): Run
    requires JobEnabled(p, s, j)
  {
    var mounted := s.cm.At(j.cmAt).value.data;
    Run(j.mode, j.node, j.nodeAt, j.dsAt, mounted, s.ds.At(j.dsAt).value.data.hash, j.host, j.kernel,
        Report(j.node, p.hash(mounted), Succeeded(j.mode, mounted, j.host, j.kernel)))
  }

  // ---------- Report handlers ----------

  datatype Deal = Deliver(run: nat) | Fetch(run: nat, at: nat) | Commit(run: nat) | Count(run: nat) | Crash(run: nat)

  predicate Running(h: Handler) {
    h.Fetching? || h.Writing? || h.Committed?
  }

  predicate DealEnabled(s: State, d: Deal) {
    match d
    case Deliver(r) => r < |s.rep.runs| && r !in s.rep.handlers
    case Fetch(r, at) => r in s.rep.handlers && s.rep.handlers[r].Fetching? && at <= |s.profile.past|
    case Commit(r) => r in s.rep.handlers && r < |s.rep.runs| && s.rep.handlers[r].Writing?
                      && s.profile.At(s.rep.handlers[r].at).Some?
    case Count(r) => r in s.rep.handlers && r < |s.rep.runs| && s.rep.handlers[r].Committed?
    case Crash(r) => r in s.rep.handlers && Running(s.rep.handlers[r])
  }

  function SetHandler(s: State, r: nat, h: Handler): State {
    s.(rep := s.rep.(handlers := s.rep.handlers[r := h]))
  }

  /** Fetch, mutate, update under a version check: a conflict costs one attempt, and an object
      that is gone by now cannot be updated at all. */
  function CommitNext(p: Params, s: State, r: nat): State
    requires DealEnabled(s, Commit(r))
  {
    var h := s.rep.handlers[r];
    if h.at == |s.profile.past| then
      var o := s.profile.At(h.at).value;
      var status := o.status.(book := Record(p.kind, o.status.book, s.rep.runs[r].report));
      s.(profile := s.profile.Push(Some(o.(status := status))),
         rep := s.rep.(handlers := s.rep.handlers[r := Committed], commits := s.rep.commits + [r]))
    else SetHandler(s, r, if s.profile.now.None? then Ignored else if h.left <= 1 then GaveUp else Fetching(h.left - 1))
  }

  function DealNext(p: Params, s: State, d: Deal): State
    requires DealEnabled(s, d)
  {
    match d
    case Deliver(r) => SetHandler(s, r, if s.rep.runs[r].report.node == "" then GaveUp else Fetching(MAX_ATTEMPTS))
    case Fetch(r, at) =>
      SetHandler(s, r, if s.profile.At(at).None? then Ignored else Writing(s.rep.handlers[r].left, at))
    case Commit(r) => CommitNext(p, s, r)
    case Count(r) =>
      var report := s.rep.runs[r].report;
      var metric := if report.success then s.rep.metric else s.rep.metric + multiset{report.node};
      s.(rep := s.rep.(handlers := s.rep.handlers[r := Recorded], metric := metric))
    case Crash(r) => SetHandler(s, r, if s.rep.handlers[r].Committed? then Lost else GaveUp)
  }

  // ---------- Runs of the whole system ----------

  datatype Step = EnvStep(e: Env) | SeeStep(v: See) | Start | Call | Fail | Work(j: Job) | DealStep(d: Deal)

  ghost predicate Enabled(p: Params, s: State, step: Step) {
    match step
    case EnvStep(e) => EnvEnabled(p, s, e)
    case SeeStep(v) => SeeEnabled(s, v)
    case Start => s.ctl.pc.Idle? && s.ctl.queued
    case Call => CallNext(p, s).Some?
    case Fail => !s.ctl.pc.Idle?
    case Work(j) => JobEnabled(p, s, j)
    case DealStep(d) => DealEnabled(s, d)
  }

  ghost function Next(p: Params, s: State, step: Step): State
    requires Enabled(p, s, step)
  {
    match step
    case EnvStep(e) => EnvNext(p, s, e)
    case SeeStep(v) => SeeNext(s, v)
    case Start => StartNext(s)
    case Call => CallNext(p, s).value
    case Fail => FailNext(s)
    case Work(j) => s.(rep := s.rep.(runs := s.rep.runs + [RunOf(p, s, j)]))
    case DealStep(d) => DealNext(p, s, d)
  }

  ghost predicate Steps(p: Params, s: State, s': State) {
    exists step :: Enabled(p, s, step) && s' == Next(p, s, step)
  }

  ghost predicate StepAt(p: Params, tr: seq<State>, i: nat)
    requires i + 1 < |tr|
  {
    Steps(p, tr[i], tr[i + 1])
  }

  /** A finite run from an initial state. */
  ghost predicate IsRun(p: Params, tr: seq<State>) {
    && tr != [] && Init(tr[0])
    && forall i: nat :: i + 1 < |tr| ==> StepAt(p, tr, i)
  }
}
