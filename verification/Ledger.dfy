/** The per-node ledger in a profile's status: how the report server folds a report into it,
    what any sequence of reports leaves there, and how the reconciler reads it. */
module Ledger {

  // ---------- 32-bit counters ----------

  type Int32 = x: int | -0x8000_0000 <= x < 0x8000_0000

  /** Go's `x++` on an `int32`. */
  function Inc(x: Int32): Int32 {
    if x == 0x7FFF_FFFF then -0x8000_0000 else x + 1
  }

  /** The 32-bit value of a count: as many increments of zero, wrapping around. */
  function Wrap(n: nat): Int32 {
    if n == 0 then 0 else Inc(Wrap(n - 1))
  }

  /** Wrapping is reduction modulo 2^32, so a count below 2^31 is shown as it is. */
  lemma {:induction false} WrapIsModular(n: nat) returns (k: nat)
    ensures Wrap(n) == n - k * 0x1_0000_0000
    ensures n < 0x8000_0000 ==> k == 0
  {
    if n == 0 {
      k := 0;
    } else {
      k := WrapIsModular(n - 1);
      if Wrap(n - 1) == 0x7FFF_FFFF {
        k := k + 1;
      }
    }
  }

  // ---------- Data ----------

  datatype Kind = SysctlProfile | ScriptProfile

  datatype Phase = Pending | Applied | Failed | Drifted | Audited

  datatype NodeStatus = NodeStatus(node: string, phase: Phase, appliedHash: string, failCount: Int32)

  /** The part of a worker's report that reaches the status. */
  datatype Report = Report(node: string, hash: string, success: bool)

  /** The part of a profile's status that reports maintain. */
  datatype Book = Book(nodes: seq<NodeStatus>, applied: Int32, failed: Int32, errored: Int32)

  const EMPTY_BOOK := Book([], 0, 0, 0)

  // ---------- Recording one report ----------

  function PhaseOf(r: Report): Phase {
    if r.success then Applied else Failed
  }

  function FreshEntry(r: Report): NodeStatus {
    NodeStatus(r.node, PhaseOf(r), if r.success then r.hash else "", if r.success then 0 else 1)
  }

  function UpdatedEntry(ns: NodeStatus, r: Report): NodeStatus {
    if r.success then ns.(phase := Applied, appliedHash := r.hash, failCount := 0)
    else ns.(phase := Failed, failCount := Inc(ns.failCount))
  }

  /** The first entry of the reporting node is updated, or a new one appended. */
  function Upsert(nodes: seq<NodeStatus>, r: Report): seq<NodeStatus> {
    if nodes == [] then [FreshEntry(r)]
    else if nodes[0].node == r.node then [UpdatedEntry(nodes[0], r)] + nodes[1..]
    else [nodes[0]] + Upsert(nodes[1..], r)
  }

  function CountPhase(nodes: seq<NodeStatus>, phase: Phase): nat {
    if nodes == [] then 0
    else CountPhase(nodes[..|nodes| - 1], phase) + (if nodes[|nodes| - 1].phase == phase then 1 else 0)
  }

  /** The book after one report: upsert, then recomputed counters. Only a SysctlProfile
      has the cumulative error counter. */
  function Record(kind: Kind, b: Book, r: Report): Book {
    var nodes := Upsert(b.nodes, r);
    Book(nodes, Wrap(CountPhase(nodes, Applied)), Wrap(CountPhase(nodes, Failed)),
         if kind.SysctlProfile? && !r.success then Inc(b.errored) else b.errored)
  }

  function RecordAll(kind: Kind, b: Book, rs: seq<Report>): Book {
    if rs == [] then b else Record(kind, RecordAll(kind, b, rs[..|rs| - 1]), rs[|rs| - 1])
  }

  /** The status object that a handler fetched, mutates in place and then commits. */
  class ProfileStatus {
    const kind: Kind
    var nodeStatuses: seq<NodeStatus>
    var appliedNodes: Int32
    var failedNodes: Int32
    var erroredPods: Int32

    ghost function View(): Book
      reads this
    {
      Book(nodeStatuses, appliedNodes, failedNodes, erroredPods)
    }

    constructor (kind: Kind, b: Book)
      ensures this.kind == kind && View() == b
    {
      this.kind := kind;
      nodeStatuses, appliedNodes, failedNodes, erroredPods := b.nodes, b.applied, b.failed, b.errored;
    }

    /** `upsertNodeStatus` and `upsertScriptNodeStatus`. */
    method UpsertNodeStatus(report: Report)
      modifies this
      ensures View() == old(View()).(
                        nodes := Upsert(old(nodeStatuses), report),
                        errored := Record(kind, old(View()), report).errored)
    {
      for i := 0 to |nodeStatuses|
        invariant View() == old(View())
        invariant forall j :: 0 <= j < i ==> nodeStatuses[j].node != report.node
      {
        var ns := nodeStatuses[i];
        if ns.node != report.node {
          continue;
        }
        UpsertAt(nodeStatuses, report, i);
        if !report.success {
          ns := ns.(failCount := Inc(ns.failCount));
          if kind.SysctlProfile? {
            erroredPods := Inc(erroredPods);
          }
        } else {
          ns := ns.(failCount := 0, appliedHash := report.hash);
        }
        ns := ns.(phase := PhaseOf(report));
        nodeStatuses := nodeStatuses[i := ns];
        return;
      }
      UpsertNew(nodeStatuses, report);
      var ns := NodeStatus(report.node, PhaseOf(report), "", 0);
      if report.success {
        ns := ns.(appliedHash := report.hash);
      } else {
        ns := ns.(failCount := 1);
        if kind.SysctlProfile? {
          erroredPods := Inc(erroredPods);
        }
      }
      nodeStatuses := nodeStatuses + [ns];
    }

    /** `recomputeCounts` and `recomputeScriptCounts`. */
    method RecomputeCounts()
      modifies `appliedNodes, `failedNodes
      ensures View() == old(View()).(applied := Wrap(CountPhase(nodeStatuses, Applied)),
                                     failed := Wrap(CountPhase(nodeStatuses, Failed)))
    {
      var applied: Int32, failed: Int32 := 0, 0;
      for i := 0 to |nodeStatuses|
        invariant applied == Wrap(CountPhase(nodeStatuses[..i], Applied))
        invariant failed == Wrap(CountPhase(nodeStatuses[..i], Failed))
      {
        assert nodeStatuses[..i + 1][..i] == nodeStatuses[..i];
        match nodeStatuses[i].phase
        case Applied => applied := Inc(applied);
        case Failed => failed := Inc(failed);
        case _ =>
      }
      assert nodeStatuses[..|nodeStatuses|] == nodeStatuses;
      appliedNodes, failedNodes := applied, failed;
    }

    /** What a handler does to the fetched object before it commits it. */
    method RecordReport(report: Report)
      modifies this
      ensures View() == Record(kind, old(View()), report)
    {
      UpsertNodeStatus(report);
      RecomputeCounts();
    }
  }

  // ---------- What a sequence of reports leaves ----------

  /** The reports of one node, in order. */
  function History(rs: seq<Report>, node: string): seq<Report> {
    if rs == [] then []
    else
      var h := History(rs[..|rs| - 1], node);
      if rs[|rs| - 1].node == node then h + [rs[|rs| - 1]] else h
  }

  /** The nodes that reported, in the order of their first reports. */
  function FirstSeen(rs: seq<Report>): seq<string> {
    if rs == [] then []
    else
      var seen := FirstSeen(rs[..|rs| - 1]);
      if rs[|rs| - 1].node in seen then seen else seen + [rs[|rs| - 1].node]
  }

  function Failures(rs: seq<Report>): nat {
    if rs == [] then 0
    else Failures(rs[..|rs| - 1]) + (if rs[|rs| - 1].success then 0 else 1)
  }

  /** How many of the last reports failed, since the last success. */
  function FailuresSinceSuccess(rs: seq<Report>): nat {
    if rs == [] || rs[|rs| - 1].success then 0 else FailuresSinceSuccess(rs[..|rs| - 1]) + 1
  }

  /** The hash of the last success, empty if there was none. */
  function LastSuccessHash(rs: seq<Report>): string {
    if rs == [] then ""
    else if rs[|rs| - 1].success then rs[|rs| - 1].hash
    else LastSuccessHash(rs[..|rs| - 1])
  }

  /** What a node's own history says its entry must be. */
  function Summary(node: string, h: seq<Report>): NodeStatus
    requires h != []
  {
    NodeStatus(node, PhaseOf(h[|h| - 1]), LastSuccessHash(h), Wrap(FailuresSinceSuccess(h)))
  }

  predicate UniqueNames(nodes: seq<NodeStatus>) {
    forall i, j :: 0 <= i < j < |nodes| ==> nodes[i].node != nodes[j].node
  }

  predicate NoDuplicates(names: seq<string>) {
    forall i, j :: 0 <= i < j < |names| ==> names[i] != names[j]
  }

  lemma {:induction false} FirstSeenProperties(rs: seq<Report>)
    ensures NoDuplicates(FirstSeen(rs))
    ensures forall n :: n in FirstSeen(rs) <==> History(rs, n) != []
  {
    if rs != [] {
      FirstSeenProperties(rs[..|rs| - 1]);
    }
  }

  /** The entry is what the node's own history says. */
  ghost predicate Tells(ns: NodeStatus, n: string, rs: seq<Report>) {
    History(rs, n) != [] && ns == Summary(n, History(rs, n))
  }

  /** The ledger mirrors the histories: one entry per reporting node, in first-report order. */
  ghost predicate Mirrors(nodes: seq<NodeStatus>, rs: seq<Report>) {
    && |nodes| == |FirstSeen(rs)|
    && forall i :: 0 <= i < |nodes| ==> Tells(nodes[i], FirstSeen(rs)[i], rs)
  }

  lemma {:induction false} UpsertAt(nodes: seq<NodeStatus>, r: Report, k: nat)
    requires k < |nodes| && nodes[k].node == r.node
    requires forall i :: 0 <= i < k ==> nodes[i].node != r.node
    ensures Upsert(nodes, r) == nodes[k := UpdatedEntry(nodes[k], r)]
  {
    if k > 0 {
      UpsertAt(nodes[1..], r, k - 1);
    }
  }

  lemma {:induction false} UpsertNew(nodes: seq<NodeStatus>, r: Report)
    requires forall i :: 0 <= i < |nodes| ==> nodes[i].node != r.node
    ensures Upsert(nodes, r) == nodes + [FreshEntry(r)]
  {
    if nodes != [] {
      UpsertNew(nodes[1..], r);
    }
  }

  lemma SummaryStep(node: string, h: seq<Report>, r: Report)
    requires r.node == node
    ensures Summary(node, h + [r]) == if h == [] then FreshEntry(r) else UpdatedEntry(Summary(node, h), r)
  {
    var g := h + [r];
    assert g[..|g| - 1] == h && g[|g| - 1] == r;
    assert FailuresSinceSuccess(g) == if r.success then 0 else FailuresSinceSuccess(h) + 1;
    assert LastSuccessHash(g) == if r.success then r.hash else LastSuccessHash(h);
    if h == [] {
      assert Wrap(1) == Inc(Wrap(0));
    }
  }

  lemma HistoryMore(rs: seq<Report>, r: Report, n: string)
    ensures History(rs + [r], n) == if r.node == n then History(rs, n) + [r] else History(rs, n)
  {
    assert (rs + [r])[..|rs|] == rs;
  }

  lemma FirstSeenMore(rs: seq<Report>, r: Report)
    ensures FirstSeen(rs + [r]) == if r.node in FirstSeen(rs) then FirstSeen(rs) else FirstSeen(rs) + [r.node]
  {
    assert (rs + [r])[..|rs|] == rs;
  }

  /** One more report changes what a known node's entry must be, or leaves it. */
  lemma TellsMore(ns: NodeStatus, n: string, rs: seq<Report>, r: Report)
    requires Tells(ns, n, rs)
    ensures Tells(if n == r.node then UpdatedEntry(ns, r) else ns, n, rs + [r])
  {
    HistoryMore(rs, r, n);
    if n == r.node {
      SummaryStep(n, History(rs, n), r);
    }
  }

  lemma TellsNew(rs: seq<Report>, r: Report)
    requires History(rs, r.node) == []
    ensures Tells(FreshEntry(r), r.node, rs + [r])
  {
    HistoryMore(rs, r, r.node);
    SummaryStep(r.node, [], r);
  }

  lemma MirrorsKnown(nodes: seq<NodeStatus>, rs: seq<Report>, r: Report, k: nat)
    requires Mirrors(nodes, rs) && k < |nodes| && FirstSeen(rs)[k] == r.node
    ensures Mirrors(nodes[k := UpdatedEntry(nodes[k], r)], rs + [r])
  {
    var seen, next := FirstSeen(rs), nodes[k := UpdatedEntry(nodes[k], r)];
    FirstSeenMore(rs, r);
    FirstSeenProperties(rs);
    forall i | 0 <= i < |next| ensures Tells(next[i], seen[i], rs + [r]) {
      assert seen[i] == r.node <==> i == k;
      TellsMore(nodes[i], seen[i], rs, r);
    }
  }

  lemma MirrorsNew(nodes: seq<NodeStatus>, rs: seq<Report>, r: Report)
    requires Mirrors(nodes, rs) && r.node !in FirstSeen(rs)
    ensures Mirrors(nodes + [FreshEntry(r)], rs + [r])
  {
    var seen, next := FirstSeen(rs), nodes + [FreshEntry(r)];
    FirstSeenMore(rs, r);
    FirstSeenProperties(rs);
    TellsNew(rs, r);
    forall i | 0 <= i < |nodes| ensures Tells(nodes[i], seen[i], rs + [r]) {
      TellsMore(nodes[i], seen[i], rs, r);
    }
    assert forall i :: 0 <= i < |nodes| ==> next[i] == nodes[i] && (seen + [r.node])[i] == seen[i];
  }

  lemma MirrorsNames(nodes: seq<NodeStatus>, rs: seq<Report>)
    requires Mirrors(nodes, rs)
    ensures forall i :: 0 <= i < |nodes| ==> nodes[i].node == FirstSeen(rs)[i]
  {
    forall i | 0 <= i < |nodes| ensures nodes[i].node == FirstSeen(rs)[i] {
      assert Tells(nodes[i], FirstSeen(rs)[i], rs);
    }
  }

  lemma MirrorsStep(nodes: seq<NodeStatus>, rs: seq<Report>, r: Report)
    requires Mirrors(nodes, rs)
    ensures Mirrors(Upsert(nodes, r), rs + [r])
  {
    var seen := FirstSeen(rs);
    MirrorsNames(nodes, rs);
    if r.node in seen {
      var k :| 0 <= k < |seen| && seen[k] == r.node;
      FirstSeenProperties(rs);
      UpsertAt(nodes, r, k);
      MirrorsKnown(nodes, rs, r, k);
    } else {
      UpsertNew(nodes, r);
      MirrorsNew(nodes, rs, r);
    }
  }

  /** What a book holds after the reports, said without folding them. */
  ghost predicate Describes(kind: Kind, b: Book, rs: seq<Report>) {
    && Mirrors(b.nodes, rs)
    && b.applied == Wrap(CountPhase(b.nodes, Applied))
    && b.failed == Wrap(CountPhase(b.nodes, Failed))
    && b.errored == if kind.SysctlProfile? then Wrap(Failures(rs)) else 0
  }

  lemma DescribesStep(kind: Kind, b: Book, rs: seq<Report>, r: Report)
    requires Describes(kind, b, rs)
    ensures Describes(kind, Record(kind, b, r), rs + [r])
  {
    var c := Record(kind, b, r);
    assert Mirrors(c.nodes, rs + [r]) by {
      MirrorsStep(b.nodes, rs, r);
    }
    assert c.errored == if kind.SysctlProfile? then Wrap(Failures(rs + [r])) else 0 by {
      FailuresStep(rs, r);
    }
  }

  lemma FailuresStep(rs: seq<Report>, r: Report)
    ensures Failures(rs + [r]) == Failures(rs) + (if r.success then 0 else 1)
    ensures Wrap(Failures(rs + [r])) == if r.success then Wrap(Failures(rs)) else Inc(Wrap(Failures(rs)))
  {
  }

  /** After any sequence of reports from an empty status: names are in first-report order,
      each entry is what the node's own history says, both counters equal the phase counts
      and, on a SysctlProfile, the error counter is the number of failures, all modulo
      2^32. */
  lemma {:induction false} LedgerRefinement(kind: Kind, rs: seq<Report>)
    ensures Describes(kind, RecordAll(kind, EMPTY_BOOK, rs), rs)
  {
    if rs != [] {
      var before, last := rs[..|rs| - 1], rs[|rs| - 1];
      LedgerRefinement(kind, before);
      DescribesStep(kind, RecordAll(kind, EMPTY_BOOK, before), before, last);
      assert before + [last] == rs;
    }
  }

  predicate Listed(nodes: seq<NodeStatus>, n: string) {
    exists i :: 0 <= i < |nodes| && nodes[i].node == n
  }

  predicate Reported(rs: seq<Report>, n: string) {
    exists j :: 0 <= j < |rs| && rs[j].node == n
  }

  lemma {:induction false} HistoryNonempty(rs: seq<Report>, n: string)
    ensures History(rs, n) != [] <==> Reported(rs, n)
  {
    if rs != [] {
      HistoryNonempty(rs[..|rs| - 1], n);
    }
  }

  lemma MirrorsListed(nodes: seq<NodeStatus>, rs: seq<Report>, n: string)
    requires Mirrors(nodes, rs)
    ensures Listed(nodes, n) <==> n in FirstSeen(rs)
    ensures UniqueNames(nodes)
  {
    FirstSeenProperties(rs);
    MirrorsNames(nodes, rs);
    var seen := FirstSeen(rs);
    if n in seen {
      var i :| 0 <= i < |seen| && seen[i] == n;
      assert nodes[i].node == n;
    }
  }

  /** The names in the ledger are unique, and a node has an entry exactly if it reported. */
  lemma LedgerNames(kind: Kind, rs: seq<Report>, n: string)
    ensures UniqueNames(RecordAll(kind, EMPTY_BOOK, rs).nodes)
    ensures Listed(RecordAll(kind, EMPTY_BOOK, rs).nodes, n) <==> Reported(rs, n)
  {
    LedgerRefinement(kind, rs);
    MirrorsListed(RecordAll(kind, EMPTY_BOOK, rs).nodes, rs, n);
    FirstSeenProperties(rs);
    HistoryNonempty(rs, n);
  }

  // ---------- The decision the reconciler takes ----------

  predicate AppliedAt(ns: NodeStatus, hash: string) {
    ns.phase == Applied && ns.appliedHash == hash
  }

  predicate NodeApplied(nodes: seq<NodeStatus>, n: string, hash: string) {
    exists i :: 0 <= i < |nodes| && nodes[i].node == n && AppliedAt(nodes[i], hash)
  }

  /** A rollout is complete when the selection is not empty and each node in it is
      recorded as applied at the hash. */
  predicate Complete(nodes: seq<NodeStatus>, selected: set<string>, hash: string) {
    selected != {} && forall n :: n in selected ==> NodeApplied(nodes, n, hash)
  }

  lemma NodeAppliedAppend(nodes: seq<NodeStatus>, ns: NodeStatus, n: string, hash: string)
    ensures NodeApplied(nodes + [ns], n, hash) <==> NodeApplied(nodes, n, hash) || (ns.node == n && AppliedAt(ns, hash))
  {
    var all := nodes + [ns];
    assert all[|nodes|] == ns;
    assert forall i :: 0 <= i < |nodes| ==> all[i] == nodes[i];
  }

  function Names(selected: seq<string>): set<string> {
    set n | n in selected
  }

  lemma {:induction false} NamesCount(selected: seq<string>)
    requires NoDuplicates(selected)
    ensures |Names(selected)| == |selected|
  {
    if selected != [] {
      var init, last := selected[..|selected| - 1], selected[|selected| - 1];
      NamesCount(init);
      assert selected == init + [last];
      assert Names(selected) == Names(init) + {last};
    }
  }

  /** `allNodesApplied` and `scriptAllNodesApplied`: a map is filled, then consulted. */
  method AllNodesApplied(nodeStatuses: seq<NodeStatus>, selected: seq<string>, hash: string) returns (all: bool)
    ensures all <==> Complete(nodeStatuses, Names(selected), hash)
  {
    if |selected| == 0 {
      return false;
    }
    var applied: map<string, bool> := map[];
    for i := 0 to |nodeStatuses|
      invariant forall n :: n in applied <==> NodeApplied(nodeStatuses[..i], n, hash)
    {
      var ns := nodeStatuses[i];
      forall n ensures NodeApplied(nodeStatuses[..i + 1], n, hash) <==>
                       NodeApplied(nodeStatuses[..i], n, hash) || (ns.node == n && AppliedAt(ns, hash)) {
        NodeAppliedAppend(nodeStatuses[..i], ns, n, hash);
        assert nodeStatuses[..i + 1] == nodeStatuses[..i] + [ns];
      }
      if ns.phase == Applied && ns.appliedHash == hash {
        applied := applied[ns.node := true];
      }
    }
    assert nodeStatuses[..|nodeStatuses|] == nodeStatuses;
    assert selected[0] in Names(selected);
    for i := 0 to |selected|
      invariant forall k :: 0 <= k < i ==> selected[k] in applied
    {
      if selected[i] !in applied {
        assert selected[i] in Names(selected);
        return false;
      }
    }
    return true;
  }
}
