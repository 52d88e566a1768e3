/** Laws of the node ledger that relate whole report sequences, the counters and the
    reconciler's completion test. */
module LedgerLaws {
  import opened Ledger
  import opened Text

  // ---------- Reading one node ----------

  function Lookup(nodes: seq<NodeStatus>, n: string): Option<NodeStatus> {
    if nodes == [] then None
    else if nodes[0].node == n then Some(nodes[0])
    else Lookup(nodes[1..], n)
  }

  lemma {:induction false} LookupAt(nodes: seq<NodeStatus>, k: nat)
    requires k < |nodes| && UniqueNames(nodes)
    ensures Lookup(nodes, nodes[k].node) == Some(nodes[k])
  {
    if k > 0 {
      LookupAt(nodes[1..], k - 1);
    }
  }

  lemma {:induction false} LookupListed(nodes: seq<NodeStatus>, n: string)
    ensures Lookup(nodes, n).Some? <==> Listed(nodes, n)
  {
    if nodes != [] {
      LookupListed(nodes[1..], n);
      if Listed(nodes[1..], n) {
        var i :| 0 <= i < |nodes[1..]| && nodes[1..][i].node == n;
        assert nodes[i + 1].node == n;
      }
      if i :| 0 <= i < |nodes| && nodes[i].node == n {
        if i > 0 {
          assert nodes[1..][i - 1].node == n;
        }
      }
    }
  }

  lemma LookupApplied(nodes: seq<NodeStatus>, n: string, hash: string)
    requires UniqueNames(nodes)
    ensures NodeApplied(nodes, n, hash) <==>
            Lookup(nodes, n).Some? && AppliedAt(Lookup(nodes, n).value, hash)
  {
  }

  /** What the ledger says of a node depends on that node's reports alone. */
  lemma LookupIsSummary(kind: Kind, rs: seq<Report>, n: string)
    ensures var h := History(rs, n);
            Lookup(RecordAll(kind, EMPTY_BOOK, rs).nodes, n) == if h == [] then None else Some(Summary(n, h))
  {
    var nodes := RecordAll(kind, EMPTY_BOOK, rs).nodes;
    LedgerRefinement(kind, rs);
    FirstSeenProperties(rs);
    MirrorsListed(nodes, rs, n);
    LookupListed(nodes, n);
    if n in FirstSeen(rs) {
      var i :| 0 <= i < |FirstSeen(rs)| && FirstSeen(rs)[i] == n;
      assert Tells(nodes[i], n, rs);
      LookupAt(nodes, i);
    }
  }

  // ---------- The counters count nodes ----------

  function InPhase(nodes: seq<NodeStatus>, phase: Phase): set<string> {
    set i | 0 <= i < |nodes| && nodes[i].phase == phase :: nodes[i].node
  }

  lemma InPhaseLast(nodes: seq<NodeStatus>, phase: Phase)
    requires nodes != []
    ensures var rest, last := InPhase(nodes[..|nodes| - 1], phase), nodes[|nodes| - 1];
            InPhase(nodes, phase) == if last.phase == phase then rest + {last.node} else rest
  {
  }

  lemma InPhaseNew(nodes: seq<NodeStatus>, phase: Phase)
    requires nodes != [] && UniqueNames(nodes)
    ensures nodes[|nodes| - 1].node !in InPhase(nodes[..|nodes| - 1], phase)
    ensures UniqueNames(nodes[..|nodes| - 1])
  {
  }

  lemma {:induction false} CountIsCardinality(nodes: seq<NodeStatus>, phase: Phase)
    requires UniqueNames(nodes)
    ensures CountPhase(nodes, phase) == |InPhase(nodes, phase)|
  {
    if nodes == [] {
      assert InPhase(nodes, phase) == {};
    } else {
      var rest, last := InPhase(nodes[..|nodes| - 1], phase), nodes[|nodes| - 1];
      InPhaseNew(nodes, phase);
      CountIsCardinality(nodes[..|nodes| - 1], phase);
      InPhaseLast(nodes, phase);
      assert |rest + {last.node}| == |rest| + 1;
    }
  }

  lemma {:induction false} PhasesFit(nodes: seq<NodeStatus>)
    ensures CountPhase(nodes, Applied) + CountPhase(nodes, Failed) <= |nodes|
  {
    if nodes != [] {
      PhasesFit(nodes[..|nodes| - 1]);
    }
  }

  lemma SubsetSize<T>(a: set<T>, b: set<T>)
    requires a <= b
    ensures |a| <= |b|
    ensures |a| == |b| ==> a == b
  {
    assert b == a + (b - a);
  }

  /** A complete rollout shows in the counters of the ledger that reports left: at least as
      many applied nodes as selected, with equality exactly when every applied node is
      selected, and no more failed nodes than entries outside the selection. */
  lemma CompletionImpliesCounters(kind: Kind, rs: seq<Report>, selected: set<string>, hash: string)
    requires Complete(RecordAll(kind, EMPTY_BOOK, rs).nodes, selected, hash)
    requires |RecordAll(kind, EMPTY_BOOK, rs).nodes| < 0x8000_0000
    ensures var b := RecordAll(kind, EMPTY_BOOK, rs);
            && b.applied >= |selected|
            && (b.applied == |selected| <==> InPhase(b.nodes, Applied) == selected)
            && 0 <= b.failed <= |b.nodes| - |selected|
  {
    var b := RecordAll(kind, EMPTY_BOOK, rs);
    LedgerRefinement(kind, rs);
    MirrorsListed(b.nodes, rs, "");
    CountIsCardinality(b.nodes, Applied);
    PhasesFit(b.nodes);
    var _ := WrapIsModular(CountPhase(b.nodes, Applied));
    var _ := WrapIsModular(CountPhase(b.nodes, Failed));
    assert selected <= InPhase(b.nodes, Applied);
    SubsetSize(selected, InPhase(b.nodes, Applied));
  }

  // ---------- What the applied counter means ----------

  function AtHash(nodes: seq<NodeStatus>, hash: string): set<string> {
    set i | 0 <= i < |nodes| && AppliedAt(nodes[i], hash) :: nodes[i].node
  }

  /** Every node that last reported success reported this hash. */
  ghost predicate AllSuccessesAt(rs: seq<Report>, hash: string) {
    forall n :: History(rs, n) != [] && History(rs, n)[|History(rs, n)| - 1].success ==> LastSuccessHash(History(rs, n)) == hash
  }

  /** The applied counter is documented as the number of nodes at the desired hash. It counts
      phases, so it is that number exactly as long as no node's last success was at another
      hash. */
  lemma AppliedCounterMeaning(kind: Kind, rs: seq<Report>, hash: string)
    requires |RecordAll(kind, EMPTY_BOOK, rs).nodes| < 0x8000_0000
    ensures var b := RecordAll(kind, EMPTY_BOOK, rs);
            b.applied == |AtHash(b.nodes, hash)| <==> AllSuccessesAt(rs, hash)
  {
    var b := RecordAll(kind, EMPTY_BOOK, rs);
    AppliedCounterIsPhase(kind, rs);
    AtHashInPhase(b.nodes, hash);
    SubsetSize(AtHash(b.nodes, hash), InPhase(b.nodes, Applied));
    if AtHash(b.nodes, hash) == InPhase(b.nodes, Applied) {
      SameSetsSuccesses(kind, rs, hash);
    }
    if AllSuccessesAt(rs, hash) {
      SuccessesSameSets(kind, rs, hash);
    }
  }

  lemma AppliedCounterIsPhase(kind: Kind, rs: seq<Report>)
    requires |RecordAll(kind, EMPTY_BOOK, rs).nodes| < 0x8000_0000
    ensures var b := RecordAll(kind, EMPTY_BOOK, rs); b.applied == |InPhase(b.nodes, Applied)|
  {
    var b := RecordAll(kind, EMPTY_BOOK, rs);
    LedgerRefinement(kind, rs);
    MirrorsListed(b.nodes, rs, "");
    CountIsCardinality(b.nodes, Applied);
    PhasesFit(b.nodes);
    var _ := WrapIsModular(CountPhase(b.nodes, Applied));
  }

  lemma AtHashInPhase(nodes: seq<NodeStatus>, hash: string)
    ensures AtHash(nodes, hash) <= InPhase(nodes, Applied)
  {
    forall n | n in AtHash(nodes, hash) ensures n in InPhase(nodes, Applied) {
      var i :| 0 <= i < |nodes| && AppliedAt(nodes[i], hash) && nodes[i].node == n;
      assert nodes[i].phase == Applied;
    }
  }

  lemma SameSetsSuccesses(kind: Kind, rs: seq<Report>, hash: string)
    requires var nodes := RecordAll(kind, EMPTY_BOOK, rs).nodes; AtHash(nodes, hash) == InPhase(nodes, Applied)
    ensures AllSuccessesAt(rs, hash)
  {
    forall n | History(rs, n) != [] && History(rs, n)[|History(rs, n)| - 1].success
      ensures LastSuccessHash(History(rs, n)) == hash
    {
      PhaseByLookup(kind, rs, n, Applied);
      AtHashByLookup(kind, rs, n, hash);
    }
  }

  lemma SuccessesSameSets(kind: Kind, rs: seq<Report>, hash: string)
    requires AllSuccessesAt(rs, hash)
    ensures var nodes := RecordAll(kind, EMPTY_BOOK, rs).nodes; AtHash(nodes, hash) == InPhase(nodes, Applied)
  {
    var nodes := RecordAll(kind, EMPTY_BOOK, rs).nodes;
    AtHashInPhase(nodes, hash);
    forall n | n in InPhase(nodes, Applied) ensures n in AtHash(nodes, hash) {
      PhaseByLookup(kind, rs, n, Applied);
      AtHashByLookup(kind, rs, n, hash);
    }
  }

  lemma AtHashByLookup(kind: Kind, rs: seq<Report>, n: string, hash: string)
    ensures n in AtHash(RecordAll(kind, EMPTY_BOOK, rs).nodes, hash) <==>
            History(rs, n) != [] && AppliedAt(Summary(n, History(rs, n)), hash)
  {
    var nodes := RecordAll(kind, EMPTY_BOOK, rs).nodes;
    LookupIsSummary(kind, rs, n);
    LedgerRefinement(kind, rs);
    MirrorsListed(nodes, rs, n);
    LookupApplied(nodes, n, hash);
    assert n in AtHash(nodes, hash) <==> NodeApplied(nodes, n, hash);
  }

  /** One node that applied the old config and none at the new one: the counter says one. */
  lemma AppliedCounterIsNotAtHash(kind: Kind)
    ensures var b := RecordAll(kind, EMPTY_BOOK, [Report("node", "old", true)]);
            b.applied == 1 && AtHash(b.nodes, "new") == {}
  {
  }

  // ---------- Order independence ----------

  /** Two sequences are interleavings of the same per-node sequences. */
  ghost predicate SameHistories(a: seq<Report>, b: seq<Report>) {
    forall n :: History(a, n) == History(b, n)
  }

  lemma {:induction false} HistoryCounts(rs: seq<Report>, r: Report)
    ensures multiset(rs)[r] == multiset(History(rs, r.node))[r]
  {
    if rs != [] {
      HistoryCounts(rs[..|rs| - 1], r);
      assert rs == rs[..|rs| - 1] + [rs[|rs| - 1]];
    }
  }

  lemma RemoveFromInit(rs: seq<Report>, k: nat)
    requires k < |rs| - 1
    ensures var init, last := rs[..|rs| - 1], rs[|rs| - 1];
            rs == init + [last] && rs[..k] + rs[k + 1..] == (init[..k] + init[k + 1..]) + [last] && init[k] == rs[k]
  {
  }

  lemma {:induction false} FailuresRemove(rs: seq<Report>, k: nat)
    requires k < |rs|
    ensures Failures(rs) == Failures(rs[..k] + rs[k + 1..]) + (if rs[k].success then 0 else 1)
  {
    var init, last := rs[..|rs| - 1], rs[|rs| - 1];
    if k == |rs| - 1 {
      assert rs[..k] + rs[k + 1..] == init;
    } else {
      FailuresRemove(init, k);
      RemoveFromInit(rs, k);
      FailuresStep(init, last);
      FailuresStep(init[..k] + init[k + 1..], last);
    }
  }

  lemma WithoutOne(rs: seq<Report>, k: nat)
    requires k < |rs|
    ensures multiset(rs[..k] + rs[k + 1..]) == multiset(rs) - multiset{rs[k]}
  {
    assert rs == rs[..k] + [rs[k]] + rs[k + 1..];
  }

  lemma {:induction false} FailuresOfPermutation(a: seq<Report>, b: seq<Report>)
    requires multiset(a) == multiset(b)
    ensures Failures(a) == Failures(b)
  {
    if a == [] {
      assert |b| == |multiset(b)| == |multiset(a)| == |a|;
    } else {
      var last := |a| - 1;
      assert a[last] in multiset(b);
      var k :| 0 <= k < |b| && b[k] == a[last];
      WithoutOne(a, last);
      WithoutOne(b, k);
      assert a[..last] + a[last + 1..] == a[..last];
      FailuresOfPermutation(a[..last], b[..k] + b[k + 1..]);
      FailuresRemove(b, k);
    }
  }

  lemma SamePhases(kind: Kind, a: seq<Report>, b: seq<Report>, phase: Phase)
    requires SameHistories(a, b)
    ensures InPhase(RecordAll(kind, EMPTY_BOOK, a).nodes, phase) == InPhase(RecordAll(kind, EMPTY_BOOK, b).nodes, phase)
  {
    var na, nb := RecordAll(kind, EMPTY_BOOK, a).nodes, RecordAll(kind, EMPTY_BOOK, b).nodes;
    forall n ensures n in InPhase(na, phase) <==> n in InPhase(nb, phase) {
      PhaseByLookup(kind, a, n, phase);
      PhaseByLookup(kind, b, n, phase);
    }
  }

  lemma PhaseByLookup(kind: Kind, rs: seq<Report>, n: string, phase: Phase)
    ensures n in InPhase(RecordAll(kind, EMPTY_BOOK, rs).nodes, phase) <==>
            History(rs, n) != [] && Summary(n, History(rs, n)).phase == phase
  {
    var nodes := RecordAll(kind, EMPTY_BOOK, rs).nodes;
    LookupIsSummary(kind, rs, n);
    LedgerRefinement(kind, rs);
    MirrorsListed(nodes, rs, n);
    if i :| 0 <= i < |nodes| && nodes[i].node == n {
      LookupAt(nodes, i);
    }
    LookupListed(nodes, n);
  }

  /** The order in which reports of different nodes arrive does not matter: the node
      entries, the three counters and every completion answer are the same. */
  lemma OrderIndependence(kind: Kind, a: seq<Report>, b: seq<Report>)
    requires SameHistories(a, b)
    ensures var x, y := RecordAll(kind, EMPTY_BOOK, a), RecordAll(kind, EMPTY_BOOK, b);
            && x.(nodes := []) == y.(nodes := [])
            && (forall n :: Lookup(x.nodes, n) == Lookup(y.nodes, n))
            && (forall selected, hash :: Complete(x.nodes, selected, hash) <==> Complete(y.nodes, selected, hash))
  {
    var x, y := RecordAll(kind, EMPTY_BOOK, a), RecordAll(kind, EMPTY_BOOK, b);
    LedgerRefinement(kind, a);
    LedgerRefinement(kind, b);
    MirrorsListed(x.nodes, a, "");
    MirrorsListed(y.nodes, b, "");
    forall phase ensures CountPhase(x.nodes, phase) == CountPhase(y.nodes, phase) {
      SamePhases(kind, a, b, phase);
      CountIsCardinality(x.nodes, phase);
      CountIsCardinality(y.nodes, phase);
    }
    forall r ensures multiset(a)[r] == multiset(b)[r] {
      HistoryCounts(a, r);
      HistoryCounts(b, r);
    }
    assert multiset(a) == multiset(b);
    FailuresOfPermutation(a, b);
    forall n ensures Lookup(x.nodes, n) == Lookup(y.nodes, n) {
      LookupIsSummary(kind, a, n);
      LookupIsSummary(kind, b, n);
    }
    forall n, hash ensures NodeApplied(x.nodes, n, hash) <==> NodeApplied(y.nodes, n, hash) {
      LookupApplied(x.nodes, n, hash);
      LookupApplied(y.nodes, n, hash);
    }
  }

  // ---------- Progress ----------

  /** The selected nodes that the ledger does not record as applied at the hash. */
  ghost function Outstanding(nodes: seq<NodeStatus>, selected: set<string>, hash: string): set<string> {
    set n | n in selected && !NodeApplied(nodes, n, hash)
  }

  lemma {:induction false} LookupUpsert(nodes: seq<NodeStatus>, r: Report, n: string)
    ensures Lookup(Upsert(nodes, r), n) ==
            if n != r.node then Lookup(nodes, n)
            else Some(match Lookup(nodes, n) case None => FreshEntry(r) case Some(ns) => UpdatedEntry(ns, r))
  {
    if nodes != [] {
      LookupUpsert(nodes[1..], r, n);
    }
  }

  lemma {:induction false} UpsertNames(nodes: seq<NodeStatus>, r: Report)
    requires UniqueNames(nodes)
    ensures UniqueNames(Upsert(nodes, r))
  {
    if k :| 0 <= k < |nodes| && nodes[k].node == r.node {
      UpsertAt(nodes, r, k);
    } else {
      UpsertNew(nodes, r);
    }
  }

  /** A report decides its own node, for its own hash, and leaves every other node alone. */
  lemma UpsertApplied(nodes: seq<NodeStatus>, r: Report, n: string, hash: string)
    requires UniqueNames(nodes)
    ensures NodeApplied(Upsert(nodes, r), n, hash) <==>
            if n == r.node then r.success && r.hash == hash else NodeApplied(nodes, n, hash)
  {
    UpsertNames(nodes, r);
    LookupUpsert(nodes, r, n);
    LookupApplied(nodes, n, hash);
    LookupApplied(Upsert(nodes, r), n, hash);
  }

  /** With the hash and the selection fixed, a success report at the hash takes its node off
      the outstanding ones, every other report of a selected node puts it there, and other
      nodes' reports change nothing. The rollout is complete exactly when the selection is
      not empty and nothing is outstanding. */
  lemma RolloutProgress(nodes: seq<NodeStatus>, r: Report, selected: set<string>, hash: string)
    requires UniqueNames(nodes)
    ensures var before, after := Outstanding(nodes, selected, hash), Outstanding(Upsert(nodes, r), selected, hash);
            && (r.success && r.hash == hash ==> after == before - {r.node})
            && (!(r.success && r.hash == hash) ==> after == before + ({r.node} * selected))
            && (|after| == |before| - 1 <==> r.success && r.hash == hash && r.node in before)
            && (!(r.success && r.hash == hash) ==> |after| >= |before|)
    ensures Complete(nodes, selected, hash) <==> selected != {} && |Outstanding(nodes, selected, hash)| == 0
  {
    var before, after := Outstanding(nodes, selected, hash), Outstanding(Upsert(nodes, r), selected, hash);
    forall n ensures NodeApplied(Upsert(nodes, r), n, hash) <==>
                     if n == r.node then r.success && r.hash == hash else NodeApplied(nodes, n, hash) {
      UpsertApplied(nodes, r, n, hash);
    }
    if r.success && r.hash == hash {
      assert after == before - {r.node};
    } else {
      assert after == before + ({r.node} * selected);
      SubsetSize(before, after);
    }
    if |before| == 0 {
      assert before == {};
      forall n | n in selected ensures NodeApplied(nodes, n, hash) {
        assert n !in before;
      }
    }
    if Complete(nodes, selected, hash) {
      assert before == {};
    }
  }
}
