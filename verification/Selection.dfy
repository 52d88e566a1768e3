/** Node selection: which nodes a profile lists, where its DaemonSet places pods, and which
    node events put the profile in the reconcile queue. */
module Selection {
  import opened Text

  type Labels = map<string, string>

  datatype Operator = In | NotIn | Exists | DoesNotExist | Unknown

  datatype Expression = Expression(key: string, op: Operator, values: seq<string>)

  /** A Kubernetes label selector. */
  datatype Selector = Selector(matchLabels: Labels, expressions: seq<Expression>)

  // ---------- The format of label keys and values ----------

  predicate IsLower(c: char) {
    'a' <= c <= 'z' || '0' <= c <= '9'
  }

  predicate IsAlphanumeric(c: char) {
    IsLower(c) || 'A' <= c <= 'Z'
  }

  /** Alphanumeric at both ends; dashes, underscores and dots are allowed in between. */
  predicate IsName(s: string) {
    && 0 < |s| <= 63
    && IsAlphanumeric(s[0]) && IsAlphanumeric(s[|s| - 1])
    && forall i :: 0 <= i < |s| ==> IsAlphanumeric(s[i]) || s[i] == '-' || s[i] == '_' || s[i] == '.'
  }

  predicate IsDnsLabel(s: string) {
    && s != ""
    && IsLower(s[0]) && IsLower(s[|s| - 1])
    && forall i :: 0 <= i < |s| ==> IsLower(s[i]) || s[i] == '-'
  }

  predicate AreDnsLabels(s: string)
    decreases |s|
  {
    match Cut(s, '.')
    case None => IsDnsLabel(s)
    case Some((first, rest)) => IsDnsLabel(first) && AreDnsLabels(rest)
  }

  /** A name, perhaps after a DNS subdomain and a slash. */
  predicate ValidKey(key: string) {
    match Cut(key, '/')
    case None => IsName(key)
    case Some((prefix, name)) => |prefix| <= 253 && AreDnsLabels(prefix) && IsName(name)
  }

  predicate ValidValue(value: string) {
    value == "" || IsName(value)
  }

  // ---------- Selectors ----------

  /** Whether the selector converts without an error. */
  predicate ValidExpression(e: Expression) {
    && ValidKey(e.key)
    && (forall i :: 0 <= i < |e.values| ==> ValidValue(e.values[i]))
    && match e.op
       case In => e.values != []
       case NotIn => e.values != []
       case Exists => e.values == []
       case DoesNotExist => e.values == []
       case Unknown => false
  }

  predicate Valid(sel: Selector) {
    && (forall k :: k in sel.matchLabels ==> ValidKey(k) && ValidValue(sel.matchLabels[k]))
    && (forall i :: 0 <= i < |sel.expressions| ==> ValidExpression(sel.expressions[i]))
  }

  predicate ExpressionMatches(e: Expression, labels: Labels) {
    match e.op
    case In => e.key in labels && labels[e.key] in e.values
    case NotIn => e.key in labels ==> labels[e.key] !in e.values
    case Exists => e.key in labels
    case DoesNotExist => e.key !in labels
    case Unknown => false
  }

  /** Placement by a pod template's node selector. */
  predicate PlacedBy(placement: Labels, labels: Labels) {
    forall k :: k in placement ==> k in labels && labels[k] == placement[k]
  }

  /** DaemonSet placement: the pod template's node selector is the profile's `matchLabels`. */
  predicate Placed(sel: Selector, labels: Labels) {
    PlacedBy(sel.matchLabels, labels)
  }

  predicate Matches(sel: Selector, labels: Labels) {
    && Placed(sel, labels)
    && forall i :: 0 <= i < |sel.expressions| ==> ExpressionMatches(sel.expressions[i], labels)
  }

  // ---------- What the operators mean ----------

  /** One label. */
  function Label(key: string, value: string): Labels {
    map[key := value]
  }

  /** Placement is containment of the labels. */
  lemma PlacedByIsContainment(placement: Labels, labels: Labels)
    ensures PlacedBy(placement, labels) <==> placement.Items <= labels.Items
  {
    if placement.Items <= labels.Items {
      forall k | k in placement ensures k in labels && labels[k] == placement[k] {
        assert (k, placement[k]) in placement.Items;
      }
    }
  }

  /** The negative operators negate the positive ones, also where the label is missing. */
  lemma NegativeOperators(key: string, values: seq<string>, labels: Labels)
    ensures ExpressionMatches(Expression(key, NotIn, values), labels) <==> !ExpressionMatches(Expression(key, In, values), labels)
    ensures ExpressionMatches(Expression(key, DoesNotExist, values), labels) <==> !ExpressionMatches(Expression(key, Exists, values), labels)
  {
  }

  /** The positive operators ask for a label that could have been given in `matchLabels`. */
  lemma PositiveOperators(key: string, values: seq<string>, labels: Labels)
    ensures ExpressionMatches(Expression(key, In, values), labels) <==>
            exists i :: 0 <= i < |values| && PlacedBy(Label(key, values[i]), labels)
    ensures ExpressionMatches(Expression(key, Exists, values), labels) <==>
            exists v :: PlacedBy(Label(key, v), labels)
  {
    if ExpressionMatches(Expression(key, Exists, values), labels) {
      assert PlacedBy(Label(key, labels[key]), labels);
    }
    if v :| PlacedBy(Label(key, v), labels) {
      assert key in Label(key, v);
    }
    if i :| 0 <= i < |values| && PlacedBy(Label(key, values[i]), labels) {
      assert key in Label(key, values[i]);
    }
    if ExpressionMatches(Expression(key, In, values), labels) {
      var i :| 0 <= i < |values| && values[i] == labels[key];
      assert PlacedBy(Label(key, values[i]), labels);
    }
  }

  /** A selector is the conjunction of its parts: labels one by one, expressions list by list. */
  lemma SelectorIsConjunction(m: Labels, a: seq<Expression>, b: seq<Expression>, labels: Labels)
    ensures Matches(Selector(m, a + b), labels) <==>
            && (forall k :: k in m ==> ExpressionMatches(Expression(k, In, [m[k]]), labels))
            && Matches(Selector(map[], a), labels) && Matches(Selector(map[], b), labels)
  {
    assert forall i :: 0 <= i < |a| ==> (a + b)[i] == a[i];
    assert forall i :: 0 <= i < |b| ==> (a + b)[|a| + i] == b[i];
    if Matches(Selector(m, a + b), labels) {
      forall i | 0 <= i < |b| ensures ExpressionMatches(b[i], labels) {
        assert ExpressionMatches((a + b)[|a| + i], labels);
      }
    }
    if Placed(Selector(m, a + b), labels) {
      forall k | k in m ensures ExpressionMatches(Expression(k, In, [m[k]]), labels) {}
    }
    if forall k :: k in m ==> ExpressionMatches(Expression(k, In, [m[k]]), labels) {
      forall k | k in m ensures k in labels && labels[k] == m[k] {
        assert ExpressionMatches(Expression(k, In, [m[k]]), labels);
      }
    }
  }

  lemma OneExpression(e: Expression, labels: Labels)
    ensures Matches(Selector(map[], []), labels)
    ensures Matches(Selector(map[], [e]), labels) <==> ExpressionMatches(e, labels)
  {
    assert [e][0] == e;
  }

  /** Which numbers of values an operator takes, with well-formed keys and values. */
  lemma OperatorArity(e: Expression)
    requires ValidKey(e.key) && forall i :: 0 <= i < |e.values| ==> ValidValue(e.values[i])
    ensures ValidExpression(e) <==> e.op != Unknown && (|e.values| > 0 <==> e.op == In || e.op == NotIn)
  {
  }

  predicate Alphanumeric(s: string) {
    forall i :: 0 <= i < |s| ==> IsAlphanumeric(s[i])
  }

  /** The bounds: letters and digits make a name and a value up to 63 of them, no more, and of the two
      only a value may be empty; a dash may stand within but not at an end. */
  lemma NameBounds(s: string, t: string)
    requires Alphanumeric(s) && Alphanumeric(t)
    ensures ValidValue(s) <==> |s| <= 63
    ensures ValidKey(s) <==> 1 <= |s| <= 63
    ensures ValidValue(s + "-" + t) <==> s != "" && t != "" && |s| + |t| <= 62
  {
    var u := s + "-" + t;
    assert u[|s|] == '-';
    if s != "" && t != "" {
      assert u[0] == s[0] && u[|u| - 1] == t[|t| - 1];
      assert forall i :: 0 <= i < |u| ==> u[i] == if i < |s| then s[i] else if i == |s| then '-' else t[i - |s| - 1];
    }
  }

  /** A key with a slash: a prefix of DNS labels up to 253 characters, then a name. */
  lemma PrefixedKey(prefix: string, name: string)
    requires '/' !in prefix
    ensures ValidKey(prefix + "/" + name) <==> |prefix| <= 253 && AreDnsLabels(prefix) && IsName(name)
  {
    CutAt(prefix, '/', name);
  }

  /** DNS labels are separated by dots. */
  lemma DnsPrefix(first: string, rest: string)
    requires '.' !in first
    ensures AreDnsLabels(first) <==> IsDnsLabel(first)
    ensures AreDnsLabels(first + "." + rest) <==> IsDnsLabel(first) && AreDnsLabels(rest)
  {
    CutAt(first, '.', rest);
  }

  // ---------- Listing and enqueueing ----------

  datatype Node = Node(name: string, labels: Labels)

  datatype Profile = Profile(name: string, namespace: string, selector: Selector)

  datatype Request = Request(name: string, namespace: string)

  predicate UniqueNodes(nodes: seq<Node>) {
    forall i, j :: 0 <= i < j < |nodes| ==> nodes[i].name != nodes[j].name
  }

  predicate IsSelected(sel: Selector, nodes: seq<Node>, n: string) {
    exists i :: 0 <= i < |nodes| && nodes[i].name == n && Matches(sel, nodes[i].labels)
  }

  /** `selectedNodeNames`: the names of the matching nodes, each once, or an error for an
      invalid selector. */
  method SelectedNodeNames(sel: Selector, nodes: seq<Node>) returns (names: Option<seq<string>>)
    requires UniqueNodes(nodes)
    ensures names.None? <==> !Valid(sel)
    ensures names.Some? ==> forall n :: n in names.value <==> IsSelected(sel, nodes, n)
    ensures names.Some? ==> forall i, j :: 0 <= i < j < |names.value| ==> names.value[i] != names.value[j]
  {
    if !Valid(sel) {
      return None;
    }
    var found: seq<string> := [];
    for i := 0 to |nodes|
      invariant forall n :: n in found <==> IsSelected(sel, nodes[..i], n)
      invariant forall k, j :: 0 <= k < j < |found| ==> found[k] != found[j]
    {
      ghost var next := nodes[..i + 1];
      assert next[i] == nodes[i] && forall k :: 0 <= k < i ==> next[k] == nodes[..i][k];
      assert !IsSelected(sel, nodes[..i], nodes[i].name);
      if Matches(sel, nodes[i].labels) {
        found := found + [nodes[i].name];
      }
      forall n ensures n in found <==> IsSelected(sel, next, n) {
        if k :| 0 <= k < |next| && next[k].name == n && Matches(sel, next[k].labels) {
          assert k == i || (k < i && nodes[..i][k].name == n);
        }
        if k :| 0 <= k < i && nodes[..i][k].name == n && Matches(sel, nodes[..i][k].labels) {
          assert next[k].name == n;
        }
      }
    }
    assert nodes[..|nodes|] == nodes;
    names := Some(found);
  }

  predicate IsRequested(profiles: seq<Profile>, labels: Labels, r: Request) {
    exists i :: 0 <= i < |profiles| && r == Request(profiles[i].name, profiles[i].namespace)
                && Valid(profiles[i].selector) && Matches(profiles[i].selector, labels)
  }

  /** `profilesForNode`: one request for every profile whose selector matches the node. */
  method ProfilesForNode(profiles: seq<Profile>, labels: Labels) returns (reqs: seq<Request>)
    ensures forall r :: r in reqs <==> IsRequested(profiles, labels, r)
  {
    reqs := [];
    for i := 0 to |profiles|
      invariant forall r :: r in reqs <==>
                            exists k :: 0 <= k < i && r == Request(profiles[k].name, profiles[k].namespace)
                                        && Valid(profiles[k].selector) && Matches(profiles[k].selector, labels)
    {
      var p := profiles[i];
      if !Valid(p.selector) {
        continue;
      }
      if Matches(p.selector, labels) {
        reqs := reqs + [Request(p.name, p.namespace)];
      }
    }
  }

  predicate UniqueProfiles(profiles: seq<Profile>) {
    forall i, j :: 0 <= i < j < |profiles| ==>
      Request(profiles[i].name, profiles[i].namespace) != Request(profiles[j].name, profiles[j].namespace)
  }

  /** Triggering and selection agree: a node is listed as selected for a profile exactly if
      an event of that node requests the profile, and then pods are placed on the node. */
  lemma TriggerAgreesWithSelection(profiles: seq<Profile>, nodes: seq<Node>, p: nat, n: nat)
    requires UniqueProfiles(profiles) && UniqueNodes(nodes)
    requires p < |profiles| && n < |nodes| && Valid(profiles[p].selector)
    ensures IsSelected(profiles[p].selector, nodes, nodes[n].name) <==>
            IsRequested(profiles, nodes[n].labels, Request(profiles[p].name, profiles[p].namespace))
    ensures IsSelected(profiles[p].selector, nodes, nodes[n].name) ==> Placed(profiles[p].selector, nodes[n].labels)
  {
  }

  // ---------- Placement against selection ----------

  /** An expression that `matchLabels` already implies. */
  predicate Implied(e: Expression, matchLabels: Labels) {
    match e.op
    case In => e.key in matchLabels && matchLabels[e.key] in e.values
    case NotIn => e.key in matchLabels && matchLabels[e.key] !in e.values
    case Exists => e.key in matchLabels
    case DoesNotExist => false
    case Unknown => false
  }

  /** Labels on which a pod is placed although the expression rejects the node. */
  function PlacedOnly(e: Expression, matchLabels: Labels): Labels
    requires ValidExpression(e)
  {
    match e.op
    case NotIn => if e.key in matchLabels then matchLabels else matchLabels[e.key := e.values[0]]
    case DoesNotExist => if e.key in matchLabels then matchLabels else matchLabels[e.key := ""]
    case _ => matchLabels
  }

  /** Pods run only on selected nodes, whatever the nodes' labels, exactly if `matchLabels`
      implies every expression; otherwise pods also run on nodes the rollout never counts. */
  lemma PlacementIsSelection(sel: Selector)
    requires Valid(sel)
    ensures (forall labels :: Placed(sel, labels) ==> Matches(sel, labels)) <==>
            (forall i :: 0 <= i < |sel.expressions| ==> Implied(sel.expressions[i], sel.matchLabels))
  {
    if forall labels :: Placed(sel, labels) ==> Matches(sel, labels) {
      forall i | 0 <= i < |sel.expressions| ensures Implied(sel.expressions[i], sel.matchLabels) {
        var e := sel.expressions[i];
        var labels := PlacedOnly(e, sel.matchLabels);
        assert Placed(sel, labels);
        assert ExpressionMatches(e, labels);
      }
    }
  }

  // ---------- Node events ----------

  datatype NodeEvent =
    | Created(labels: Labels)
    | Updated(before: Labels, after: Labels)
    | Deleted(labels: Labels)
    | Generic(labels: Labels)

  /** `nodeLabelChanged`: creations and label changes pass, heartbeats and deletions do not. */
  predicate NodeLabelChanged(e: NodeEvent) {
    match e
    case Created(_) => true
    case Updated(before, after) => before != after
    case Deleted(_) => false
    case Generic(_) => false
  }

  /** A passed event enqueues the profile if the node's labels match, before or after. */
  predicate EventEnqueues(sel: Selector, e: NodeEvent) {
    && Valid(sel)
    && NodeLabelChanged(e)
    && match e
       case Created(labels) => Matches(sel, labels)
       case Updated(before, after) => Matches(sel, before) || Matches(sel, after)
       case Deleted(labels) => Matches(sel, labels)
       case Generic(labels) => Matches(sel, labels)
  }

  /** What passes is exactly a creation, or an update that some selector can see. */
  lemma EventsThatPass(e: NodeEvent)
    ensures NodeLabelChanged(e) <==>
            e.Created? || (e.Updated? && exists sel :: Matches(sel, e.before) != Matches(sel, e.after))
  {
    if e.Updated? && e.before != e.after {
      var sel := TellingApart(e.before, e.after);
    }
  }

  lemma SameLabels(a: Labels, b: Labels)
    ensures PlacedBy(a, b) && PlacedBy(b, a) ==> a == b
  {
    if PlacedBy(a, b) && PlacedBy(b, a) {
      assert a.Keys == b.Keys;
    }
  }

  lemma TellingApart(a: Labels, b: Labels) returns (sel: Selector)
    requires a != b
    ensures Matches(sel, a) != Matches(sel, b)
  {
    SameLabels(a, b);
    sel := if PlacedBy(a, b) then Selector(b, []) else Selector(a, []);
  }

  /** The labels with which an event asks `profilesForNode`: an update asks with both. */
  predicate Asks(e: NodeEvent, labels: Labels) {
    match e
    case Updated(before, after) => labels == before || labels == after
    case _ => labels == e.labels
  }

  /** An event enqueues a profile exactly if it passes and one of its label sets requests it. */
  lemma EventsRequest(p: Profile, e: NodeEvent)
    ensures EventEnqueues(p.selector, e) <==>
            NodeLabelChanged(e) && exists labels :: Asks(e, labels) && IsRequested([p], labels, Request(p.name, p.namespace))
  {
    var r := Request(p.name, p.namespace);
    forall labels ensures IsRequested([p], labels, r) <==> Valid(p.selector) && Matches(p.selector, labels) {
      assert [p][0] == p;
    }
    if e.Updated? {
      assert Asks(e, e.before) && Asks(e, e.after);
    } else {
      assert Asks(e, e.labels);
    }
  }

  type Nodes = map<string, Labels>

  function Selected(sel: Selector, nodes: Nodes): set<string> {
    set n | n in nodes && Matches(sel, nodes[n])
  }

  /** The nodes of a list, by name. */
  function ByName(nodes: seq<Node>): Nodes {
    if nodes == [] then map[] else ByName(nodes[..|nodes| - 1])[nodes[|nodes| - 1].name := nodes[|nodes| - 1].labels]
  }

  lemma {:induction false} ByNameAt(nodes: seq<Node>, n: string)
    requires UniqueNodes(nodes)
    ensures n in ByName(nodes) <==> exists i :: 0 <= i < |nodes| && nodes[i].name == n
    ensures forall i :: 0 <= i < |nodes| && nodes[i].name == n ==> n in ByName(nodes) && ByName(nodes)[n] == nodes[i].labels
  {
    if nodes != [] {
      var init, last := nodes[..|nodes| - 1], |nodes| - 1;
      assert forall i :: 0 <= i < last ==> init[i] == nodes[i];
      ByNameAt(init, n);
      if nodes[last].name != n && n in ByName(init) {
        var i :| 0 <= i < |init| && init[i].name == n;
        assert nodes[i].name == n;
      }
    }
  }

  /** The listed names are the selected ones. */
  lemma {:induction false} ListedIsSelected(sel: Selector, nodes: seq<Node>, n: string)
    requires UniqueNodes(nodes)
    ensures IsSelected(sel, nodes, n) <==> n in Selected(sel, ByName(nodes))
  {
    ByNameAt(nodes, n);
  }

  /** The event that one node contributes when the informer moves from one list to another. */
  function EventOf(before: Nodes, after: Nodes, n: string): NodeEvent
    requires n in before || n in after
  {
    if n !in before then Created(after[n])
    else if n !in after then Deleted(before[n])
    else Updated(before[n], after[n])
  }

  predicate ListEnqueues(sel: Selector, before: Nodes, after: Nodes) {
    exists n :: n in before.Keys + after.Keys && EventEnqueues(sel, EventOf(before, after, n))
  }

  /** When no event enqueues the profile, no node joined the selection and only deleted
      nodes left it. */
  lemma DroppedEventsOnlyShrink(sel: Selector, before: Nodes, after: Nodes)
    requires Valid(sel) && !ListEnqueues(sel, before, after)
    ensures Selected(sel, after) == Selected(sel, before) * after.Keys
  {
    forall n | n in before.Keys + after.Keys
      ensures n in Selected(sel, after) <==> n in Selected(sel, before) && n in after
    {
      assert !EventEnqueues(sel, EventOf(before, after, n));
    }
  }
}
