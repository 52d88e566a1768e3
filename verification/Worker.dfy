/** The worker: the hash gate, applying or checking the mounted settings, running the
    mounted scripts, and the report it sends. */
module Worker {
  import opened Text
  import opened SysctlConf
  import ScriptConf
  import opened Ledger

  const PLACEHOLDER := "{iface}"

  /** The keys a run handled, by outcome. */
  datatype Result = Result(applied: seq<string>, failed: seq<string>, drifted: seq<string>) {
    predicate OK() {
      |failed| == 0 && |drifted| == 0
    }
  }

  /** What a node answers to the worker: the readable interface directories, which writes
      `sysctl -w` accepts, and which scripts exit with zero. */
  datatype Host = Host(
    dirs: map<string, seq<string>>,
    accepts: (string, string) -> bool,
    exitsZero: ScriptConf.ScriptEntry -> bool
  )

  /** The live kernel settings of a node. */
  type Kernel = map<string, string>

  // ---------- Placeholder expansion ----------

  predicate OccursAt(s: string, pattern: string, i: int) {
    0 <= i <= |s| - |pattern| && s[i..i + |pattern|] == pattern
  }

  /** `strings.Index`: the first occurrence. */
  function IndexOf(s: string, pattern: string): (i: int)
    ensures -1 <= i
    ensures i >= 0 ==> OccursAt(s, pattern, i)
    ensures forall k :: 0 <= k && (k < i || i < 0) ==> !OccursAt(s, pattern, k)
  {
    if |s| < |pattern| then -1
    else if s[..|pattern|] == pattern then 0
    else
      var j := IndexOf(s[1..], pattern);
      assert forall k :: 1 <= k && OccursAt(s, pattern, k) ==> OccursAt(s[1..], pattern, k - 1);
      if j < 0 then -1 else j + 1
  }

  function DropRightDots(s: string): string {
    if s != "" && s[|s| - 1] == '.' then DropRightDots(s[..|s| - 1]) else s
  }

  function DropLeftDots(s: string): string {
    if s != "" && s[0] == '.' then DropLeftDots(s[1..]) else s
  }

  predicate SkippedInterface(iface: string) {
    iface == "all" || iface == "default" || iface == "lo"
  }

  function InterfaceKey(prefix: string, suffix: string, iface: string): seq<string> {
    if SkippedInterface(iface) then [] else [prefix + "." + iface + "." + suffix]
  }

  function InterfaceKeys(prefix: string, suffix: string, ifaces: seq<string>): seq<string> {
    if ifaces == [] then [] else InterfaceKey(prefix, suffix, ifaces[0]) + InterfaceKeys(prefix, suffix, ifaces[1..])
  }

  /** The concrete keys of a name: itself, or one key for every interface found under its
      directory; none if the directory cannot be read. */
  function Expanded(dirs: map<string, seq<string>>, name: string): seq<string> {
    var i := IndexOf(name, PLACEHOLDER);
    if i < 0 then [name]
    else
      var prefix := DropRightDots(name[..i]);
      var suffix := DropLeftDots(name[i + |PLACEHOLDER|..]);
      if prefix !in dirs then [] else InterfaceKeys(prefix, suffix, dirs[prefix])
  }

  lemma InterfaceKeysNext(prefix: string, suffix: string, ifaces: seq<string>, k: nat, keys: seq<string>)
    requires k < |ifaces|
    ensures SkippedInterface(ifaces[k]) ==>
              InterfaceKeys(prefix, suffix, ifaces[k..]) == InterfaceKeys(prefix, suffix, ifaces[k + 1..])
    ensures !SkippedInterface(ifaces[k]) ==>
              keys + InterfaceKeys(prefix, suffix, ifaces[k..]) ==
              keys + [prefix + "." + ifaces[k] + "." + suffix] + InterfaceKeys(prefix, suffix, ifaces[k + 1..])
  {
  }

  method Expand(dirs: map<string, seq<string>>, name: string) returns (keys: seq<string>)
    ensures keys == Expanded(dirs, name)
  {
    var i := IndexOf(name, PLACEHOLDER);
    if i < 0 {
      return [name];
    }
    var prefix := DropRightDots(name[..i]);
    var suffix := DropLeftDots(name[i + |PLACEHOLDER|..]);
    if prefix !in dirs {
      return [];
    }
    keys := [];
    var ifaces := dirs[prefix];
    for k := 0 to |ifaces|
      invariant keys + InterfaceKeys(prefix, suffix, ifaces[k..]) == InterfaceKeys(prefix, suffix, ifaces)
    {
      InterfaceKeysNext(prefix, suffix, ifaces, k, keys);
      var iface := ifaces[k];
      if SkippedInterface(iface) {
        continue;
      }
      keys := keys + [prefix + "." + iface + "." + suffix];
    }
  }

  /** The key is that of one of the interfaces, not an aggregate nor the loopback. */
  ghost predicate IsInterfaceKey(prefix: string, suffix: string, ifaces: seq<string>, key: string) {
    exists i :: 0 <= i < |ifaces| && ifaces[i] != "all" && ifaces[i] != "default" && ifaces[i] != "lo"
                && key == prefix + "." + ifaces[i] + "." + suffix
  }

  lemma {:induction false} InterfaceKeysAre(prefix: string, suffix: string, ifaces: seq<string>, key: string)
    ensures key in InterfaceKeys(prefix, suffix, ifaces) <==> IsInterfaceKey(prefix, suffix, ifaces, key)
  {
    if ifaces != [] {
      InterfaceKeysAre(prefix, suffix, ifaces[1..], key);
      assert forall i :: 0 < i < |ifaces| ==> ifaces[i] == ifaces[1..][i - 1];
      assert forall i :: 0 <= i < |ifaces[1..]| ==> ifaces[1..][i] == ifaces[i + 1];
    }
  }

  predicate AllDots(s: string) {
    forall i :: 0 <= i < |s| ==> s[i] == '.'
  }

  lemma {:induction false} RightDots(s: string) returns (dots: string)
    ensures s == DropRightDots(s) + dots && AllDots(dots)
    ensures !HasSuffix(DropRightDots(s), ".")
  {
    if s != "" && s[|s| - 1] == '.' {
      var more := RightDots(s[..|s| - 1]);
      dots := more + ".";
    } else {
      dots := "";
    }
  }

  lemma {:induction false} LeftDots(s: string) returns (dots: string)
    ensures s == dots + DropLeftDots(s) && AllDots(dots)
    ensures !HasPrefix(DropLeftDots(s), ".")
  {
    if s != "" && s[0] == '.' {
      var more := LeftDots(s[1..]);
      dots := "." + more;
    } else {
      dots := "";
      assert s != "" ==> s[..1] == [s[0]];
    }
  }

  lemma SplitAtPlaceholder(name: string) returns (before: string, after: string)
    requires IndexOf(name, PLACEHOLDER) >= 0
    ensures name == before + PLACEHOLDER + after && |before| == IndexOf(name, PLACEHOLDER)
    ensures before == name[..IndexOf(name, PLACEHOLDER)] && after == name[IndexOf(name, PLACEHOLDER) + |PLACEHOLDER|..]
  {
    var i := IndexOf(name, PLACEHOLDER);
    before, after := name[..i], name[i + |PLACEHOLDER|..];
  }

  /** Any other name stands for itself. */
  lemma PlainNameExpands(dirs: map<string, seq<string>>, name: string)
    requires IndexOf(name, "{iface}") < 0
    ensures Expanded(dirs, name) == [name]
  {
  }

  /** The keys come in the order of the interfaces. */
  lemma {:induction false} InterfaceKeysInOrder(prefix: string, suffix: string, a: seq<string>, b: seq<string>)
    ensures InterfaceKeys(prefix, suffix, a + b) == InterfaceKeys(prefix, suffix, a) + InterfaceKeys(prefix, suffix, b)
  {
    if a == [] {
      assert a + b == b;
    } else {
      var key := InterfaceKey(prefix, suffix, a[0]);
      assert (a + b)[0] == a[0] && (a + b)[1..] == a[1..] + b;
      InterfaceKeysInOrder(prefix, suffix, a[1..], b);
      assert key + (InterfaceKeys(prefix, suffix, a[1..]) + InterfaceKeys(prefix, suffix, b)) ==
             (key + InterfaceKeys(prefix, suffix, a[1..])) + InterfaceKeys(prefix, suffix, b);
    }
  }

  /** One interface gives one key, or none if it is an aggregate or the loopback. */
  lemma OneInterface(prefix: string, suffix: string, iface: string)
    ensures InterfaceKeys(prefix, suffix, [iface]) ==
            if iface == "all" || iface == "default" || iface == "lo" then [] else [prefix + "." + iface + "." + suffix]
  {
    assert [iface][1..] == [];
  }

  /** Any name with the placeholder splits, at its first occurrence and the dots around it, into
      a prefix and a suffix, and stands for the keys of the interfaces found under the prefix; an
      unreadable directory stands for none. */
  lemma PlaceholderExpands(dirs: map<string, seq<string>>, name: string, key: string)
    returns (prefix: string, left: string, right: string, suffix: string)
    requires IndexOf(name, "{iface}") >= 0
    ensures name == (prefix + left) + "{iface}" + (right + suffix) && |prefix + left| == IndexOf(name, "{iface}")
    ensures AllDots(left) && AllDots(right) && !HasSuffix(prefix, ".") && !HasPrefix(suffix, ".")
    ensures key in Expanded(dirs, name) <==> prefix in dirs && IsInterfaceKey(prefix, suffix, dirs[prefix], key)
  {
    var before, after := SplitAtPlaceholder(name);
    prefix, suffix := DropRightDots(before), DropLeftDots(after);
    left := RightDots(before);
    right := LeftDots(after);
    if prefix in dirs {
      InterfaceKeysAre(prefix, suffix, dirs[prefix], key);
    }
  }

  /** One key to write or check, with the wanted value. */
  datatype Target = Target(key: string, value: string)

  function WithValue(keys: seq<string>, value: string): seq<Target> {
    seq(|keys|, i requires 0 <= i < |keys| => Target(keys[i], value))
  }

  /** Every expanded key occurrence of a run, in order. */
  function Targets(dirs: map<string, seq<string>>, entries: seq<Entry>): seq<Target> {
    if entries == [] then []
    else Targets(dirs, entries[..|entries| - 1]) +
         WithValue(Expanded(dirs, entries[|entries| - 1].name), entries[|entries| - 1].value)
  }

  /** The targets come in the order of the entries. */
  lemma {:induction false} TargetsInOrder(dirs: map<string, seq<string>>, a: seq<Entry>, b: seq<Entry>)
    ensures Targets(dirs, a + b) == Targets(dirs, a) + Targets(dirs, b)
  {
    if b == [] {
      assert a + b == a;
    } else {
      var init, last := b[..|b| - 1], b[|b| - 1];
      var these := WithValue(Expanded(dirs, last.name), last.value);
      assert (a + b)[..|a + b| - 1] == a + init && (a + b)[|a + b| - 1] == last;
      TargetsInOrder(dirs, a, init);
      assert (Targets(dirs, a) + Targets(dirs, init)) + these == Targets(dirs, a) + (Targets(dirs, init) + these);
    }
  }

  /** One entry gives its keys in the order of its expansion, each with its value. */
  lemma TargetsOfOne(dirs: map<string, seq<string>>, e: Entry)
    ensures var keys := Expanded(dirs, e.name);
            && |Targets(dirs, [e])| == |keys|
            && forall i :: 0 <= i < |keys| ==> Targets(dirs, [e])[i] == Target(keys[i], e.value)
  {
    assert [e][..0] == [];
  }

  // ---------- Apply ----------

  function Accepted(host: Host, targets: seq<Target>): seq<string> {
    if targets == [] then []
    else
      var t := targets[|targets| - 1];
      Accepted(host, targets[..|targets| - 1]) + (if host.accepts(t.key, t.value) then [t.key] else [])
  }

  function Refused(host: Host, targets: seq<Target>): seq<string> {
    if targets == [] then []
    else
      var t := targets[|targets| - 1];
      Refused(host, targets[..|targets| - 1]) + (if host.accepts(t.key, t.value) then [] else [t.key])
  }

  /** The kernel after a run of writes: a refused write changes nothing. */
  function Written(host: Host, kernel: Kernel, targets: seq<Target>): Kernel {
    if targets == [] then kernel
    else
      var t := targets[|targets| - 1];
      var before := Written(host, kernel, targets[..|targets| - 1]);
      if host.accepts(t.key, t.value) then before[t.key := t.value] else before
  }

  /** Results and kernel after handling one more key. */
  function ApplyOne(host: Host, res: Result, live: Kernel, t: Target): (Result, Kernel) {
    if host.accepts(t.key, t.value) then (res.(applied := res.applied + [t.key]), live[t.key := t.value])
    else (res.(failed := res.failed + [t.key]), live)
  }

  function ApplyAll(host: Host, kernel: Kernel, targets: seq<Target>): (Result, Kernel) {
    if targets == [] then (Result([], [], []), kernel)
    else
      var (res, live) := ApplyAll(host, kernel, targets[..|targets| - 1]);
      ApplyOne(host, res, live, targets[|targets| - 1])
  }

  lemma {:induction false} ApplyAllFiles(host: Host, kernel: Kernel, targets: seq<Target>)
    ensures ApplyAll(host, kernel, targets) ==
            (Result(Accepted(host, targets), Refused(host, targets), []), Written(host, kernel, targets))
  {
    if targets != [] {
      var init, t := targets[..|targets| - 1], targets[|targets| - 1];
      ApplyAllFiles(host, kernel, init);
      assert Accepted(host, init) + [] == Accepted(host, init) && Refused(host, init) + [] == Refused(host, init);
      assert ApplyAll(host, kernel, targets) == ApplyOne(host, ApplyAll(host, kernel, init).0, ApplyAll(host, kernel, init).1, t);
    }
  }

  lemma TargetsNext(dirs: map<string, seq<string>>, entries: seq<Entry>, i: nat)
    requires i < |entries|
    ensures Targets(dirs, entries[..i + 1]) ==
            Targets(dirs, entries[..i]) + WithValue(Expanded(dirs, entries[i].name), entries[i].value)
  {
    assert entries[..i + 1][..i] == entries[..i];
  }

  lemma ApplyNext(host: Host, kernel: Kernel, before: seq<Target>, these: seq<Target>, k: nat)
    requires k < |these|
    ensures var (res, live) := ApplyAll(host, kernel, before + these[..k]);
            ApplyAll(host, kernel, before + these[..k + 1]) == ApplyOne(host, res, live, these[k])
  {
    OneMore(before, these, k);
  }

  /** The inner loop of `Apply`: the keys of one entry. */
  method ApplyKeys(host: Host, keys: seq<string>, value: string, res0: Result, live0: Kernel,
                   ghost kernel: Kernel, ghost before: seq<Target>)
    returns (res: Result, live: Kernel)
    requires (res0, live0) == ApplyAll(host, kernel, before)
    ensures (res, live) == ApplyAll(host, kernel, before + WithValue(keys, value))
  {
    res, live := res0, live0;
    ghost var these := WithValue(keys, value);
    assert before + these[..0] == before;
    for k := 0 to |keys|
      invariant (res, live) == ApplyAll(host, kernel, before + these[..k])
    {
      ApplyNext(host, kernel, before, these, k);
      var key := keys[k];
      if !host.accepts(key, value) {
        res := res.(failed := res.failed + [key]);
        continue;
      }
      live := live[key := value];
      res := res.(applied := res.applied + [key]);
    }
    assert these[..|keys|] == these;
  }

  /** `Apply`: every expanded key of every entry is written and filed by outcome. */
  method Apply(host: Host, kernel: Kernel, entries: seq<Entry>) returns (res: Result, live: Kernel)
    ensures var targets := Targets(host.dirs, entries);
            && res == Result(Accepted(host, targets), Refused(host, targets), [])
            && live == Written(host, kernel, targets)
  {
    res, live := Result([], [], []), kernel;
    for i := 0 to |entries|
      invariant (res, live) == ApplyAll(host, kernel, Targets(host.dirs, entries[..i]))
    {
      var keys := Expand(host.dirs, entries[i].name);
      TargetsNext(host.dirs, entries, i);
      res, live := ApplyKeys(host, keys, entries[i].value, res, live, kernel, Targets(host.dirs, entries[..i]));
    }
    assert entries[..|entries|] == entries;
    ApplyAllFiles(host, kernel, Targets(host.dirs, entries));
  }

  lemma OneMore(before: seq<Target>, these: seq<Target>, k: nat)
    requires k < |these|
    ensures var done := before + these[..k + 1];
            done[..|done| - 1] == before + these[..k] && done[|done| - 1] == these[k]
  {
  }

  // ---------- Check ----------

  datatype Outcome = InSpec | Unreadable | Drift

  /** What checking one key finds. */
  function Inspect(kernel: Kernel, t: Target): Outcome {
    if t.key !in kernel then Unreadable
    else if Trim(kernel[t.key]) != t.value then Drift
    else InSpec
  }

  function WithOutcome(kernel: Kernel, targets: seq<Target>, o: Outcome): seq<string> {
    if targets == [] then []
    else
      var t := targets[|targets| - 1];
      WithOutcome(kernel, targets[..|targets| - 1], o) + (if Inspect(kernel, t) == o then [t.key] else [])
  }

  function CheckOne(kernel: Kernel, res: Result, t: Target): Result {
    match Inspect(kernel, t)
    case InSpec => res.(applied := res.applied + [t.key])
    case Unreadable => res.(failed := res.failed + [t.key])
    case Drift => res.(drifted := res.drifted + [t.key])
  }

  function CheckAll(kernel: Kernel, targets: seq<Target>): Result {
    if targets == [] then Result([], [], [])
    else CheckOne(kernel, CheckAll(kernel, targets[..|targets| - 1]), targets[|targets| - 1])
  }

  lemma {:induction false} CheckAllFiles(kernel: Kernel, targets: seq<Target>)
    ensures CheckAll(kernel, targets) ==
            Result(WithOutcome(kernel, targets, InSpec), WithOutcome(kernel, targets, Unreadable),
                   WithOutcome(kernel, targets, Drift))
  {
    if targets != [] {
      CheckAllFiles(kernel, targets[..|targets| - 1]);
    }
  }

  /** The inner loop of `Check`: the keys of one entry. */
  method CheckKeys(kernel: Kernel, keys: seq<string>, value: string, res0: Result, ghost before: seq<Target>)
    returns (res: Result)
    requires res0 == CheckAll(kernel, before)
    ensures res == CheckAll(kernel, before + WithValue(keys, value))
  {
    res := res0;
    ghost var these := WithValue(keys, value);
    assert before + these[..0] == before;
    for k := 0 to |keys|
      invariant res == CheckAll(kernel, before + these[..k])
    {
      OneMore(before, these, k);
      var key := keys[k];
      if key !in kernel {
        res := res.(failed := res.failed + [key]);
        continue;
      }
      if Trim(kernel[key]) != value {
        res := res.(drifted := res.drifted + [key]);
        continue;
      }
      res := res.(applied := res.applied + [key]);
    }
    assert these[..|keys|] == these;
  }

  /** `Check`: every expanded key of every entry is read and filed by outcome. */
  method Check(host: Host, kernel: Kernel, entries: seq<Entry>) returns (res: Result)
    ensures var targets := Targets(host.dirs, entries);
            res == Result(WithOutcome(kernel, targets, InSpec), WithOutcome(kernel, targets, Unreadable),
                          WithOutcome(kernel, targets, Drift))
  {
    res := Result([], [], []);
    for i := 0 to |entries|
      invariant res == CheckAll(kernel, Targets(host.dirs, entries[..i]))
    {
      var keys := Expand(host.dirs, entries[i].name);
      TargetsNext(host.dirs, entries, i);
      res := CheckKeys(kernel, keys, entries[i].value, res, Targets(host.dirs, entries[..i]));
    }
    assert entries[..|entries|] == entries;
    CheckAllFiles(kernel, Targets(host.dirs, entries));
  }

  // ---------- Apply and Check agree ----------

  function Keys(targets: seq<Target>): seq<string> {
    seq(|targets|, i requires 0 <= i < |targets| => targets[i].key)
  }

  lemma KeysLast(targets: seq<Target>)
    requires targets != []
    ensures Keys(targets) == Keys(targets[..|targets| - 1]) + [targets[|targets| - 1].key]
  {
  }

  /** Each key occurrence ends in exactly one list of an Apply run. */
  lemma {:induction false} ApplyFilesEachKeyOnce(host: Host, targets: seq<Target>)
    ensures multiset(Accepted(host, targets)) + multiset(Refused(host, targets)) == multiset(Keys(targets))
  {
    if targets != [] {
      var init, t := targets[..|targets| - 1], targets[|targets| - 1];
      ApplyFilesEachKeyOnce(host, init);
      KeysLast(targets);
      assert multiset(Keys(targets)) == multiset(Keys(init)) + multiset{t.key};
    }
  }

  lemma OutcomeLast(kernel: Kernel, targets: seq<Target>, o: Outcome)
    requires targets != []
    ensures multiset(WithOutcome(kernel, targets, o)) ==
            multiset(WithOutcome(kernel, targets[..|targets| - 1], o)) +
            (if Inspect(kernel, targets[|targets| - 1]) == o then multiset{targets[|targets| - 1].key} else multiset{})
  {
  }

  /** Each key occurrence ends in exactly one list of a Check run. */
  lemma {:induction false} CheckFilesEachKeyOnce(kernel: Kernel, targets: seq<Target>)
    ensures multiset(WithOutcome(kernel, targets, InSpec)) + multiset(WithOutcome(kernel, targets, Unreadable)) +
            multiset(WithOutcome(kernel, targets, Drift)) == multiset(Keys(targets))
  {
    if targets != [] {
      var init, t := targets[..|targets| - 1], targets[|targets| - 1];
      CheckFilesEachKeyOnce(kernel, init);
      OutcomeLast(kernel, targets, InSpec);
      OutcomeLast(kernel, targets, Unreadable);
      OutcomeLast(kernel, targets, Drift);
      KeysLast(targets);
      assert multiset(Keys(targets)) == multiset(Keys(init)) + multiset{t.key};
    }
  }

  /** The lists of a run are in its order. */
  lemma {:induction false} ListsInOrder(host: Host, kernel: Kernel, a: seq<Target>, b: seq<Target>)
    ensures Accepted(host, a + b) == Accepted(host, a) + Accepted(host, b)
    ensures Refused(host, a + b) == Refused(host, a) + Refused(host, b)
    ensures forall o :: WithOutcome(kernel, a + b, o) == WithOutcome(kernel, a, o) + WithOutcome(kernel, b, o)
  {
    if b == [] {
      assert a + b == a;
    } else {
      assert (a + b)[..|a + b| - 1] == a + b[..|b| - 1];
      ListsInOrder(host, kernel, a, b[..|b| - 1]);
    }
  }

  /** A key is listed as applied if some write to it was accepted, as failed if some was refused. */
  lemma {:induction false} ApplyLists(host: Host, targets: seq<Target>, key: string)
    ensures key in Accepted(host, targets) <==> exists t :: t in targets && t.key == key && host.accepts(t.key, t.value)
    ensures key in Refused(host, targets) <==> exists t :: t in targets && t.key == key && !host.accepts(t.key, t.value)
  {
    if targets != [] {
      var init, last := targets[..|targets| - 1], targets[|targets| - 1];
      ApplyLists(host, init, key);
      assert targets == init + [last];
      assert forall t :: t in targets <==> t in init || t == last;
    }
  }

  lemma {:induction false} OutcomeLists(kernel: Kernel, targets: seq<Target>, o: Outcome, key: string)
    ensures key in WithOutcome(kernel, targets, o) <==> exists t :: t in targets && t.key == key && Inspect(kernel, t) == o
  {
    if targets != [] {
      var init, last := targets[..|targets| - 1], targets[|targets| - 1];
      OutcomeLists(kernel, init, o, key);
      assert targets == init + [last];
      assert forall t :: t in targets <==> t in init || t == last;
    }
  }

  /** A key is listed as applied if it was read as wanted, as failed if it could not be read, as drifted
      if it was read otherwise. */
  lemma CheckLists(kernel: Kernel, targets: seq<Target>, key: string)
    ensures key in WithOutcome(kernel, targets, InSpec) <==>
            exists t :: t in targets && t.key == key && key in kernel && Trim(kernel[key]) == t.value
    ensures key in WithOutcome(kernel, targets, Unreadable) <==> exists t :: t in targets && t.key == key && key !in kernel
    ensures key in WithOutcome(kernel, targets, Drift) <==>
            exists t :: t in targets && t.key == key && key in kernel && Trim(kernel[key]) != t.value
  {
    OutcomeLists(kernel, targets, InSpec, key);
    OutcomeLists(kernel, targets, Unreadable, key);
    OutcomeLists(kernel, targets, Drift, key);
  }

  predicate AllAccepted(host: Host, targets: seq<Target>) {
    forall i :: 0 <= i < |targets| ==> host.accepts(targets[i].key, targets[i].value)
  }

  /** An Apply run is OK exactly when no write was refused. */
  lemma {:induction false} ApplyOK(host: Host, targets: seq<Target>)
    ensures |Refused(host, targets)| == 0 <==> AllAccepted(host, targets)
  {
    if targets != [] {
      var init := targets[..|targets| - 1];
      ApplyOK(host, init);
      assert AllAccepted(host, targets) ==> AllAccepted(host, init) by {
        assert forall i :: 0 <= i < |init| ==> init[i] == targets[i];
      }
      assert forall i :: 0 <= i < |init| ==> targets[i] == init[i];
    }
  }

  predicate AllInSpec(kernel: Kernel, targets: seq<Target>) {
    forall i :: 0 <= i < |targets| ==> Inspect(kernel, targets[i]).InSpec?
  }

  /** A Check run is OK exactly when every key reads back as wanted. */
  lemma {:induction false} CheckOK(kernel: Kernel, targets: seq<Target>)
    ensures |WithOutcome(kernel, targets, Unreadable)| == 0 && |WithOutcome(kernel, targets, Drift)| == 0 <==>
            AllInSpec(kernel, targets)
  {
    if targets != [] {
      var init := targets[..|targets| - 1];
      CheckOK(kernel, init);
      assert AllInSpec(kernel, targets) ==> AllInSpec(kernel, init) by {
        assert forall i :: 0 <= i < |init| ==> init[i] == targets[i];
      }
      assert forall i :: 0 <= i < |init| ==> targets[i] == init[i];
    }
  }

  /** No key is given two values, and every value is trimmed as parsed values are. */
  predicate Consistent(targets: seq<Target>) {
    && (forall i, j :: 0 <= i < |targets| && 0 <= j < |targets| && targets[i].key == targets[j].key ==>
          targets[i].value == targets[j].value)
    && (forall i :: 0 <= i < |targets| ==> Trim(targets[i].value) == targets[i].value)
  }

  /** The last accepted write to a key is the one that stays, whatever was refused. */
  lemma {:induction false} LastWriteStays(host: Host, kernel: Kernel, targets: seq<Target>, key: string) returns (i: int)
    ensures -1 <= i < |targets|
    ensures i >= 0 ==> targets[i].key == key && host.accepts(key, targets[i].value) &&
                       key in Written(host, kernel, targets) && Written(host, kernel, targets)[key] == targets[i].value
    ensures forall j :: i < j < |targets| && targets[j].key == key ==> !host.accepts(key, targets[j].value)
    ensures i < 0 ==> (key in Written(host, kernel, targets) <==> key in kernel) &&
                      (key in kernel ==> Written(host, kernel, targets)[key] == kernel[key])
  {
    if targets == [] {
      i := -1;
    } else {
      var last := |targets| - 1;
      if targets[last].key == key && host.accepts(key, targets[last].value) {
        i := last;
      } else {
        var init := targets[..last];
        assert forall j :: 0 <= j < |init| ==> init[j] == targets[j];
        i := LastWriteStays(host, kernel, init, key);
      }
    }
  }

  /** Check right after an Apply that was OK, with unchanged interfaces, is OK exactly when no
      key is given two different values (and the values are trimmed, as Parse leaves them). */
  lemma CheckAfterApply(host: Host, kernel: Kernel, targets: seq<Target>)
    requires AllAccepted(host, targets)
    ensures AllInSpec(Written(host, kernel, targets), targets) <==> Consistent(targets)
  {
    var live := Written(host, kernel, targets);
    if Consistent(targets) {
      forall i | 0 <= i < |targets| ensures Inspect(live, targets[i]).InSpec? {
        var k := LastWriteStays(host, kernel, targets, targets[i].key);
      }
    }
    if AllInSpec(live, targets) {
      forall i | 0 <= i < |targets| ensures Trim(live[targets[i].key]) == targets[i].value {
        assert Inspect(live, targets[i]).InSpec?;
      }
      forall i | 0 <= i < |targets| ensures Trim(targets[i].value) == targets[i].value {
        var pre, post := TrimParts(live[targets[i].key]);
        TrimTrimmed(targets[i].value);
      }
    }
  }

  /** Entries that Parse made need only the first condition. */
  lemma ParsedTargetsTrimmed(dirs: map<string, seq<string>>, data: string)
    ensures forall i :: 0 <= i < |Targets(dirs, Parsed(data))| ==>
              Trim(Targets(dirs, Parsed(data))[i].value) == Targets(dirs, Parsed(data))[i].value
  {
    var entries := Parsed(data);
    ParsedIsClean(data);
    forall i | 0 <= i < |Targets(dirs, entries)|
      ensures Trim(Targets(dirs, entries)[i].value) == Targets(dirs, entries)[i].value
    {
      var k := TargetFrom(dirs, entries, i);
      assert CleanEntry(entries[k]);
      TrimTrimmed(entries[k].value);
    }
  }

  lemma {:induction false} TargetFrom(dirs: map<string, seq<string>>, entries: seq<Entry>, i: nat) returns (k: nat)
    requires i < |Targets(dirs, entries)|
    ensures k < |entries| && Targets(dirs, entries)[i].value == entries[k].value
    ensures Targets(dirs, entries)[i].key in Expanded(dirs, entries[k].name)
  {
    var last := |entries| - 1;
    var before := Targets(dirs, entries[..last]);
    if i < |before| {
      k := TargetFrom(dirs, entries[..last], i);
    } else {
      k := last;
    }
  }

  lemma WithValueHas(keys: seq<string>, value: string, key: string)
    requires key in keys
    ensures Target(key, value) in WithValue(keys, value)
  {
    var j :| 0 <= j < |keys| && keys[j] == key;
    assert WithValue(keys, value)[j] == Target(key, value);
  }

  /** Every expanded key of every entry is a target. */
  lemma {:induction false} TargetOf(dirs: map<string, seq<string>>, entries: seq<Entry>, k: nat, key: string)
    requires k < |entries| && key in Expanded(dirs, entries[k].name)
    ensures Target(key, entries[k].value) in Targets(dirs, entries)
  {
    var last := |entries| - 1;
    if k < last {
      assert entries[..last][k] == entries[k];
      TargetOf(dirs, entries[..last], k, key);
    } else {
      WithValueHas(Expanded(dirs, entries[k].name), entries[k].value, key);
    }
  }

  // ---------- Scripts ----------

  function EffectiveScript(s: ScriptConf.ScriptEntry): ScriptConf.ScriptEntry {
    if s.interpreter == "" then s.(interpreter := ScriptConf.DEFAULT_INTERPRETER) else s
  }

  function RanScripts(host: Host, scripts: seq<ScriptConf.ScriptEntry>, ok: bool): seq<string> {
    if scripts == [] then []
    else
      var s := scripts[|scripts| - 1];
      RanScripts(host, scripts[..|scripts| - 1], ok) + (if host.exitsZero(EffectiveScript(s)) == ok then [s.name] else [])
  }

  /** `RunScripts`: every script runs, whatever the ones before it did. */
  method RunScripts(host: Host, scripts: seq<ScriptConf.ScriptEntry>) returns (res: Result)
    ensures res == Result(RanScripts(host, scripts, true), RanScripts(host, scripts, false), [])
  {
    res := Result([], [], []);
    for i := 0 to |scripts|
      invariant res == Result(RanScripts(host, scripts[..i], true), RanScripts(host, scripts[..i], false), [])
    {
      assert scripts[..i + 1][..i] == scripts[..i];
      var s := scripts[i];
      var interp := s.interpreter;
      if interp == "" {
        interp := ScriptConf.DEFAULT_INTERPRETER;
      }
      if !host.exitsZero(s.(interpreter := interp)) {
        res := res.(failed := res.failed + [s.name]);
        continue;
      }
      res := res.(applied := res.applied + [s.name]);
    }
    assert scripts[..|scripts|] == scripts;
  }

  lemma {:induction false} RunsInOrder(host: Host, a: seq<ScriptConf.ScriptEntry>, b: seq<ScriptConf.ScriptEntry>, ok: bool)
    ensures RanScripts(host, a + b, ok) == RanScripts(host, a, ok) + RanScripts(host, b, ok)
  {
    if b == [] {
      assert a + b == a;
    } else {
      assert (a + b)[..|a + b| - 1] == a + b[..|b| - 1];
      RunsInOrder(host, a, b[..|b| - 1], ok);
    }
  }

  function ScriptNames(scripts: seq<ScriptConf.ScriptEntry>): seq<string> {
    seq(|scripts|, i requires 0 <= i < |scripts| => scripts[i].name)
  }

  /** Every script runs: each name occurrence ends in exactly one list. */
  lemma {:induction false} RunFilesEachScriptOnce(host: Host, scripts: seq<ScriptConf.ScriptEntry>)
    ensures multiset(RanScripts(host, scripts, true)) + multiset(RanScripts(host, scripts, false)) == multiset(ScriptNames(scripts))
  {
    if scripts != [] {
      var init, last := scripts[..|scripts| - 1], scripts[|scripts| - 1];
      RunFilesEachScriptOnce(host, init);
      assert ScriptNames(scripts) == ScriptNames(init) + [last.name];
    }
  }

  /** A script without an interpreter runs with the default one. */
  predicate ExitsZero(host: Host, s: ScriptConf.ScriptEntry) {
    host.exitsZero(if s.interpreter == "" then ScriptConf.ScriptEntry(s.name, "/bin/sh", s.content) else s)
  }

  /** A name is listed as applied if some script of that name exits with zero, as failed if some does
      not, whatever other scripts do. */
  lemma {:induction false} RunLists(host: Host, scripts: seq<ScriptConf.ScriptEntry>, name: string)
    ensures name in RanScripts(host, scripts, true) <==> exists s :: s in scripts && s.name == name && ExitsZero(host, s)
    ensures name in RanScripts(host, scripts, false) <==> exists s :: s in scripts && s.name == name && !ExitsZero(host, s)
  {
    if scripts != [] {
      var init, last := scripts[..|scripts| - 1], scripts[|scripts| - 1];
      RunLists(host, init, name);
      assert scripts == init + [last];
      assert forall s :: s in scripts <==> s in init || s == last;
    }
  }

  predicate AllExitZero(host: Host, scripts: seq<ScriptConf.ScriptEntry>) {
    forall i :: 0 <= i < |scripts| ==> host.exitsZero(EffectiveScript(scripts[i]))
  }

  lemma {:induction false} RunScriptsOK(host: Host, scripts: seq<ScriptConf.ScriptEntry>)
    ensures |RanScripts(host, scripts, false)| == 0 <==> AllExitZero(host, scripts)
  {
    if scripts != [] {
      var init := scripts[..|scripts| - 1];
      RunScriptsOK(host, init);
      assert AllExitZero(host, scripts) ==> AllExitZero(host, init) by {
        assert forall i :: 0 <= i < |init| ==> init[i] == scripts[i];
      }
      assert forall i :: 0 <= i < |init| ==> scripts[i] == init[i];
    }
  }

  // ---------- The whole worker ----------

  datatype Mode = ApplyMode | CheckMode | ScriptMode

  /** The worker acts only if the mounted bytes have the hash the operator expects. */
  predicate GatePasses(got: string, expected: string) {
    expected == "" || got == expected
  }

  /** What a successful run means on the node, for the mounted bytes. */
  ghost predicate Succeeded(mode: Mode, mounted: string, host: Host, kernel: Kernel) {
    match mode
    case ApplyMode => AllAccepted(host, Targets(host.dirs, Parsed(mounted)))
    case CheckMode => AllInSpec(kernel, Targets(host.dirs, Parsed(mounted)))
    case ScriptMode => AllExitZero(host, ScriptConf.Parsed(mounted))
  }

  /** The mode a name stands for; the worker knows no other names. */
  function ModeOf(name: string): Option<Mode> {
    if name == "apply" then Some(ApplyMode)
    else if name == "check" then Some(CheckMode)
    else if name == "script" then Some(ScriptMode)
    else None
  }

  /** How a worker ends: stopped before it acted, or with a report, which perhaps was sent. */
  datatype Exit = Stopped | Acted(report: Report, sent: bool)

  /** What makes a worker of a known mode act: a readable config, and the gate. */
  predicate Acts(hash: string -> string, expected: string, mounted: Option<string>) {
    mounted.Some? && GatePasses(hash(mounted.value), expected)
  }

  /** The part of the worker's main that acts on the loaded bytes. */
  method ActByMode(mode: Mode, data: string, host: Host, kernel: Kernel) returns (res: Result, live: Kernel)
    ensures res.OK() <==> Succeeded(mode, data, host, kernel)
    ensures live == if mode.ApplyMode? then Written(host, kernel, Targets(host.dirs, Parsed(data))) else kernel
  {
    live := kernel;
    match mode {
      case ApplyMode =>
        var entries := Parse(data);
        res, live := Apply(host, kernel, entries);
        ApplyOK(host, Targets(host.dirs, entries));
      case CheckMode =>
        var entries := Parse(data);
        res := Check(host, kernel, entries);
        CheckOK(kernel, Targets(host.dirs, entries));
      case ScriptMode =>
        var scripts := ScriptConf.ParseScripts(data);
        res := RunScripts(host, scripts);
        RunScriptsOK(host, scripts);
    }
  }

  /** The worker's main: load, verify the hash, act by mode, report. Applying writes the kernel and
      succeeds if every write is accepted; checking and running scripts leave it, and succeed if every
      key reads back as wanted and every script exits with zero; any other mode, like an unreadable
      config or a closed gate, stops the worker before it acts. A report is sent only if there is
      somewhere to send it and the server takes it; the node's work is done either way. */
  method RunWorker(hash: string -> string, mode: string, expected: string, node: string, mounted: Option<string>,
                   url: string, taken: bool, host: Host, kernel: Kernel)
    returns (exit: Exit, live: Kernel)
    ensures exit.Acted? <==> Acts(hash, expected, mounted) && (mode == "apply" || mode == "check" || mode == "script")
    ensures Acts(hash, expected, mounted) <==> mounted.Some? && (expected == "" || hash(mounted.value) == expected)
    ensures exit.Acted? ==>
              exit.report.node == node && exit.report.hash == hash(mounted.value) && (exit.sent <==> url != "" && taken)
    ensures exit.Acted? && mode == "apply" ==>
              var targets := Targets(host.dirs, Parsed(mounted.value));
              live == Written(host, kernel, targets) && (exit.report.success <==> AllAccepted(host, targets))
    ensures exit.Acted? && mode == "check" ==>
              live == kernel && (exit.report.success <==> AllInSpec(kernel, Targets(host.dirs, Parsed(mounted.value))))
    ensures exit.Acted? && mode == "script" ==>
              live == kernel && (exit.report.success <==> AllExitZero(host, ScriptConf.Parsed(mounted.value)))
    ensures exit.Stopped? ==> live == kernel
  {
    live := kernel;
    var known := ModeOf(mode);
    if known.None? || mounted.None? {
      return Stopped, live;
    }
    var got := hash(mounted.value);
    if expected != "" && got != expected {
      return Stopped, live;
    }
    var res;
    res, live := ActByMode(known.value, mounted.value, host, kernel);
    exit := Acted(Report(node, got, res.OK()), if url == "" then false else taken);
  }
}
