/** The sysctl drop-in file: the manager renders a SysctlProfile's settings into lines
    `name = value`, the worker parses the mounted text back into entries. */
module SysctlConf {
  import opened Text

  /** A setting as the API object holds it. */
  datatype Sysctl = Sysctl(name: string, value: string)

  /** A setting as the worker parses it. */
  datatype Entry = Entry(name: string, value: string)

  // ---------- The renderer ----------

  function Setting(s: Sysctl): string {
    s.name + " = " + s.value
  }

  function Settings(sysctls: seq<Sysctl>): seq<string> {
    seq(|sysctls|, i requires 0 <= i < |sysctls| => Setting(sysctls[i]))
  }

  /** The text of all the settings in order. */
  function Rendered(sysctls: seq<Sysctl>): string {
    Unlines(Settings(sysctls))
  }

  /** `renderSysctlConf`: a builder grows setting by setting. */
  method RenderSysctlConf(sysctls: seq<Sysctl>) returns (b: string)
    ensures b == Rendered(sysctls)
  {
    b := "";
    for i := 0 to |sysctls|
      invariant b == Unlines(Settings(sysctls)[..i])
    {
      var s := sysctls[i];
      b := b + (s.name + " = " + s.value + "\n");
      UnlinesAppend(Settings(sysctls)[..i], [Setting(s)]);
      assert Unlines([Setting(s)]) == Setting(s) + "\n" + "";
      assert Settings(sysctls)[..i + 1] == Settings(sysctls)[..i] + [Setting(s)];
    }
    assert Settings(sysctls)[..|sysctls|] == Settings(sysctls);
  }

  /** The text, spelled out: one more setting adds its line. */
  lemma RenderedText(sysctls: seq<Sysctl>, s: Sysctl)
    ensures Rendered([]) == ""
    ensures Rendered(sysctls + [s]) == Rendered(sysctls) + (s.name + " = " + s.value + "\n")
  {
    assert Settings(sysctls + [s]) == Settings(sysctls) + [Setting(s)];
    UnlinesAppend(Settings(sysctls), [Setting(s)]);
    assert Unlines([Setting(s)]) == Setting(s) + "\n" + Unlines([]);
  }

  // ---------- The parser ----------

  predicate IsComment(s: string) {
    HasPrefix(s, "#") || HasPrefix(s, ";")
  }

  /** The entry a line gives, if it is neither blank, nor a comment, nor without `=`. */
  function LineEntry(line: string): Option<Entry> {
    var t := Trim(line);
    if t == "" || IsComment(t) then None
    else match Cut(t, '=')
      case None => None
      case Some((key, val)) => Some(Entry(Trim(key), Trim(val)))
  }

  function Collect(lines: seq<string>): seq<Entry> {
    if lines == [] then [] else Found(LineEntry(lines[0])) + Collect(lines[1..])
  }

  function Found(e: Option<Entry>): seq<Entry> {
    match e
    case None => []
    case Some(entry) => [entry]
  }

  /** The entries the worker finds in a mounted text. */
  function Parsed(data: string): seq<Entry> {
    Collect(Lines(data))
  }

  lemma CollectNext(lines: seq<string>, i: nat, entries: seq<Entry>)
    requires i < |lines|
    ensures LineEntry(lines[i]).None? ==> Collect(lines[i..]) == Collect(lines[i + 1..])
    ensures LineEntry(lines[i]).Some? ==>
              entries + Collect(lines[i..]) == entries + [LineEntry(lines[i]).value] + Collect(lines[i + 1..])
  {
  }

  /** `Parse`: line after line, skipping or appending. */
  method Parse(data: string) returns (entries: seq<Entry>)
    ensures entries == Parsed(data)
  {
    entries := [];
    var lines := Lines(data);
    for i := 0 to |lines|
      invariant entries + Collect(lines[i..]) == Parsed(data)
    {
      CollectNext(lines, i, entries);
      var line := Trim(lines[i]);
      if line == "" || IsComment(line) {
        continue;
      }
      var parts := Cut(line, '=');
      if parts.None? {
        continue;
      }
      entries := entries + [Entry(Trim(parts.value.0), Trim(parts.value.1))];
    }
  }

  // ---------- The exact round trip ----------

  function FirstLine(s: string): string {
    Lines(s)[0]
  }

  function LastLine(s: string): string {
    LastOf(Lines(s))
  }

  /** The check a caller can make on a setting before rendering it: no `=` in the name,
      the name no comment, nothing but white space before the last line of the name or
      after the first line of the value. */
  predicate WellFormed(s: Sysctl) {
    && '=' !in s.name
    && !HasPrefix(Trim(s.name), "#") && !HasPrefix(Trim(s.name), ";")
    && Trim(LastLine(s.name)) == Trim(s.name)
    && Trim(FirstLine(s.value)) == Trim(s.value)
  }

  predicate AllWellFormed(sysctls: seq<Sysctl>) {
    forall i :: 0 <= i < |sysctls| ==> WellFormed(sysctls[i])
  }

  /** What the worker should set for a setting of the API object. */
  function Normal(s: Sysctl): Entry {
    Entry(Trim(s.name), Trim(s.value))
  }

  function Normals(sysctls: seq<Sysctl>): seq<Entry> {
    seq(|sysctls|, i requires 0 <= i < |sysctls| => Normal(sysctls[i]))
  }

  lemma {:induction false} CollectAppend(a: seq<string>, b: seq<string>)
    ensures Collect(a + b) == Collect(a) + Collect(b)
  {
    if a == [] {
      assert a + b == b;
    } else {
      var e := Found(LineEntry(a[0]));
      assert (a + b)[0] == a[0] && (a + b)[1..] == a[1..] + b;
      CollectAppend(a[1..], b);
      assert e + (Collect(a[1..]) + Collect(b)) == (e + Collect(a[1..])) + Collect(b);
    }
  }

  /** Every entry comes from some line. */
  lemma {:induction false} CollectFrom(lines: seq<string>, k: nat) returns (i: nat)
    requires k < |Collect(lines)|
    ensures i < |lines| && LineEntry(lines[i]) == Some(Collect(lines)[k])
  {
    var head := match LineEntry(lines[0]) case None => [] case Some(e) => [e];
    if k < |head| {
      i := 0;
    } else {
      var j := CollectFrom(lines[1..], k - |head|);
      i := j + 1;
    }
  }

  lemma {:induction false} CollectNothing(lines: seq<string>)
    requires forall i :: 0 <= i < |lines| ==> LineEntry(lines[i]).None?
    ensures Collect(lines) == []
  {
    if lines != [] {
      CollectNothing(lines[1..]);
    }
  }

  lemma TrimSubset(s: string, c: char)
    ensures c in Trim(s) ==> c in s
    ensures c in s && !IsSpace(c) ==> c in Trim(s)
  {
    var pre, post := TrimParts(s);
    assert c in s <==> c in pre || c in Trim(s) || c in post;
  }

  /** What every parsed entry looks like, whatever the text was. */
  predicate CleanEntry(e: Entry) {
    && '=' !in e.name && '\n' !in e.name && !IsComment(e.name)
    && '\n' !in e.value
    && Trimmed(e.name) && Trimmed(e.value)
  }

  lemma LineEntryClean(line: string)
    requires '\n' !in line && LineEntry(line).Some?
    ensures CleanEntry(LineEntry(line).value)
  {
    var t := Trim(line);
    var (key, val) := Cut(t, '=').value;
    TrimSubset(line, '\n');
    TrimSubset(key, '\n');
    TrimSubset(key, '=');
    TrimSubset(val, '\n');
    assert '\n' !in t && t == key + ['='] + val;
    var preV, postV := TrimParts(val);
    var preT, postT := TrimParts(line);
    var pre, post := TrimParts(key);
    if Trim(key) != "" {
      assert key[0] == t[0];
      assert pre == "";
      assert Trim(key)[0] == t[0];
    }
  }

  /** Whatever is mounted, parsed names and values are trimmed, hold no newline, and names
      hold no `=` and do not look like comments. */
  lemma ParsedIsClean(data: string)
    ensures forall k :: 0 <= k < |Parsed(data)| ==> CleanEntry(Parsed(data)[k])
  {
    forall k | 0 <= k < |Parsed(data)| ensures CleanEntry(Parsed(data)[k]) {
      var i := CollectFrom(Lines(data), k);
      LineEntryClean(Lines(data)[i]);
    }
  }

  lemma NoEqualsNoEntry(line: string)
    requires '=' !in line
    ensures LineEntry(line).None?
  {
    TrimSubset(line, '=');
  }

  lemma {:induction false} TrimLeftStops(a: string, c: char, b: string)
    requires !IsSpace(c)
    ensures TrimLeft(a + [c] + b) == TrimLeft(a) + [c] + b
  {
    if a != "" && IsSpace(a[0]) {
      assert (a + [c] + b)[1..] == a[1..] + [c] + b;
      TrimLeftStops(a[1..], c, b);
    }
  }

  lemma {:induction false} TrimRightStops(a: string, c: char, b: string)
    requires !IsSpace(c)
    ensures TrimRight(a + [c] + b) == a + [c] + TrimRight(b)
  {
    var s := a + [c] + b;
    if b == "" {
      assert s[|s| - 1] == c;
      assert s == a + [c] + TrimRight(b);
    } else if IsSpace(b[|b| - 1]) {
      assert s[..|s| - 1] == a + [c] + b[..|b| - 1];
      TrimRightStops(a, c, b[..|b| - 1]);
    } else {
      assert s[|s| - 1] == b[|b| - 1];
    }
  }

  /** Trimming the left end first changes nothing. */
  lemma TrimLeftFirst(a: string, m: string, b: string)
    requires AllSpace(a) && AllSpace(b) && Trimmed(m)
    ensures Trim(TrimLeft(a + (m + b))) == m
  {
    TrimLeftSkips(a, m + b);
    if m == "" {
      assert m + b == b + "";
      TrimLeftSkips(b, "");
    } else {
      assert m + b == "" + m + b;
      TrimOf("", m, b);
    }
  }

  /** Trimming the right end first changes nothing. */
  lemma TrimRightFirst(a: string, m: string, b: string)
    requires AllSpace(a) && AllSpace(b) && Trimmed(m)
    ensures Trim(TrimRight(a + m + b)) == m
  {
    TrimRightSkips(a + m, b);
    if m == "" {
      assert a + m == "" + a;
      TrimRightSkips("", a);
    } else {
      assert (a + m)[|a + m| - 1] == m[|m| - 1];
      assert a + m == a + m + "";
      TrimOf(a, m, "");
    }
  }

  lemma Regroup(a: string, m: string, b: string, c: string)
    ensures a + m + b + c == a + (m + (b + c)) && c + (a + m + b) == (c + a) + m + b
  {
  }

  /** One more space at an end, and trimming that end twice, change nothing. */
  lemma TrimAgain(s: string)
    ensures Trim(TrimLeft(s + " ")) == Trim(s) && Trim(TrimRight(" " + s)) == Trim(s)
  {
    var pre, post := TrimParts(s);
    Regroup(pre, Trim(s), post, " ");
    TrimLeftFirst(pre, Trim(s), post + " ");
    TrimRightFirst(" " + pre, Trim(s), post);
  }

  lemma CommentAfterTrim(key: string)
    requires TrimLeft(key) == key
    ensures IsComment(TrimRight(key)) <==> IsComment(key)
  {
    if key != "" {
      var post := TrimRightParts(key);
      var pre := TrimLeftParts(key);
      assert TrimRight(key) != "" && TrimRight(key)[0] == key[0];
    }
  }

  /** The line without its outer white space. */
  lemma TrimSetting(left: string, right: string)
    ensures Trim(left + " = " + right) == TrimLeft(left + " ") + ['='] + TrimRight(" " + right)
  {
    assert left + " = " + right == (left + " ") + ['='] + (" " + right);
    TrimLeftStops(left + " ", '=', " " + right);
    TrimRightStops(TrimLeft(left + " "), '=', " " + right);
  }

  lemma {:induction false} TrimLeftTwice(s: string)
    ensures TrimLeft(TrimLeft(s)) == TrimLeft(s)
  {
    if s != "" && IsSpace(s[0]) {
      TrimLeftTwice(s[1..]);
    }
  }

  /** The entry of a line `left = right`. */
  lemma EqualsEntry(left: string, right: string)
    requires '=' !in left && !IsComment(Trim(left))
    ensures LineEntry(left + " = " + right) == Some(Entry(Trim(left), Trim(right)))
  {
    var key, val := TrimLeft(left + " "), TrimRight(" " + right);
    TrimSetting(left, right);
    var dropped := TrimLeftParts(left + " ");
    assert '=' !in key by {
      assert '=' !in left + " ";
    }
    CutAt(key, '=', val);
    TrimAgain(left);
    TrimAgain(right);
    TrimLeftTwice(left + " ");
    CommentAfterTrim(key);
    assert IsComment(key + ['='] + val) <==> IsComment(key);
  }

  lemma SettingLines(s: Sysctl)
    ensures var ln, lv := Lines(s.name), Lines(s.value);
            Lines(Setting(s)) == ln[..|ln| - 1] + ([LastLine(s.name) + " = " + lv[0]] + lv[1..])
  {
    var ln := Lines(s.name);
    LinesGlue(s.name + " = ", s.value);
    LinesGlue(s.name, " = ");
    LinesSingle(" = ");
    assert Lines(s.name + " = ") == ln[..|ln| - 1] + [LastLine(s.name) + " = "];
  }

  lemma NoEqualsNothing(lines: seq<string>)
    requires forall i :: 0 <= i < |lines| ==> '=' !in lines[i]
    ensures Collect(lines) == []
  {
    forall i | 0 <= i < |lines| ensures LineEntry(lines[i]).None? {
      NoEqualsNoEntry(lines[i]);
    }
    CollectNothing(lines);
  }

  /** The lines of a name give no entries, except perhaps the last. */
  lemma NameLines(name: string)
    requires '=' !in name
    ensures Collect(Lines(name)[..|Lines(name)| - 1]) == [] && '=' !in LastLine(name)
  {
    NoCharInLines(name, '=');
    NoEqualsNothing(Lines(name)[..|Lines(name)| - 1]);
  }

  lemma CollectOne(line: string, e: Entry)
    requires LineEntry(line) == Some(e)
    ensures Collect([line]) == [e]
  {
    assert [line][1..] == [];
  }

  /** Every line either has no `=`, and then gives nothing, or is cut at its first `=`: then it gives
      the two trimmed halves, unless the first half starts as a comment. */
  lemma LineIsCut(left: string, right: string)
    requires '=' !in left
    ensures LineEntry(left) == None
    ensures LineEntry(left + "=" + right) ==
            if HasPrefix(Trim(left), "#") || HasPrefix(Trim(left), ";") then None else Some(Entry(Trim(left), Trim(right)))
  {
    NoEqualsNoEntry(left);
    var key, val := TrimLeft(left), TrimRight(right);
    TrimLeftStops(left, '=', right);
    TrimRightStops(key, '=', right);
    assert left + "=" + right == left + ['='] + right;
    assert Trim(left + "=" + right) == key + ['='] + val;
    var dropped := TrimLeftParts(left);
    assert '=' !in key;
    CutAt(key, '=', val);
    TrimTwice(left, right);
    TrimLeftTwice(left);
    CommentAfterTrim(key);
    assert IsComment(key + ['='] + val) <==> IsComment(key);
  }

  lemma TrimTwice(left: string, right: string)
    ensures Trim(TrimLeft(left)) == Trim(left) && Trim(TrimRight(right)) == Trim(right)
  {
    TrimLeftTwice(left);
    var pre, post := TrimParts(right);
    TrimRightFirst(pre, Trim(right), post);
  }

  /** Lines are read one by one. */
  lemma ParsedConcat(a: string, b: string)
    ensures Parsed(a + "\n" + b) == Parsed(a) + Parsed(b)
  {
    LinesConcat(a, b);
    CollectAppend(Lines(a), Lines(b));
  }

  /** The entries of one rendered setting: one for the line with the `=`, then whatever the
      further lines of the value give. */
  lemma SettingEntries(s: Sysctl)
    requires '=' !in s.name && !IsComment(Trim(LastLine(s.name)))
    ensures Collect(Lines(Setting(s))) ==
            [Entry(Trim(LastLine(s.name)), Trim(FirstLine(s.value)))] + Collect(Lines(s.value)[1..])
  {
    var ln, lv, last := Lines(s.name), Lines(s.value), LastLine(s.name);
    var line := last + " = " + lv[0];
    SettingLines(s);
    NameLines(s.name);
    EqualsEntry(last, lv[0]);
    CollectOne(line, Entry(Trim(last), Trim(lv[0])));
    CollectAppend(ln[..|ln| - 1], [line] + lv[1..]);
    CollectAppend([line], lv[1..]);
  }

  lemma NonBlankRest(first: string, rest: string, j: nat)
    requires '\n' !in first && j < |rest| && !IsSpace(rest[j])
    ensures Trim(first + "\n" + rest) != Trim(first)
  {
    var s := first + "\n" + rest;
    var m := Trim(s);
    var pre, post := TrimParts(s);
    var at := |first| + 1 + j;
    assert s[at] == rest[j];
    assert |pre| <= at < |pre| + |m|;
    TrimSubset(first, '\n');
    if i :| 0 <= i < |first| && !IsSpace(first[i]) {
      assert s[i] == first[i];
      assert s[|first|] == '\n';
      assert m[|first| - |pre|] == '\n';
    } else {
      TrimAllSpace(first);
    }
  }

  /** If the first line holds all of a text that is not white space, the other lines are blank. */
  lemma BlankAfterFirst(s: string, i: nat)
    requires Trim(FirstLine(s)) == Trim(s)
    requires 1 <= i < |Lines(s)|
    ensures AllSpace(Lines(s)[i])
  {
    var lines := Lines(s);
    var first, rest := lines[0], Join(lines[1..]);
    JoinLines(s);
    assert s == first + "\n" + rest;
    LinesJoin(lines[1..]);
    if j :| 0 <= j < |rest| && !IsSpace(rest[j]) {
      NonBlankRest(first, rest, j);
      assert false;
    }
    forall k | 0 <= k < |lines[i]| ensures IsSpace(lines[i][k]) {
      if lines[i][k] != '\n' {
        CharOfLines(rest, lines[i][k]);
        assert lines[1..][i - 1] == lines[i];
        assert lines[i][k] in rest;
      }
    }
  }

  lemma WellFormedEntries(s: Sysctl)
    requires WellFormed(s)
    ensures Collect(Lines(Setting(s))) == [Normal(s)]
  {
    SettingEntries(s);
    var more := Lines(s.value)[1..];
    forall i | 0 <= i < |more| ensures LineEntry(more[i]).None? {
      BlankAfterFirst(s.value, i + 1);
      TrimAllSpace(more[i]);
    }
    CollectNothing(more);
  }

  lemma UnlinesFirst(first: string, rest: seq<string>)
    ensures Unlines([first] + rest) == first + "\n" + Unlines(rest)
  {
  }

  lemma SplitSettings(sysctls: seq<Sysctl>)
    requires sysctls != []
    ensures Settings(sysctls) == [Setting(sysctls[0])] + Settings(sysctls[1..])
    ensures Normals(sysctls) == [Normal(sysctls[0])] + Normals(sysctls[1..])
  {
  }

  lemma SplitFirst(sysctls: seq<Sysctl>)
    requires sysctls != []
    ensures Parsed(Rendered(sysctls)) == Collect(Lines(Setting(sysctls[0]))) + Parsed(Rendered(sysctls[1..]))
    ensures Normals(sysctls) == [Normal(sysctls[0])] + Normals(sysctls[1..])
  {
    var first, rest := Setting(sysctls[0]), Settings(sysctls[1..]);
    SplitSettings(sysctls);
    UnlinesFirst(first, rest);
    LinesConcat(first, Unlines(rest));
    CollectAppend(Lines(first), Lines(Unlines(rest)));
  }

  lemma {:induction false} WellFormedRoundTrip(sysctls: seq<Sysctl>)
    requires AllWellFormed(sysctls)
    ensures Parsed(Rendered(sysctls)) == Normals(sysctls)
  {
    if sysctls == [] {
      NoEqualsNoEntry("");
      CollectNothing(Lines(""));
    } else {
      SplitFirst(sysctls);
      WellFormedEntries(sysctls[0]);
      WellFormedRoundTrip(sysctls[1..]);
    }
  }

  lemma LastLineGlue(a: string, b: string)
    ensures LastLine(a + b) == if |Lines(b)| == 1 then LastLine(a) + LastLine(b) else LastLine(b)
  {
    LinesGlue(a, b);
    GlueLast(Lines(a), Lines(b));
  }

  lemma LastLineOfSpace(s: string)
    requires AllSpace(s)
    ensures AllSpace(LastLine(s))
  {
    LineOfSpace(s, |Lines(s)| - 1);
  }

  /** With a clean trimmed form, the last line of a name holds all of it or nothing. */
  lemma LastLineOfClean(name: string)
    requires '\n' !in Trim(name)
    ensures Trim(LastLine(name)) == Trim(name) || Trim(LastLine(name)) == ""
  {
    var m := Trim(name);
    var pre, post := TrimParts(name);
    LinesSingle(m);
    LastLineGlue(pre, m);
    LastLineGlue(pre + m, post);
    LastLineOfSpace(pre);
    LastLineOfSpace(post);
    TrimOf(LastLine(pre), m, LastLine(post));
    TrimAllSpace(LastLine(post));
  }

  lemma LineOfSpace(s: string, i: nat)
    requires AllSpace(s) && i < |Lines(s)|
    ensures AllSpace(Lines(s)[i])
  {
    forall k | 0 <= k < |Lines(s)[i]| ensures IsSpace(Lines(s)[i][k]) {
      var c := Lines(s)[i][k];
      if c != '\n' {
        CharOfLines(s, c);
        assert c in Lines(s)[i];
        var j :| 0 <= j < |s| && s[j] == c;
      }
    }
  }

  lemma {:induction false} RoundTripWellFormed(sysctls: seq<Sysctl>)
    requires Parsed(Rendered(sysctls)) == Normals(sysctls)
    ensures AllWellFormed(sysctls)
  {
    if sysctls != [] {
      var s := sysctls[0];
      ParsedIsClean(Rendered(sysctls));
      SplitFirst(sysctls);
      assert CleanEntry(Normals(sysctls)[0]);
      TrimSubset(s.name, '=');
      LastLineOfClean(s.name);
      SettingEntries(s);
      assert Normals(sysctls)[0] == Parsed(Rendered(sysctls))[0];
      assert WellFormed(s);
      WellFormedEntries(s);
      assert Parsed(Rendered(sysctls))[1..] == Parsed(Rendered(sysctls[1..]));
      assert Normals(sysctls)[1..] == Normals(sysctls[1..]);
      RoundTripWellFormed(sysctls[1..]);
      assert sysctls == [s] + sysctls[1..];
    }
  }

  /** The worker gets back the manager's settings, trimmed and in order, exactly for the
      lists that pass the check; a value may hold `=`. */
  lemma RoundTrip(sysctls: seq<Sysctl>)
    ensures Parsed(Rendered(sysctls)) == Normals(sysctls) <==> AllWellFormed(sysctls)
  {
    if AllWellFormed(sysctls) {
      WellFormedRoundTrip(sysctls);
    }
    if Parsed(Rendered(sysctls)) == Normals(sysctls) {
      RoundTripWellFormed(sysctls);
    }
  }

  /** A setting on one line without outer white space comes back as it is. */
  lemma PlainSetting(s: Sysctl)
    requires '\n' !in s.name && '\n' !in s.value && Trimmed(s.name) && Trimmed(s.value)
    requires '=' !in s.name && !IsComment(s.name)
    ensures Parsed(Rendered([s])) == [Entry(s.name, s.value)]
  {
    LinesSingle(s.name);
    LinesSingle(s.value);
    TrimTrimmed(s.name);
    TrimTrimmed(s.value);
    RoundTrip([s]);
  }

  /** A real edit changes the rendered bytes. */
  lemma RenderedInjective(a: seq<Sysctl>, b: seq<Sysctl>)
    requires AllWellFormed(a) && AllWellFormed(b) && Rendered(a) == Rendered(b)
    ensures Normals(a) == Normals(b)
  {
    RoundTrip(a);
    RoundTrip(b);
  }
}
