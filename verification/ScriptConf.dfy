/** The scripts file: the manager renders a ScriptProfile's scripts into one text,
    the worker parses the mounted text back into scripts. */
module ScriptConf {
  import opened Text

  /** A script as the API object holds it. */
  datatype Script = Script(name: string, content: string, interpreter: string)

  /** A script as the worker parses it. */
  datatype ScriptEntry = ScriptEntry(name: string, interpreter: string, content: string)

  const DEFAULT_INTERPRETER := "/bin/sh"
  const HEADER_PREFIX := "#!script "
  const FOOTER := "#!endscript"

  // ---------- The renderer ----------

  function InterpreterOf(s: Script): string {
    if s.interpreter == "" then DEFAULT_INTERPRETER else s.interpreter
  }

  function Header(name: string, interpreter: string): string {
    HEADER_PREFIX + ("name=" + name + " interpreter=" + interpreter)
  }

  /** The content with one final newline dropped, if it has one. */
  function Body(content: string): string {
    if HasSuffix(content, "\n") then content[..|content| - 1] else content
  }

  /** One block: its header, its content and its footer. */
  function Block(s: Script): seq<string> {
    [Header(s.name, InterpreterOf(s)), Body(s.content), FOOTER]
  }

  function Blocks(scripts: seq<Script>): seq<string> {
    if scripts == [] then [] else Block(scripts[0]) + Blocks(scripts[1..])
  }

  /** The text of all the blocks in order. */
  function Rendered(scripts: seq<Script>): string {
    Unlines(Blocks(scripts))
  }

  lemma {:induction false} BlocksAppend(scripts: seq<Script>, s: Script)
    ensures Blocks(scripts + [s]) == Blocks(scripts) + Block(s)
  {
    if scripts == [] {
      assert scripts + [s] == [s];
      assert Blocks([s]) == Block(s) + [];
    } else {
      assert (scripts + [s])[1..] == scripts[1..] + [s];
      BlocksAppend(scripts[1..], s);
    }
  }

  lemma UnlinesThree(a: string, b: string, c: string)
    ensures Unlines([a, b, c]) == a + "\n" + b + "\n" + c + "\n"
  {
    assert [a, b, c][1..] == [b, c] && [b, c][1..] == [c] && [c][1..] == [];
    assert Unlines([c]) == c + "\n";
    assert Unlines([b, c]) == b + "\n" + (c + "\n");
  }

  lemma RenderedAppend(scripts: seq<Script>, s: Script)
    ensures Rendered(scripts + [s]) ==
            Rendered(scripts) + (Header(s.name, InterpreterOf(s)) + "\n" + Body(s.content) + "\n" + FOOTER + "\n")
  {
    BlocksAppend(scripts, s);
    UnlinesAppend(Blocks(scripts), Block(s));
    UnlinesThree(Header(s.name, InterpreterOf(s)), Body(s.content), FOOTER);
  }

  /** The text, spelled out: one more script adds its header line with the default interpreter filled
      in, its content with a final newline, and a footer line. */
  lemma RenderedText(scripts: seq<Script>, s: Script)
    ensures Rendered([]) == ""
    ensures Rendered(scripts + [s]) ==
            Rendered(scripts) +
            (("#!script name=" + s.name + " interpreter=" + (if s.interpreter == "" then "/bin/sh" else s.interpreter)) + "\n"
             + (s.content + (if HasSuffix(s.content, "\n") then "" else "\n"))
             + "#!endscript" + "\n")
  {
    RenderedAppend(scripts, s);
    BodyText(s.content);
    HeaderText(s.name, InterpreterOf(s));
    LineEnd(Header(s.name, InterpreterOf(s)) + "\n", Body(s.content));
  }

  lemma LineEnd(before: string, line: string)
    ensures before + line + "\n" == before + (line + "\n")
  {
  }

  lemma BodyText(content: string)
    ensures Body(content) + "\n" == content + (if HasSuffix(content, "\n") then "" else "\n")
  {
    if HasSuffix(content, "\n") {
      assert content == content[..|content| - 1] + "\n";
    }
  }

  lemma HeaderText(name: string, interpreter: string)
    ensures Header(name, interpreter) == "#!script name=" + name + " interpreter=" + interpreter
  {
    assert HEADER_PREFIX + "name=" == "#!script name=";
  }

  lemma RenderedParts(before: string, s: Script)
    ensures before + (Header(s.name, InterpreterOf(s)) + "\n") + (Body(s.content) + "\n") + (FOOTER + "\n") ==
            before + (Header(s.name, InterpreterOf(s)) + "\n" + Body(s.content) + "\n" + FOOTER + "\n")
  {
  }

  /** `renderScripts`: a builder grows block by block. */
  method RenderScripts(scripts: seq<Script>) returns (b: string)
    ensures b == Rendered(scripts)
  {
    b := "";
    for i := 0 to |scripts|
      invariant b == Rendered(scripts[..i])
    {
      var s := scripts[i];
      var interp := s.interpreter;
      if interp == "" {
        interp := DEFAULT_INTERPRETER;
      }
      b := b + (HEADER_PREFIX + ("name=" + s.name + " interpreter=" + interp) + "\n");
      ghost var atContent := b;
      b := b + s.content;
      if !HasSuffix(s.content, "\n") {
        b := b + "\n";
      }
      assert b == atContent + (Body(s.content) + "\n");
      b := b + (FOOTER + "\n");
      RenderedParts(Rendered(scripts[..i]), s);
      RenderedAppend(scripts[..i], s);
      assert scripts[..i + 1] == scripts[..i] + [s];
    }
    assert scripts[..|scripts|] == scripts;
  }

  // ---------- The parser ----------

  /** Name and interpreter after reading some header fields: a later field overrides. */
  function HeaderFields(fields: seq<string>, name: string, interpreter: string): (string, string) {
    if fields == [] then (name, interpreter)
    else
      match Cut(fields[0], '=')
      case None => HeaderFields(fields[1..], name, interpreter)
      case Some((key, val)) =>
        HeaderFields(fields[1..],
                     if key == "name" then val else name,
                     if key == "interpreter" then val else interpreter)
  }

  function ParsedHeader(line: string): (string, string)
    requires HasPrefix(line, HEADER_PREFIX)
  {
    HeaderFields(Fields(line[|HEADER_PREFIX|..]), "", DEFAULT_INTERPRETER)
  }

  method ParseScriptHeader(line: string) returns (name: string, interpreter: string)
    requires HasPrefix(line, HEADER_PREFIX)
    ensures (name, interpreter) == ParsedHeader(line)
  {
    name, interpreter := "", DEFAULT_INTERPRETER;
    var fields := Fields(line[|HEADER_PREFIX|..]);
    for i := 0 to |fields|
      invariant HeaderFields(fields[i..], name, interpreter) == ParsedHeader(line)
    {
      var parts := Cut(fields[i], '=');
      if parts.Some? {
        if parts.value.0 == "name" {
          name := parts.value.1;
        } else if parts.value.0 == "interpreter" {
          interpreter := parts.value.1;
        }
      }
    }
  }

  /** What the parser's loop carries from line to line. */
  datatype Parser = Parser(cur: Option<(string, string)>, content: seq<string>, scripts: seq<ScriptEntry>)

  function ReadLine(p: Parser, line: string): Parser {
    if HasPrefix(line, HEADER_PREFIX) then
      Parser(Some(ParsedHeader(line)), [], p.scripts)
    else if line == FOOTER then
      if p.cur.Some? then
        Parser(None, p.content, p.scripts + [ScriptEntry(p.cur.value.0, p.cur.value.1, Join(p.content))])
      else p
    else if p.cur.Some? then
      p.(content := p.content + [line])
    else p
  }

  function ReadLines(p: Parser, lines: seq<string>): Parser
    decreases |lines|
  {
    if lines == [] then p else ReadLines(ReadLine(p, lines[0]), lines[1..])
  }

  /** The scripts the worker finds in a mounted text. */
  function Parsed(data: string): seq<ScriptEntry> {
    ReadLines(Parser(None, [], []), Lines(data)).scripts
  }

  /** `ParseScripts`: the current script, its content lines and the finished scripts
      are updated line by line. */
  method ParseScripts(data: string) returns (scripts: seq<ScriptEntry>)
    ensures scripts == Parsed(data)
  {
    var cur: Option<(string, string)> := None;
    var content: seq<string> := [];
    scripts := [];
    var lines := Lines(data);
    for i := 0 to |lines|
      invariant ReadLines(Parser(cur, content, scripts), lines[i..]).scripts == Parsed(data)
    {
      var line := lines[i];
      if HasPrefix(line, HEADER_PREFIX) {
        var name, interp := ParseScriptHeader(line);
        cur := Some((name, interp));
        content := [];
      } else if line == FOOTER {
        if cur.Some? {
          scripts := scripts + [ScriptEntry(cur.value.0, cur.value.1, Join(content))];
          cur := None;
        }
      } else if cur.Some? {
        content := content + [line];
      }
    }
  }

  // ---------- What the parser makes of any text ----------

  lemma {:induction false} ReadLinesAppend(p: Parser, a: seq<string>, b: seq<string>)
    ensures ReadLines(p, a + b) == ReadLines(ReadLines(p, a), b)
    decreases |a|
  {
    if a == [] {
      assert a + b == b;
    } else {
      assert (a + b)[0] == a[0] && (a + b)[1..] == a[1..] + b;
      ReadLinesAppend(ReadLine(p, a[0]), a[1..], b);
    }
  }

  /** The finished scripts only pile up. */
  lemma {:induction false} ReadLinesPile(p: Parser, done: seq<ScriptEntry>, lines: seq<string>)
    ensures ReadLines(p.(scripts := done + p.scripts), lines) ==
            ReadLines(p, lines).(scripts := done + ReadLines(p, lines).scripts)
    decreases |lines|
  {
    if lines != [] {
      var q := ReadLine(p, lines[0]);
      assert ReadLine(p.(scripts := done + p.scripts), lines[0]).scripts == done + q.scripts;
      ReadLinesPile(q, done, lines[1..]);
    }
  }

  /** A header starts afresh: what came before it contributes its finished scripts and nothing else,
      and a script that was still open is dropped. */
  lemma HeaderStartsAfresh(a: string, b: string)
    requires HasPrefix(Lines(b)[0], "#!script ")
    ensures Parsed(a + "\n" + b) == Parsed(a) + Parsed(b)
  {
    var start := Parser(None, [], []);
    var p, lb := ReadLines(start, Lines(a)), Lines(b);
    LinesConcat(a, b);
    ReadLinesAppend(start, Lines(a), lb);
    var q := ReadLine(start, lb[0]);
    assert ReadLine(p, lb[0]) == q.(scripts := p.scripts + q.scripts);
    ReadLinesPile(q, p.scripts, lb[1..]);
  }

  predicate NoHeader(text: string) {
    forall i :: 0 <= i < |Lines(text)| ==> !HasPrefix(Lines(text)[i], "#!script ")
  }

  lemma {:induction false} ReadNothing(p: Parser, lines: seq<string>)
    requires p.cur.None? && forall i :: 0 <= i < |lines| ==> !HasPrefix(lines[i], "#!script ")
    ensures ReadLines(p, lines) == p
    decreases |lines|
  {
    if lines != [] {
      ReadNothing(p, lines[1..]);
    }
  }

  /** Text outside scripts, before the first header or after a footer, counts for nothing. */
  lemma OutsideIsIgnored(a: string, b: string)
    requires NoHeader(b)
    ensures Parsed(b) == []
    ensures Parsed(a + "\n" + ("#!endscript" + "\n" + b)) == Parsed(a + "\n" + "#!endscript")
  {
    var start := Parser(None, [], []);
    ReadNothing(start, Lines(b));
    LinesSingle("#!endscript");
    LinesConcat("#!endscript", b);
    LinesConcat(a, "#!endscript" + "\n" + b);
    LinesConcat(a, "#!endscript");
    ReadLinesAppend(start, Lines(a), ["#!endscript"] + Lines(b));
    ReadLinesAppend(start, Lines(a), ["#!endscript"]);
    var p := ReadLines(start, Lines(a));
    FooterCloses(p);
    ReadOne(p, "#!endscript", Lines(b));
    ReadOne(p, "#!endscript", []);
    ReadNothing(ReadLine(p, "#!endscript"), Lines(b));
    assert ["#!endscript"] + [] == ["#!endscript"];
  }

  lemma FooterCloses(p: Parser)
    ensures ReadLine(p, "#!endscript").cur.None?
  {
    assert "#!endscript"[2] == 'e' && HEADER_PREFIX[2] == 's';
  }

  /** A field of a header with this name, and its value. */
  predicate IsField(field: string, name: string) {
    HasPrefix(field, name + "=")
  }

  lemma FieldIsCut(field: string, name: string)
    requires '=' !in name
    ensures IsField(field, name) <==> Cut(field, '=').Some? && Cut(field, '=').value.0 == name
    ensures IsField(field, name) ==> Cut(field, '=').value.1 == field[|name| + 1..]
  {
    if IsField(field, name) {
      assert field == name + ['='] + field[|name| + 1..];
      CutAt(name, '=', field[|name| + 1..]);
    }
  }

  /** The last field of a name wins, and other fields change nothing. */
  lemma {:induction false} LastFieldWins(fields: seq<string>, field: string, name: string, interpreter: string)
    ensures var before, after := HeaderFields(fields, name, interpreter), HeaderFields(fields + [field], name, interpreter);
            && after.0 == (if IsField(field, "name") then field[5..] else before.0)
            && after.1 == (if IsField(field, "interpreter") then field[12..] else before.1)
  {
    FieldIsCut(field, "name");
    FieldIsCut(field, "interpreter");
    if fields == [] {
      assert [field][1..] == [];
    } else {
      assert (fields + [field])[0] == fields[0] && (fields + [field])[1..] == fields[1..] + [field];
      var (n, i) := HeaderFields([fields[0]], name, interpreter);
      OneField(fields, name, interpreter);
      OneField(fields + [field], name, interpreter);
      LastFieldWins(fields[1..], field, n, i);
    }
  }

  lemma OneField(fields: seq<string>, name: string, interpreter: string)
    requires fields != []
    ensures var (n, i) := HeaderFields([fields[0]], name, interpreter);
            HeaderFields(fields, name, interpreter) == HeaderFields(fields[1..], n, i)
  {
    assert [fields[0]][1..] == [];
  }

  /** Without fields a header has no name and the default interpreter. */
  lemma EmptyHeader(line: string)
    requires HasPrefix(line, "#!script ") && AllSpace(line[9..])
    ensures ParsedHeader(line) == ("", "/bin/sh")
  {
    FieldsSkip(line[9..], "");
    assert line[9..] + "" == line[9..];
  }

  // ---------- The exact round trip ----------

  /** A line that the parser cannot take for a header or a footer. */
  predicate PlainLine(line: string) {
    !HasPrefix(line, "#!script ") && line != "#!endscript"
  }

  predicate PlainText(content: string) {
    forall i :: 0 <= i < |Lines(content)| ==> PlainLine(Lines(content)[i])
  }

  /** The check a caller can make on a script before rendering it. */
  predicate WellFormed(s: Script) {
    NoSpace(s.name) && NoSpace(s.interpreter) && PlainText(s.content)
  }

  predicate AllWellFormed(scripts: seq<Script>) {
    forall i :: 0 <= i < |scripts| ==> WellFormed(scripts[i])
  }

  /** What the worker should run for a script of the API object. */
  function Normal(s: Script): ScriptEntry {
    ScriptEntry(s.name, if s.interpreter == "" then "/bin/sh" else s.interpreter, Body(s.content))
  }

  function Normals(scripts: seq<Script>): seq<ScriptEntry> {
    seq(|scripts|, i requires 0 <= i < |scripts| => Normal(scripts[i]))
  }

  lemma PlainBody(content: string)
    ensures PlainText(Body(content)) <==> PlainText(content)
  {
    if HasSuffix(content, "\n") {
      var body := Body(content);
      assert content == body + "\n" + "";
      LinesConcat(body, "");
      var lb := Lines(body);
      assert Lines(content) == lb + [""];
      forall i | 0 <= i < |lb| ensures lb[i] == Lines(content)[i] {}
    }
  }

  /** Two words with a space between them are two fields. */
  lemma TwoFields(a: string, b: string)
    requires a != "" && NoSpace(a) && b != "" && NoSpace(b)
    ensures Fields(a + (" " + b)) == [a, b]
  {
    FieldsFirst(a, " " + b);
    assert (" " + b)[1..] == b;
    FieldsFirst(b, "");
    assert b + "" == b;
  }

  lemma HeaderTail(name: string, interpreter: string)
    requires NoSpace(name) && NoSpace(interpreter)
    ensures Fields("name=" + name + " interpreter=" + interpreter) == ["name=" + name, "interpreter=" + interpreter]
  {
    var f0, f1 := "name=" + name, "interpreter=" + interpreter;
    assert "name=" + name + " interpreter=" + interpreter == f0 + (" " + f1);
    assert NoSpace("name=") && NoSpace("interpreter=");
    TwoFields(f0, f1);
  }

  lemma NameField(name: string, rest: seq<string>, n: string, i: string)
    ensures HeaderFields(["name=" + name] + rest, n, i) == HeaderFields(rest, name, i)
  {
    CutAt("name", '=', name);
    assert "name" + ['='] + name == "name=" + name;
    assert (["name=" + name] + rest)[1..] == rest;
  }

  lemma InterpreterField(interpreter: string, rest: seq<string>, n: string, i: string)
    ensures HeaderFields(["interpreter=" + interpreter] + rest, n, i) == HeaderFields(rest, n, interpreter)
  {
    CutAt("interpreter", '=', interpreter);
    assert "interpreter" + ['='] + interpreter == "interpreter=" + interpreter;
    assert (["interpreter=" + interpreter] + rest)[1..] == rest;
  }

  lemma HeaderParses(name: string, interpreter: string)
    requires NoSpace(name) && NoSpace(interpreter)
    ensures ParsedHeader(Header(name, interpreter)) == (name, interpreter)
  {
    var f0, f1 := "name=" + name, "interpreter=" + interpreter;
    var tail := "name=" + name + " interpreter=" + interpreter;
    HeaderTail(name, interpreter);
    assert (HEADER_PREFIX + tail)[|HEADER_PREFIX|..] == tail;
    assert [f0, f1] == [f0] + ([f1] + []);
    NameField(name, [f1] + [], "", DEFAULT_INTERPRETER);
    InterpreterField(interpreter, [], name, DEFAULT_INTERPRETER);
  }

  lemma {:induction false} ReadPlainLines(p: Parser, lines: seq<string>, rest: seq<string>)
    requires p.cur.Some?
    requires forall i :: 0 <= i < |lines| ==> PlainLine(lines[i])
    ensures ReadLines(p, lines + rest) == ReadLines(p.(content := p.content + lines), rest)
    decreases |lines|
  {
    if lines == [] {
      assert lines + rest == rest && p.content + lines == p.content;
    } else {
      var q := ReadLine(p, lines[0]);
      assert (lines + rest)[1..] == lines[1..] + rest;
      ReadPlainLines(q, lines[1..], rest);
      assert q.content + lines[1..] == p.content + lines;
    }
  }

  lemma {:induction false} HeaderLine(name: string, interpreter: string)
    requires NoSpace(name) && NoSpace(interpreter)
    ensures '\n' !in Header(name, interpreter)
  {
  }

  lemma ReadHeader(p: Parser, name: string, interpreter: string, rest: seq<string>)
    requires NoSpace(name) && NoSpace(interpreter)
    ensures ReadLines(p, [Header(name, interpreter)] + rest) ==
            ReadLines(Parser(Some((name, interpreter)), [], p.scripts), rest)
  {
    HeaderParses(name, interpreter);
    ReadOne(p, Header(name, interpreter), rest);
  }

  lemma ReadFooter(p: Parser, rest: seq<string>)
    requires p.cur.Some?
    ensures ReadLines(p, [FOOTER] + rest) ==
            ReadLines(Parser(None, p.content, p.scripts + [ScriptEntry(p.cur.value.0, p.cur.value.1, Join(p.content))]), rest)
  {
    assert FOOTER[2] != HEADER_PREFIX[2];
    ReadOne(p, FOOTER, rest);
  }

  lemma NormalIsRead(s: Script)
    ensures ScriptEntry(s.name, InterpreterOf(s), Join(Lines(Body(s.content)))) == Normal(s)
  {
    JoinLines(Body(s.content));
  }

  /** What makes a well-formed script readable, line by line. */
  lemma WellFormedLines(s: Script)
    requires WellFormed(s)
    ensures NoSpace(InterpreterOf(s))
    ensures forall i :: 0 <= i < |Lines(Body(s.content))| ==> PlainLine(Lines(Body(s.content))[i])
  {
    PlainBody(s.content);
  }

  /** Reading back one rendered block finishes exactly its script. */
  lemma ReadBlock(p: Parser, s: Script, rest: seq<string>)
    requires p.cur.None? && WellFormed(s)
    ensures ReadLines(p, [Header(s.name, InterpreterOf(s))] + (Lines(Body(s.content)) + ([FOOTER] + rest))) ==
            ReadLines(Parser(None, Lines(Body(s.content)), p.scripts + [Normal(s)]), rest)
  {
    WellFormedLines(s);
    NormalIsRead(s);
    ReadParts(p, s.name, InterpreterOf(s), Lines(Body(s.content)), rest);
  }

  lemma ReadParts(p: Parser, name: string, interp: string, body: seq<string>, rest: seq<string>)
    requires p.cur.None? && NoSpace(name) && NoSpace(interp)
    requires forall i :: 0 <= i < |body| ==> PlainLine(body[i])
    ensures ReadLines(p, [Header(name, interp)] + (body + ([FOOTER] + rest))) ==
            ReadLines(Parser(None, body, p.scripts + [ScriptEntry(name, interp, Join(body))]), rest)
  {
    ReadHeader(p, name, interp, body + ([FOOTER] + rest));
    ReadContent(name, interp, p.scripts, body, [FOOTER] + rest);
    ReadFooter(Parser(Some((name, interp)), body, p.scripts), rest);
  }

  lemma ReadContent(name: string, interp: string, done: seq<ScriptEntry>, body: seq<string>, rest: seq<string>)
    requires forall i :: 0 <= i < |body| ==> PlainLine(body[i])
    ensures ReadLines(Parser(Some((name, interp)), [], done), body + rest) ==
            ReadLines(Parser(Some((name, interp)), body, done), rest)
  {
    ReadPlainLines(Parser(Some((name, interp)), [], done), body, rest);
    assert [] + body == body;
  }

  lemma ReadOne(p: Parser, line: string, rest: seq<string>)
    ensures ReadLines(p, [line] + rest) == ReadLines(ReadLine(p, line), rest)
  {
  }

  lemma ThreePieces(a: string, b: string, c: string, rest: seq<string>)
    ensures PieceLines([a, b, c] + rest) == Lines(a) + (Lines(b) + (Lines(c) + PieceLines(rest)))
  {
    assert [a, b, c] + rest == [a] + ([b] + ([c] + rest));
    PieceLinesCons(a, [b] + ([c] + rest));
    PieceLinesCons(b, [c] + rest);
    PieceLinesCons(c, rest);
  }

  lemma BlockLines(s: Script, rest: seq<string>)
    requires NoSpace(s.name) && NoSpace(s.interpreter)
    ensures PieceLines(Block(s) + rest) ==
            [Header(s.name, InterpreterOf(s))] + (Lines(Body(s.content)) + ([FOOTER] + PieceLines(rest)))
  {
    HeaderLine(s.name, InterpreterOf(s));
    LinesSingle(Header(s.name, InterpreterOf(s)));
    LinesSingle(FOOTER);
    ThreePieces(Header(s.name, InterpreterOf(s)), Body(s.content), FOOTER, rest);
  }

  /** The lines of the first block, then those of the others. */
  lemma FirstBlock(p: Parser, s: Script, rest: seq<Script>)
    requires p.cur.None? && WellFormed(s)
    ensures ReadLines(p, PieceLines(Block(s) + Blocks(rest)) + [""]) ==
            ReadLines(Parser(None, Lines(Body(s.content)), p.scripts + [Normal(s)]), PieceLines(Blocks(rest)) + [""])
  {
    var header, body, more := Header(s.name, InterpreterOf(s)), Lines(Body(s.content)), PieceLines(Blocks(rest));
    BlockLines(s, Blocks(rest));
    assert [header] + (body + ([FOOTER] + more)) + [""] == [header] + (body + ([FOOTER] + (more + [""])));
    ReadBlock(p, s, more + [""]);
  }

  lemma NormalsCons(done: seq<ScriptEntry>, scripts: seq<Script>)
    requires scripts != []
    ensures (done + [Normal(scripts[0])]) + Normals(scripts[1..]) == done + Normals(scripts)
  {
  }

  lemma {:induction false} ReadRendered(p: Parser, scripts: seq<Script>)
    requires p.cur.None? && AllWellFormed(scripts)
    ensures ReadLines(p, PieceLines(Blocks(scripts)) + [""]).scripts == p.scripts + Normals(scripts)
    decreases |scripts|
  {
    if scripts == [] {
      ReadOne(p, "", []);
      assert [] + [""] == [""] + [];
    } else {
      var s, rest := scripts[0], scripts[1..];
      FirstBlock(p, s, rest);
      var q := Parser(None, Lines(Body(s.content)), p.scripts + [Normal(s)]);
      ReadRendered(q, rest);
      NormalsCons(p.scripts, scripts);
    }
  }

  /** What every parsed script looks like, whatever the text was. */
  predicate CleanEntry(e: ScriptEntry) {
    NoSpace(e.name) && NoSpace(e.interpreter) && PlainText(e.content)
  }

  predicate CleanParser(p: Parser) {
    && (p.cur.Some? ==> NoSpace(p.cur.value.0) && NoSpace(p.cur.value.1))
    && (forall i :: 0 <= i < |p.content| ==> PlainLine(p.content[i]) && '\n' !in p.content[i])
    && (forall i :: 0 <= i < |p.scripts| ==> CleanEntry(p.scripts[i]))
  }

  lemma {:induction false} HeaderFieldsClean(fields: seq<string>, name: string, interpreter: string)
    requires forall f :: f in fields ==> NoSpace(f)
    requires NoSpace(name) && NoSpace(interpreter)
    ensures NoSpace(HeaderFields(fields, name, interpreter).0)
    ensures NoSpace(HeaderFields(fields, name, interpreter).1)
  {
    if fields != [] {
      match Cut(fields[0], '=')
      case None => HeaderFieldsClean(fields[1..], name, interpreter);
      case Some((key, val)) =>
        var f := fields[0];
        assert NoSpace(f) && f == key + ['='] + val;
        assert forall i :: 0 <= i < |val| ==> val[i] == f[|key| + 1 + i];
        HeaderFieldsClean(fields[1..],
                          if key == "name" then val else name,
                          if key == "interpreter" then val else interpreter);
    }
  }

  lemma ReadLineClean(p: Parser, line: string)
    requires CleanParser(p) && '\n' !in line
    ensures CleanParser(ReadLine(p, line))
  {
    if HasPrefix(line, HEADER_PREFIX) {
      HeaderFieldsClean(Fields(line[|HEADER_PREFIX|..]), "", DEFAULT_INTERPRETER);
    } else if line == FOOTER && p.cur.Some? {
      if p.content == [] {
        assert Lines("") == [""];
      } else {
        LinesJoin(p.content);
      }
    }
  }

  lemma {:induction false} ReadLinesClean(p: Parser, lines: seq<string>)
    requires CleanParser(p)
    requires forall i :: 0 <= i < |lines| ==> '\n' !in lines[i]
    ensures CleanParser(ReadLines(p, lines))
    decreases |lines|
  {
    if lines != [] {
      ReadLineClean(p, lines[0]);
      ReadLinesClean(ReadLine(p, lines[0]), lines[1..]);
    }
  }

  /** Whatever is mounted, no parsed name or interpreter holds white space and no parsed
      content holds a header or footer line. */
  lemma ParsedIsClean(data: string)
    ensures forall i :: 0 <= i < |Parsed(data)| ==> CleanEntry(Parsed(data)[i])
  {
    ReadLinesClean(Parser(None, [], []), Lines(data));
  }

  /** The worker gets back the manager's scripts, in order, exactly for the script lists
      that pass the check. */
  lemma RoundTrip(scripts: seq<Script>)
    ensures Parsed(Rendered(scripts)) == Normals(scripts) <==> AllWellFormed(scripts)
  {
    if AllWellFormed(scripts) {
      LinesOfUnlines(Blocks(scripts));
      ReadRendered(Parser(None, [], []), scripts);
      assert [] + Normals(scripts) == Normals(scripts);
    }
    if Parsed(Rendered(scripts)) == Normals(scripts) {
      ParsedIsClean(Rendered(scripts));
      forall i | 0 <= i < |scripts| ensures WellFormed(scripts[i]) {
        assert CleanEntry(Normals(scripts)[i]);
        PlainBody(scripts[i].content);
      }
    }
  }

  /** A script of one plain line comes back as one script. */
  lemma PlainScript(s: Script)
    requires NoSpace(s.name) && NoSpace(s.interpreter) && '\n' !in s.content && PlainLine(s.content)
    ensures Parsed(Rendered([s])) == [Normal(s)]
  {
    LinesSingle(s.content);
    RoundTrip([s]);
  }

  /** A real edit changes the rendered bytes: lists that pass the check and render to the
      same text tell the worker to run the same scripts. */
  lemma RenderedInjective(a: seq<Script>, b: seq<Script>)
    requires AllWellFormed(a) && AllWellFormed(b)
    ensures Rendered(a) == Rendered(b) <==> Normals(a) == Normals(b)
  {
    RoundTrip(a);
    RoundTrip(b);
    if Normals(a) == Normals(b) {
      RenderedOfNormals(a, b);
    }
  }

  lemma {:induction false} RenderedOfNormals(a: seq<Script>, b: seq<Script>)
    requires Normals(a) == Normals(b)
    ensures Blocks(a) == Blocks(b)
  {
    assert |a| == |Normals(a)| == |Normals(b)| == |b|;
    if a != [] {
      assert Normal(a[0]) == Normals(a)[0] == Normals(b)[0] == Normal(b[0]);
      assert Normals(a[1..]) == Normals(a)[1..] == Normals(b)[1..] == Normals(b[1..]);
      RenderedOfNormals(a[1..], b[1..]);
    }
  }
}
