/** The string operations of the program's two file formats: splitting into lines,
    trimming white space, cutting at a separator and splitting into fields. */
module Text {

  datatype Option<+T> = None | Some(value: T)

  /** White space as Go's `unicode.IsSpace` defines it. */
  predicate IsSpace(c: char) {
    || c == '\t' || c == '\n' || c == '\U{000B}' || c == '\U{000C}' || c == '\r' || c == ' '
    || c == '\U{0085}' || c == '\U{00A0}' || c == '\U{1680}'
    || '\U{2000}' <= c <= '\U{200A}'
    || c == '\U{2028}' || c == '\U{2029}' || c == '\U{202F}' || c == '\U{205F}' || c == '\U{3000}'
  }

  /** The same by code points. */
  lemma SpaceByCode(c: char)
    ensures IsSpace(c) <==>
            var n := c as int;
            9 <= n <= 13 || n in {0x20, 0x85, 0xA0, 0x1680, 0x2028, 0x2029, 0x202F, 0x205F, 0x3000} || 0x2000 <= n <= 0x200A
  {
  }

  predicate AllSpace(s: string) {
    forall i :: 0 <= i < |s| ==> IsSpace(s[i])
  }

  predicate NoSpace(s: string) {
    forall i :: 0 <= i < |s| ==> !IsSpace(s[i])
  }

  predicate HasPrefix(s: string, prefix: string) {
    prefix <= s
  }

  predicate HasSuffix(s: string, suffix: string) {
    |suffix| <= |s| && s[|s| - |suffix|..] == suffix
  }

  // ---------- Lines ----------

  /** The lines of a text with one more character in front. */
  function AddFront(c: char, lines: seq<string>): (r: seq<string>)
    requires lines != []
  {
    if c == '\n' then [""] + lines else [[c] + lines[0]] + lines[1..]
  }

  lemma AddFrontAppend(c: char, lines: seq<string>, more: seq<string>)
    requires lines != []
    ensures AddFront(c, lines + more) == AddFront(c, lines) + more
  {
  }

  /** `strings.Split(s, "\n")`. */
  function Lines(s: string): (lines: seq<string>)
    ensures |lines| >= 1
    ensures forall i :: 0 <= i < |lines| ==> '\n' !in lines[i]
  {
    if s == "" then [""] else AddFront(s[0], Lines(s[1..]))
  }

  /** `strings.Join(lines, "\n")`. */
  function Join(lines: seq<string>): string {
    if lines == [] then ""
    else if |lines| == 1 then lines[0]
    else lines[0] + "\n" + Join(lines[1..])
  }

  lemma {:induction false} LinesSingle(s: string)
    requires '\n' !in s
    ensures Lines(s) == [s]
  {
    if s != "" {
      LinesSingle(s[1..]);
      assert s == [s[0]] + s[1..];
    }
  }

  /** A newline separates: the lines of `a`, then the lines of `b`. */
  lemma {:induction false} LinesConcat(a: string, b: string)
    ensures Lines(a + "\n" + b) == Lines(a) + Lines(b)
  {
    var t := a + "\n" + b;
    if a == "" {
      assert t[1..] == b;
    } else {
      LinesConcat(a[1..], b);
      assert t[1..] == a[1..] + "\n" + b;
      AddFrontAppend(a[0], Lines(a[1..]), Lines(b));
    }
  }

  /** Pieces of text, each ended by a newline. */
  function Unlines(pieces: seq<string>): string {
    if pieces == [] then "" else (pieces[0] + "\n") + Unlines(pieces[1..])
  }

  lemma {:induction false} UnlinesAppend(a: seq<string>, b: seq<string>)
    ensures Unlines(a + b) == Unlines(a) + Unlines(b)
  {
    if a == [] {
      assert a + b == b;
    } else {
      assert (a + b)[1..] == a[1..] + b;
      UnlinesAppend(a[1..], b);
    }
  }

  /** The lines of all the pieces: a piece may itself hold newlines. */
  function PieceLines(pieces: seq<string>): seq<string> {
    if pieces == [] then [] else Lines(pieces[0]) + PieceLines(pieces[1..])
  }

  lemma PieceLinesCons(piece: string, rest: seq<string>)
    ensures PieceLines([piece] + rest) == Lines(piece) + PieceLines(rest)
  {
  }

  lemma {:induction false} LinesOfUnlines(pieces: seq<string>)
    ensures Lines(Unlines(pieces)) == PieceLines(pieces) + [""]
  {
    if pieces != [] {
      LinesConcat(pieces[0], Unlines(pieces[1..]));
      LinesOfUnlines(pieces[1..]);
    }
  }

  lemma {:induction false} LinesJoin(lines: seq<string>)
    requires lines != []
    requires forall i :: 0 <= i < |lines| ==> '\n' !in lines[i]
    ensures Lines(Join(lines)) == lines
  {
    LinesSingle(lines[0]);
    if |lines| == 1 {
      assert lines == [lines[0]];
    } else {
      LinesJoin(lines[1..]);
      LinesConcat(lines[0], Join(lines[1..]));
      assert lines == [lines[0]] + lines[1..];
    }
  }

  lemma {:induction false} JoinLines(s: string)
    ensures Join(Lines(s)) == s
  {
    if s != "" {
      JoinLines(s[1..]);
      var rest := Lines(s[1..]);
      if s[0] == '\n' {
        assert Lines(s)[1..] == rest;
      } else {
        assert Lines(s)[1..] == rest[1..];
      }
      assert s == [s[0]] + s[1..];
    }
  }

  lemma {:induction false} NoCharInLines(s: string, c: char)
    requires c !in s
    ensures forall i :: 0 <= i < |Lines(s)| ==> c !in Lines(s)[i]
  {
    if s != "" {
      NoCharInLines(s[1..], c);
      var rest := Lines(s[1..]);
      assert forall i :: 0 <= i < |rest| ==> c !in rest[i];
      assert c !in [s[0]] + rest[0];
    }
  }

  /** What the lines say character by character: a character other than newline is in
      the text exactly when it is in some line. */
  lemma {:induction false} CharOfLines(s: string, c: char)
    requires c != '\n'
    ensures c in s <==> exists i :: 0 <= i < |Lines(s)| && c in Lines(s)[i]
  {
    if s != "" {
      CharOfLines(s[1..], c);
      var rest, all := Lines(s[1..]), Lines(s);
      assert c in s <==> c == s[0] || c in s[1..];
      if s[0] == '\n' {
        assert forall i :: 0 <= i < |rest| ==> all[i + 1] == rest[i];
      } else {
        assert all[0] == [s[0]] + rest[0];
        assert forall i :: 1 <= i < |rest| ==> all[i] == rest[i];
        if c in s[1..] {
          var i :| 0 <= i < |rest| && c in rest[i];
          assert c in all[i];
        }
        if i :| 0 <= i < |all| && c in all[i] {
          assert i == 0 || c in rest[i];
        }
      }
    }
  }

  /** Two texts' lines, the last of the one and the first of the other made one. */
  function Glued(la: seq<string>, lb: seq<string>): seq<string>
    requires la != [] && lb != []
  {
    la[..|la| - 1] + ([la[|la| - 1] + lb[0]] + lb[1..])
  }

  /** Without a newline between them, the last line of `a` and the first of `b` become one. */
  lemma {:induction false} LinesGlue(a: string, b: string)
    ensures Lines(a + b) == Glued(Lines(a), Lines(b))
  {
    if a == "" {
      assert a + b == b;
      GlueEmpty(Lines(b));
    } else {
      LinesGlue(a[1..], b);
      assert (a + b)[1..] == a[1..] + b;
      AddFrontGlue(a[0], Lines(a[1..]), Lines(b));
    }
  }

  lemma GlueEmpty(lb: seq<string>)
    requires lb != []
    ensures Glued([""], lb) == lb
  {
    assert "" + lb[0] == lb[0];
  }

  lemma AddFrontGlue(c: char, la: seq<string>, lb: seq<string>)
    requires la != [] && lb != []
    ensures AddFront(c, Glued(la, lb)) == Glued(AddFront(c, la), lb)
  {
    if c == '\n' {
      assert ([""] + la)[..|la|] == [""] + la[..|la| - 1];
    } else if |la| == 1 {
      assert [c] + (la[0] + lb[0]) == ([c] + la[0]) + lb[0];
    } else {
      GlueTail(la, lb);
      GlueTail([[c] + la[0]] + la[1..], lb);
    }
  }

  lemma GlueTail(la: seq<string>, lb: seq<string>)
    requires |la| > 1 && lb != []
    ensures Glued(la, lb) == [la[0]] + Glued(la[1..], lb)
  {
  }

  function LastOf(lines: seq<string>): string
    requires lines != []
  {
    lines[|lines| - 1]
  }

  lemma GlueLast(la: seq<string>, lb: seq<string>)
    requires la != [] && lb != []
    ensures LastOf(Glued(la, lb)) == if |lb| == 1 then LastOf(la) + LastOf(lb) else LastOf(lb)
  {
  }

  // ---------- Trimming ----------

  function TrimLeft(s: string): string {
    if s != "" && IsSpace(s[0]) then TrimLeft(s[1..]) else s
  }

  function TrimRight(s: string): string {
    if s != "" && IsSpace(s[|s| - 1]) then TrimRight(s[..|s| - 1]) else s
  }

  /** `strings.TrimSpace`. */
  function Trim(s: string): string {
    TrimRight(TrimLeft(s))
  }

  /** No white space at either end. */
  predicate Trimmed(s: string) {
    s != "" ==> !IsSpace(s[0]) && !IsSpace(s[|s| - 1])
  }

  lemma {:induction false} TrimLeftParts(s: string) returns (pre: string)
    ensures AllSpace(pre) && s == pre + TrimLeft(s)
    ensures TrimLeft(s) != "" ==> !IsSpace(TrimLeft(s)[0])
  {
    if s != "" && IsSpace(s[0]) {
      var p := TrimLeftParts(s[1..]);
      pre := [s[0]] + p;
    } else {
      pre := "";
    }
  }

  lemma {:induction false} TrimRightParts(s: string) returns (post: string)
    ensures AllSpace(post) && s == TrimRight(s) + post
    ensures TrimRight(s) != "" ==> !IsSpace(TrimRight(s)[|TrimRight(s)| - 1])
  {
    if s != "" && IsSpace(s[|s| - 1]) {
      var p := TrimRightParts(s[..|s| - 1]);
      post := p + [s[|s| - 1]];
    } else {
      post := "";
    }
  }

  /** Trimming takes white space off both ends and nothing else. */
  lemma TrimParts(s: string) returns (pre: string, post: string)
    ensures AllSpace(pre) && AllSpace(post)
    ensures s == pre + Trim(s) + post
    ensures Trimmed(Trim(s))
  {
    pre := TrimLeftParts(s);
    post := TrimRightParts(TrimLeft(s));
    var m := Trim(s);
    if m != "" {
      assert m[0] == TrimLeft(s)[0];
    }
  }

  lemma {:induction false} TrimLeftSkips(a: string, s: string)
    requires AllSpace(a)
    ensures TrimLeft(a + s) == TrimLeft(s)
  {
    if a == "" {
      assert a + s == s;
    } else {
      assert (a + s)[1..] == a[1..] + s;
      TrimLeftSkips(a[1..], s);
    }
  }

  lemma {:induction false} TrimRightSkips(s: string, b: string)
    requires AllSpace(b)
    ensures TrimRight(s + b) == TrimRight(s)
  {
    if b == "" {
      assert s + b == s;
    } else {
      assert (s + b)[..|s + b| - 1] == s + b[..|b| - 1];
      TrimRightSkips(s, b[..|b| - 1]);
    }
  }

  /** The trimmed middle is the only one. */
  lemma TrimOf(a: string, m: string, b: string)
    requires AllSpace(a) && AllSpace(b) && Trimmed(m)
    ensures Trim(a + m + b) == m
  {
    assert a + m + b == a + (m + b);
    TrimLeftSkips(a, m + b);
    if m == "" {
      assert m + b == b + "";
      TrimLeftSkips(b, "");
    } else {
      assert (m + b)[0] == m[0];
      TrimRightSkips(m, b);
    }
  }

  lemma TrimTrimmed(s: string)
    requires Trimmed(s)
    ensures Trim(s) == s
  {
    TrimOf("", s, "");
    assert "" + s + "" == s;
  }

  lemma TrimAllSpace(s: string)
    requires AllSpace(s)
    ensures Trim(s) == ""
  {
    TrimOf(s, "", "");
    assert s + "" + "" == s;
  }

  // ---------- Cutting and fields ----------

  /** `strings.Cut(s, sep)` for a one-character separator. */
  function Cut(s: string, sep: char): (parts: Option<(string, string)>)
    ensures parts.None? <==> sep !in s
    ensures parts.Some? ==> s == parts.value.0 + [sep] + parts.value.1 && sep !in parts.value.0
  {
    if s == "" then None
    else if s[0] == sep then Some(("", s[1..]))
    else match Cut(s[1..], sep)
      case None => None
      case Some((before, after)) => Some(([s[0]] + before, after))
  }

  lemma {:induction false} CutAt(a: string, sep: char, b: string)
    requires sep !in a
    ensures Cut(a + [sep] + b, sep) == Some((a, b))
  {
    var s := a + [sep] + b;
    if a == "" {
      assert s[1..] == b;
    } else {
      assert s[1..] == a[1..] + [sep] + b;
      CutAt(a[1..], sep, b);
      assert [s[0]] + a[1..] == a;
    }
  }

  /** The longest prefix without white space. */
  function Word(s: string): (w: string)
    ensures w <= s && NoSpace(w)
    ensures s != "" && !IsSpace(s[0]) ==> w != ""
  {
    if s == "" || IsSpace(s[0]) then "" else [s[0]] + Word(s[1..])
  }

  /** `strings.Fields(s)`. */
  function Fields(s: string): (fs: seq<string>)
    ensures forall f :: f in fs ==> f != "" && NoSpace(f)
    decreases |s|
  {
    if s == "" then []
    else if IsSpace(s[0]) then Fields(s[1..])
    else [Word(s)] + Fields(s[|Word(s)|..])
  }

  lemma {:induction false} WordOf(w: string, rest: string)
    requires NoSpace(w) && (rest == "" || IsSpace(rest[0]))
    ensures Word(w + rest) == w
  {
    if w == "" {
      assert w + rest == rest;
    } else {
      assert (w + rest)[1..] == w[1..] + rest;
      WordOf(w[1..], rest);
    }
  }

  /** White space in front adds no field. */
  lemma {:induction false} FieldsSkip(a: string, s: string)
    requires AllSpace(a)
    ensures Fields(a + s) == Fields(s)
  {
    if a == "" {
      assert a + s == s;
    } else {
      assert (a + s)[1..] == a[1..] + s;
      FieldsSkip(a[1..], s);
    }
  }

  /** A word followed by white space, or by nothing, is the first field. */
  lemma FieldsFirst(w: string, rest: string)
    requires w != "" && NoSpace(w) && (rest == "" || IsSpace(rest[0]))
    ensures Fields(w + rest) == [w] + Fields(rest)
  {
    WordOf(w, rest);
    assert !IsSpace((w + rest)[0]);
    assert (w + rest)[|w|..] == rest;
  }
}
