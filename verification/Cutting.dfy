/**
 The script that installs files, cut at any byte: bash runs what it was given, the last line included
 even if its end is missing. A cut right after the path of a target in the line that writes its
 temporary file empties the target; and it is all that can go wrong, unless one path begins another.
 */
module Cutting {
  import opened Prelude
  import opened Base64
  import opened Shell
  import opened Quoting
  import opened Chunks
  import opened Packing
  import opened Install

  // Lines of plain words, cut short.

  function BareItems(words: seq<string>): (r: seq<Item>)
    ensures |r| == |words|
  {
    seq(|words|, i requires 0 <= i < |words| => Bare(words[i]))
  }

  ghost predicate AllPlain(words: seq<string>) {
    forall i :: 0 <= i < |words| ==> Plain(words[i])
  }

  function LineOf(words: seq<string>): string {
    if words == [] then "" else if |words| == 1 then words[0] else words[0] + " " + LineOf(words[1..])
  }

  /** The words in the first q characters of the line. */
  function Cut(words: seq<string>, q: nat): seq<string> {
    if words == [] || q == 0 then []
    else if q <= |words[0]| then [words[0][..q]]
    else [words[0]] + Cut(words[1..], q - |words[0]| - 1)
  }

  function WordTokensOf(words: seq<string>): (r: seq<Token>)
    ensures |r| == |words|
  {
    seq(|words|, i requires 0 <= i < |words| => Word(words[i], false))
  }

  lemma {:induction false} Prefix(a: string, b: string, q: nat)
    requires q <= |a + b|
    ensures (a + b)[..q] == if q <= |a| then a[..q] else a + b[..q - |a|]
  {
  }

  lemma {:induction false} LexWord(s: string, toks: seq<Token>)
    requires Plain(s)
    ensures Lex(s, Normal, NoWord, toks) == Some(Line(toks + [Word(s, false)], ""))
  {
    LexLiteral(s, "", NoWord, toks);
    assert s + "" == s;
  }

  /** A cut line of words is read as the words before the cut. */
  lemma {:induction false} LexCut(words: seq<string>, q: nat, toks: seq<Token>)
    requires words != [] && AllPlain(words) && q <= |LineOf(words)|
    ensures Lex(LineOf(words)[..q], Normal, NoWord, toks) == Some(Line(toks + WordTokensOf(Cut(words, q)), ""))
  {
    var first, tail := words[0], words[1..];
    if q == 0 {
      assert toks + [] == toks;
    } else if q <= |first| {
      assert LineOf(words)[..q] == first[..q];
      LexWord(first[..q], toks);
      assert WordTokensOf([first[..q]]) == [Word(first[..q], false)];
    } else {
      var rest := q - |first| - 1;
      assert tail != [];
      assert LineOf(words) == first + (" " + LineOf(tail));
      assert LineOf(words)[..q] == first + (" " + LineOf(tail)[..rest]);
      LexItemThen(Bare(first), LineOf(tail)[..rest], toks);
      LexCut(tail, rest, toks + [Word(first, false)]);
      CutTokens(first, Cut(tail, rest), toks);
    }
  }

  lemma {:induction false} CutTokens(first: string, words: seq<string>, toks: seq<Token>)
    ensures toks + [Word(first, false)] + WordTokensOf(words) == toks + WordTokensOf([first] + words)
  {
  }

  lemma {:induction false} NextCut(words: seq<string>, q: nat)
    requires words != [] && AllPlain(words) && 0 < q <= |LineOf(words)| && Cut(words, q)[0] !in KEYWORDS
    ensures Next(LineOf(words)[..q]) == Some(Command([Stage(Cut(words, q), None, None)], ""))
  {
    var cut := Cut(words, q);
    LexCut(words, q, []);
    assert [] + WordTokensOf(cut) == WordTokensOf(cut);
    ParseWords(WordTokensOf(cut), NO_STAGE);
    assert [] + seq(|cut|, i requires 0 <= i < |cut| => WordTokensOf(cut)[i].text) == cut;
    ReadNone(Stage(cut, None, None), "");
  }

  /** The first word of a cut line is no reserved word. */
  lemma NoKeyword(p: string)
    requires p != "" && (p <= "set" || p <= "mv" || p <= "base64")
    ensures p !in KEYWORDS
  {
    assert p[0] == 's' || p[0] == 'm' || p[0] == 'b';
    assert p[0] == 's' ==> |p| <= 3;
  }

  lemma {:induction false} CutFirst(words: seq<string>, q: nat)
    requires words != [] && words[0] != "" && q > 0
    ensures Cut(words, q) != [] && Cut(words, q)[0] != "" && Cut(words, q)[0] <= words[0]
  {
  }

  /** A cut line of words runs the words before the cut. */
  lemma {:induction false} RunCut<S>(w: World<S>, s: S, words: seq<string>, q: nat)
    requires words != [] && AllPlain(words) && words[0] in {"set", "mv", "base64"} && 0 < q <= |LineOf(words)|
    ensures Run(w, s, LineOf(words)[..q]) == Then(w, w.exec(s, Cut(words, q)), "")
  {
    CutFirst(words, q);
    NoKeyword(Cut(words, q)[0]);
    NextCut(words, q);
    RunNext(w, s, LineOf(words)[..q], Command([Stage(Cut(words, q), None, None)], ""));
  }

  // The line that writes a temporary file, cut short.

  const TO_TEMP := [BASE64, DECODE, To(false)]

  lemma {:induction false} LexBase64(y: string)
    ensures Lex("base64 -d " + y, Normal, NoWord, []) == Lex(y, Normal, NoWord, [BASE64, DECODE])
  {
    PlainWords();
    assert "base64 -d " + y == "base64" + (" " + ("-d" + (" " + y)));
    LexItemThen(Bare("base64"), "-d" + (" " + y), []);
    LexItemThen(Bare("-d"), y, [BASE64]);
    assert [] + [BASE64] == [BASE64] && [BASE64] + [DECODE] == [BASE64, DECODE];
  }

  lemma {:induction false} LexTo(z: string)
    ensures Lex("base64 -d > " + z, Normal, NoWord, []) == Lex(z, Normal, NoWord, TO_TEMP)
    ensures Lex("base64 -d >", Normal, NoWord, []) == Some(Line(TO_TEMP, ""))
  {
    assert "base64 -d > " + z == "base64 -d " + (">" + (" " + z));
    LexBase64(">" + (" " + z));
    LexItemThen(Into(false), z, [BASE64, DECODE]);
    assert [BASE64, DECODE] + [To(false)] == TO_TEMP;
    LexBase64(">");
    assert "base64 -d " + ">" == "base64 -d >";
  }

  /** Cut after the operator: a syntax error. */
  lemma {:induction false} NextNoPath()
    ensures Next("base64 -d >") == Some(Broken) && Next("base64 -d > ") == Some(Broken)
  {
    LexTo("");
    assert "base64 -d > " + "" == "base64 -d > ";
  }

  lemma {:induction false} ParseTo(p: string)
    ensures Parse(TO_TEMP + [Word(p, false)], NO_STAGE, []) ==
              Some([Stage(["base64", "-d"], Some(Redirect(p, false)), None)])
  {
    var t := [To(false), Word(p, false)];
    assert TO_TEMP + [Word(p, false)] == [BASE64, DECODE] + t;
    ParseBase64(t);
    var st := Stage(["base64", "-d"], Some(Redirect(p, false)), None);
    assert t[2..] == [] && [] + [st] == [st];
  }

  lemma {:induction false} NextPath(z: string, p: string)
    requires Plain(p) && (z == p || z == p + " ")
    ensures Next("base64 -d > " + z) == Some(Command([Stage(["base64", "-d"], Some(Redirect(p, false)), None)], ""))
  {
    LexTo(z);
    if z == p {
      LexWord(p, TO_TEMP);
    } else {
      assert z == p + (" " + "");
      LexItemThen(Bare(p), "", TO_TEMP);
    }
    ParseTo(p);
    ReadNone(Stage(["base64", "-d"], Some(Redirect(p, false)), None), "");
  }

  lemma {:induction false} RunPath<S>(w: World<S>, s: S, z: string, p: string)
    requires Plain(p) && (z == p || z == p + " ") && w.input == []
    ensures Run(w, s, "base64 -d > " + z) == Then(w, Written(w, s, p, [], false), "")
  {
    var st := Stage(["base64", "-d"], Some(Redirect(p, false)), None);
    NextPath(z, p);
    RunNext(w, s, "base64 -d > " + z, Command([st], ""));
    DecodeNothing();
    FlowLast(w, s, st, w.input, Filtered([], true), true);
  }

  lemma DecodeNothing()
    ensures Decode(ToText([])) == Some([])
  {
    assert ToText([]) == "";
  }

  lemma {:induction false} LexOpenQuote(r: string, p: Partial, toks: seq<Token>)
    requires '\'' !in r
    ensures Lex(r, InQuotes, p, toks) == Some(Unfinished)
  {
    if r != "" {
      LexOpenQuote(r[1..], Extend(p, r[0], true), toks);
    }
  }

  /** Cut before the delimiter is whole: a syntax error. */
  lemma {:induction false} NextNoDelimiter(temp: string, v: string)
    requires Plain(temp) && v != "" && v < "<<'" + DELIM + "'"
    ensures Next("base64 -d > " + (temp + (" " + v))) == Some(Broken)
  {
    var toks := TO_TEMP + [Word(temp, false)];
    LexTo(temp + (" " + v));
    LexItemThen(Bare(temp), v, TO_TEMP);
    if |v| == 1 {
      assert v == "<";
    } else if |v| == 2 {
      assert v == "<<" && v[1..] == "<" && v[1..][1..] == "";
      assert Lex(v, Normal, NoWord, toks) == Some(Line(toks + [Here], ""));
    } else {
      var r := v[3..];
      assert v == "<<" + ("'" + r);
      LexHere("'" + r, toks);
      assert ("'" + r)[1..] == r;
      DelimiterCut(v);
      LexOpenQuote(r, Partial("", true), toks + [Here]);
    }
  }

  lemma {:induction false} DelimiterCut(v: string)
    requires |v| > 2 && v < "<<'" + DELIM + "'"
    ensures '\'' !in v[3..]
  {
    var all := "<<'" + DELIM + "'";
    assert '\'' !in DELIM;
    forall i | 0 <= i < |v[3..]| ensures v[3..][i] != '\'' {
      assert v[3..][i] == all[i + 3] == DELIM[i];
    }
  }

  /** A document cut short before its delimiter line is whole takes the rest of the text. */
  lemma {:induction false} ReadTorn(e: string, delim: string, b: string)
    requires Encoded(e) && Delimiter(delim) && b <= Wrap(e) + delim
    ensures ReadHere(b, delim).rest == ""
    decreases |e|
  {
    EncodedLine(e[..if |e| <= WIDTH then |e| else WIDTH], delim);
    if |e| <= WIDTH {
      assert Wrap(e) + delim == e + "\n" + delim;
      TornLine(e, delim, b, delim);
      if |b| > |e| {
        assert b[|e| + 1..] <= delim;
        LineWhole(b[|e| + 1..]);
      }
    } else {
      var line, tail := e[..WIDTH], Wrap(e[WIDTH..]) + delim;
      assert Wrap(e) + delim == line + "\n" + tail;
      TornLine(line, tail, b, delim);
      if |b| > |line| {
        ReadTorn(e[WIDTH..], delim, b[|line| + 1..]);
      }
    }
  }

  lemma {:induction false} LineWhole(b: string)
    requires '\n' !in b
    ensures LineLength(b) == |b|
  {
  }

  lemma {:induction false} TornLine(line: string, tail: string, b: string, delim: string)
    requires '\n' !in line && line != delim && b <= line + "\n" + tail
    ensures |b| <= |line| ==> ReadHere(b, delim).rest == ""
    ensures |b| > |line| ==> b[|line| + 1..] <= tail && ReadHere(b, delim).rest == ReadHere(b[|line| + 1..], delim).rest
  {
    var all := line + "\n" + tail;
    if |b| <= |line| {
      assert b == line[..|b|];
      LineWhole(b);
    } else {
      var rest := b[|line| + 1..];
      assert b == line + "\n" + rest;
      LineLengthIs(line, rest);
      assert b[..|line|] == line;
    }
  }

  /** Whatever comes of the document, it goes to the temporary file and nowhere else. */
  lemma {:induction false} NextTorn(temp: string, v: string, b: string, content: seq<byte>)
    requires Plain(temp) && b <= Wrap(Encode(content)) + DELIM
    requires v == "" || v == "\n" + b
    ensures var r := Next("base64 -d > " + (temp + (" " + ("<<'" + DELIM + "'" + v))));
            exists doc :: r == Some(Command([Stage(["base64", "-d"], Some(Redirect(temp, false)), Some(doc))], ""))
  {
    var from := "<<'" + DELIM + "'";
    var toks := TO_TEMP + [Word(temp, false)];
    LexTo(temp + (" " + (from + v)));
    LexItemThen(Bare(temp), from + v, TO_TEMP);
    LexDelimiter(v, b, toks);
    DecodingParse(Word(temp, false), false, DELIM);
    assert toks + [Here, Word(DELIM, true)] == [BASE64, DECODE, To(false), Word(temp, false), Here, Word(DELIM, true)];
    var st := Stage(["base64", "-d"], Some(Redirect(temp, false)), Some(DELIM));
    var rest := if v == "" then "" else b;
    EncodeIs(content);
    DelimGood();
    ReadTorn(Encode(content), DELIM, rest);
    ReadOne(st, rest, ReadHere(rest, DELIM));
  }

  lemma DelimGood()
    ensures Delimiter(DELIM)
  {
    assert DELIM[0] == '_';
  }

  lemma {:induction false} LexDelimiter(v: string, b: string, toks: seq<Token>)
    requires v == "" || v == "\n" + b
    ensures Lex("<<'" + DELIM + "'" + v, Normal, NoWord, toks) ==
            Some(Line(toks + [Here, Word(DELIM, true)], if v == "" then "" else b))
  {
    DelimGood();
    if v == "" {
      LexLastDelimiter(DELIM, toks);
    } else {
      LexItemThen(From(DELIM), b, toks);
    }
  }

  lemma {:induction false} LexLastDelimiter(delim: string, toks: seq<Token>)
    requires Plain(delim)
    ensures Lex("<<'" + delim + "'" + "", Normal, NoWord, toks) == Some(Line(toks + [Here, Word(delim, true)], ""))
  {
    FromText(delim, "");
    LexHere(ShellQuote(delim) + "", toks);
    LexQuoted(delim, "", toks + [Here]);
    assert toks + [Here] + [Word(delim, true)] == toks + [Here, Word(delim, true)];
  }

  // Each command, cut short, in a directory.

  /** A directory, a script that is cut off there and nothing more to read. */
  ghost predicate InDirectory(w: World<Directory>) {
    w.exec == DirExec && w.write == DirWrite && w.input == [] && IsGunzip(w)
  }

  /** Goes on or stops, with the directory e. */
  ghost predicate Leaves(o: Outcome<Directory>, e: Directory) {
    !o.Unmodelled? && o.state == e
  }

  /** The file is as it was, or has any content. */
  ghost predicate Torn(s: Directory, e: Directory, path: string) {
    e == s || (path in e && e == s[path := e[path]])
  }

  const HEAD := "base64 -d > "

  lemma {:induction false} LineOf2(a: string, b: string)
    ensures LineOf([a, b]) == a + " " + b
  {
    assert [a, b][1..] == [b];
  }

  lemma {:induction false} LineOf3(a: string, b: string, c: string)
    ensures LineOf([a, b, c]) == a + " " + (b + " " + c)
  {
    assert [a, b, c][1..] == [b, c];
    LineOf2(b, c);
  }

  lemma {:induction false} HeadParts(q: nat)
    requires q <= |HEAD|
    ensures q <= 9 ==> HEAD[..q] == "base64 -d"[..q]
    ensures q == 10 ==> HEAD[..q] == "base64 -d "
    ensures q == 11 ==> HEAD[..q] == "base64 -d >"
    ensures q == 12 ==> HEAD[..q] == HEAD
  {
  }

  lemma {:induction false} RunHeadWords(w: World<Directory>, s: Directory, q: nat)
    requires InDirectory(w) && 0 < q <= 9
    ensures Leaves(Run(w, s, "base64 -d"[..q]), s)
  {
    var words := ["base64", "-d"];
    PlainWords();
    LineOf2("base64", "-d");
    assert "base64" + " " + "-d" == "base64 -d";
    RunCut(w, s, words, q);
    CutShorter(words, q);
  }

  lemma {:induction false} RunHead(w: World<Directory>, s: Directory, q: nat)
    requires InDirectory(w) && 0 < q <= |HEAD|
    ensures Leaves(Run(w, s, HEAD[..q]), s)
  {
    HeadParts(q);
    if q <= 9 {
      RunHeadWords(w, s, q);
    } else if q == 10 {
      LexBase64("");
      assert "base64 -d " + "" == "base64 -d ";
      BlankAfter(w, s);
    } else {
      NextNoPath();
    }
  }

  lemma {:induction false} BlankAfter(w: World<Directory>, s: Directory)
    requires w.exec == DirExec && Lex("base64 -d ", Normal, NoWord, []) == Lex("", Normal, NoWord, [BASE64, DECODE])
    ensures Leaves(Run(w, s, "base64 -d "), s)
  {
    var st := Stage(["base64", "-d"], None, None);
    ParseBase64([]);
    assert [BASE64, DECODE] + [] == [BASE64, DECODE] && [] + [st] == [st];
    ReadNone(st, "");
    RunNext(w, s, "base64 -d ", Command([st], ""));
  }

  lemma {:induction false} CutShorter(words: seq<string>, q: nat)
    ensures |Cut(words, q)| <= |words|
  {
    if words != [] && q > |words[0]| {
      CutShorter(words[1..], q - |words[0]| - 1);
    }
  }

  lemma {:induction false} RunToPrefix(w: World<Directory>, s: Directory, z: string, p: string)
    requires InDirectory(w) && Plain(p) && (z == p || z == p + " ")
    ensures Leaves(Run(w, s, HEAD + z), s[p := []])
  {
    RunPath(w, s, z, p);
    var none: seq<byte> := [];
    assert none + none == none;
  }

  lemma {:induction false} RunTorn(
    w: World<Directory>, s: Directory, temp: string, v: string, b: string, content: seq<byte>, text: string)
    returns (e: Directory)
    requires InDirectory(w) && Plain(temp) && b <= Wrap(Encode(content)) + DELIM && (v == "" || v == "\n" + b)
    requires text == HEAD + (temp + (" " + ("<<'" + DELIM + "'" + v)))
    ensures Leaves(Run(w, s, text), e) && Torn(s, e, temp)
  {
    NextTorn(temp, v, b, content);
    var doc :| Next(text) == Some(Command([Stage(["base64", "-d"], Some(Redirect(temp, false)), Some(doc))], ""));
    var st := Stage(["base64", "-d"], Some(Redirect(temp, false)), Some(doc));
    RunNext(w, s, text, Command([st], ""));
    var f := Filter(w, st.words, ToBytes(doc));
    FlowLast(w, s, st, w.input, f, true);
    e := s[temp := [] + f.out];
  }

  /** What is left of the text of a target after the path of its temporary file. */
  function FetchTail(content: seq<byte>): string {
    " " + ("<<'" + DELIM + "'" + ("\n" + (Wrap(Encode(content)) + DELIM + "\n")))
  }

  lemma {:induction false} FetchParts(f: Target, i: nat)
    requires Plain(f.path)
    ensures ChunkText(Fetch(f, i)) == HEAD + (Temp(f.path, i) + FetchTail(f.content))
  {
    FetchLine(f, i);
    FetchGroups(Temp(f.path, i), Wrap(Encode(f.content)));
  }

  lemma {:induction false} FetchGroups(temp: string, wrapped: string)
    ensures HEAD + temp + " <<'__CAPI_FILE__'\n" + wrapped + "__CAPI_FILE__\n" ==
            HEAD + (temp + (" " + ("<<'" + DELIM + "'" + ("\n" + (wrapped + DELIM + "\n")))))
  {
    assert " <<'__CAPI_FILE__'\n" == " " + ("<<'" + DELIM + "'" + "\n");
    assert "__CAPI_FILE__\n" == DELIM + "\n";
  }

  lemma {:induction false} TailParts(from: string, body: string, q: nat)
    requires 0 < q < 1 + |from| + 1 + |body| + 1
    ensures var tail := " " + (from + ("\n" + (body + "\n")));
            && (q == 1 ==> tail[..q] == " ")
            && (1 < q <= |from| ==> tail[..q] == " " + from[..q - 1])
            && (q == 1 + |from| ==> tail[..q] == " " + (from + ""))
            && (q > 1 + |from| ==> tail[..q] == " " + (from + ("\n" + body[..q - 2 - |from|])))
  {
  }

  /** Past the temporary path: a syntax error, or a torn temporary file. */
  lemma {:induction false} RunTail(w: World<Directory>, s: Directory, temp: string, content: seq<byte>, q: nat,
      text: string)
    returns (e: Directory)
    requires InDirectory(w) && Plain(temp) && 0 < q < |FetchTail(content)|
    requires text == HEAD + (temp + FetchTail(content)[..q])
    ensures Leaves(Run(w, s, text), e) && Torn(s, e, temp)
  {
    var from, body := "<<'" + DELIM + "'", Wrap(Encode(content)) + DELIM;
    TailParts(from, body, q);
    if q == 1 {
      RunToPrefix(w, s, temp + " ", temp);
      e := s[temp := []];
    } else if q <= |from| {
      NextNoDelimiter(temp, from[..q - 1]);
      e := s;
    } else {
      var b := if q == 1 + |from| then "" else body[..q - 2 - |from|];
      e := RunTorn(w, s, temp, if q == 1 + |from| then "" else "\n" + b, b, content, text);
    }
  }

  lemma {:induction false} FetchCutParts(temp: string, tail: string, q: nat)
    requires q <= |HEAD| + |temp| + |tail|
    ensures var text, x := HEAD + (temp + tail), q - |HEAD|;
            && (q <= |HEAD| ==> text[..q] == HEAD[..q])
            && (0 < x <= |temp| ==> text[..q] == HEAD + temp[..x])
            && (x > |temp| ==> text[..q] == HEAD + (temp + tail[..x - |temp|]))
  {
    Prefix(HEAD, temp + tail, q);
    if q > |HEAD| {
      Prefix(temp, tail, q - |HEAD|);
    }
  }

  /** The command that writes a temporary file, cut after q characters. */
  lemma {:induction false} FetchCut(
    w: World<Directory>, s: Directory, temp: string, content: seq<byte>, tail: string, q: nat, text: string)
    returns (e: Directory)
    requires InDirectory(w) && Plain(temp) && tail == FetchTail(content) && 0 < q < |HEAD| + |temp| + |tail|
    requires text == (HEAD + (temp + tail))[..q]
    ensures Leaves(Run(w, s, text), e)
    ensures var x := q - |HEAD|; if 0 < x <= |temp| then e == s[temp[..x] := []] else Torn(s, e, temp)
  {
    var x := q - |HEAD|;
    FetchCutParts(temp, tail, q);
    if x <= 0 {
      RunHead(w, s, q);
      e := s;
    } else if x <= |temp| {
      RunToPrefix(w, s, temp[..x], temp[..x]);
      e := s[temp[..x] := []];
    } else {
      e := RunTail(w, s, temp, content, x - |temp|, text);
    }
  }

  function MoveWords(f: Target, i: nat): seq<string> {
    ["mv", "-f", Temp(f.path, i), f.path]
  }

  lemma {:induction false} MoveGroups(mv: string, temp: string, path: string)
    ensures LineOf([mv, "-f", temp, path]) == mv + " " + ("-f" + " " + (temp + " " + path))
    ensures mv + " " + ("-f" + " " + (temp + " " + path)) + "\n" == mv + " " + "-f" + " " + temp + " " + path + "\n"
  {
    assert [mv, "-f", temp, path][1..] == ["-f", temp, path];
    LineOf3("-f", temp, path);
  }

  lemma {:induction false} MoveParts(f: Target, i: nat)
    requires Plain(f.path)
    ensures AllPlain(MoveWords(f, i)) && ChunkText(Move(f, i)) == LineOf(MoveWords(f, i)) + "\n"
    ensures |LineOf(MoveWords(f, i))| == 7 + |Temp(f.path, i)| + |f.path|
  {
    MoveLine(f, i);
    TempPlain(f.path, i);
    assert Plain("mv") && Plain("-f");
    MoveGroups("mv", Temp(f.path, i), f.path);
    assert "mv" + " " + "-f" + " " == "mv -f ";
  }

  lemma {:induction false} MoveCutWords(f: Target, i: nat, q: nat)
    requires 0 < q <= 7 + |Temp(f.path, i)| + |f.path|
    ensures var x := q - 7 - |Temp(f.path, i)|;
            if x > 0 then Cut(MoveWords(f, i), q) == MoveWords(f, i)[3 := f.path[..x]]
            else |Cut(MoveWords(f, i), q)| < 4
  {
    var words, temp := MoveWords(f, i), Temp(f.path, i);
    assert words[1..] == ["-f", temp, f.path] && words[1..][1..] == [temp, f.path] && words[1..][1..][1..] == [f.path];
    var x := q - 7 - |temp|;
    if q <= 2 {
    } else if q - 3 <= 2 {
      CutShorter(words[1..], q - 3);
      assert |Cut(words[1..], q - 3)| <= 1;
    } else {
      assert Cut(words, q) == ["mv"] + (["-f"] + Cut([temp, f.path], q - 6));
      if q - 6 <= |temp| {
        assert |Cut([temp, f.path], q - 6)| <= 1;
      } else {
        assert Cut([temp, f.path], q - 6) == [temp] + Cut([f.path], q - 7 - |temp|);
        if x > 0 {
          assert Cut([f.path], x) == [f.path[..x]];
          assert ["mv"] + (["-f"] + ([temp] + [f.path[..x]])) == words[3 := f.path[..x]];
        }
      }
    }
  }

  /** The command that moves it over the target, cut after q characters: it may move it elsewhere. */
  lemma {:induction false} MoveCut(w: World<Directory>, s: Directory, f: Target, i: nat, q: nat) returns (e: Directory)
    requires InDirectory(w) && Plain(f.path) && 0 < q <= 7 + |Temp(f.path, i)| + |f.path|
    requires var t := Temp(f.path, i); t in s && s[t] == f.content
    ensures q < |ChunkText(Move(f, i))| && Leaves(Run(w, s, ChunkText(Move(f, i))[..q]), e)
    ensures var t, x := Temp(f.path, i), q - 7 - |Temp(f.path, i)|;
            if x > 0 then e == (s - {t})[f.path[..x] := f.content] else e == s
  {
    MoveParts(f, i);
    var words := MoveWords(f, i);
    assert (LineOf(words) + "\n")[..q] == LineOf(words)[..q];
    RunCut(w, s, words, q);
    MoveCutWords(f, i, q);
    MovesTo(s, Cut(words, q), f, i);
    e := DirExec(s, Cut(words, q)).state;
  }

  lemma {:induction false} MovesTo(s: Directory, argv: seq<string>, f: Target, i: nat)
    requires var t := Temp(f.path, i); t in s && s[t] == f.content
    ensures |argv| < 4 ==> DirExec(s, argv) == Continue(s)
    ensures |argv| == 4 && argv == MoveWords(f, i)[3 := argv[3]] ==>
              DirExec(s, argv) == Continue((s - {Temp(f.path, i)})[argv[3] := f.content])
  {
  }

  lemma SetParts()
    ensures AllPlain(["set", "-euo", "pipefail"]) && ChunkText(SET) == LineOf(["set", "-euo", "pipefail"]) + "\n"
  {
    SetLine();
    assert Plain("set") && Plain("-euo") && Plain("pipefail");
    LineOf3("set", "-euo", "pipefail");
    SetGroups("set", "-euo", "pipefail");
  }

  lemma {:induction false} SetGroups(a: string, b: string, c: string)
    ensures a + " " + b + " " + c + "\n" == a + " " + (b + " " + c) + "\n"
  {
  }

  lemma {:induction false} SetCut(w: World<Directory>, s: Directory, q: nat)
    requires InDirectory(w) && 0 < q < |ChunkText(SET)|
    ensures Leaves(Run(w, s, ChunkText(SET)[..q]), s)
  {
    var words := ["set", "-euo", "pipefail"];
    SetParts();
    assert (LineOf(words) + "\n")[..q] == LineOf(words)[..q];
    RunCut(w, s, words, q);
    CutShorter(words, q);
  }

  // The whole script, cut short.

  /** n whole commands and q characters of the next. */
  datatype Place = Place(n: nat, q: nat)

  function Where(chunks: seq<Chunk>, k: nat): (p: Place)
    ensures p.n <= |chunks|
  {
    if chunks == [] then Place(0, 0)
    else if k < |ChunkText(chunks[0])| then Place(0, k)
    else
      var p := Where(chunks[1..], k - |ChunkText(chunks[0])|);
      Place(p.n + 1, p.q)
  }

  function Piece(chunks: seq<Chunk>, p: Place): string
    requires p.n <= |chunks|
  {
    if p.n < |chunks| && p.q <= |ChunkText(chunks[p.n])| then ChunkText(chunks[p.n])[..p.q] else ""
  }

  lemma {:induction false} WherePeels(first: Chunk, tail: seq<Chunk>, n: nat)
    requires n <= |tail|
    ensures Chunks.Text([first] + tail) == ChunkText(first) + Chunks.Text(tail)
    ensures Chunks.Text(([first] + tail)[..n + 1]) == ChunkText(first) + Chunks.Text(tail[..n])
  {
    assert ([first] + tail)[1..] == tail;
    var all := ([first] + tail)[..n + 1];
    assert all[0] == first && all[1..] == tail[..n];
  }

  /** The place of a cut: the text up to it, and how far into a command it is. */
  ghost predicate IsPlace(chunks: seq<Chunk>, k: nat, p: Place) {
    && p.n <= |chunks| && k <= |Chunks.Text(chunks)|
    && Chunks.Text(chunks)[..k] == Chunks.Text(chunks[..p.n]) + Piece(chunks, p)
    && if p.n < |chunks| then p.q < |ChunkText(chunks[p.n])| else p.q == 0
  }

  lemma {:induction false} WhereFirst(first: Chunk, tail: seq<Chunk>, k: nat)
    requires k < |ChunkText(first)|
    ensures IsPlace([first] + tail, k, Place(0, k))
  {
    var chunks := [first] + tail;
    WherePeels(first, tail, 0);
    Prefix(ChunkText(first), Chunks.Text(tail), k);
    assert chunks[..0] == [] && "" + ChunkText(first)[..k] == ChunkText(first)[..k];
  }

  lemma {:induction false} WhereLater(first: Chunk, tail: seq<Chunk>, k: nat, p: Place)
    requires k >= |ChunkText(first)| && IsPlace(tail, k - |ChunkText(first)|, p)
    ensures IsPlace([first] + tail, k, Place(p.n + 1, p.q))
  {
    var text, later := ChunkText(first), Chunks.Text(tail);
    WherePeels(first, tail, p.n);
    Prefix(text, later, k);
    Joins(text, later[..k - |text|], Chunks.Text(tail[..p.n]), Piece(tail, p));
  }

  /** Every cut is at some place of some command. */
  lemma {:induction false} WhereIs(chunks: seq<Chunk>, k: nat)
    requires k <= |Chunks.Text(chunks)|
    ensures IsPlace(chunks, k, Where(chunks, k))
  {
    if chunks == [] {
      assert Piece([], Place(0, 0)) == "" && Chunks.Text([]) == "";
    } else {
      var first, tail := chunks[0], chunks[1..];
      var n := |ChunkText(first)|;
      assert chunks == [first] + tail;
      if k < n {
        WhereFirst(first, tail, k);
      } else {
        WherePeels(first, tail, 0);
        WhereIs(tail, k - n);
        WhereLater(first, tail, k, Where(tail, k - n));
      }
    }
  }

  lemma {:induction false} Joins(first: string, cut: string, whole: string, piece: string)
    requires cut == whole + piece
    ensures first + cut == first + whole + piece
  {
  }

  // What a cut does to the targets.

  /** The first m targets are new and the others are as they were. */
  ghost predicate Settled(d: Directory, e: Directory, files: seq<Target>, m: nat)
    requires m <= |files|
  {
    && (forall i :: 0 <= i < m ==> At(e, files[i].path) == Some(files[i].content))
    && (forall i :: m <= i < |files| ==> At(e, files[i].path) == At(d, files[i].path))
  }

  predicate InScript(files: seq<Target>, p: Place) {
    p.n <= 1 + 2 * |files| && (p.n == 1 + 2 * |files| ==> p.q == 0)
  }

  /** The target that the command being cut is about. */
  function Current(files: seq<Target>, n: nat): nat
    requires 0 < n < 1 + 2 * |files|
    ensures Current(files, n) < |files|
  {
    Done(n)
  }

  /** What the cut command puts where it was not meant to go, or to go yet. */
  function Hit(files: seq<Target>, p: Place): Option<Target>
    requires InScript(files, p)
  {
    if p.n == 0 || p.n == 1 + 2 * |files| then None
    else
      var i := Current(files, p.n);
      var f, temp := files[i], Temp(files[i].path, i);
      if p.n % 2 == 1 then
        var x := p.q - |HEAD|;
        if 0 < x <= |temp| then Some(Target(temp[..x], [])) else None
      else
        var x := p.q - 7 - |temp|;
        if 0 < x <= |f.path| then Some(Target(f.path[..x], f.content)) else None
  }

  /** How many targets are done: a move that lacks no more than the end of its line counts. */
  function Finished(files: seq<Target>, p: Place): (m: nat)
    requires InScript(files, p)
    ensures m <= |files|
  {
    if 0 < p.n < 1 + 2 * |files| && p.n % 2 == 0
       && Hit(files, p) == Some(files[Current(files, p.n)])
    then Done(p.n) + 1 else Done(p.n)
  }

  ghost predicate AfterCut(d: Directory, e: Directory, files: seq<Target>, p: Place)
    requires InScript(files, p)
  {
    var s := StateAt(d, files, p.n);
    if p.n == 0 || p.n == 1 + 2 * |files| || p.q == 0 then e == s
    else
      var i, hit := Current(files, p.n), Hit(files, p);
      var temp := Temp(files[i].path, i);
      if hit.None? then Torn(s, e, temp)
      else e == (if p.n % 2 == 1 then s else s - {temp})[hit.value.path := hit.value.content]
  }

  lemma {:induction false} FetchAt(files: seq<Target>, n: nat)
    requires PlainPaths(files) && 0 < n < 1 + 2 * |files| && n % 2 == 1
    ensures var i := Current(files, n);
            var f, t := files[i], Temp(files[i].path, i);
            Plain(t) && ChunkText(ChunkAt(files, n)) == HEAD + (t + FetchTail(f.content))
  {
    var i := Current(files, n);
    Halves(n);
    FetchParts(files[i], i);
    TempPlain(files[i].path, i);
  }

  lemma {:induction false} CutFetch(w: World<Directory>, d: Directory, files: seq<Target>, p: Place, text: string)
    returns (e: Directory)
    requires InDirectory(w) && PlainPaths(files) && 0 < p.n < 1 + 2 * |files| && p.n % 2 == 1
    requires 0 < p.q < |ChunkText(ChunkAt(files, p.n))| && text == ChunkText(ChunkAt(files, p.n))[..p.q]
    ensures Leaves(Run(w, StateAt(d, files, p.n), text), e) && AfterCut(d, e, files, p)
  {
    var i := Current(files, p.n);
    FetchAt(files, p.n);
    var s, temp, tail := StateAt(d, files, p.n), Temp(files[i].path, i), FetchTail(files[i].content);
    e := FetchCut(w, s, temp, files[i].content, tail, p.q, text);
    FetchAfter(d, s, e, files, p);
  }

  lemma {:induction false} FetchAfter(d: Directory, s: Directory, e: Directory, files: seq<Target>, p: Place)
    requires 0 < p.n < 1 + 2 * |files| && p.n % 2 == 1 && p.q > 0 && s == StateAt(d, files, p.n)
    requires var i := Current(files, p.n);
             var temp, x := Temp(files[i].path, i), p.q - |HEAD|;
             if 0 < x <= |temp| then e == s[temp[..x] := []] else Torn(s, e, temp)
    ensures AfterCut(d, e, files, p)
  {
  }

  lemma {:induction false} FetchedThere(d: Directory, files: seq<Target>, n: nat)
    requires 0 < n < 1 + 2 * |files| && n % 2 == 0
    ensures var i := Current(files, n);
            var t := Temp(files[i].path, i);
            && ChunkAt(files, n) == Move(files[i], i)
            && t in StateAt(d, files, n) && StateAt(d, files, n)[t] == files[i].content
  {
    Halves(n);
  }

  lemma {:induction false} CutMove(w: World<Directory>, d: Directory, files: seq<Target>, p: Place, text: string)
    returns (e: Directory)
    requires InDirectory(w) && PlainPaths(files) && 0 < p.n < 1 + 2 * |files| && p.n % 2 == 0
    requires 0 < p.q < |ChunkText(ChunkAt(files, p.n))| && text == ChunkText(ChunkAt(files, p.n))[..p.q]
    ensures Leaves(Run(w, StateAt(d, files, p.n), text), e) && AfterCut(d, e, files, p)
  {
    var i := Current(files, p.n);
    FetchedThere(d, files, p.n);
    MoveParts(files[i], i);
    var s := StateAt(d, files, p.n);
    e := MoveCut(w, s, files[i], i, p.q);
    MoveAfter(d, s, e, files, p);
  }

  lemma {:induction false} MoveAfter(d: Directory, s: Directory, e: Directory, files: seq<Target>, p: Place)
    requires 0 < p.n < 1 + 2 * |files| && p.n % 2 == 0 && p.q > 0 && s == StateAt(d, files, p.n)
    requires var i := Current(files, p.n);
             var f, t, x := files[i], Temp(files[i].path, i), p.q - 7 - |Temp(files[i].path, i)|;
             x <= |f.path| && if x > 0 then e == (s - {t})[f.path[..x] := f.content] else e == s
    ensures AfterCut(d, e, files, p)
  {
  }

  lemma {:induction false} CutPiece(w: World<Directory>, d: Directory, files: seq<Target>, p: Place, text: string)
    returns (e: Directory)
    requires InDirectory(w) && PlainPaths(files) && p.n < 1 + 2 * |files| && p.q < |ChunkText(ChunkAt(files, p.n))|
    requires text == ChunkText(ChunkAt(files, p.n))[..p.q]
    ensures Leaves(Run(w, StateAt(d, files, p.n), text), e) && AfterCut(d, e, files, p)
  {
    if p.q == 0 {
      e := StateAt(d, files, p.n);
    } else if p.n == 0 {
      SetCut(w, d, p.q);
      e := d;
    } else if p.n % 2 == 1 {
      e := CutFetch(w, d, files, p, text);
    } else {
      e := CutMove(w, d, files, p, text);
    }
  }

  /** What the script leaves when it is cut after k characters. */
  lemma {:induction false} CutLeaves(w: World<Directory>, d: Directory, files: seq<Target>, k: nat)
    returns (e: Directory)
    requires InDirectory(w) && PlainPaths(files) && k <= |InstallText(files, "")|
    ensures var p := Where(InstallChunks(files), k);
            && InScript(files, p) && Leaves(Run(w, d, InstallText(files, "")[..k]), e) && AfterCut(d, e, files, p)
  {
    var chunks := InstallChunks(files);
    var p := Where(chunks, k);
    InstallTextIs(files);
    WhereIs(chunks, k);
    PrefixRuns(w, d, files, p.n);
    RunText(w, d, chunks[..p.n], Piece(chunks, p));
    if p.n < |chunks| {
      InstallChunkAt(files, p.n);
      e := CutPiece(w, d, files, p, Piece(chunks, p));
    } else {
      e := StateAt(d, files, p.n);
    }
  }

  // When the targets stay whole.

  /** What is hit is no target, or one that is done already and has that content anyway. */
  ghost predicate Harmless(files: seq<Target>, p: Place)
    requires InScript(files, p)
  {
    var hit := Hit(files, p);
    hit.Some? ==>
      forall j :: 0 <= j < |files| && files[j].path == hit.value.path ==>
        j < Finished(files, p) && files[j].content == hit.value.content
  }

  lemma {:induction false} SettledAt(d: Directory, files: seq<Target>, n: nat)
    requires n <= 1 + 2 * |files| && Separate(files)
    ensures Settled(d, StateAt(d, files, n), files, Done(n))
  {
    StateBetween(d, files, n, []);
  }

  lemma {:induction false} TornSettled(d: Directory, s: Directory, e: Directory, files: seq<Target>, m: nat, i: nat)
    requires m <= |files| && i < |files| && Separate(files) && Settled(d, s, files, m)
    requires Torn(s, e, Temp(files[i].path, i))
    ensures Settled(d, e, files, m)
  {
  }

  lemma {:induction false} HitSettled(d: Directory, s: Directory, files: seq<Target>, m: nat, i: nat, hit: Target)
    requires m <= |files| && i < |files| && Separate(files) && Settled(d, s, files, m)
    requires forall j :: 0 <= j < |files| && files[j].path == hit.path ==> j < m && files[j].content == hit.content
    ensures Settled(d, s[hit.path := hit.content], files, m)
    ensures Settled(d, (s - {Temp(files[i].path, i)})[hit.path := hit.content], files, m)
  {
  }

  lemma {:induction false} MovedSettled(d: Directory, s: Directory, files: seq<Target>, i: nat)
    requires i < |files| && Separate(files) && Settled(d, s, files, i)
    ensures Settled(d, (s - {Temp(files[i].path, i)})[files[i].path := files[i].content], files, i + 1)
  {
  }

  lemma {:induction false} HarmlessSettled(d: Directory, e: Directory, files: seq<Target>, p: Place)
    requires InScript(files, p) && Separate(files) && AfterCut(d, e, files, p) && Harmless(files, p)
    ensures Settled(d, e, files, Finished(files, p))
  {
    var s := StateAt(d, files, p.n);
    SettledAt(d, files, p.n);
    if 0 < p.n < 1 + 2 * |files| && p.q > 0 {
      var i, hit := Current(files, p.n), Hit(files, p);
      if hit.None? {
        TornSettled(d, s, e, files, Done(p.n), i);
      } else if Finished(files, p) == Done(p.n) {
        HitSettled(d, s, files, Done(p.n), i, hit.value);
      } else {
        MovedSettled(d, s, files, i);
      }
    }
  }

  /** A directory in which the hit shows. */
  function Witness(hit: Target): Directory {
    map[hit.path := hit.content + [0]]
  }

  lemma {:induction false} HarmfulUnsettled(e: Directory, files: seq<Target>, p: Place)
    requires InScript(files, p) && !Harmless(files, p) && AfterCut(Witness(Hit(files, p).value), e, files, p)
    ensures !Settled(Witness(Hit(files, p).value), e, files, Finished(files, p))
  {
    var hit, m := Hit(files, p).value, Finished(files, p);
    var j :| 0 <= j < |files| && files[j].path == hit.path && !(j < m && files[j].content == hit.content);
    assert At(e, files[j].path) == Some(hit.content);
    assert |hit.content + [0]| != |hit.content|;
  }

  /** Cut after k characters, the script leaves the first m targets new and the others as they were. */
  ghost predicate KeepsWhole(w: World<Directory>, d: Directory, files: seq<Target>, k: nat, m: nat)
    requires m <= |files| && k <= |InstallText(files, "")|
  {
    var o := Run(w, d, InstallText(files, "")[..k]);
    !o.Unmodelled? && Settled(d, o.state, files, m)
  }

  /**
   The script cut after any number k of characters is sure to leave each target wholly old or wholly
   new, in order, if and only if the command that is cut puts nothing at the path of a target, unless
   the target is done and has that content anyway.
   */
  lemma {:induction false} CutAnywhere(w: World<Directory>, files: seq<Target>, k: nat)
    requires InDirectory(w) && PlainPaths(files) && Separate(files) && k <= |InstallText(files, "")|
    ensures var p := Where(InstallChunks(files), k);
            InScript(files, p) && (Harmless(files, p) <==> forall d :: KeepsWhole(w, d, files, k, Finished(files, p)))
  {
    var p := Where(InstallChunks(files), k);
    var e := CutLeaves(w, map[], files, k);
    if Harmless(files, p) {
      forall d ensures KeepsWhole(w, d, files, k, Finished(files, p)) {
        CutStaysWhole(w, d, files, k);
      }
    } else {
      var d := Witness(Hit(files, p).value);
      var e := CutLeaves(w, d, files, k);
      HarmfulUnsettled(e, files, p);
      assert !KeepsWhole(w, d, files, k, Finished(files, p));
    }
  }

  lemma {:induction false} CutStaysWhole(w: World<Directory>, d: Directory, files: seq<Target>, k: nat)
    requires InDirectory(w) && PlainPaths(files) && Separate(files) && k <= |InstallText(files, "")|
    requires var p := Where(InstallChunks(files), k); InScript(files, p) && Harmless(files, p)
    ensures KeepsWhole(w, d, files, k, Finished(files, Where(InstallChunks(files), k)))
  {
    var e := CutLeaves(w, d, files, k);
    HarmlessSettled(d, e, files, Where(InstallChunks(files), k));
  }

  // Where no path begins another.

  /** No target's path begins the temporary path of another target. */
  ghost predicate Unnested(files: seq<Target>) {
    forall i, j :: 0 <= i < |files| && 0 <= j < |files| && files[j].path <= Temp(files[i].path, i) ==> i == j
  }

  /** The cut is right after the path of a target, in the line that writes its temporary file. */
  predicate AfterPath(files: seq<Target>, p: Place)
    requires InScript(files, p)
  {
    && 0 < p.n < 1 + 2 * |files| && p.n % 2 == 1
    && p.q == |HEAD| + |files[Current(files, p.n)].path|
  }

  lemma {:induction false} PathBegins(path: string, i: nat)
    ensures path <= Temp(path, i) && |path| < |Temp(path, i)| && Temp(path, i)[..|path|] == path
  {
  }

  /** Then a cut is harmless if and only if it is not there. */
  lemma {:induction false} HarmlessUnlessAfterPath(files: seq<Target>, p: Place)
    requires InScript(files, p) && PlainPaths(files) && Unnested(files)
    ensures Harmless(files, p) <==> !AfterPath(files, p)
  {
    var hit := Hit(files, p);
    if hit.Some? {
      var i := Current(files, p.n);
      var f, temp := files[i], Temp(files[i].path, i);
      PathBegins(f.path, i);
      forall j | 0 <= j < |files| && files[j].path == hit.value.path ensures j == i {
        assert files[j].path <= temp;
      }
      assert p.n % 2 == 1 ==> Finished(files, p) == i;
    }
  }

  /**
   So, for paths none of which begins another: cut at any byte, the script leaves every target wholly
   old or wholly new, unless the cut is right after a target's path in the line that writes its
   temporary file.
   */
  lemma {:induction false} CutWhole(w: World<Directory>, files: seq<Target>, k: nat)
    requires InDirectory(w) && PlainPaths(files) && Separate(files) && Unnested(files) && k <= |InstallText(files, "")|
    ensures var p := Where(InstallChunks(files), k);
            InScript(files, p) && (!AfterPath(files, p) <==> forall d :: KeepsWhole(w, d, files, k, Finished(files, p)))
  {
    CutAnywhere(w, files, k);
    HarmlessUnlessAfterPath(files, Where(InstallChunks(files), k));
  }

  /** There it empties the target. */
  lemma {:induction false} CutEmpties(w: World<Directory>, d: Directory, files: seq<Target>, k: nat)
    requires InDirectory(w) && PlainPaths(files) && k <= |InstallText(files, "")|
    requires var p := Where(InstallChunks(files), k); InScript(files, p) && AfterPath(files, p)
    ensures var o, p := Run(w, d, InstallText(files, "")[..k]), Where(InstallChunks(files), k);
            !o.Unmodelled? && At(o.state, files[Current(files, p.n)].path) == Some([])
  {
    var p := Where(InstallChunks(files), k);
    var i := Current(files, p.n);
    PathBegins(files[i].path, i);
    var e := CutLeaves(w, d, files, k);
    assert Hit(files, p) == Some(Target(files[i].path, []));
  }

  // The two files of the service load balancer.

  lemma {:induction false} EnvoyFilesUnnested(lds: seq<byte>, cds: seq<byte>)
    ensures Unnested(EnvoyFiles(lds, cds))
  {
    var files := EnvoyFiles(lds, cds);
    assert CDS_PATH[11] != LDS_PATH[11] && |CDS_PATH| == |LDS_PATH| > 11;
    forall i, j | 0 <= i < |files| && 0 <= j < |files| && files[j].path <= Temp(files[i].path, i) ensures i == j {
      assert files[j].path[11] == Temp(files[i].path, i)[11] == files[i].path[11];
    }
  }

  /** Cut anywhere but there, a new listener file is never seen with an old cluster file, and both are whole. */
  lemma {:induction false} EnvoyCut(w: World<Directory>, d: Directory, lds: seq<byte>, cds: seq<byte>, k: nat)
    requires InDirectory(w) && k <= |InstallText(EnvoyFiles(lds, cds), "")|
    requires var files := EnvoyFiles(lds, cds);
             var p := Where(InstallChunks(files), k);
             InScript(files, p) && !AfterPath(files, p)
    ensures var o := Run(w, d, InstallText(EnvoyFiles(lds, cds), "")[..k]);
            && !o.Unmodelled?
            && var c, l := At(o.state, CDS_PATH), At(o.state, LDS_PATH);
               || (c == At(d, CDS_PATH) && l == At(d, LDS_PATH))
               || (c == Some(cds) && (l == At(d, LDS_PATH) || l == Some(lds)))
  {
    var files := EnvoyFiles(lds, cds);
    var p := Where(InstallChunks(files), k);
    EnvoyFilesFit(lds, cds);
    EnvoyFilesUnnested(lds, cds);
    CutWhole(w, files, k);
    assert KeepsWhole(w, d, files, k, Finished(files, p));
    assert files[0].path == CDS_PATH && files[1].path == LDS_PATH;
  }
}
