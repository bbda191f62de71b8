/**
 Scripts as lists of chunks. A chunk has a text, which the shell runs, and an action, which says
 directly what is done; running the text of a script is performing its actions.
 */
module Chunks {
  import opened Prelude
  import opened Base64
  import opened Shell
  import opened Quoting

  // What a script does, without its text.

  /**
   `Script` is shell text run as it is; `Inflate` writes what gunzip makes of the data; `Spoil` empties
   the file, or adds nothing to it, and fails.
   */
  datatype Action =
    | Do(argv: seq<string>)
    | Script(text: string)
    | Put(path: string, content: seq<byte>, append: bool)
    | Inflate(path: string, data: seq<byte>)
    | Spoil(path: string, append: bool)

  function Written<S>(w: World<S>, s: S, path: string, content: seq<byte>, append: bool): Outcome<S> {
    var s' := w.write(s, path, content, append);
    if s'.None? then Stop(s) else Continue(s'.value)
  }

  function Failed<S>(o: Outcome<S>): Outcome<S> {
    if o.Continue? then Stop(o.state) else o
  }

  function Act<S>(w: World<S>, s: S, a: Action): Outcome<S> {
    match a
    case Do(argv) => w.exec(s, argv)
    case Script(text) => Run(w, s, text)
    case Put(path, content, append) => Written(w, s, path, content, append)
    case Inflate(path, data) =>
      var d := w.gunzip(data);
      if d.Some? then Written(w, s, path, d.value, false) else Failed(Written(w, s, path, [], false))
    case Spoil(path, append) => Failed(Written(w, s, path, [], append))
  }

  function Perform<S>(w: World<S>, s: S, actions: seq<Action>): Outcome<S> {
    if actions == [] then Continue(s)
    else
      var o := Act(w, s, actions[0]);
      if o.Continue? then Perform(w, o.state, actions[1..]) else o
  }

  // What a script says.

  datatype Chunk =
    | Blank
    | Comment(text: string)
    | CommandLine(items: seq<Item>)
    | Raw(text: string)
    | Decoding(dest: Item, append: bool, delim: string, content: seq<byte>)
    | Unpacking(dest: Item, delim: string, data: seq<byte>)
    | Misdirected(dest: Item, append: bool, delim: string, content: seq<byte>)

  predicate WordItem(x: Item) {
    (x.Bare? && Plain(x.text)) || x.Quoted?
  }

  function WordText(x: Item): string
    requires WordItem(x)
  {
    x.text
  }

  function WordsOf(items: seq<Item>): seq<string>
    requires forall i :: 0 <= i < |items| ==> WordItem(items[i])
  {
    seq(|items|, i requires 0 <= i < |items| => WordText(items[i]))
  }

  predicate Keyword(x: Item) {
    x.Bare? && x.text in KEYWORDS
  }

  /** Words, of which the first is no reserved word. */
  predicate IsCommand(items: seq<Item>) {
    items != [] && !Keyword(items[0]) && forall i :: 0 <= i < |items| ==> WordItem(items[i])
  }

  /** A delimiter is a plain word with a character that base64 has not. */
  predicate Delimiter(d: string) {
    Plain(d) && '_' in d
  }

  /** The text is made of whole commands: whatever follows does not change how it is read. */
  ghost predicate Complete(t: string)
    decreases |t|
  {
    || t == ""
    || (Next(t).Some? && Next(t).value.Command? && Complete(Next(t).value.rest)
        && forall u :: Next(t + u) == Some(Command(Next(t).value.stages, Next(t).value.rest + u)))
  }

  ghost predicate Good(c: Chunk) {
    match c
    case Blank => true
    case Comment(text) => '\n' !in text
    case CommandLine(items) => IsCommand(items)
    case Raw(text) => Complete(text)
    case Decoding(dest, _, delim, _) => WordItem(dest) && Delimiter(delim)
    case Unpacking(dest, delim, _) => WordItem(dest) && Delimiter(delim)
    case Misdirected(dest, _, delim, _) => WordItem(dest) && Delimiter(delim)
  }

  function Body(delim: string, content: seq<byte>): string {
    Wrap(Encode(content)) + delim + "\n"
  }

  function DecodingLine(dest: Item, append: bool, delim: string): seq<Item> {
    [Bare("base64"), Bare("-d"), Into(append), dest, From(delim)]
  }

  function UnpackingLine(dest: Item, delim: string): seq<Item> {
    [Bare("base64"), Bare("-d"), From(delim), PipeTo, Bare("gunzip"), Into(false), dest]
  }

  function MisdirectedLine(dest: Item, append: bool, delim: string): seq<Item> {
    [Bare("base64"), Bare("-d"), PipeTo, Bare("gunzip"), Into(append), dest, From(delim)]
  }

  function ChunkText(c: Chunk): string {
    match c
    case Blank => "\n"
    case Comment(text) => "#" + text + "\n"
    case CommandLine(items) => FullLine(items, "")
    case Raw(text) => text
    case Decoding(dest, append, delim, content) => FullLine(DecodingLine(dest, append, delim), Body(delim, content))
    case Unpacking(dest, delim, data) => FullLine(UnpackingLine(dest, delim), Body(delim, data))
    case Misdirected(dest, append, delim, content) =>
      FullLine(MisdirectedLine(dest, append, delim), Body(delim, content))
  }

  function ChunkActions(c: Chunk): seq<Action>
    requires Good(c)
  {
    match c
    case Blank => []
    case Comment(_) => []
    case CommandLine(items) => [Do(WordsOf(items))]
    case Raw(text) => [Script(text)]
    case Decoding(dest, append, _, content) => [Put(WordText(dest), content, append)]
    case Unpacking(dest, _, data) => [Inflate(WordText(dest), data)]
    case Misdirected(dest, append, _, _) => [Spoil(WordText(dest), append)]
  }

  function Text(chunks: seq<Chunk>): string {
    if chunks == [] then "" else ChunkText(chunks[0]) + Text(chunks[1..])
  }

  ghost predicate AllGood(chunks: seq<Chunk>) {
    forall i :: 0 <= i < |chunks| ==> Good(chunks[i])
  }

  function Actions(chunks: seq<Chunk>): seq<Action>
    requires forall i :: 0 <= i < |chunks| ==> Good(chunks[i])
  {
    if chunks == [] then [] else ChunkActions(chunks[0]) + Actions(chunks[1..])
  }

  // Here-documents.

  lemma {:induction false} LineLengthIs(line: string, t: string)
    requires '\n' !in line
    ensures LineLength(line + "\n" + t) == |line|
  {
    var s := line + "\n" + t;
    if line != "" {
      LineLengthIs(line[1..], t);
      assert s[1..] == line[1..] + "\n" + t;
    }
  }

  lemma {:induction false} ReadLine(line: string, t: string, delim: string, d: Document)
    requires '\n' !in line && line != delim && ReadHere(t, delim) == d
    ensures ReadHere(line + "\n" + t, delim) == Document(line + "\n" + d.body, d.rest)
  {
    var s := line + "\n" + t;
    LineLengthIs(line, t);
    assert s[..|line|] == line && s[|line| + 1..] == t && s[..|line| + 1] == line + "\n";
  }

  lemma {:induction false} ReadEnd(delim: string, rest: string)
    requires '\n' !in delim
    ensures ReadHere(delim + "\n" + rest, delim) == Document("", rest)
  {
    var s := delim + "\n" + rest;
    LineLengthIs(delim, rest);
    assert s[..|delim|] == delim && s[|delim| + 1..] == rest;
  }

  lemma {:induction false} EncodedLine(line: string, delim: string)
    requires Encoded(line) && Delimiter(delim)
    ensures '\n' !in line && line != delim && '\n' !in delim
  {
  }

  lemma {:induction false} WrapParts(e: string, t: string)
    ensures |e| <= WIDTH ==> Wrap(e) + t == e + "\n" + t && Wrap(e) == e + "\n" + ""
    ensures |e| > WIDTH ==> Wrap(e) + t == e[..WIDTH] + "\n" + (Wrap(e[WIDTH..]) + t)
  {
  }

  /** No line of wrapped base64 is the delimiter, so the document is read back whole. */
  lemma {:induction false} ReadWrapped(e: string, delim: string, rest: string)
    requires Encoded(e) && Delimiter(delim)
    ensures ReadHere(Wrap(e) + (delim + "\n" + rest), delim) == Document(Wrap(e), rest)
  {
    var t := delim + "\n" + rest;
    WrapParts(e, t);
    if |e| <= WIDTH {
      EncodedLine(e, delim);
      ReadEnd(delim, rest);
      ReadLine(e, t, delim, Document("", rest));
    } else {
      var line, tail := e[..WIDTH], e[WIDTH..];
      EncodedLine(line, delim);
      ReadWrapped(tail, delim, rest);
      ReadLine(line, Wrap(tail) + t, delim, Document(Wrap(tail), rest));
    }
  }

  // Filters.

  lemma {:induction false} WrapIsAscii(e: string)
    requires Encoded(e)
    ensures forall i :: 0 <= i < |Wrap(e)| ==> Wrap(e)[i] < 128 as char
  {
    if |e| > WIDTH {
      WrapIsAscii(e[WIDTH..]);
    }
  }

  lemma {:induction false} TextOfBytes(s: string)
    requires forall i :: 0 <= i < |s| ==> s[i] < 128 as char
    ensures ToText(ToBytes(s)) == s
  {
  }

  lemma {:induction false} FilterDecodes<S>(w: World<S>, content: seq<byte>)
    ensures Filter(w, ["base64", "-d"], ToBytes(Wrap(Encode(content)))) == Filtered(content, true)
  {
    EncodeIs(content);
    WrapIsAscii(Encode(content));
    TextOfBytes(Wrap(Encode(content)));
    DecodeWrapEncode(content);
  }

  // Lines.

  lemma {:induction false} WordTokens(items: seq<Item>)
    requires forall i :: 0 <= i < |items| ==> WordItem(items[i])
    ensures |Tokens(items)| == |items|
    ensures forall i :: 0 <= i < |items| ==> Tokens(items)[i] == Word(WordText(items[i]), items[i].Quoted?)
  {
    if items != [] {
      WordTokens(items[1..]);
    }
  }

  lemma {:induction false} ParseWords(toks: seq<Token>, st: Stage)
    requires forall i :: 0 <= i < |toks| ==> toks[i].Word?
    requires st.words == [] && toks != [] ==> toks[0].quoted || toks[0].text !in KEYWORDS
    ensures Parse(toks, st, []) ==
            Some([st.(words := st.words + seq(|toks|, i requires 0 <= i < |toks| => toks[i].text))])
  {
    var ws := seq(|toks|, i requires 0 <= i < |toks| => toks[i].text);
    if toks == [] {
      assert st.words + ws == st.words && [] + [st] == [st];
    } else {
      var tail := toks[1..];
      var st' := st.(words := st.words + [toks[0].text]);
      ParseWords(tail, st');
      assert ws == [toks[0].text] + seq(|tail|, i requires 0 <= i < |tail| => tail[i].text);
      assert st'.words + seq(|tail|, i requires 0 <= i < |tail| => tail[i].text) == st.words + ws;
    }
  }

  lemma {:induction false} ParseItems(items: seq<Item>)
    requires items == [] || IsCommand(items)
    ensures Parse(Tokens(items), NO_STAGE, []) == Some([Stage(WordsOf(items), None, None)])
  {
    WordTokens(items);
    var toks := Tokens(items);
    ParseWords(toks, NO_STAGE);
    assert [] + seq(|toks|, i requires 0 <= i < |toks| => toks[i].text) == WordsOf(items);
  }

  lemma {:induction false} ReadNone(st: Stage, rest: string)
    requires st.here.None?
    ensures ReadAll([st], rest) == Command([st], rest)
  {
    assert [st][1..] == [] && [st] + [] == [st];
  }

  lemma {:induction false} ParsedEnds(toks: seq<Token>, st: Stage, done: seq<Stage>)
    requires Parse(toks, st, done).Some?
    ensures !Dangling(toks)
  {
    if toks != [] {
      match toks[0]
      case Word(x, _) => ParsedEnds(toks[1..], st.(words := st.words + [x]), done);
      case Pipe => ParsedEnds(toks[1..], NO_STAGE, done + [st]);
      case To(app) => ParsedEnds(toks[2..], st.(to := Some(Redirect(toks[1].text, app))), done);
      case Here => ParsedEnds(toks[2..], st.(here := Some(toks[1].text)), done);
    }
  }

  /** Reading back a line and the document after it. */
  lemma {:induction false} NextWithBody(items: seq<Item>, stages: seq<Stage>, rest: string, c: Shell.Command)
    requires forall i :: 0 <= i < |items| ==> Writable(items[i])
    requires Parse(Tokens(items), NO_STAGE, []) == Some(stages) && ReadAll(stages, rest) == c
    ensures Next(FullLine(items, rest)) == Some(c)
  {
    LexLine(items, rest, []);
    ParsedEnds(Tokens(items), NO_STAGE, []);
    assert [] + Tokens(items) == Tokens(items);
  }

  lemma {:induction false} NextWords(items: seq<Item>, rest: string)
    requires items == [] || IsCommand(items)
    ensures Next(FullLine(items, rest)) == Some(Command([Stage(WordsOf(items), None, None)], rest))
  {
    var st := Stage(WordsOf(items), None, None);
    ParseItems(items);
    ReadNone(st, rest);
    NextWithBody(items, [st], rest, Command([st], rest));
  }

  lemma {:induction false} ReadOne(st: Stage, rest: string, d: Document)
    requires st.here.Some? && ReadHere(rest, st.here.value) == d
    ensures ReadAll([st], rest) == Command([st.(here := Some(d.body))], d.rest)
  {
    var full := st.(here := Some(d.body));
    assert [st][1..] == [] && [full] + [] == [full];
  }

  lemma {:induction false} ReadFirst(st: Stage, next: Stage, rest: string, d: Document)
    requires st.here.Some? && ReadHere(rest, st.here.value) == d && next.here.None?
    ensures ReadAll([st, next], rest) == Command([st.(here := Some(d.body)), next], d.rest)
  {
    var full := st.(here := Some(d.body));
    assert [st, next][1..] == [next] && [next][1..] == [] && [next] + [] == [next];
    assert ReadAll([next], d.rest) == Command([next], d.rest);
    assert [full] + [next] == [full, next];
  }

  lemma {:induction false} ReadSecond(first: Stage, st: Stage, rest: string, d: Document)
    requires first.here.None? && st.here.Some? && ReadHere(rest, st.here.value) == d
    ensures ReadAll([first, st], rest) == Command([first, st.(here := Some(d.body))], d.rest)
  {
    assert [first, st][1..] == [st];
    ReadOne(st, rest, d);
    var full := st.(here := Some(d.body));
    assert [first] + [full] == [first, full];
  }

  // The three kinds of lines with a here-document.

  function DestToken(dest: Item): Token
    requires WordItem(dest)
  {
    Word(dest.text, dest.Quoted?)
  }

  lemma {:induction false} TokensCons(x: Item, xs: seq<Item>)
    ensures Tokens([x] + xs) == ItemTokens(x) + Tokens(xs)
  {
    assert ([x] + xs)[1..] == xs;
  }

  const BASE64: Token := Word("base64", false)
  const DECODE: Token := Word("-d", false)
  const GUNZIP: Token := Word("gunzip", false)

  lemma {:induction false} DecodingTokens(dest: Item, append: bool, delim: string)
    requires WordItem(dest)
    ensures Tokens(DecodingLine(dest, append, delim)) ==
            [BASE64, DECODE, To(append), DestToken(dest), Here, Word(delim, true)]
  {
    var tail := [Into(append), dest, From(delim)];
    TailTokens(dest, append, delim);
    HeadTokens(tail);
    assert DecodingLine(dest, append, delim) == [Bare("base64"), Bare("-d")] + tail;
  }

  lemma {:induction false} HeadTokens(tail: seq<Item>)
    ensures Tokens([Bare("base64"), Bare("-d")] + tail) == [BASE64, DECODE] + Tokens(tail)
  {
    TokensCons(Bare("-d"), tail);
    TokensCons(Bare("base64"), [Bare("-d")] + tail);
    assert [Bare("base64"), Bare("-d")] + tail == [Bare("base64")] + ([Bare("-d")] + tail);
  }

  lemma {:induction false} GunzipTokens(tail: seq<Item>)
    ensures Tokens([PipeTo, Bare("gunzip")] + tail) == [Pipe, GUNZIP] + Tokens(tail)
  {
    TokensCons(Bare("gunzip"), tail);
    TokensCons(PipeTo, [Bare("gunzip")] + tail);
    assert [PipeTo, Bare("gunzip")] + tail == [PipeTo] + ([Bare("gunzip")] + tail);
  }

  lemma {:induction false} FromTokens(delim: string, tail: seq<Item>)
    ensures Tokens([From(delim)] + tail) == [Here, Word(delim, true)] + Tokens(tail)
  {
    TokensCons(From(delim), tail);
  }

  lemma {:induction false} TailTokens(dest: Item, append: bool, delim: string)
    requires WordItem(dest)
    ensures Tokens([Into(append), dest, From(delim)]) == [To(append), DestToken(dest), Here, Word(delim, true)]
  {
    FromTokens(delim, []);
    assert [From(delim)] + [] == [From(delim)];
    TokensCons(dest, [From(delim)]);
    TokensCons(Into(append), [dest] + [From(delim)]);
    assert [Into(append), dest, From(delim)] == [Into(append)] + ([dest] + [From(delim)]);
  }

  lemma IntoTokens(dest: Item)
    requires WordItem(dest)
    ensures Tokens([Into(false), dest]) == [To(false), DestToken(dest)]
  {
    TokensCons(dest, []);
    assert [dest] + [] == [dest];
    TokensCons(Into(false), [dest]);
    assert [Into(false), dest] == [Into(false)] + [dest];
  }

  lemma {:induction false} DecodingParse(dest: Token, append: bool, delim: string)
    requires dest.Word?
    ensures Parse([BASE64, DECODE, To(append), dest, Here, Word(delim, true)], NO_STAGE, []) ==
            Some([Stage(["base64", "-d"], Some(Redirect(dest.text, append)), Some(delim))])
  {
    var t0 := [BASE64, DECODE, To(append), dest, Here, Word(delim, true)];
    var t1, t2, t4 := t0[1..], t0[2..], t0[4..];
    var st := NO_STAGE.(words := ["base64", "-d"]);
    assert [] + ["base64"] == ["base64"] && ["base64"] + ["-d"] == ["base64", "-d"];
    assert t0[1..] == t1 && t1[1..] == t2 && t2[2..] == t4 && t4[2..] == [];
    assert Parse(t0, NO_STAGE, []) == Parse(t1, NO_STAGE.(words := ["base64"]), []);
    assert Parse(t1, NO_STAGE.(words := ["base64"]), []) == Parse(t2, st, []);
    var st' := st.(to := Some(Redirect(dest.text, append)));
    assert Parse(t2, st, []) == Parse(t4, st', []);
    assert Parse(t4, st', []) == Parse([], st'.(here := Some(delim)), []);
    assert [] + [st'.(here := Some(delim))] == [st'.(here := Some(delim))];
  }

  lemma {:induction false} UnpackingTokens(dest: Item, delim: string)
    requires WordItem(dest)
    ensures Tokens(UnpackingLine(dest, delim)) ==
            [BASE64, DECODE] + ([Here, Word(delim, true)] + ([Pipe, GUNZIP] + [To(false), DestToken(dest)]))
  {
    var last := [Into(false), dest];
    var pipe := [PipeTo, Bare("gunzip")] + last;
    IntoTokens(dest);
    GunzipTokens(last);
    FromTokens(delim, pipe);
    HeadTokens([From(delim)] + pipe);
    assert UnpackingLine(dest, delim) == [Bare("base64"), Bare("-d")] + ([From(delim)] + pipe);
  }

  lemma {:induction false} MisdirectedTokens(dest: Item, append: bool, delim: string)
    requires WordItem(dest)
    ensures Tokens(MisdirectedLine(dest, append, delim)) ==
            [BASE64, DECODE] + ([Pipe, GUNZIP] + [To(append), DestToken(dest), Here, Word(delim, true)])
  {
    var last := [Into(append), dest, From(delim)];
    TailTokens(dest, append, delim);
    GunzipTokens(last);
    HeadTokens([PipeTo, Bare("gunzip")] + last);
    assert MisdirectedLine(dest, append, delim) == [Bare("base64"), Bare("-d")] + ([PipeTo, Bare("gunzip")] + last);
  }

  lemma {:induction false} ParseBase64(t: seq<Token>)
    ensures Parse([BASE64, DECODE] + t, NO_STAGE, []) == Parse(t, NO_STAGE.(words := ["base64", "-d"]), [])
  {
    var t0 := [BASE64, DECODE] + t;
    CommandNames();
    assert [] + ["base64"] == ["base64"] && ["base64"] + ["-d"] == ["base64", "-d"];
    assert t0[1..] == [DECODE] + t && t0[1..][1..] == t;
  }

  lemma {:induction false} ParsePipe(toks: seq<Token>, first: Stage)
    requires toks != [] && toks[0] == Pipe && first.words != []
    ensures Parse(toks, first, []) == Parse(toks[1..], NO_STAGE, [first])
  {
    assert [] + [first] == [first];
  }

  lemma {:induction false} ParseWord(toks: seq<Token>, st: Stage, done: seq<Stage>)
    requires toks != [] && toks[0].Word? && (st.words == [] ==> toks[0].quoted || toks[0].text !in KEYWORDS)
    ensures Parse(toks, st, done) == Parse(toks[1..], st.(words := st.words + [toks[0].text]), done)
  {
  }

  lemma {:induction false} ParseGunzip(toks: seq<Token>, first: Stage)
    requires |toks| >= 2 && toks[0] == Pipe && toks[1] == GUNZIP && first.words != []
    ensures Parse(toks, first, []) == Parse(toks[2..], Stage(["gunzip"], None, None), [first])
  {
    CommandNames();
    ParsePipe(toks, first);
    ParseWord(toks[1..], NO_STAGE, [first]);
    assert toks[1..][1..] == toks[2..];
    assert NO_STAGE.words + ["gunzip"] == ["gunzip"];
  }

  lemma {:induction false} UnpackingParse(dest: Token, delim: string)
    requires dest.Word?
    ensures Parse([BASE64, DECODE] + ([Here, Word(delim, true)] + ([Pipe, GUNZIP] + [To(false), dest])),
                  NO_STAGE, []) ==
            Some([Stage(["base64", "-d"], None, Some(delim)),
                  Stage(["gunzip"], Some(Redirect(dest.text, false)), None)])
  {
    var t3 := [To(false), dest];
    var t2 := [Pipe, GUNZIP] + t3;
    var t1 := [Here, Word(delim, true)] + t2;
    ParseBase64(t1);
    var first := Stage(["base64", "-d"], None, Some(delim));
    assert t1[2..] == t2;
    ParseGunzip(t2, first);
    assert t2[2..] == t3 && t3[2..] == [];
    var last := Stage(["gunzip"], Some(Redirect(dest.text, false)), None);
    assert [first] + [last] == [first, last];
  }

  lemma {:induction false} MisdirectedParse(dest: Token, append: bool, delim: string)
    requires dest.Word?
    ensures Parse([BASE64, DECODE] + ([Pipe, GUNZIP] + [To(append), dest, Here, Word(delim, true)]), NO_STAGE, []) ==
            Some([Stage(["base64", "-d"], None, None),
                  Stage(["gunzip"], Some(Redirect(dest.text, append)), Some(delim))])
  {
    var t2 := [To(append), dest, Here, Word(delim, true)];
    var t1 := [Pipe, GUNZIP] + t2;
    ParseBase64(t1);
    var first := Stage(["base64", "-d"], None, None);
    ParseGunzip(t1, first);
    assert t1[2..] == t2;
    var mid := Stage(["gunzip"], Some(Redirect(dest.text, append)), None);
    var t3 := [Here, Word(delim, true)];
    assert t2[2..] == t3 && t3[2..] == [];
    assert Parse(t2, Stage(["gunzip"], None, None), [first]) == Parse(t3, mid, [first]);
    var last := mid.(here := Some(delim));
    assert Parse(t3, mid, [first]) == Parse([], last, [first]);
    assert [first] + [last] == [first, last];
  }

  lemma {:induction false} Regroup(a: string, b: string, c: string, d: string)
    ensures a + b + c + d == a + (b + c + d)
  {
  }

  lemma {:induction false} ReadBody(delim: string, content: seq<byte>, rest: string)
    requires Delimiter(delim)
    ensures ReadHere(Body(delim, content) + rest, delim) == Document(Wrap(Encode(content)), rest)
  {
    EncodeIs(content);
    ReadWrapped(Encode(content), delim, rest);
    Regroup(Wrap(Encode(content)), delim, "\n", rest);
  }

  lemma PlainWords()
    ensures Plain("base64") && Plain("-d") && Plain("gunzip")
  {
  }

  lemma CommandNames()
    ensures "base64" !in KEYWORDS && "gunzip" !in KEYWORDS && "set" !in KEYWORDS && "mv" !in KEYWORDS
    ensures "mkdir" !in KEYWORDS && "chmod" !in KEYWORDS && "chown" !in KEYWORDS && "exec" !in KEYWORDS
  {
  }

  lemma {:induction false} NextDecoding(dest: Item, append: bool, delim: string, content: seq<byte>, rest: string)
    requires WordItem(dest) && Delimiter(delim)
    ensures Next(FullLine(DecodingLine(dest, append, delim), Body(delim, content) + rest)) ==
            Some(Command([Stage(["base64", "-d"], Some(Redirect(WordText(dest), append)),
                                Some(Wrap(Encode(content))))], rest))
  {
    PlainWords();
    DecodingTokens(dest, append, delim);
    DecodingParse(DestToken(dest), append, delim);
    ReadBody(delim, content, rest);
    var st := Stage(["base64", "-d"], Some(Redirect(WordText(dest), append)), Some(delim));
    ReadOne(st, Body(delim, content) + rest, Document(Wrap(Encode(content)), rest));
    NextWithBody(DecodingLine(dest, append, delim), [st], Body(delim, content) + rest,
                 Command([st.(here := Some(Wrap(Encode(content))))], rest));
  }

  lemma {:induction false} UnpackingStages(dest: Item, delim: string)
    requires WordItem(dest) && Delimiter(delim)
    ensures forall i :: 0 <= i < |UnpackingLine(dest, delim)| ==> Writable(UnpackingLine(dest, delim)[i])
    ensures Parse(Tokens(UnpackingLine(dest, delim)), NO_STAGE, []) ==
            Some([Stage(["base64", "-d"], None, Some(delim)),
                  Stage(["gunzip"], Some(Redirect(WordText(dest), false)), None)])
  {
    PlainWords();
    UnpackingTokens(dest, delim);
    UnpackingParse(DestToken(dest), delim);
  }

  lemma {:induction false} NextUnpacking(dest: Item, delim: string, data: seq<byte>, rest: string)
    requires WordItem(dest) && Delimiter(delim)
    ensures Next(FullLine(UnpackingLine(dest, delim), Body(delim, data) + rest)) ==
            Some(Command([Stage(["base64", "-d"], None, Some(Wrap(Encode(data)))),
                          Stage(["gunzip"], Some(Redirect(WordText(dest), false)), None)], rest))
  {
    var first := Stage(["base64", "-d"], None, Some(delim));
    var last := Stage(["gunzip"], Some(Redirect(WordText(dest), false)), None);
    UnpackingStages(dest, delim);
    ReadBody(delim, data, rest);
    ReadFirst(first, last, Body(delim, data) + rest, Document(Wrap(Encode(data)), rest));
    NextWithBody(UnpackingLine(dest, delim), [first, last], Body(delim, data) + rest,
                 Command([first.(here := Some(Wrap(Encode(data)))), last], rest));
  }

  lemma {:induction false} NextMisdirected(dest: Item, append: bool, delim: string, content: seq<byte>, rest: string)
    requires WordItem(dest) && Delimiter(delim)
    ensures Next(FullLine(MisdirectedLine(dest, append, delim), Body(delim, content) + rest)) ==
            Some(Command([Stage(["base64", "-d"], None, None),
                          Stage(["gunzip"], Some(Redirect(WordText(dest), append)), Some(Wrap(Encode(content))))],
                         rest))
  {
    PlainWords();
    MisdirectedTokens(dest, append, delim);
    MisdirectedParse(DestToken(dest), append, delim);
    ReadBody(delim, content, rest);
    var first := Stage(["base64", "-d"], None, None);
    var last := Stage(["gunzip"], Some(Redirect(WordText(dest), append)), Some(delim));
    ReadSecond(first, last, Body(delim, content) + rest, Document(Wrap(Encode(content)), rest));
    NextWithBody(MisdirectedLine(dest, append, delim), [first, last], Body(delim, content) + rest,
                 Command([first, last.(here := Some(Wrap(Encode(content))))], rest));
  }

  // Running.

  function Then<S>(w: World<S>, o: Outcome<S>, rest: string): Outcome<S> {
    if o.Continue? then Run(w, o.state, rest) else o
  }

  /** Gzip data begins with two given bytes (section 2.3.1 of RFC 1952); anything else is refused. */
  ghost predicate IsGunzip<S(!new)>(w: World<S>) {
    forall x :: w.gunzip(x).Some? ==> |x| >= 2 && x[0] == 0x1f && x[1] == 0x8b
  }

  lemma {:induction false} RunNext<S>(w: World<S>, s: S, text: string, c: Shell.Command)
    requires text != "" && Next(text) == Some(c) && c.Command?
    ensures Run(w, s, text) == Then(w, Exec(w, s, c.stages), c.rest)
  {
  }

  lemma {:induction false} FlowLast<S>(w: World<S>, s: S, st: Stage, data: seq<byte>, f: Filtered, ok: bool)
    requires st.to.Some? && f.Filtered?
    requires Filter(w, st.words, if st.here.Some? then ToBytes(st.here.value) else data) == f
    ensures var o := Written(w, s, st.to.value.path, f.out, st.to.value.append);
            Flow(w, s, [st], data, ok) == if ok && f.ok then o else Failed(o)
  {
    assert [st][1..] == [];
  }

  lemma {:induction false} ExecDecoding<S>(w: World<S>, s: S, path: string, append: bool, content: seq<byte>)
    ensures Exec(w, s, [Stage(["base64", "-d"], Some(Redirect(path, append)), Some(Wrap(Encode(content))))]) ==
            Written(w, s, path, content, append)
  {
    var st := Stage(["base64", "-d"], Some(Redirect(path, append)), Some(Wrap(Encode(content))));
    FilterDecodes(w, content);
    FlowLast(w, s, st, w.input, Filtered(content, true), true);
  }

  lemma {:induction false} ExecUnpacking<S>(w: World<S>, s: S, path: string, data: seq<byte>)
    ensures Exec(w, s, [Stage(["base64", "-d"], None, Some(Wrap(Encode(data)))),
                        Stage(["gunzip"], Some(Redirect(path, false)), None)]) ==
            Act(w, s, Inflate(path, data))
  {
    var first := Stage(["base64", "-d"], None, Some(Wrap(Encode(data))));
    var last := Stage(["gunzip"], Some(Redirect(path, false)), None);
    FilterDecodes(w, data);
    assert [first, last][1..] == [last];
    FlowLast(w, s, last, data, Filter(w, ["gunzip"], data), true);
  }

  lemma {:induction false} WrapStart(content: seq<byte>)
    ensures ToBytes(Wrap(Encode(content))) != [] && ToBytes(Wrap(Encode(content)))[0] != 0x1f
  {
    var e := Encode(content);
    EncodeIs(content);
    WrapParts(e, "");
    assert Wrap(e)[0] == if e == "" then '\n' else e[0];
  }

  /** The document goes to gunzip, which finds no gzip data in base64 text. */
  lemma {:induction false} ExecMisdirected<S(!new)>(w: World<S>, s: S, path: string, append: bool, content: seq<byte>)
    requires IsGunzip(w)
    ensures Exec(w, s, [Stage(["base64", "-d"], None, None),
                        Stage(["gunzip"], Some(Redirect(path, append)), Some(Wrap(Encode(content))))]) ==
            Act(w, s, Spoil(path, append))
  {
    var first := Stage(["base64", "-d"], None, None);
    var last := Stage(["gunzip"], Some(Redirect(path, append)), Some(Wrap(Encode(content))));
    WrapStart(content);
    var f := Filter(w, first.words, w.input);
    assert Filter(w, last.words, ToBytes(last.here.value)) == Filtered([], false);
    assert [first, last][1..] == [last];
    FlowLast(w, s, last, f.out, Filtered([], false), f.ok);
  }

  lemma PerformOne<S>(w: World<S>, s: S, a: Action)
    ensures Perform(w, s, [a]) == Act(w, s, a)
  {
    assert [a][1..] == [];
  }

  lemma {:induction false} FullLineThen(items: seq<Item>, a: string, b: string)
    ensures FullLine(items, a) + b == FullLine(items, a + b) && FullLine(items, a) != ""
  {
  }

  lemma {:induction false} LexComment(text: string, rest: string)
    requires '\n' !in text
    ensures Lex(text + "\n" + rest, InComment, NoWord, []) == Some(Line([], rest))
  {
    var x := text + "\n" + rest;
    if text == "" {
      assert x[1..] == rest;
    } else {
      LexComment(text[1..], rest);
      assert x[0] == text[0] && x[1..] == text[1..] + "\n" + rest;
    }
  }

  lemma {:induction false} RunEmptyLine<S>(w: World<S>, s: S, text: string, rest: string)
    requires text != "" && Lex(text, Normal, NoWord, []) == Some(Line([], rest))
    ensures Run(w, s, text) == Run(w, s, rest)
  {
    assert [] + [NO_STAGE] == [NO_STAGE] && [NO_STAGE][1..] == [] && [NO_STAGE] + [] == [NO_STAGE];
    assert Parse([], NO_STAGE, []) == Some([NO_STAGE]);
    assert ReadAll([NO_STAGE], rest) == Command([NO_STAGE], rest);
    RunNext(w, s, text, Command([NO_STAGE], rest));
  }

  lemma {:induction false} RunSilent<S>(w: World<S>, s: S, c: Chunk, rest: string)
    requires Good(c) && (c.Blank? || c.Comment?)
    ensures Run(w, s, ChunkText(c) + rest) == Run(w, s, rest)
  {
    var x := ChunkText(c) + rest;
    if c.Blank? {
      LexEmpty(rest, []);
    } else {
      LexComment(c.text, rest);
      assert x[0] == '#' && x[1..] == c.text + "\n" + rest;
    }
    RunEmptyLine(w, s, x, rest);
  }

  lemma {:induction false} RunWords<S>(w: World<S>, s: S, c: Chunk, rest: string)
    requires c.CommandLine? && Good(c)
    ensures Run(w, s, ChunkText(c) + rest) == Then(w, w.exec(s, WordsOf(c.items)), rest)
  {
    FullLineThen(c.items, "", rest);
    assert "" + rest == rest;
    NextWords(c.items, rest);
    RunNext(w, s, FullLine(c.items, rest), Command([Stage(WordsOf(c.items), None, None)], rest));
  }

  lemma {:induction false} RunDecoding<S>(w: World<S>, s: S, c: Chunk, rest: string)
    requires c.Decoding? && Good(c)
    ensures Run(w, s, ChunkText(c) + rest) == Then(w, Written(w, s, WordText(c.dest), c.content, c.append), rest)
  {
    FullLineThen(DecodingLine(c.dest, c.append, c.delim), Body(c.delim, c.content), rest);
    NextDecoding(c.dest, c.append, c.delim, c.content, rest);
    var st := Stage(["base64", "-d"], Some(Redirect(WordText(c.dest), c.append)), Some(Wrap(Encode(c.content))));
    RunNext(w, s, ChunkText(c) + rest, Command([st], rest));
    ExecDecoding(w, s, WordText(c.dest), c.append, c.content);
  }

  lemma {:induction false} RunUnpacking<S>(w: World<S>, s: S, c: Chunk, rest: string)
    requires c.Unpacking? && Good(c)
    ensures Run(w, s, ChunkText(c) + rest) == Then(w, Act(w, s, Inflate(WordText(c.dest), c.data)), rest)
  {
    FullLineThen(UnpackingLine(c.dest, c.delim), Body(c.delim, c.data), rest);
    NextUnpacking(c.dest, c.delim, c.data, rest);
    var first := Stage(["base64", "-d"], None, Some(Wrap(Encode(c.data))));
    var last := Stage(["gunzip"], Some(Redirect(WordText(c.dest), false)), None);
    RunNext(w, s, ChunkText(c) + rest, Command([first, last], rest));
    ExecUnpacking(w, s, WordText(c.dest), c.data);
  }

  lemma {:induction false} RunMisdirected<S(!new)>(w: World<S>, s: S, c: Chunk, rest: string)
    requires c.Misdirected? && Good(c) && IsGunzip(w)
    ensures Run(w, s, ChunkText(c) + rest) == Then(w, Act(w, s, Spoil(WordText(c.dest), c.append)), rest)
  {
    FullLineThen(MisdirectedLine(c.dest, c.append, c.delim), Body(c.delim, c.content), rest);
    NextMisdirected(c.dest, c.append, c.delim, c.content, rest);
    var first := Stage(["base64", "-d"], None, None);
    var last := Stage(["gunzip"], Some(Redirect(WordText(c.dest), c.append)), Some(Wrap(Encode(c.content))));
    RunNext(w, s, ChunkText(c) + rest, Command([first, last], rest));
    ExecMisdirected(w, s, WordText(c.dest), c.append, c.content);
  }

  // Shell text.

  /** Whole commands run as if nothing followed, and then the rest runs. */
  lemma {:induction false} RunComplete<S>(w: World<S>, s: S, t: string, rest: string)
    requires Complete(t)
    ensures Run(w, s, t + rest) == Then(w, Run(w, s, t), rest)
    decreases |t|
  {
    if t == "" {
      assert t + rest == rest;
    } else {
      var c := Next(t).value;
      RunNext(w, s, t, c);
      assert Next(t + rest) == Some(Command(c.stages, c.rest + rest));
      RunNext(w, s, t + rest, Command(c.stages, c.rest + rest));
      var o := Exec(w, s, c.stages);
      if o.Continue? {
        RunComplete(w, o.state, c.rest, rest);
      }
    }
  }

  lemma {:induction false} LineEnd(line: string, u: string)
    ensures var a, b := line + "\n", line + "\n" + u;
            && a != "" && b != "" && a[0] == b[0]
            && (line == "" ==> a[0] == '\n' && a[1..] == "" && b[1..] == u)
            && (line != "" ==> a[0] == line[0] && a[1..] == line[1..] + "\n" && b[1..] == line[1..] + "\n" + u)
  {
  }

  /** Reading a line without a backslash stops at its end, whatever follows. */
  lemma {:induction false} LexStops(line: string, mode: Mode, p: Partial, toks: seq<Token>, u: string)
    requires '\n' !in line && '\\' !in line && Lex(line + "\n", mode, p, toks).Some?
    requires Lex(line + "\n", mode, p, toks).value.Line?
    ensures Lex(line + "\n" + u, mode, p, toks) == Some(Line(Lex(line + "\n", mode, p, toks).value.tokens, u))
    ensures Lex(line + "\n", mode, p, toks).value.rest == ""
    decreases |line|, 1
  {
    LineEnd(line, u);
    if line != "" {
      var c, t := line[0], line[1..];
      LineEnd(t, u);
      match mode
      case InComment => LexStops(t, InComment, NoWord, toks, u);
      case InQuotes =>
        if c == '\'' { LexStops(t, Normal, p, toks, u); } else { LexStops(t, InQuotes, Extend(p, c, true), toks, u); }
      case Normal => LexStopsNormal(line, p, toks, u);
    }
  }

  lemma {:induction false} LexStopsNormal(line: string, p: Partial, toks: seq<Token>, u: string)
    requires line != "" && '\n' !in line && '\\' !in line
    requires Lex(line + "\n", Normal, p, toks).Some? && Lex(line + "\n", Normal, p, toks).value.Line?
    ensures Lex(line + "\n" + u, Normal, p, toks) == Some(Line(Lex(line + "\n", Normal, p, toks).value.tokens, u))
    ensures Lex(line + "\n", Normal, p, toks).value.rest == ""
    decreases |line|, 0
  {
    var c, t := line[0], line[1..];
    LineEnd(line, u);
    LineEnd(t, u);
    if c == ' ' || c == '\t' {
      LexStops(t, Normal, NoWord, Flush(p, toks), u);
    } else if c == '\'' {
      LexStops(t, InQuotes, Open(p), toks, u);
    } else if c == '#' && p.NoWord? {
      LexStops(t, InComment, NoWord, toks, u);
    } else if Literal(c) {
      LexStops(t, Normal, Extend(p, c, false), toks, u);
    } else if c == '|' {
      LexStops(t, Normal, NoWord, toks + [Pipe], u);
    } else if c == '>' {
      if t != "" && t[0] == '>' {
        LexStops(t[1..], Normal, NoWord, toks + [To(true)], u);
      } else {
        LexStops(t, Normal, NoWord, toks + [To(false)], u);
      }
    } else {
      LineEnd(t[1..], u);
      LexStops(t[1..], Normal, NoWord, toks + [Here], u);
    }
  }

  /** No command of the line takes a document from the lines after it. */
  ghost predicate Undocumented(stages: seq<Stage>) {
    forall i :: 0 <= i < |stages| ==> stages[i].here.None?
  }

  /** Without documents to read, the commands of a line are the same whatever follows. */
  lemma {:induction false} ReadAllNone(stages: seq<Stage>, u: string)
    requires Undocumented(stages)
    ensures ReadAll(stages, u) == Command(stages, u)
  {
    if stages != [] {
      assert stages[0].here.None?;
      ReadAllNone(stages[1..], u);
      assert [stages[0]] + stages[1..] == stages;
    }
  }

  /** With one, a line that follows becomes part of it. */
  lemma {:induction false} ReadAllSome(stages: seq<Stage>, u: string)
    requires !Undocumented(stages) && '\n' !in u
    ensures ReadAll(stages, u).rest == "" && !Undocumented(ReadAll(stages, u).stages)
  {
    var tail := stages[1..];
    if stages[0].here.None? {
      var i :| 0 <= i < |stages| && stages[i].here.Some?;
      assert tail[i - 1].here.Some?;
      ReadAllSome(tail, u);
      var r := ReadAll(tail, u);
      var j :| 0 <= j < |r.stages| && r.stages[j].here.Some?;
      assert ([stages[0]] + r.stages)[j + 1].here.Some?;
    } else {
      assert LineLength(u) == |u|;
      var d := ReadHere(u, stages[0].here.value);
      assert d.rest == "";
      var r := ReadAll(tail, "");
      assert ([stages[0].(here := Some(d.body))] + r.stages)[0].here.Some?;
    }
  }

  /** A line of the subset, without a backslash, is complete if and only if it takes no document. */
  lemma {:induction false} OneLineComplete(line: string)
    requires '\n' !in line && '\\' !in line && Next(line + "\n").Some? && Next(line + "\n").value.Command?
    ensures Complete(line + "\n") <==> Undocumented(Next(line + "\n").value.stages)
  {
    var t := line + "\n";
    LexStops(line, Normal, NoWord, [], "");
    var toks := Lex(t, Normal, NoWord, []).value.tokens;
    var stages := Parse(toks, NO_STAGE, []).value;
    forall u ensures Next(t + u) == Some(ReadAll(stages, u)) {
      LexStops(line, Normal, NoWord, [], u);
    }
    assert Next(t) == Some(ReadAll(stages, ""));
    if Undocumented(stages) {
      ReadAllNone(stages, "");
      forall u ensures Next(t + u) == Some(Command(stages, "" + u)) {
        ReadAllNone(stages, u);
        assert "" + u == u;
      }
    } else {
      ReadAllSome(stages, "");
      ReadAllSome(stages, "x");
      assert Next(t + "x") == Some(ReadAll(stages, "x"));
    }
  }

  /** One chunk: running its text is performing its actions. */
  lemma {:induction false} RunChunk<S(!new)>(w: World<S>, s: S, c: Chunk, rest: string)
    requires Good(c) && IsGunzip(w)
    ensures Run(w, s, ChunkText(c) + rest) == Then(w, Perform(w, s, ChunkActions(c)), rest)
  {
    if c.Blank? || c.Comment? {
      RunSilent(w, s, c, rest);
    } else {
      PerformOne(w, s, ChunkActions(c)[0]);
      if c.CommandLine? {
        RunWords(w, s, c, rest);
      } else if c.Raw? {
        RunComplete(w, s, c.text, rest);
      } else if c.Decoding? {
        RunDecoding(w, s, c, rest);
      } else if c.Unpacking? {
        RunUnpacking(w, s, c, rest);
      } else {
        RunMisdirected(w, s, c, rest);
      }
    }
  }

  lemma {:induction false} PerformConcat<S>(w: World<S>, s: S, a: seq<Action>, b: seq<Action>)
    ensures var o := Perform(w, s, a); Perform(w, s, a + b) == if o.Continue? then Perform(w, o.state, b) else o
  {
    if a == [] {
      assert a + b == b;
    } else {
      assert (a + b)[0] == a[0] && (a + b)[1..] == a[1..] + b;
      var o := Act(w, s, a[0]);
      if o.Continue? {
        PerformConcat(w, o.state, a[1..], b);
      }
    }
  }

  /** Running the text of a script is performing its actions, one after the other up to the first that stops it. */
  lemma {:induction false} RunText<S(!new)>(w: World<S>, s: S, chunks: seq<Chunk>, rest: string)
    requires AllGood(chunks) && IsGunzip(w)
    ensures Run(w, s, Text(chunks) + rest) == Then(w, Perform(w, s, Actions(chunks)), rest)
  {
    if chunks == [] {
      assert "" + rest == rest;
    } else {
      var c, tail := chunks[0], chunks[1..];
      Associative(ChunkText(c), Text(tail), rest);
      RunChunk(w, s, c, Text(tail) + rest);
      PerformConcat(w, s, ChunkActions(c), Actions(tail));
      var o := Perform(w, s, ChunkActions(c));
      if o.Continue? {
        RunText(w, o.state, tail, rest);
      }
    }
  }

  lemma {:induction false} RunAll<S(!new)>(w: World<S>, s: S, chunks: seq<Chunk>, text: string)
    requires AllGood(chunks) && IsGunzip(w) && text == Text(chunks)
    ensures Run(w, s, text) == Perform(w, s, Actions(chunks))
  {
    RunText(w, s, chunks, "");
    assert text + "" == text;
  }
}
