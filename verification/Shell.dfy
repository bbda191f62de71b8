/**
 As much of the POSIX shell command language as generated scripts use: words with single quotes
 (section 2.2.2) and backslashes, comments, pipelines, output redirection, and here-documents with a
 quoted delimiter (section 2.7.4). Text outside this subset is `Unmodelled`, reserved words (section
 2.4) included. Text that ends too early is read as bash reads it: within quotes or after a redirection
 operator it is a syntax error, and a here-document ends with the text.

 Commands that are no filters are left open: a `World` says what each does to the machine. Every
 script considered here runs under `set -euo pipefail`, so the first failure stops it.
 */
module Shell {
  import opened Prelude
  import opened Base64

  // Words and operators.

  datatype Token = Word(text: string, quoted: bool) | Pipe | To(append: bool) | Here

  datatype Mode = Normal | InQuotes | InComment

  /** A word under construction. */
  datatype Partial = NoWord | Partial(text: string, quoted: bool)

  predicate Literal(c: char) {
    'A' <= c <= 'Z' || 'a' <= c <= 'z' || '0' <= c <= '9' || c in {'/', '-', '_', '.', ':', '+', ','}
  }

  function Flush(w: Partial, toks: seq<Token>): seq<Token> {
    if w.NoWord? then toks else toks + [Word(w.text, w.quoted)]
  }

  function Extend(w: Partial, c: char, quoted: bool): Partial {
    if w.NoWord? then Partial([c], quoted) else Partial(w.text + [c], w.quoted || quoted)
  }

  function Open(w: Partial): Partial {
    if w.NoWord? then Partial("", true) else w.(quoted := true)
  }

  /** `Unfinished` where the text ends within quotes or an operator. */
  datatype Line = Line(tokens: seq<Token>, rest: string) | Unfinished

  /** The tokens up to the first line end that is not quoted, and the text after it. */
  function Lex(s: string, mode: Mode, w: Partial, toks: seq<Token>): (r: Option<Line>)
    ensures r.Some? && r.value.Line? ==> |r.value.rest| <= |s| && (s != "" ==> |r.value.rest| < |s|)
    decreases |s|
  {
    if s == "" then
      Some(if mode.InQuotes? then Unfinished else Line(Flush(w, toks), ""))
    else
      var c, t := s[0], s[1..];
      match mode
      case InComment => if c == '\n' then Some(Line(toks, t)) else Lex(t, InComment, NoWord, toks)
      case InQuotes => if c == '\'' then Lex(t, Normal, w, toks) else Lex(t, InQuotes, Extend(w, c, true), toks)
      case Normal =>
        if c == '\n' then Some(Line(Flush(w, toks), t))
        else if c == ' ' || c == '\t' then Lex(t, Normal, NoWord, Flush(w, toks))
        else if c == '\'' then Lex(t, InQuotes, Open(w), toks)
        else if c == '\\' then
          if t == "" then None
          else if t[0] == '\n' then Lex(t[1..], Normal, w, toks)
          else Lex(t[1..], Normal, Extend(w, t[0], true), toks)
        else if c == '#' && w.NoWord? then Lex(t, InComment, NoWord, toks)
        else if Literal(c) then Lex(t, Normal, Extend(w, c, false), toks)
        else if w.Partial? then None
        else if c == '|' then if t != "" && t[0] == '|' then None else Lex(t, Normal, NoWord, toks + [Pipe])
        else if c == '>' then
          if t != "" && t[0] == '>' then Lex(t[1..], Normal, NoWord, toks + [To(true)])
          else Lex(t, Normal, NoWord, toks + [To(false)])
        else if c == '<' && t != "" && t[0] == '<' && !(|t| > 1 && t[1] in {'<', '-'}) then
          Lex(t[1..], Normal, NoWord, toks + [Here])
        else if c == '<' && t == "" then Some(Unfinished)
        else None
  }

  // Pipelines.

  datatype Redirect = Redirect(path: string, append: bool)

  /** One command of a pipeline; `here` is a delimiter, and later the document itself. */
  datatype Stage = Stage(words: seq<string>, to: Option<Redirect>, here: Option<string>)

  const NO_STAGE := Stage([], None, None)

  /** Words that are the shell's own where a command begins, unless they are quoted. */
  const KEYWORDS := {
    "if", "then", "else", "elif", "fi", "do", "done", "case", "esac", "while", "until", "for", "in",
    "select", "function", "time", "coproc"}

  function Parse(toks: seq<Token>, st: Stage, done: seq<Stage>): Option<seq<Stage>> {
    if toks == [] then Some(done + [st])
    else
      match toks[0]
      case Word(x, quoted) =>
        if st.words == [] && !quoted && x in KEYWORDS then None
        else Parse(toks[1..], st.(words := st.words + [x]), done)
      case Pipe => if st.words == [] then None else Parse(toks[1..], NO_STAGE, done + [st])
      case To(app) =>
        if |toks| > 1 && toks[1].Word? && st.to.None? then
          Parse(toks[2..], st.(to := Some(Redirect(toks[1].text, app))), done)
        else None
      case Here =>
        if |toks| > 1 && toks[1].Word? && toks[1].quoted && st.here.None? then
          Parse(toks[2..], st.(here := Some(toks[1].text)), done)
        else None
  }

  /** A redirection without its word. */
  predicate Dangling(toks: seq<Token>) {
    toks != [] && (toks[|toks| - 1].To? || toks[|toks| - 1].Here?)
  }

  // Here-documents.

  function LineLength(s: string): (n: nat)
    ensures n <= |s| && (n < |s| ==> s[n] == '\n')
    ensures forall i :: 0 <= i < n ==> s[i] != '\n'
  {
    if s == "" || s[0] == '\n' then 0 else 1 + LineLength(s[1..])
  }

  datatype Document = Document(body: string, rest: string)

  /**
   The lines before the one that is the delimiter, and the text after it. The last line of the text may
   lack its end; without a delimiter the document is all of the text.
   */
  function ReadHere(s: string, delim: string): (r: Document)
    ensures |r.rest| <= |s|
  {
    var n := LineLength(s);
    if s[..n] == delim then Document("", if n < |s| then s[n + 1..] else "")
    else if n == |s| then Document(if s == "" then "" else s + "\n", "")
    else
      var r := ReadHere(s[n + 1..], delim);
      Document(s[..n + 1] + r.body, r.rest)
  }

  /** What is read of a script: a pipeline and the text after it, or a syntax error. */
  datatype Command = Command(stages: seq<Stage>, rest: string) | Broken

  /** Replaces delimiters by the documents that follow the line. */
  function ReadAll(stages: seq<Stage>, rest: string): (r: Command)
    ensures r.Command? && |r.rest| <= |rest|
  {
    if stages == [] then Command([], rest)
    else if stages[0].here.None? then
      var r := ReadAll(stages[1..], rest);
      Command([stages[0]] + r.stages, r.rest)
    else
      var d := ReadHere(rest, stages[0].here.value);
      var r := ReadAll(stages[1..], d.rest);
      Command([stages[0].(here := Some(d.body))] + r.stages, r.rest)
  }

  function Next(s: string): (r: Option<Command>)
    ensures r.Some? && r.value.Command? ==> |r.value.rest| <= |s| && (s != "" ==> |r.value.rest| < |s|)
  {
    var line := Lex(s, Normal, NoWord, []);
    if line.None? then None
    else if line.value.Unfinished? || Dangling(line.value.tokens) then Some(Broken)
    else
      var stages := Parse(line.value.tokens, NO_STAGE, []);
      if stages.None? then None else Some(ReadAll(stages.value, line.value.rest))
  }

  // Running.

  /**
   What commands do. `exec` may stop the script, by failing or otherwise; `write` is None where the
   file cannot be opened; `gunzip` is None for input that is not gzip; `spill` is what `base64 -d` puts
   out before it fails; `input` is what the script itself is given to read.
   */
  datatype World<!S> = World(
    exec: (S, seq<string>) -> Outcome<S>,
    write: (S, string, seq<byte>, bool) -> Option<S>,
    gunzip: seq<byte> -> Option<seq<byte>>,
    spill: seq<byte> -> seq<byte>,
    input: seq<byte>)

  datatype Outcome<+S> = Continue(state: S) | Stop(state: S) | Unmodelled

  /** Script text is bytes; a character stands for one of them. */
  function ToBytes(s: string): (b: seq<byte>)
    ensures |b| == |s|
  {
    seq(|s|, i requires 0 <= i < |s| => s[i] as int % 256)
  }

  function ToText(b: seq<byte>): (s: string)
    ensures |s| == |b|
  {
    seq(|b|, i requires 0 <= i < |b| => b[i] as char)
  }

  datatype Filtered = Filtered(out: seq<byte>, ok: bool) | NoFilter

  /** Gunzip refuses what is not gzip before it puts anything out. */
  function Filter<S>(w: World<S>, words: seq<string>, input: seq<byte>): Filtered {
    if words == ["base64", "-d"] then
      var d := Decode(ToText(input));
      if d.Some? then Filtered(d.value, true) else Filtered(w.spill(input), false)
    else if words == ["gunzip"] then
      var d := w.gunzip(input);
      if d.Some? then Filtered(d.value, true) else Filtered([], false)
    else NoFilter
  }

  /** A pipeline of filters, under pipefail: it fails if any of them does. */
  function Flow<S>(w: World<S>, s: S, stages: seq<Stage>, data: seq<byte>, ok: bool): Outcome<S> {
    if stages == [] then if ok then Continue(s) else Stop(s)
    else
      var st := stages[0];
      var f := Filter(w, st.words, if st.here.Some? then ToBytes(st.here.value) else data);
      if f.NoFilter? then Unmodelled
      else if st.to.None? then Flow(w, s, stages[1..], f.out, ok && f.ok)
      else
        var s' := w.write(s, st.to.value.path, f.out, st.to.value.append);
        if s'.None? then Stop(s) else Flow(w, s'.value, stages[1..], [], ok && f.ok)
  }

  function Exec<S>(w: World<S>, s: S, stages: seq<Stage>): Outcome<S> {
    if |stages| == 1 && stages[0].to.None? && stages[0].here.None? then
      if stages[0].words == [] then Continue(s) else w.exec(s, stages[0].words)
    else Flow(w, s, stages, w.input, true)
  }

  function Run<S>(w: World<S>, s: S, script: string): Outcome<S>
    decreases |script|
  {
    if script == "" then Continue(s)
    else
      var c := Next(script);
      if c.None? then Unmodelled
      else if c.value.Broken? then Stop(s)
      else
        var o := Exec(w, s, c.value.stages);
        if o.Continue? then Run(w, o.state, c.value.rest) else o
  }
}
