/**
 From cloud-config to a bash script: commands, and files carried as base64 in here-documents. Two
 things are taken as given: the configuration is already parsed, and `dir` is Go's path.Dir.
 */
module CloudConfig {
  import opened Prelude
  import opened Owners
  import opened Text
  import opened Base64
  import opened Shell
  import opened Quoting
  import opened Chunks

  // Commands.

  function QuotedItems(c: seq<string>): seq<Item> {
    seq(|c|, i requires 0 <= i < |c| => Quoted(c[i]))
  }

  /** A command of one element is shell text already. */
  function CommandText(c: seq<string>): string {
    if |c| == 1 then c[0] else LineText(QuotedItems(c))
  }

  function Join(parts: seq<string>): string {
    if parts == [] then ""
    else if |parts| == 1 then parts[0]
    else parts[0] + " " + Join(parts[1..])
  }

  lemma {:induction false} JoinIsLine(c: seq<string>, parts: seq<string>)
    requires |parts| == |c| && forall i :: 0 <= i < |c| ==> parts[i] == ShellQuote(c[i])
    ensures Join(parts) == LineText(QuotedItems(c))
  {
    if |c| > 1 {
      JoinIsLine(c[1..], parts[1..]);
      assert QuotedItems(c)[1..] == QuotedItems(c[1..]);
    }
  }

  method CommandShell(c: seq<string>) returns (r: string)
    ensures r == CommandText(c)
  {
    if |c| == 1 {
      return c[0];
    }
    var quoted := [];
    for i := 0 to |c|
      invariant |quoted| == i && forall k :: 0 <= k < i ==> quoted[k] == ShellQuote(c[k])
    {
      quoted := quoted + [ShellQuote(c[i])];
    }
    JoinIsLine(c, quoted);
    return Join(quoted);
  }

  /** The shell takes a written command apart into exactly its arguments, whatever they contain. */
  lemma {:induction false} ArgumentsSurvive(c: seq<string>, rest: string)
    requires |c| != 1
    ensures Next(CommandText(c) + "\n" + rest) == Some(Shell.Command([Stage(c, None, None)], rest))
  {
    NextWords(QuotedItems(c), rest);
    assert WordsOf(QuotedItems(c)) == c;
  }

  // Contents.

  predicate Space(c: char) {
    c == ' ' || '\t' <= c <= '\r'
  }

  function TrimLeft(s: string): string {
    if s != "" && Space(s[0]) then TrimLeft(s[1..]) else s
  }

  function TrimRight(s: string): string {
    if s != "" && Space(s[|s| - 1]) then TrimRight(s[..|s| - 1]) else s
  }

  function TrimSpace(s: string): string {
    TrimRight(TrimLeft(s))
  }

  function DecodeContent(content: seq<byte>, encoding: string): Option<seq<byte>> {
    var e := Lower(TrimSpace(encoding));
    if e in {"", "text/plain"} then Some(content)
    else if e in {"b64", "base64", "gz+b64", "gzip+base64", "gz+base64", "gzip+b64"} then
      DecodeGroups(Without(TrimSpace(ToText(content)), {'\r', '\n'}))
    else if e in {"gz", "gzip"} then Some(content)
    else None
  }

  predicate IsGzip(encoding: string) {
    "gz" <= Lower(TrimSpace(encoding))
  }

  // Files.

  datatype WriteFile = WriteFile(
    path: string, content: seq<byte>, encoding: string, owner: string, permissions: string, append: bool)

  function Delim(idx: nat): string {
    "__CAPI_FILE_" + Digits(idx) + "__"
  }

  /** Meant for a gzip file: the document goes to `gunzip` where it should go to `base64`. */
  function FileChunk(f: WriteFile, idx: nat, content: seq<byte>): Chunk {
    if IsGzip(f.encoding) then Misdirected(Quoted(f.path), f.append, Delim(idx), content)
    else Decoding(Quoted(f.path), f.append, Delim(idx), content)
  }

  function FileChunks(f: WriteFile, idx: nat, content: seq<byte>, dir: string -> string): seq<Chunk> {
    [CommandLine([Bare("mkdir"), Bare("-p"), Quoted(dir(f.path))]),
     FileChunk(f, idx, content)]
    + (if f.permissions == "" then [] else [CommandLine([Bare("chmod"), Quoted(f.permissions), Quoted(f.path)])])
    + (if f.owner == "" then [] else [CommandLine([Bare("chown"), Quoted(f.owner), Quoted(f.path)])])
  }

  predicate Compiles(f: WriteFile) {
    f.path != "" && DecodeContent(f.content, f.encoding).Some?
  }

  lemma {:induction false} LineTexts(a: string, b: string, c: string)
    ensures ChunkText(CommandLine([Bare("mkdir"), Bare("-p"), Quoted(a)])) == "mkdir -p " + ShellQuote(a) + "\n"
    ensures ChunkText(CommandLine([Bare(c), Quoted(a), Quoted(b)])) ==
              c + " " + ShellQuote(a) + " " + ShellQuote(b) + "\n"
  {
    LineText3(Bare("mkdir"), Bare("-p"), Quoted(a));
    LineText3(Bare(c), Quoted(a), Quoted(b));
    assert "mkdir" + " " + "-p" + " " == "mkdir -p ";
  }

  lemma {:induction false} LineCons(x: Item, xs: seq<Item>)
    requires xs != []
    ensures LineText([x] + xs) == ItemText(x) + " " + LineText(xs)
  {
    assert ([x] + xs)[1..] == xs;
  }

  lemma {:induction false} Join3(a: string, b: string, c: string)
    ensures a + " " + (b + " " + c) == a + " " + b + " " + c
  {
  }

  lemma LineText2(x: Item, y: Item)
    ensures LineText([x, y]) == ItemText(x) + " " + ItemText(y)
  {
    LineCons(x, [y]);
    assert [x] + [y] == [x, y];
  }

  lemma LineText3(x: Item, y: Item, z: Item)
    ensures LineText([x, y, z]) == ItemText(x) + " " + ItemText(y) + " " + ItemText(z)
  {
    LineText2(y, z);
    LineCons(x, [y, z]);
    assert [x] + [y, z] == [x, y, z];
    Join3(ItemText(x), ItemText(y), ItemText(z));
  }

  function Redirection(append: bool): string {
    if append then ">>" else ">"
  }

  lemma {:induction false} FilterTexts(t: string)
    ensures "base64" + " " + ("-d" + " " + t) == "base64 -d" + " " + t
    ensures "base64" + " " + ("-d" + " " + ("|" + " " + ("gunzip" + " " + t))) == "base64 -d | gunzip" + " " + t
  {
  }

  lemma {:induction false} Spread(f: string, a: string, b: string, c: string)
    ensures f + " " + (a + " " + b + " " + ("<<'" + c + "'")) == f + " " + a + " " + b + " <<'" + c + "'"
  {
  }

  lemma {:induction false} DecodingText(dest: Item, append: bool, delim: string)
    ensures LineText(DecodingLine(dest, append, delim)) ==
            "base64 -d" + " " + Redirection(append) + " " + ItemText(dest) + " <<'" + delim + "'"
  {
    var last := [Into(append), dest, From(delim)];
    LineText3(Into(append), dest, From(delim));
    LineCons(Bare("-d"), last);
    LineCons(Bare("base64"), [Bare("-d")] + last);
    assert DecodingLine(dest, append, delim) == [Bare("base64")] + ([Bare("-d")] + last);
    FilterTexts(LineText(last));
    Spread("base64 -d", Redirection(append), ItemText(dest), delim);
  }

  lemma {:induction false} MisdirectedText(path: string, append: bool, delim: string)
    ensures LineText(MisdirectedLine(Quoted(path), append, delim)) ==
            "base64 -d | gunzip" + " " + Redirection(append) + " " + ShellQuote(path) + " <<'" + delim + "'"
  {
    var last := [Into(append), Quoted(path), From(delim)];
    var gunzip := [Bare("gunzip")] + last;
    LineText3(Into(append), Quoted(path), From(delim));
    LineCons(Bare("gunzip"), last);
    LineCons(PipeTo, gunzip);
    LineCons(Bare("-d"), [PipeTo] + gunzip);
    LineCons(Bare("base64"), [Bare("-d")] + ([PipeTo] + gunzip));
    assert MisdirectedLine(Quoted(path), append, delim) == [Bare("base64")] + ([Bare("-d")] + ([PipeTo] + gunzip));
    FilterTexts(LineText(last));
    Spread("base64 -d | gunzip", Redirection(append), ShellQuote(path), delim);
  }

  lemma {:induction false} TextConcat(a: seq<Chunk>, b: seq<Chunk>)
    ensures Chunks.Text(a + b) == Chunks.Text(a) + Chunks.Text(b)
  {
    if a == [] {
      assert a + b == b && "" + Chunks.Text(b) == Chunks.Text(b);
    } else {
      assert (a + b)[0] == a[0] && (a + b)[1..] == a[1..] + b;
      TextConcat(a[1..], b);
      Associative(ChunkText(a[0]), Chunks.Text(a[1..]), Chunks.Text(b));
    }
  }

  lemma TextOne(c: Chunk)
    ensures Chunks.Text([c]) == ChunkText(c)
  {
    assert [c][1..] == [] && ChunkText(c) + "" == ChunkText(c);
  }

  // The pieces of one entry, as they are written.

  function MkdirText(f: WriteFile, dir: string -> string): string {
    "mkdir -p " + ShellQuote(dir(f.path)) + "\n"
  }

  function DecoderText(f: WriteFile, idx: nat): string {
    (if IsGzip(f.encoding) then "base64 -d | gunzip" else "base64 -d")
    + " " + Redirection(f.append) + " " + ShellQuote(f.path) + " <<'" + Delim(idx) + "'\n"
  }

  function ModeText(f: WriteFile): string {
    if f.permissions == "" then "" else "chmod " + ShellQuote(f.permissions) + " " + ShellQuote(f.path) + "\n"
  }

  function OwnerText(f: WriteFile): string {
    if f.owner == "" then "" else "chown " + ShellQuote(f.owner) + " " + ShellQuote(f.path) + "\n"
  }

  function FileText(f: WriteFile, idx: nat, content: seq<byte>, dir: string -> string): string {
    MkdirText(f, dir) + DecoderText(f, idx) + Body(Delim(idx), content) + ModeText(f) + OwnerText(f)
  }

  lemma {:induction false} CommandTexts(f: WriteFile, dir: string -> string)
    ensures ChunkText(CommandLine([Bare("mkdir"), Bare("-p"), Quoted(dir(f.path))])) == MkdirText(f, dir)
    ensures f.permissions != "" ==>
              ChunkText(CommandLine([Bare("chmod"), Quoted(f.permissions), Quoted(f.path)])) == ModeText(f)
    ensures f.owner != "" ==> ChunkText(CommandLine([Bare("chown"), Quoted(f.owner), Quoted(f.path)])) == OwnerText(f)
  {
    LineTexts(dir(f.path), "", "");
    LineTexts(f.permissions, f.path, "chmod");
    LineTexts(f.owner, f.path, "chown");
    assert "chmod" + " " == "chmod " && "chown" + " " == "chown ";
  }

  lemma {:induction false} NewlineLast(a: string, b: string)
    ensures a + "'\n" + b == a + "'" + "\n" + b
  {
  }

  lemma {:induction false} FileChunkText(f: WriteFile, idx: nat, content: seq<byte>)
    ensures ChunkText(FileChunk(f, idx, content)) == DecoderText(f, idx) + Body(Delim(idx), content)
  {
    var head := (if IsGzip(f.encoding) then "base64 -d | gunzip" else "base64 -d")
                + " " + Redirection(f.append) + " " + ShellQuote(f.path) + " <<'" + Delim(idx);
    MisdirectedText(f.path, f.append, Delim(idx));
    DecodingText(Quoted(f.path), f.append, Delim(idx));
    NewlineLast(head, Body(Delim(idx), content));
  }

  lemma {:induction false} FileTextIs(f: WriteFile, idx: nat, content: seq<byte>, dir: string -> string)
    ensures Chunks.Text(FileChunks(f, idx, content, dir)) == FileText(f, idx, content, dir)
  {
    var a := CommandLine([Bare("mkdir"), Bare("-p"), Quoted(dir(f.path))]);
    var b := FileChunk(f, idx, content);
    var c := if f.permissions == "" then [] else [CommandLine([Bare("chmod"), Quoted(f.permissions), Quoted(f.path)])];
    var d := if f.owner == "" then [] else [CommandLine([Bare("chown"), Quoted(f.owner), Quoted(f.path)])];
    CommandTexts(f, dir);
    FileChunkText(f, idx, content);
    assert FileChunks(f, idx, content, dir) == [a] + [b] + c + d;
    TextConcat([a] + [b] + c, d);
    TextConcat([a] + [b], c);
    TextConcat([a], [b]);
    TextOne(a);
    TextOne(b);
    if c != [] {
      TextOne(c[0]);
    }
    if d != [] {
      TextOne(d[0]);
    }
    Associative(MkdirText(f, dir), DecoderText(f, idx), Body(Delim(idx), content));
  }

  method WriteFileScript(b: string, idx: nat, f: WriteFile, dir: string -> string) returns (r: Result<string>)
    ensures r.Ok? <==> Compiles(f)
    ensures r.Ok? ==> r.value == b + FileText(f, idx, DecodeContent(f.content, f.encoding).value, dir)
  {
    if f.path == "" {
      return Err;
    }
    var content := DecodeContent(f.content, f.encoding);
    if content.None? {
      return Err;
    }
    var decoder := "base64 -d";
    if IsGzip(f.encoding) {
      decoder := "base64 -d | gunzip";
    }
    var redirect := ">";
    if f.append {
      redirect := ">>";
    }
    var delim := "__CAPI_FILE_" + Digits(idx) + "__";

    var out := b + ("mkdir -p " + ShellQuote(dir(f.path)) + "\n");
    out := out + (decoder + " " + redirect + " " + ShellQuote(f.path) + " <<'" + delim + "'\n");
    var wrapped := WrapBase64(Encode(content.value));
    out := out + wrapped;
    out := out + (delim + "\n");
    ghost var x, y, z := MkdirText(f, dir), DecoderText(f, idx), Body(delim, content.value);
    assert out == b + (x + y + z) by {
      assert out == b + x + y + wrapped + (delim + "\n");
      Five(b, x, y, wrapped, delim);
    }
    if f.permissions != "" {
      out := out + ("chmod " + ShellQuote(f.permissions) + " " + ShellQuote(f.path) + "\n");
    }
    assert out == b + (x + y + z) + ModeText(f);
    if f.owner != "" {
      out := out + ("chown " + ShellQuote(f.owner) + " " + ShellQuote(f.path) + "\n");
    }
    assert out == b + (x + y + z) + ModeText(f) + OwnerText(f);
    Regroup(b, x + y + z, ModeText(f), OwnerText(f));
    return Ok(out);
  }

  lemma {:induction false} Five(b: string, x: string, y: string, wrapped: string, delim: string)
    ensures b + x + y + wrapped + (delim + "\n") == b + (x + y + (wrapped + delim + "\n"))
  {
  }
}
