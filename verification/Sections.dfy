/** The sections of a startup script and their order. */
module Sections {
  import opened Prelude
  import opened Shell
  import opened Quoting
  import opened Chunks
  import opened CloudConfig
  import opened Bootstrap

  datatype Config = Config(bootcmd: seq<seq<string>>, files: seq<WriteFile>, runcmd: seq<seq<string>>)

  // Lists of commands.

  function CommandsText(cs: seq<seq<string>>): string {
    if cs == [] then "" else CommandsText(cs[..|cs| - 1]) + (CommandText(cs[|cs| - 1]) + "\n")
  }

  /** A command is called with its arguments; a single element is shell text, and none does nothing. */
  function CommandActions(c: seq<string>): seq<Action> {
    if c == [] then [] else if |c| == 1 then [Script(c[0] + "\n")] else [Do(c)]
  }

  function CommandsActions(cs: seq<seq<string>>): seq<Action> {
    if cs == [] then [] else CommandsActions(cs[..|cs| - 1]) + CommandActions(cs[|cs| - 1])
  }

  /** Shell text among the commands is made of whole commands of the subset. */
  ghost predicate AllComplete(cs: seq<seq<string>>) {
    forall c :: c in cs && |c| == 1 ==> Complete(c[0] + "\n")
  }

  function CommandChunk(c: seq<string>): Chunk {
    if c == [] then Blank else if |c| == 1 then Raw(c[0] + "\n") else CommandLine(QuotedItems(c))
  }

  function CommandsChunks(cs: seq<seq<string>>): (r: seq<Chunk>)
    ensures |r| == |cs|
  {
    if cs == [] then [] else CommandsChunks(cs[..|cs| - 1]) + [CommandChunk(cs[|cs| - 1])]
  }

  lemma {:induction false} CommandChunkIs(c: seq<string>)
    requires |c| == 1 ==> Complete(c[0] + "\n")
    ensures Good(CommandChunk(c)) && ChunkText(CommandChunk(c)) == CommandText(c) + "\n"
    ensures ChunkActions(CommandChunk(c)) == CommandActions(c)
  {
    if c == [] {
      assert "" + "\n" == "\n";
    } else if |c| > 1 {
      assert WordsOf(QuotedItems(c)) == c;
      assert FullLine(QuotedItems(c), "") == CommandText(c) + "\n";
    }
  }

  lemma {:induction false} CommandsChunksAre(cs: seq<seq<string>>)
    requires AllComplete(cs)
    ensures AllGood(CommandsChunks(cs)) && Chunks.Text(CommandsChunks(cs)) == CommandsText(cs)
    ensures Actions(CommandsChunks(cs)) == CommandsActions(cs)
  {
    if cs != [] {
      var init, last := cs[..|cs| - 1], cs[|cs| - 1];
      CommandsChunksAre(init);
      CommandChunkIs(last);
      TextConcat(CommandsChunks(init), [CommandChunk(last)]);
      TextOne(CommandChunk(last));
      ActionsOne(CommandChunk(last));
      ActionsConcat(CommandsChunks(init), [CommandChunk(last)]);
    }
  }

  lemma {:induction false} LineAppended(b: string, text: string, line: string)
    ensures b + text + line + "\n" == b + (text + (line + "\n"))
  {
  }

  method WriteCommands(b: string, cs: seq<seq<string>>) returns (r: string)
    ensures r == b + CommandsText(cs)
  {
    r := b;
    for i := 0 to |cs|
      invariant r == b + CommandsText(cs[..i])
    {
      assert cs[..i + 1][..i] == cs[..i];
      var c := CommandShell(cs[i]);
      LineAppended(b, CommandsText(cs[..i]), c);
      r := r + c;
      r := r + "\n";
    }
    assert cs[..|cs|] == cs;
  }

  lemma {:induction false} FilesTextNext(files: seq<WriteFile>, i: nat, dir: string -> string)
    requires i < |files| && AllCompile(files[..i]) && Compiles(files[i])
    ensures AllCompile(files[..i + 1])
    ensures FilesText(files[..i + 1], dir) == FilesText(files[..i], dir) + FileText(files[i], i, Content(files[i]), dir)
  {
    var next := files[..i + 1];
    assert next[..i] == files[..i] && next == files[..i] + [files[i]];
  }

  method WriteFiles(b: string, files: seq<WriteFile>, dir: string -> string) returns (r: Result<string>)
    ensures r.Ok? <==> AllCompile(files)
    ensures r.Ok? ==> r.value == b + FilesText(files, dir)
  {
    var out := b;
    for i := 0 to |files|
      invariant AllCompile(files[..i]) && out == b + FilesText(files[..i], dir)
    {
      var w := WriteFileScript(out, i, files[i], dir);
      if w.Err? {
        assert files[i] in files;
        return Err;
      }
      FilesTextNext(files, i, dir);
      Associative(b, FilesText(files[..i], dir), FileText(files[i], i, Content(files[i]), dir));
      out := w.value;
    }
    assert files[..|files|] == files;
    return Ok(out);
  }

  // The sections.

  function SectionText(name: string, present: bool, text: string): string {
    if present then "\n# " + name + "\n" + text else ""
  }

  function ConfigText(cfg: Config, dir: string -> string): string
    requires AllCompile(cfg.files)
  {
    SectionText("bootcmd", cfg.bootcmd != [], CommandsText(cfg.bootcmd))
    + SectionText("write_files", cfg.files != [], FilesText(cfg.files, dir))
    + SectionText("runcmd", cfg.runcmd != [], CommandsText(cfg.runcmd))
  }

  lemma {:induction false} SectionHead(b: string, name: string, text: string)
    ensures b + ("\n# " + name + "\n") + text == b + SectionText(name, true, text)
    ensures b + SectionText(name, false, text) == b
  {
  }

  method WriteCommandSection(b: string, name: string, cs: seq<seq<string>>) returns (r: string)
    ensures r == b + SectionText(name, cs != [], CommandsText(cs))
  {
    SectionHead(b, name, CommandsText(cs));
    if |cs| > 0 {
      r := WriteCommands(b + ("\n# " + name + "\n"), cs);
    } else {
      r := b;
    }
  }

  method WriteFileSection(b: string, files: seq<WriteFile>, dir: string -> string) returns (r: Result<string>)
    ensures r.Ok? <==> AllCompile(files)
    ensures r.Ok? ==> r.value == b + SectionText("write_files", files != [], FilesText(files, dir))
  {
    if |files| > 0 {
      r := WriteFiles(b + ("\n# " + "write_files" + "\n"), files, dir);
    } else {
      r := Ok(b);
    }
    if r.Ok? {
      SectionHead(b, "write_files", FilesText(files, dir));
    }
  }

  method WriteSections(cfg: Config, dir: string -> string) returns (r: Result<string>)
    ensures r.Ok? <==> AllCompile(cfg.files)
    ensures r.Ok? ==> r.value == ConfigText(cfg, dir)
  {
    var b := WriteCommandSection("", "bootcmd", cfg.bootcmd);
    assert b == SectionText("bootcmd", cfg.bootcmd != [], CommandsText(cfg.bootcmd));
    r := WriteFileSection(b, cfg.files, dir);
    if r.Err? {
      return;
    }
    b := WriteCommandSection(r.value, "runcmd", cfg.runcmd);
    r := Ok(b);
  }

  function SectionChunks(name: string, chunks: seq<Chunk>): seq<Chunk> {
    if chunks == [] then [] else [Blank, Comment(" " + name)] + chunks
  }

  lemma {:induction false} SectionChunksAre(name: string, chunks: seq<Chunk>)
    requires AllGood(chunks) && '\n' !in name
    ensures AllGood(SectionChunks(name, chunks)) && Actions(SectionChunks(name, chunks)) == Actions(chunks)
    ensures Chunks.Text(SectionChunks(name, chunks)) == SectionText(name, chunks != [], Chunks.Text(chunks))
  {
    var head := [Blank, Comment(" " + name)];
    var c := Comment(" " + name);
    ActionsOne(Blank);
    ActionsOne(c);
    TextOne(Blank);
    TextOne(c);
    assert head == [Blank] + [c];
    ActionsConcat([Blank], [c]);
    TextConcat([Blank], [c]);
    assert "\n" + ("#" + (" " + name) + "\n") == "\n# " + name + "\n";
    ActionsConcat(head, chunks);
    TextConcat(head, chunks);
  }

  function ConfigActions(cfg: Config, dir: string -> string): seq<Action>
    requires AllCompile(cfg.files)
  {
    CommandsActions(cfg.bootcmd) + FilesActions(cfg.files, dir) + CommandsActions(cfg.runcmd)
  }

  lemma {:induction false} CommandSectionIs(name: string, cs: seq<seq<string>>)
    requires AllComplete(cs) && '\n' !in name
    ensures var x := SectionChunks(name, CommandsChunks(cs));
            && AllGood(x) && Actions(x) == CommandsActions(cs)
            && Chunks.Text(x) == SectionText(name, cs != [], CommandsText(cs))
  {
    CommandsChunksAre(cs);
    SectionChunksAre(name, CommandsChunks(cs));
  }

  lemma {:induction false} FilesChunksEmpty(files: seq<WriteFile>, dir: string -> string)
    requires AllCompile(files)
    ensures FilesChunks(files, dir) == [] <==> files == []
  {
    if files != [] {
      var n := |files| - 1;
      assert |FileChunks(files[n], n, Content(files[n]), dir)| >= 2;
    }
  }

  lemma {:induction false} FileSectionIs(name: string, files: seq<WriteFile>, dir: string -> string)
    requires AllCompile(files) && NoGzip(files) && '\n' !in name
    ensures var x := SectionChunks(name, FilesChunks(files, dir));
            && AllGood(x) && Actions(x) == FilesActions(files, dir)
            && Chunks.Text(x) == SectionText(name, files != [], FilesText(files, dir))
  {
    FilesChunksActions(files, dir);
    FilesTextIs(files, dir);
    FilesChunksEmpty(files, dir);
    SectionChunksAre(name, FilesChunks(files, dir));
  }

  lemma {:induction false} Combine(a: seq<Chunk>, b: seq<Chunk>, c: seq<Chunk>)
    requires AllGood(a) && AllGood(b) && AllGood(c)
    ensures AllGood(a + b + c) && Actions(a + b + c) == Actions(a) + Actions(b) + Actions(c)
    ensures Chunks.Text(a + b + c) == Chunks.Text(a) + Chunks.Text(b) + Chunks.Text(c)
  {
    ActionsConcat(a, b);
    ActionsConcat(a + b, c);
    TextConcat(a, b);
    TextConcat(a + b, c);
  }

  function ConfigChunks(cfg: Config, dir: string -> string): seq<Chunk>
    requires AllCompile(cfg.files)
  {
    SectionChunks("bootcmd", CommandsChunks(cfg.bootcmd))
    + SectionChunks("write_files", FilesChunks(cfg.files, dir))
    + SectionChunks("runcmd", CommandsChunks(cfg.runcmd))
  }

  lemma {:induction false} ConfigChunksAre(cfg: Config, dir: string -> string)
    requires AllCompile(cfg.files) && NoGzip(cfg.files) && AllComplete(cfg.bootcmd) && AllComplete(cfg.runcmd)
    ensures AllGood(ConfigChunks(cfg, dir)) && Chunks.Text(ConfigChunks(cfg, dir)) == ConfigText(cfg, dir)
    ensures Actions(ConfigChunks(cfg, dir)) == ConfigActions(cfg, dir)
  {
    CommandSectionIs("bootcmd", cfg.bootcmd);
    FileSectionIs("write_files", cfg.files, dir);
    CommandSectionIs("runcmd", cfg.runcmd);
    Combine(SectionChunks("bootcmd", CommandsChunks(cfg.bootcmd)),
            SectionChunks("write_files", FilesChunks(cfg.files, dir)),
            SectionChunks("runcmd", CommandsChunks(cfg.runcmd)));
  }

  /** Boot commands, then files, then the other commands: the script does exactly that. */
  lemma {:induction false} SectionsMeaning<S(!new)>(w: World<S>, s: S, cfg: Config, dir: string -> string,
      rest: string)
    requires AllCompile(cfg.files) && NoGzip(cfg.files) && IsGunzip(w)
    requires AllComplete(cfg.bootcmd) && AllComplete(cfg.runcmd)
    ensures Run(w, s, ConfigText(cfg, dir) + rest) == Then(w, Perform(w, s, ConfigActions(cfg, dir)), rest)
  {
    ConfigChunksAre(cfg, dir);
    RunText(w, s, ConfigChunks(cfg, dir), rest);
  }
}
