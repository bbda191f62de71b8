/**
 What a generated startup script does. The boot commands run first, then the files are written, then
 the other commands run; each step is taken only if all before it succeeded.
 */
module Bootstrap {
  import opened Prelude
  import opened Text
  import opened Base64
  import opened Shell
  import opened Quoting
  import opened Chunks
  import opened CloudConfig

  // What is meant.

  function Content(f: WriteFile): seq<byte>
    requires Compiles(f)
  {
    DecodeContent(f.content, f.encoding).value
  }

  function ModeActions(f: WriteFile): seq<Action> {
    (if f.permissions == "" then [] else [Do(["chmod", f.permissions, f.path])])
    + (if f.owner == "" then [] else [Do(["chown", f.owner, f.path])])
  }

  function FirstAction(f: WriteFile, dir: string -> string): Action {
    Do(["mkdir", "-p", dir(f.path)])
  }

  /** Make the directory, write or append, then set mode and owner where given. */
  function FileActions(f: WriteFile, dir: string -> string): seq<Action>
    requires Compiles(f)
  {
    [FirstAction(f, dir), Put(f.path, Content(f), f.append)] + ModeActions(f)
  }

  predicate AllCompile(files: seq<WriteFile>) {
    forall f :: f in files ==> Compiles(f)
  }

  function FilesActions(files: seq<WriteFile>, dir: string -> string): seq<Action>
    requires AllCompile(files)
  {
    if files == [] then []
    else FilesActions(files[..|files| - 1], dir) + FileActions(files[|files| - 1], dir)
  }

  // What is written.

  function FilesText(files: seq<WriteFile>, dir: string -> string): string
    requires AllCompile(files)
  {
    if files == [] then ""
    else
      var n := |files| - 1;
      FilesText(files[..n], dir) + FileText(files[n], n, Content(files[n]), dir)
  }

  function FilesChunks(files: seq<WriteFile>, dir: string -> string): seq<Chunk>
    requires AllCompile(files)
  {
    if files == [] then []
    else
      var n := |files| - 1;
      FilesChunks(files[..n], dir) + FileChunks(files[n], n, Content(files[n]), dir)
  }

  lemma {:induction false} FilesTextIs(files: seq<WriteFile>, dir: string -> string)
    requires AllCompile(files)
    ensures Chunks.Text(FilesChunks(files, dir)) == FilesText(files, dir)
  {
    if files != [] {
      var n := |files| - 1;
      FilesTextIs(files[..n], dir);
      FileTextIs(files[n], n, Content(files[n]), dir);
      TextConcat(FilesChunks(files[..n], dir), FileChunks(files[n], n, Content(files[n]), dir));
    }
  }

  lemma DelimGood(idx: nat)
    ensures Delimiter(Delim(idx))
  {
    var d := Delim(idx);
    assert d[0] == '_';
    forall i | 0 <= i < |d| ensures Literal(d[i]) {
      if 12 <= i < 12 + |Digits(idx)| {
        assert d[i] == Digits(idx)[i - 12];
      } else if i < 12 {
        assert d[i] == "__CAPI_FILE_"[i];
      } else {
        assert d[i] == "__"[i - 12 - |Digits(idx)|];
      }
    }
  }

  lemma {:induction false} FileChunksGood(f: WriteFile, idx: nat, content: seq<byte>, dir: string -> string)
    ensures AllGood(FileChunks(f, idx, content, dir))
  {
    DelimGood(idx);
    assert Good(FileChunk(f, idx, content));
    FileCommandsGood(f, dir(f.path));
  }

  lemma {:induction false} FileCommandsGood(f: WriteFile, parent: string)
    ensures Good(CommandLine([Bare("mkdir"), Bare("-p"), Quoted(parent)]))
    ensures Good(CommandLine([Bare("chmod"), Quoted(f.permissions), Quoted(f.path)]))
    ensures Good(CommandLine([Bare("chown"), Quoted(f.owner), Quoted(f.path)]))
  {
    CommandNames();
    assert Plain("mkdir") && Plain("-p") && Plain("chmod") && Plain("chown");
  }

  lemma {:induction false} FilesChunksGood(files: seq<WriteFile>, dir: string -> string)
    requires AllCompile(files)
    ensures AllGood(FilesChunks(files, dir))
  {
    if files != [] {
      var n := |files| - 1;
      FilesChunksGood(files[..n], dir);
      FileChunksGood(files[n], n, Content(files[n]), dir);
    }
  }

  lemma {:induction false} ActionsConcat(a: seq<Chunk>, b: seq<Chunk>)
    requires AllGood(a) && AllGood(b)
    ensures AllGood(a + b) && Actions(a + b) == Actions(a) + Actions(b)
  {
    if a == [] {
      assert a + b == b && [] + Actions(b) == Actions(b);
    } else {
      assert (a + b)[0] == a[0] && (a + b)[1..] == a[1..] + b;
      ActionsConcat(a[1..], b);
      Associative(ChunkActions(a[0]), Actions(a[1..]), Actions(b));
    }
  }

  lemma ActionsOne(c: Chunk)
    requires Good(c)
    ensures AllGood([c]) && Actions([c]) == ChunkActions(c)
  {
    assert [c][1..] == [] && ChunkActions(c) + [] == ChunkActions(c);
  }

  lemma WordsOf3(x: Item, y: Item, z: Item)
    requires WordItem(x) && WordItem(y) && WordItem(z)
    ensures WordsOf([x, y, z]) == [x.text, y.text, z.text]
  {
  }

  function WriteAction(f: WriteFile, content: seq<byte>): Action {
    if IsGzip(f.encoding) then Spoil(f.path, f.append) else Put(f.path, content, f.append)
  }

  lemma {:induction false} ModeActionsAre(f: WriteFile, c: seq<Chunk>, d: seq<Chunk>)
    requires c == if f.permissions == "" then []
                  else [CommandLine([Bare("chmod"), Quoted(f.permissions), Quoted(f.path)])]
    requires d == if f.owner == "" then [] else [CommandLine([Bare("chown"), Quoted(f.owner), Quoted(f.path)])]
    ensures AllGood(c + d) && Actions(c + d) == ModeActions(f)
  {
    assert Plain("chmod") && Plain("chown");
    if f.permissions != "" {
      WordsOf3(Bare("chmod"), Quoted(f.permissions), Quoted(f.path));
      ActionsOne(c[0]);
    }
    if f.owner != "" {
      WordsOf3(Bare("chown"), Quoted(f.owner), Quoted(f.path));
      ActionsOne(d[0]);
    }
    ActionsConcat(c, d);
  }

  lemma {:induction false} FileChunksActions(f: WriteFile, idx: nat, content: seq<byte>, dir: string -> string)
    ensures var chunks := FileChunks(f, idx, content, dir);
            AllGood(chunks) && Actions(chunks) == [FirstAction(f, dir), WriteAction(f, content)] + ModeActions(f)
  {
    var c := if f.permissions == "" then [] else [CommandLine([Bare("chmod"), Quoted(f.permissions), Quoted(f.path)])];
    var d := if f.owner == "" then [] else [CommandLine([Bare("chown"), Quoted(f.owner), Quoted(f.path)])];
    var head := [MkdirChunk(f, dir), FileChunk(f, idx, content)];
    HeadActions(f, idx, content, dir);
    ModeActionsAre(f, c, d);
    ActionsConcat(head, c + d);
    assert FileChunks(f, idx, content, dir) == head + (c + d);
  }

  function MkdirChunk(f: WriteFile, dir: string -> string): Chunk {
    CommandLine([Bare("mkdir"), Bare("-p"), Quoted(dir(f.path))])
  }

  lemma {:induction false} HeadActions(f: WriteFile, idx: nat, content: seq<byte>, dir: string -> string)
    ensures var head := [MkdirChunk(f, dir), FileChunk(f, idx, content)];
            AllGood(head) && Actions(head) == [FirstAction(f, dir), WriteAction(f, content)]
  {
    var a, b := MkdirChunk(f, dir), FileChunk(f, idx, content);
    assert Plain("mkdir") && Plain("-p");
    WordsOf3(Bare("mkdir"), Bare("-p"), Quoted(dir(f.path)));
    DelimGood(idx);
    ActionsOne(a);
    ActionsOne(b);
    ActionsConcat([a], [b]);
    assert [a] + [b] == [a, b];
    assert [FirstAction(f, dir)] + [WriteAction(f, content)] == [FirstAction(f, dir), WriteAction(f, content)];
  }

  predicate NoGzip(files: seq<WriteFile>) {
    forall f :: f in files ==> !IsGzip(f.encoding)
  }

  lemma {:induction false} FilesChunksActions(files: seq<WriteFile>, dir: string -> string)
    requires AllCompile(files) && NoGzip(files)
    ensures AllGood(FilesChunks(files, dir)) && Actions(FilesChunks(files, dir)) == FilesActions(files, dir)
  {
    if files != [] {
      var n := |files| - 1;
      FilesChunksActions(files[..n], dir);
      FileChunksActions(files[n], n, Content(files[n]), dir);
      ActionsConcat(FilesChunks(files[..n], dir), FileChunks(files[n], n, Content(files[n]), dir));
    }
  }

  /**
   Running the text written for plain and base64 files is writing the files, whatever their contents,
   paths, modes and owners, on any machine and whatever fails on it.
   */
  lemma {:induction false} FilesMeaning<S(!new)>(w: World<S>, s: S, files: seq<WriteFile>, dir: string -> string,
      rest: string)
    requires AllCompile(files) && NoGzip(files) && IsGunzip(w)
    ensures Run(w, s, FilesText(files, dir) + rest) == Then(w, Perform(w, s, FilesActions(files, dir)), rest)
  {
    FilesTextIs(files, dir);
    FilesChunksActions(files, dir);
    RunText(w, s, FilesChunks(files, dir), rest);
  }

  // Gzip files.

  lemma {:induction false} GzipFileStops<S>(w: World<S>, s: S, f: WriteFile, dir: string -> string,
      content: seq<byte>)
    requires IsGzip(f.encoding)
    ensures !Perform(w, s, [FirstAction(f, dir), WriteAction(f, content)] + ModeActions(f)).Continue?
  {
    var all := [FirstAction(f, dir), WriteAction(f, content)] + ModeActions(f);
    var o := Act(w, s, all[0]);
    if o.Continue? {
      assert all[1..][0] == Spoil(f.path, f.append);
      assert !Act(w, o.state, all[1..][0]).Continue?;
    }
  }

  lemma {:induction false} GzipStops<S>(w: World<S>, s: S, files: seq<WriteFile>, dir: string -> string)
    requires AllCompile(files) && !NoGzip(files)
    ensures AllGood(FilesChunks(files, dir)) && !Perform(w, s, Actions(FilesChunks(files, dir))).Continue?
  {
    var n := |files| - 1;
    var init, last := files[..n], files[n];
    FilesPerform(w, s, files, dir);
    if IsGzip(last.encoding) {
      var o := Perform(w, s, Actions(FilesChunks(init, dir)));
      if o.Continue? {
        FileChunksActions(last, n, Content(last), dir);
        GzipFileStops(w, o.state, last, dir, Content(last));
      }
    } else {
      assert files == init + [last];
      GzipStops(w, s, init, dir);
    }
  }

  /** All files but the last, then the last. */
  lemma {:induction false} FilesPerform<S>(w: World<S>, s: S, files: seq<WriteFile>, dir: string -> string)
    requires files != [] && AllCompile(files)
    ensures var n := |files| - 1;
            var init, last := FilesChunks(files[..n], dir), FileChunks(files[n], n, Content(files[n]), dir);
            && AllGood(FilesChunks(files, dir)) && AllGood(init) && AllGood(last)
            && var o := Perform(w, s, Actions(init));
               Perform(w, s, Actions(FilesChunks(files, dir))) ==
               if o.Continue? then Perform(w, o.state, Actions(last)) else o
  {
    var n := |files| - 1;
    var init, last := files[..n], files[n];
    FilesChunksGood(files, dir);
    FilesChunksGood(init, dir);
    FileChunksActions(last, n, Content(last), dir);
    ActionsConcat(FilesChunks(init, dir), FileChunks(last, n, Content(last), dir));
    PerformConcat(w, s, Actions(FilesChunks(init, dir)), Actions(FileChunks(last, n, Content(last), dir)));
  }

  /** A machine on which no command and no write fails. */
  ghost predicate NothingFails<S(!new)>(w: World<S>) {
    (forall s, argv :: w.exec(s, argv).Continue?) && (forall s, path, b, append :: w.write(s, path, b, append).Some?)
  }

  lemma {:induction false} FilesActionsSucceed<S(!new)>(w: World<S>, s: S, actions: seq<Action>)
    requires NothingFails(w) && forall a :: a in actions ==> a.Do? || a.Put?
    ensures Perform(w, s, actions).Continue?
  {
    if actions != [] {
      var o := Act(w, s, actions[0]);
      FilesActionsSucceed(w, o.state, actions[1..]);
    }
  }

  lemma {:induction false} FilesActionsKinds(files: seq<WriteFile>, dir: string -> string)
    requires AllCompile(files)
    ensures forall a :: a in FilesActions(files, dir) ==> a.Do? || a.Put?
  {
    if files != [] {
      FilesActionsKinds(files[..|files| - 1], dir);
    }
  }

  /** Where nothing else fails, the script gets past its files if and only if none of them is gzip. */
  lemma {:induction false} CompletesIffNoGzip<S(!new)>(w: World<S>, s: S, files: seq<WriteFile>,
      dir: string -> string)
    requires AllCompile(files) && IsGunzip(w) && NothingFails(w)
    ensures Run(w, s, FilesText(files, dir)).Continue? <==> NoGzip(files)
  {
    var text := FilesText(files, dir);
    assert text + "" == text;
    if NoGzip(files) {
      FilesMeaning(w, s, files, dir, "");
      FilesActionsKinds(files, dir);
      FilesActionsSucceed(w, s, FilesActions(files, dir));
    } else {
      FilesTextIs(files, dir);
      FilesChunksGood(files, dir);
      RunText(w, s, FilesChunks(files, dir), "");
      GzipStops(w, s, files, dir);
    }
  }

  // On a disk.

  datatype File = File(content: seq<byte>, mode: string, owner: string)

  type Disk = map<string, File>

  const NEW_FILE := File([], "", "")

  function FileAt(d: Disk, path: string): File {
    if path in d then d[path] else NEW_FILE
  }

  function DiskExec(d: Disk, argv: seq<string>): Outcome<Disk> {
    if |argv| == 3 && argv[0] == "chmod" && argv[2] in d then Continue(d[argv[2] := d[argv[2]].(mode := argv[1])])
    else if |argv| == 3 && argv[0] == "chown" && argv[2] in d then Continue(d[argv[2] := d[argv[2]].(owner := argv[1])])
    else if |argv| == 3 && argv[..2] == ["mkdir", "-p"] then Continue(d)
    else Stop(d)
  }

  function DiskWrite(d: Disk, path: string, content: seq<byte>, append: bool): Option<Disk> {
    var f := FileAt(d, path);
    Some(d[path := f.(content := (if append then f.content else []) + content)])
  }

  function DiskWorld(gunzip: seq<byte> -> Option<seq<byte>>, spill: seq<byte> -> seq<byte>,
      input: seq<byte>): World<Disk> {
    World(DiskExec, DiskWrite, gunzip, spill, input)
  }

  function Store(d: Disk, f: WriteFile): Disk
    requires Compiles(f)
  {
    var was := FileAt(d, f.path);
    d[f.path := File((if f.append then was.content else []) + Content(f),
                     if f.permissions == "" then was.mode else f.permissions,
                     if f.owner == "" then was.owner else f.owner)]
  }

  function StoreAll(d: Disk, files: seq<WriteFile>): Disk
    requires AllCompile(files)
  {
    if files == [] then d else Store(StoreAll(d, files[..|files| - 1]), files[|files| - 1])
  }

  function WithModes(g: File, f: WriteFile): File {
    File(g.content, if f.permissions == "" then g.mode else f.permissions, if f.owner == "" then g.owner else f.owner)
  }

  lemma ModesStore(w: World<Disk>, d: Disk, f: WriteFile)
    requires w.exec == DiskExec && f.path in d
    ensures Perform(w, d, ModeActions(f)) == Continue(d[f.path := WithModes(d[f.path], f)])
  {
    var a := if f.permissions == "" then [] else [Do(["chmod", f.permissions, f.path])];
    var b := if f.owner == "" then [] else [Do(["chown", f.owner, f.path])];
    PerformConcat(w, d, a, b);
    var e := if f.permissions == "" then d else d[f.path := d[f.path].(mode := f.permissions)];
    if a != [] {
      PerformOne(w, d, a[0]);
    }
    assert Perform(w, d, a) == Continue(e);
    var g := if f.owner == "" then e else e[f.path := e[f.path].(owner := f.owner)];
    if b != [] {
      PerformOne(w, e, b[0]);
    }
    assert Perform(w, e, b) == Continue(g);
    assert g == d[f.path := WithModes(d[f.path], f)];
  }

  lemma {:induction false} FileStores(w: World<Disk>, d: Disk, f: WriteFile, dir: string -> string)
    requires w.exec == DiskExec && w.write == DiskWrite && Compiles(f)
    ensures Perform(w, d, FileActions(f, dir)) == Continue(Store(d, f))
  {
    var head := [FirstAction(f, dir), Put(f.path, Content(f), f.append)];
    var e := DiskWrite(d, f.path, Content(f), f.append).value;
    assert head[1..] == [Put(f.path, Content(f), f.append)];
    assert ["mkdir", "-p", dir(f.path)][..2] == ["mkdir", "-p"];
    assert "mkdir"[1] != "chmod"[1] && "mkdir"[0] != "chown"[0];
    assert Act(w, d, head[0]) == Continue(d);
    PerformOne(w, d, head[1]);
    assert Perform(w, d, head) == Continue(e);
    PerformConcat(w, d, head, ModeActions(f));
    ModesStore(w, e, f);
    assert e[f.path := WithModes(e[f.path], f)] == Store(d, f);
  }

  lemma {:induction false} FilesStore(w: World<Disk>, d: Disk, files: seq<WriteFile>, dir: string -> string)
    requires w.exec == DiskExec && w.write == DiskWrite && AllCompile(files)
    ensures Perform(w, d, FilesActions(files, dir)) == Continue(StoreAll(d, files))
  {
    if files != [] {
      var init, last := files[..|files| - 1], files[|files| - 1];
      FilesStore(w, d, init, dir);
      PerformConcat(w, d, FilesActions(init, dir), FileActions(last, dir));
      FileStores(w, StoreAll(d, init), last, dir);
    }
  }

  /** The script leaves the disk that storing the files one after the other leaves. */
  lemma {:induction false} FilesOnDisk(gunzip: seq<byte> -> Option<seq<byte>>, spill: seq<byte> -> seq<byte>,
      input: seq<byte>, d: Disk,
      files: seq<WriteFile>, dir: string -> string)
    requires AllCompile(files) && NoGzip(files) && IsGunzip(DiskWorld(gunzip, spill, input))
    ensures Run(DiskWorld(gunzip, spill, input), d, FilesText(files, dir)) == Continue(StoreAll(d, files))
  {
    var w := DiskWorld(gunzip, spill, input);
    FilesMeaning(w, d, files, dir, "");
    assert FilesText(files, dir) + "" == FilesText(files, dir);
    FilesStore(w, d, files, dir);
  }
}
