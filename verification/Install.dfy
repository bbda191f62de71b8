/**
 Installing files on a load balancer: each is written beside its target and then moved over it.
 Wherever the script is cut short between two commands, every target is wholly old or wholly new.
 */
module Install {
  import opened Prelude
  import opened Text
  import opened Base64
  import opened Shell
  import opened Quoting
  import opened Chunks
  import opened CloudConfig
  import opened Bootstrap
  import opened Packing

  datatype Target = Target(path: string, content: seq<byte>)

  function Temp(path: string, i: nat): string {
    path + ".new." + Digits(i)
  }

  // The script.

  const DELIM := "__CAPI_FILE__"

  function TargetText(f: Target, i: nat): string {
    ("base64 -d > " + Temp(f.path, i) + " <<'__CAPI_FILE__'\n" + Wrap(Encode(f.content)) + "__CAPI_FILE__\n")
    + ("mv -f " + Temp(f.path, i) + " " + f.path + "\n")
  }

  function TargetsText(files: seq<Target>): string {
    if files == [] then ""
    else
      var n := |files| - 1;
      TargetsText(files[..n]) + TargetText(files[n], n)
  }

  function InstallText(files: seq<Target>, reload: string): string {
    SET_TEXT + TargetsText(files) + (if reload == "" then "" else reload + "\n")
  }

  method InstallScript(files: seq<Target>, reload: string) returns (r: string)
    ensures r == InstallText(files, reload)
  {
    r := SET_TEXT;
    for i := 0 to |files|
      invariant r == SET_TEXT + TargetsText(files[..i])
    {
      var f := files[i];
      var wrapped := WrapBase64(Encode(f.content));
      var fetch := "base64 -d > " + Temp(f.path, i) + " <<'__CAPI_FILE__'\n" + wrapped + "__CAPI_FILE__\n";
      var move := "mv -f " + Temp(f.path, i) + " " + f.path + "\n";
      assert files[..i + 1][..i] == files[..i];
      Appended(SET_TEXT, TargetsText(files[..i]), fetch, move);
      r := r + fetch;
      r := r + move;
    }
    assert files[..|files|] == files;
    if reload != "" {
      r := r + (reload + "\n");
    }
  }

  lemma {:induction false} Appended(a: string, b: string, c: string, d: string)
    ensures a + b + c + d == a + (b + (c + d))
  {
  }

  function Fetch(f: Target, i: nat): Chunk {
    Decoding(Bare(Temp(f.path, i)), false, DELIM, f.content)
  }

  function Move(f: Target, i: nat): Chunk {
    CommandLine([Bare("mv"), Bare("-f"), Bare(Temp(f.path, i)), Bare(f.path)])
  }

  const SET := CommandLine([Bare("set"), Bare("-euo"), Bare("pipefail")])

  /** The first command sets the options; then every target takes two. */
  function ChunkAt(files: seq<Target>, n: nat): Chunk
    requires n < 1 + 2 * |files|
  {
    if n == 0 then SET
    else if n % 2 == 1 then Fetch(files[n / 2], n / 2)
    else Move(files[n / 2 - 1], n / 2 - 1)
  }

  function InstallChunks(files: seq<Target>): (r: seq<Chunk>)
    ensures |r| == 1 + 2 * |files|
  {
    if files == [] then [SET]
    else
      var n := |files| - 1;
      InstallChunks(files[..n]) + [Fetch(files[n], n), Move(files[n], n)]
  }

  lemma {:induction false} InstallChunkAt(files: seq<Target>, n: nat)
    requires n < 1 + 2 * |files|
    ensures InstallChunks(files)[n] == ChunkAt(files, n)
  {
    if files != [] && n < 1 + 2 * (|files| - 1) {
      InstallChunkAt(files[..|files| - 1], n);
    }
  }

  ghost predicate PlainPaths(files: seq<Target>) {
    forall i :: 0 <= i < |files| ==> Plain(files[i].path)
  }

  lemma {:induction false} TempPlain(path: string, i: nat)
    requires Plain(path)
    ensures Plain(Temp(path, i))
  {
    assert Plain(".new.");
    assert Plain(Digits(i));
  }

  lemma {:induction false} MoveText(temp: string, path: string)
    ensures "mv" + " " + ("-f" + " " + temp + " " + path) + "\n" + "" == "mv -f " + temp + " " + path + "\n"
  {
    assert "mv" + " " + "-f" + " " == "mv -f ";
  }

  lemma {:induction false} MoveItems(temp: string, path: string)
    ensures LineText([Bare("mv"), Bare("-f"), Bare(temp), Bare(path)]) == "mv" + " " + ("-f" + " " + temp + " " + path)
  {
    var tail := [Bare("-f"), Bare(temp), Bare(path)];
    LineText3(Bare("-f"), Bare(temp), Bare(path));
    LineCons(Bare("mv"), tail);
    assert [Bare("mv"), Bare("-f"), Bare(temp), Bare(path)] == [Bare("mv")] + tail;
  }

  lemma MoveLine(f: Target, i: nat)
    requires Plain(f.path)
    ensures Good(Move(f, i)) && ChunkText(Move(f, i)) == "mv -f " + Temp(f.path, i) + " " + f.path + "\n"
    ensures ChunkActions(Move(f, i)) == [Do(["mv", "-f", Temp(f.path, i), f.path])]
  {
    TempPlain(f.path, i);
    assert Plain("mv") && Plain("-f");
    MoveItems(Temp(f.path, i), f.path);
    MoveText(Temp(f.path, i), f.path);
    assert WordsOf([Bare("mv"), Bare("-f"), Bare(Temp(f.path, i)), Bare(f.path)]) ==
        ["mv", "-f", Temp(f.path, i), f.path];
  }

  lemma FetchLine(f: Target, i: nat)
    requires Plain(f.path)
    ensures Good(Fetch(f, i)) && ChunkActions(Fetch(f, i)) == [Put(Temp(f.path, i), f.content, false)]
    ensures ChunkText(Fetch(f, i)) ==
            "base64 -d > " + Temp(f.path, i) + " <<'__CAPI_FILE__'\n" + Wrap(Encode(f.content)) + "__CAPI_FILE__\n"
  {
    TempPlain(f.path, i);
    assert Plain(DELIM) && DELIM[0] == '_';
    DecodingText(Bare(Temp(f.path, i)), false, DELIM);
    FetchText(Temp(f.path, i), Wrap(Encode(f.content)));
  }

  lemma {:induction false} FetchText(temp: string, wrapped: string)
    ensures "base64 -d" + " " + ">" + " " + temp + " <<'" + DELIM + "'" + "\n" + (wrapped + DELIM + "\n") ==
            "base64 -d > " + temp + " <<'__CAPI_FILE__'\n" + wrapped + "__CAPI_FILE__\n"
  {
    assert "base64 -d" + " " + ">" + " " == "base64 -d > ";
    assert " <<'" + DELIM + "'" + "\n" == " <<'__CAPI_FILE__'\n";
    assert DELIM + "\n" == "__CAPI_FILE__\n";
  }

  lemma {:induction false} ChunkAtGood(files: seq<Target>, n: nat)
    requires PlainPaths(files) && n < 1 + 2 * |files|
    ensures Good(ChunkAt(files, n))
  {
    SetLine();
    if n > 0 && n % 2 == 1 {
      FetchLine(files[n / 2], n / 2);
    } else if n > 0 {
      MoveLine(files[n / 2 - 1], n / 2 - 1);
    }
  }

  lemma PairText(f: Target, i: nat)
    requires Plain(f.path)
    ensures Chunks.Text([Fetch(f, i), Move(f, i)]) == TargetText(f, i)
  {
    assert [Fetch(f, i)] + [Move(f, i)] == [Fetch(f, i), Move(f, i)];
    TextConcat([Fetch(f, i)], [Move(f, i)]);
    TextOne(Fetch(f, i));
    TextOne(Move(f, i));
    FetchLine(f, i);
    MoveLine(f, i);
  }

  lemma {:induction false} TargetsTextIs(files: seq<Target>)
    requires PlainPaths(files)
    ensures Chunks.Text(InstallChunks(files)) == ChunkText(SET) + TargetsText(files)
  {
    if files == [] {
      TextOne(SET);
      assert ChunkText(SET) + "" == ChunkText(SET);
    } else {
      var n := |files| - 1;
      TargetsTextIs(files[..n]);
      PairText(files[n], n);
      TextConcat(InstallChunks(files[..n]), [Fetch(files[n], n), Move(files[n], n)]);
      Associative(ChunkText(SET), TargetsText(files[..n]), TargetText(files[n], n));
    }
  }

  /** The script is the text of its commands. */
  lemma {:induction false} InstallTextIs(files: seq<Target>)
    requires PlainPaths(files)
    ensures InstallText(files, "") == Chunks.Text(InstallChunks(files))
  {
    SetLine();
    TargetsTextIs(files);
  }

  // The directory.

  type Directory = map<string, seq<byte>>

  function DirExec(d: Directory, argv: seq<string>): Outcome<Directory> {
    if |argv| == 4 && argv[0] == "mv" && argv[1] == "-f" then
      if argv[2] in d then Continue((d - {argv[2]})[argv[3] := d[argv[2]]]) else Stop(d)
    else Continue(d)
  }

  function DirWrite(d: Directory, path: string, content: seq<byte>, append: bool): Option<Directory> {
    Some(d[path := (if append && path in d then d[path] else []) + content])
  }

  /** The directory with the first m targets installed. */
  function Installed(d: Directory, files: seq<Target>, m: nat): Directory
    requires m <= |files|
    decreases m, 0
  {
    if m == 0 then d
    else
      var f := files[m - 1];
      (Fetched(d, files, m - 1) - {Temp(f.path, m - 1)})[f.path := f.content]
  }

  /** The same, with the next target fetched but not yet moved. */
  function Fetched(d: Directory, files: seq<Target>, m: nat): Directory
    requires m < |files|
    decreases m, 1
  {
    Installed(d, files, m)[Temp(files[m].path, m) := files[m].content]
  }

  /** The directory after n commands. */
  function StateAt(d: Directory, files: seq<Target>, n: nat): Directory
    requires n <= 1 + 2 * |files|
  {
    if n == 0 then d
    else if n % 2 == 1 then Installed(d, files, n / 2)
    else Fetched(d, files, n / 2 - 1)
  }

  lemma {:induction false} FetchActs(w: World<Directory>, s: Directory, f: Target, i: nat)
    requires w.exec == DirExec && w.write == DirWrite && Plain(f.path)
    ensures Good(Fetch(f, i)) && Perform(w, s, ChunkActions(Fetch(f, i))) == Continue(s[Temp(f.path, i) := f.content])
  {
    FetchLine(f, i);
    PerformOne(w, s, Put(Temp(f.path, i), f.content, false));
    assert [] + f.content == f.content;
  }

  lemma {:induction false} MoveActs(w: World<Directory>, s: Directory, f: Target, i: nat)
    requires w.exec == DirExec && w.write == DirWrite && Plain(f.path)
    requires var t := Temp(f.path, i); t in s && s[t] == f.content
    ensures Good(Move(f, i))
    ensures Perform(w, s, ChunkActions(Move(f, i))) == Continue((s - {Temp(f.path, i)})[f.path := f.content])
  {
    MoveLine(f, i);
    PerformOne(w, s, Do(["mv", "-f", Temp(f.path, i), f.path]));
  }

  lemma {:induction false} SetActs(w: World<Directory>, s: Directory)
    requires w.exec == DirExec
    ensures Good(SET) && Perform(w, s, ChunkActions(SET)) == Continue(s)
  {
    SetLine();
    PerformOne(w, s, Do(["set", "-euo", "pipefail"]));
  }

  lemma Halves(n: nat)
    requires n > 0
    ensures n % 2 == 1 ==> (n + 1) % 2 == 0 && (n + 1) / 2 - 1 == n / 2 && Done(n) == n / 2
    ensures n % 2 == 0 ==> (n + 1) % 2 == 1 && (n + 1) / 2 == n / 2 && Done(n) == n / 2 - 1 >= 0
  {
  }

  lemma {:induction false} ActAt(w: World<Directory>, d: Directory, files: seq<Target>, n: nat)
    requires w.exec == DirExec && w.write == DirWrite && PlainPaths(files) && n < 1 + 2 * |files|
    ensures Good(ChunkAt(files, n))
    ensures Perform(w, StateAt(d, files, n), ChunkActions(ChunkAt(files, n))) == Continue(StateAt(d, files, n + 1))
  {
    if n == 0 {
      SetActs(w, d);
      assert StateAt(d, files, 1) == d;
    } else {
      Halves(n);
      var i := Done(n);
      if n % 2 == 1 {
        FetchActs(w, Installed(d, files, i), files[i], i);
        assert StateAt(d, files, n + 1) == Fetched(d, files, i);
      } else {
        MoveActs(w, Fetched(d, files, i), files[i], i);
        assert StateAt(d, files, n + 1) == Installed(d, files, i + 1);
      }
    }
  }

  lemma {:induction false} PrefixNext(files: seq<Target>, n: nat)
    requires PlainPaths(files) && n < 1 + 2 * |files| && AllGood(InstallChunks(files)[..n])
    ensures Good(ChunkAt(files, n)) && AllGood(InstallChunks(files)[..n + 1])
    ensures Actions(InstallChunks(files)[..n + 1]) ==
              Actions(InstallChunks(files)[..n]) + ChunkActions(ChunkAt(files, n))
  {
    var all, c := InstallChunks(files), ChunkAt(files, n);
    InstallChunkAt(files, n);
    assert all[..n + 1] == all[..n] + [c];
    ChunkAtGood(files, n);
    ActionsOne(c);
    ActionsConcat(all[..n], [c]);
  }

  lemma {:induction false} PrefixRuns(w: World<Directory>, d: Directory, files: seq<Target>, n: nat)
    requires w.exec == DirExec && w.write == DirWrite && PlainPaths(files) && n <= 1 + 2 * |files|
    ensures AllGood(InstallChunks(files)[..n])
    ensures Perform(w, d, Actions(InstallChunks(files)[..n])) == Continue(StateAt(d, files, n))
  {
    var all := InstallChunks(files);
    if n > 0 {
      PrefixRuns(w, d, files, n - 1);
      PrefixGoesOn(w, d, files, n - 1);
    } else {
      assert all[..0] == [];
    }
  }

  lemma {:induction false} PrefixGoesOn(w: World<Directory>, d: Directory, files: seq<Target>, n: nat)
    requires w.exec == DirExec && w.write == DirWrite && PlainPaths(files) && n < 1 + 2 * |files|
    requires AllGood(InstallChunks(files)[..n])
    requires Perform(w, d, Actions(InstallChunks(files)[..n])) == Continue(StateAt(d, files, n))
    ensures AllGood(InstallChunks(files)[..n + 1])
    ensures Perform(w, d, Actions(InstallChunks(files)[..n + 1])) == Continue(StateAt(d, files, n + 1))
  {
    PrefixNext(files, n);
    PerformConcat(w, d, Actions(InstallChunks(files)[..n]), ChunkActions(ChunkAt(files, n)));
    ActAt(w, d, files, n);
  }

  // What is seen meanwhile.

  /** Targets differ from each other and from all temporary names. */
  ghost predicate Separate(files: seq<Target>) {
    && (forall i, j :: 0 <= i < j < |files| ==> files[i].path != files[j].path)
    && (forall i, j :: 0 <= i < |files| && 0 <= j < |files| ==> Temp(files[i].path, i) != files[j].path)
  }

  function At(d: Directory, path: string): Option<seq<byte>> {
    if path in d then Some(d[path]) else None
  }

  /** The first m targets are new, the others are as they were, and no finished target left its temporary file. */
  ghost predicate Between(d: Directory, e: Directory, files: seq<Target>, m: nat)
    requires m <= |files|
  {
    && (forall i :: 0 <= i < m ==> At(e, files[i].path) == Some(files[i].content) && Temp(files[i].path, i) !in e)
    && (forall i :: m <= i < |files| ==> At(e, files[i].path) == At(d, files[i].path))
  }

  /** How many targets are done after n commands. */
  function Done(n: nat): nat {
    if n == 0 then 0 else (n - 1) / 2
  }

  lemma {:induction false} TempsDiffer(p: string, i: nat, q: string, j: nat)
    requires Temp(p, i) == Temp(q, j)
    ensures i == j
  {
    var x := Temp(p, i);
    assert x == (p + ".new") + ['.'] + Digits(i) && x == (q + ".new") + ['.'] + Digits(j);
    LastIndexOfIs(p + ".new", '.', Digits(i));
    LastIndexOfIs(q + ".new", '.', Digits(j));
    var k := LastIndexOf(x, '.');
    assert Digits(i) == x[|x| - k..] == Digits(j);
    NumberOfDigits(i);
    NumberOfDigits(j);
  }

  lemma {:induction false} FetchBetween(d: Directory, e: Directory, files: seq<Target>, m: nat, x: seq<byte>)
    requires m < |files| && Separate(files) && Between(d, e, files, m)
    ensures Between(d, e[Temp(files[m].path, m) := x], files, m)
  {
    var t := Temp(files[m].path, m);
    forall i | 0 <= i < m ensures Temp(files[i].path, i) != t {
      if Temp(files[i].path, i) == t {
        TempsDiffer(files[i].path, i, files[m].path, m);
      }
    }
  }

  lemma {:induction false} MoveBetween(d: Directory, e: Directory, files: seq<Target>, m: nat)
    requires m < |files| && Separate(files) && Between(d, e, files, m)
    ensures Between(d, (e - {Temp(files[m].path, m)})[files[m].path := files[m].content], files, m + 1)
  {
  }

  lemma {:induction false} InstalledBetween(d: Directory, files: seq<Target>, m: nat)
    requires m <= |files| && Separate(files)
    ensures Between(d, Installed(d, files, m), files, m)
    ensures m < |files| ==> Between(d, Fetched(d, files, m), files, m)
  {
    if m > 0 {
      InstalledBetween(d, files, m - 1);
      MoveBetween(d, Fetched(d, files, m - 1), files, m - 1);
    }
    if m < |files| {
      FetchBetween(d, Installed(d, files, m), files, m, files[m].content);
    }
  }

  lemma {:induction false} StateBetween(d: Directory, files: seq<Target>, n: nat, torn: seq<byte>)
    requires n <= 1 + 2 * |files| && Separate(files)
    ensures var m := Done(n);
            && Between(d, StateAt(d, files, n), files, m)
            && (m < |files| ==> Between(d, StateAt(d, files, n)[Temp(files[m].path, m) := torn], files, m))
  {
    var m := Done(n);
    if n > 0 {
      Halves(n);
    }
    InstalledBetween(d, files, m);
    if m < |files| {
      FetchBetween(d, StateAt(d, files, n), files, m, torn);
    }
  }

  /**
   Cut short after any number of commands, the script leaves each target wholly old or wholly new, a
   later one new only if all earlier ones are; and so it does if the next write is torn.
   */
  lemma {:induction false} CutShort(w: World<Directory>, d: Directory, files: seq<Target>, n: nat, torn: seq<byte>)
    requires w.exec == DirExec && w.write == DirWrite && IsGunzip(w)
    requires PlainPaths(files) && Separate(files) && n <= 1 + 2 * |files|
    ensures Run(w, d, Chunks.Text(InstallChunks(files)[..n])) == Continue(StateAt(d, files, n))
    ensures Between(d, StateAt(d, files, n), files, Done(n))
    ensures Done(n) < |files| ==>
              Between(d, StateAt(d, files, n)[Temp(files[Done(n)].path, Done(n)) := torn], files, Done(n))
  {
    PrefixRuns(w, d, files, n);
    RunAll(w, d, InstallChunks(files)[..n], Chunks.Text(InstallChunks(files)[..n]));
    StateBetween(d, files, n, torn);
  }

  lemma {:induction false} RunsWhole(w: World<Directory>, d: Directory, files: seq<Target>)
    requires w.exec == DirExec && w.write == DirWrite && IsGunzip(w) && PlainPaths(files)
    ensures Run(w, d, InstallText(files, "")) == Continue(StateAt(d, files, 1 + 2 * |files|))
  {
    var all := InstallChunks(files);
    InstallTextIs(files);
    PrefixRuns(w, d, files, |all|);
    assert all[..|all|] == all;
    RunAll(w, d, all, InstallText(files, ""));
  }

  /** Run to its end, it leaves every target new and no temporary file. */
  lemma {:induction false} RunsToEnd(w: World<Directory>, d: Directory, files: seq<Target>) returns (e: Directory)
    requires w.exec == DirExec && w.write == DirWrite && IsGunzip(w)
    requires PlainPaths(files) && Separate(files)
    ensures Run(w, d, InstallText(files, "")) == Continue(e)
    ensures forall i :: 0 <= i < |files| ==>
              At(e, files[i].path) == Some(files[i].content) && Temp(files[i].path, i) !in e
  {
    var n := 1 + 2 * |files|;
    e := StateAt(d, files, n);
    RunsWhole(w, d, files);
    Halves(n);
    StateBetween(d, files, n, []);
  }

  // The two files of the service load balancer.

  const CDS_PATH := "/etc/envoy/cds.yaml"
  const LDS_PATH := "/etc/envoy/lds.yaml"

  /** Clusters before the listeners that refer to them. */
  function EnvoyFiles(lds: seq<byte>, cds: seq<byte>): seq<Target> {
    [Target(CDS_PATH, cds), Target(LDS_PATH, lds)]
  }

  /** A new listener file is never seen with an old cluster file. */
  lemma {:induction false} ListenersAfterClusters(w: World<Directory>, d: Directory, lds: seq<byte>,
      cds: seq<byte>, n: nat)
    requires w.exec == DirExec && w.write == DirWrite && IsGunzip(w) && n <= 5
    ensures var e := Run(w, d, Chunks.Text(InstallChunks(EnvoyFiles(lds, cds))[..n]));
            && e.Continue?
            && (At(e.state, CDS_PATH) == Some(cds)
                || (At(e.state, CDS_PATH) == At(d, CDS_PATH) && At(e.state, LDS_PATH) == At(d, LDS_PATH)))
            && (At(e.state, LDS_PATH) == Some(lds) || At(e.state, LDS_PATH) == At(d, LDS_PATH))
  {
    var files := EnvoyFiles(lds, cds);
    EnvoyFilesFit(lds, cds);
    CutShort(w, d, files, n, []);
    assert files[0].path == CDS_PATH && files[1].path == LDS_PATH;
  }

  lemma {:induction false} EnvoyFilesFit(lds: seq<byte>, cds: seq<byte>)
    ensures PlainPaths(EnvoyFiles(lds, cds)) && Separate(EnvoyFiles(lds, cds))
  {
    assert Plain(CDS_PATH) && Plain(LDS_PATH);
    assert CDS_PATH[11] != LDS_PATH[11] && |CDS_PATH| == |LDS_PATH|;
    var files := EnvoyFiles(lds, cds);
    forall i, j | 0 <= i < |files| && 0 <= j < |files| ensures Temp(files[i].path, i) != files[j].path {
      assert |Temp(files[i].path, i)| > |files[j].path|;
    }
  }
}
