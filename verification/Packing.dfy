/**
 A startup script that is too long travels compressed: a small script unpacks it and runs it. Gzip is
 any function that gunzip undoes.
 */
module Packing {
  import opened Prelude
  import opened Base64
  import opened Shell
  import opened Quoting
  import opened Chunks
  import opened CloudConfig
  import opened Bootstrap

  const MAX_SCRIPT: nat := 48 * 1024
  const COMPRESS_ABOVE: nat := 24 * 1024

  const UNPACKED := "/run/capi-bootstrap.sh"

  const NOTE := " Generated by cluster-api" + "-provider-verda. The" + " bootstrap script is" + " gzip-compressed below"
  const NOTE_2 := " and unpacked to /run" + "/capi-bootstrap.sh" + " before running."

  const PROLOGUE := [
    Comment("!/bin/bash"), Comment(NOTE), Comment(NOTE_2), CommandLine([Bare("set"), Bare("-euo"), Bare("pipefail")])]

  const EPILOGUE := [
    CommandLine([Bare("chmod"), Bare("0700"), Bare(UNPACKED)]),
    CommandLine([Bare("exec"), Bare(UNPACKED)])]

  function PackedChunks(data: seq<byte>): seq<Chunk> {
    PROLOGUE + [Unpacking(Bare(UNPACKED), "__CAPI_GZ__", data)] + EPILOGUE
  }

  const SET_TEXT := "set" + " " + "-euo" + " " + "pipefail" + "\n"

  const PROLOGUE_TEXT := "#!/bin/bash\n" + ("#" + NOTE + "\n") + ("#" + NOTE_2 + "\n") + SET_TEXT

  const FROM := "<<'" + "__CAPI_GZ__" + "'"

  const UNPACK_TEXT :=
    ("base64" + " " + "-d" + " " + FROM) + (" " + "|" + " " + "gunzip" + " " + ">" + " " + UNPACKED + "\n")

  const CHMOD_TEXT := "chmod" + " " + "0700" + " " + UNPACKED + "\n"
  const EXEC_TEXT := "exec" + " " + UNPACKED + "\n"
  const EPILOGUE_TEXT := CHMOD_TEXT + EXEC_TEXT

  function PackedText(data: seq<byte>): string {
    PROLOGUE_TEXT + UNPACK_TEXT + Wrap(Encode(data)) + "__CAPI_GZ__\n" + EPILOGUE_TEXT
  }

  method Fit(script: string, gzip: string -> seq<byte>) returns (r: Result<string>)
    ensures |script| <= COMPRESS_ABOVE ==> r == Ok(script)
    ensures |script| > COMPRESS_ABOVE ==>
              var n := (|gzip(script)| + 2) / 3 * 4;
              r == if FIXED + n + Lines(n) <= 49152 then Ok(PackedText(gzip(script))) else Err
  {
    if |script| <= COMPRESS_ABOVE {
      return Ok(script);
    }
    var data := gzip(script);
    FitsIff(data);
    var wrapped := WrapBase64(Encode(data));
    var out := PROLOGUE_TEXT + UNPACK_TEXT + wrapped + "__CAPI_GZ__\n" + EPILOGUE_TEXT;
    if |out| > MAX_SCRIPT {
      return Err;
    }
    return Ok(out);
  }

  /** The length of everything but the data. */
  const FIXED: nat := 310

  function Lines(n: nat): nat {
    if n == 0 then 1 else (n + 75) / 76
  }

  /** A script fits if and only if its compressed form does, in base64 and in lines. */
  lemma {:induction false} FitsIff(data: seq<byte>)
    ensures var n := (|data| + 2) / 3 * 4;
            |PackedText(data)| <= MAX_SCRIPT <==> FIXED + n + Lines(n) <= 49152
  {
    EncodeIs(data);
    WrapLength(Encode(data));
    assert |PROLOGUE_TEXT| + |UNPACK_TEXT| + |"__CAPI_GZ__\n"| + |EPILOGUE_TEXT| == FIXED;
  }

  // The text is that of the chunks.

  lemma NotesAreLines()
    ensures '\n' !in NOTE && '\n' !in NOTE_2
  {
    assert '\n' !in " Generated by cluster-api" && '\n' !in "-provider-verda. The";
    assert '\n' !in " bootstrap script is" && '\n' !in " gzip-compressed below";
    assert '\n' !in " and unpacked to /run" && '\n' !in "/capi-bootstrap.sh" && '\n' !in " before running.";
  }

  lemma Join4(a: Chunk, b: Chunk, c: Chunk, d: Chunk)
    requires Good(a) && Good(b) && Good(c) && Good(d)
    ensures AllGood([a, b, c, d])
    ensures Chunks.Text([a, b, c, d]) == ChunkText(a) + ChunkText(b) + ChunkText(c) + ChunkText(d)
    ensures Actions([a, b, c, d]) == ChunkActions(a) + ChunkActions(b) + ChunkActions(c) + ChunkActions(d)
  {
    assert [a, b, c, d] == [a] + [b] + [c] + [d];
    TextOne(a);
    TextOne(b);
    TextOne(c);
    TextOne(d);
    TextConcat([a], [b]);
    TextConcat([a] + [b], [c]);
    TextConcat([a] + [b] + [c], [d]);
    ActionsOne(a);
    ActionsOne(b);
    ActionsOne(c);
    ActionsOne(d);
    ActionsConcat([a], [b]);
    ActionsConcat([a] + [b], [c]);
    ActionsConcat([a] + [b] + [c], [d]);
  }

  lemma SetLine()
    ensures var c := CommandLine([Bare("set"), Bare("-euo"), Bare("pipefail")]);
            Good(c) && ChunkText(c) == SET_TEXT && ChunkActions(c) == [Do(["set", "-euo", "pipefail"])]
  {
    assert Plain("set") && Plain("-euo") && Plain("pipefail");
    LineText3(Bare("set"), Bare("-euo"), Bare("pipefail"));
    WordsOf3(Bare("set"), Bare("-euo"), Bare("pipefail"));
    assert SET_TEXT + "" == SET_TEXT;
  }

  lemma PrologueIs()
    ensures AllGood(PROLOGUE) && Chunks.Text(PROLOGUE) == PROLOGUE_TEXT
    ensures Actions(PROLOGUE) == BEFORE
  {
    NotesAreLines();
    SetLine();
    assert "#" + "!/bin/bash" + "\n" == "#!/bin/bash\n";
    Join4(Comment("!/bin/bash"), Comment(NOTE), Comment(NOTE_2),
          CommandLine([Bare("set"), Bare("-euo"), Bare("pipefail")]));
  }

  lemma PlainPath()
    ensures Plain(UNPACKED) && Plain("chmod") && Plain("0700") && Plain("exec")
  {
  }

  lemma EpilogueLines()
    ensures var a, b := EPILOGUE[0], EPILOGUE[1];
            && Good(a) && ChunkText(a) == CHMOD_TEXT && ChunkActions(a) == [Do(["chmod", "0700", UNPACKED])]
            && Good(b) && ChunkText(b) == EXEC_TEXT && ChunkActions(b) == [Do(["exec", UNPACKED])]
  {
    PlainPath();
    LineText3(Bare("chmod"), Bare("0700"), Bare(UNPACKED));
    LineText2(Bare("exec"), Bare(UNPACKED));
    WordsOf3(Bare("chmod"), Bare("0700"), Bare(UNPACKED));
    assert WordsOf([Bare("exec"), Bare(UNPACKED)]) == ["exec", UNPACKED];
    assert CHMOD_TEXT + "" == CHMOD_TEXT && EXEC_TEXT + "" == EXEC_TEXT;
  }

  lemma Join2(a: Chunk, b: Chunk)
    requires Good(a) && Good(b)
    ensures AllGood([a, b]) && Chunks.Text([a, b]) == ChunkText(a) + ChunkText(b)
    ensures Actions([a, b]) == ChunkActions(a) + ChunkActions(b)
  {
    assert [a, b] == [a] + [b];
    TextOne(a);
    TextOne(b);
    TextConcat([a], [b]);
    ActionsOne(a);
    ActionsOne(b);
    ActionsConcat([a], [b]);
  }

  lemma EpilogueIs()
    ensures AllGood(EPILOGUE) && Chunks.Text(EPILOGUE) == EPILOGUE_TEXT
    ensures Actions(EPILOGUE) == AFTER
  {
    EpilogueLines();
    Join2(EPILOGUE[0], EPILOGUE[1]);
  }

  lemma UnpackItems()
    ensures LineText(UnpackingLine(Bare(UNPACKED), "__CAPI_GZ__")) ==
            "base64" + " " + ("-d" + " " + (FROM + " " + ("|" + " " + ("gunzip" + " " + (">" + " " + UNPACKED)))))
  {
    var last := [Into(false), Bare(UNPACKED)];
    var gunzip := [Bare("gunzip")] + last;
    var from := [From("__CAPI_GZ__")] + ([PipeTo] + gunzip);
    LineText2(Into(false), Bare(UNPACKED));
    LineCons(Bare("gunzip"), last);
    LineCons(PipeTo, gunzip);
    LineCons(From("__CAPI_GZ__"), [PipeTo] + gunzip);
    LineCons(Bare("-d"), from);
    LineCons(Bare("base64"), [Bare("-d")] + from);
    assert UnpackingLine(Bare(UNPACKED), "__CAPI_GZ__") == [Bare("base64")] + ([Bare("-d")] + from);
  }

  /** The parts of the line in their places. */
  lemma {:induction false} Spaced(a: string, b: string, c: string, d: string, e: string, f: string, g: string)
    ensures a + " " + (b + " " + (c + " " + (d + " " + (e + " " + (f + " " + g))))) + "\n" ==
            (a + " " + b + " " + c) + (" " + d + " " + e + " " + f + " " + g + "\n")
  {
  }

  lemma {:induction false} Tail(line: string, wrapped: string, delim: string)
    ensures line + "\n" + (wrapped + delim + "\n") == line + "\n" + wrapped + (delim + "\n")
  {
  }

  lemma {:induction false} UnpackingIs(data: seq<byte>)
    ensures var c := Unpacking(Bare(UNPACKED), "__CAPI_GZ__", data);
            && Good(c) && ChunkText(c) == UNPACK_TEXT + Wrap(Encode(data)) + "__CAPI_GZ__\n"
            && ChunkActions(c) == [Inflate(UNPACKED, data)]
  {
    PlainPath();
    assert Plain("__CAPI_GZ__") && "__CAPI_GZ__"[0] == '_';
    UnpackItems();
    Spaced("base64", "-d", FROM, "|", "gunzip", ">", UNPACKED);
    Tail(LineText(UnpackingLine(Bare(UNPACKED), "__CAPI_GZ__")), Wrap(Encode(data)), "__CAPI_GZ__");
    assert "__CAPI_GZ__" + "\n" == "__CAPI_GZ__\n";
  }

  lemma {:induction false} Flatten(a: string, b: string, c: string, d: string, e: string)
    ensures a + (b + c + d) + e == a + b + c + d + e
  {
  }

  lemma {:induction false} PackedIs(data: seq<byte>)
    ensures AllGood(PackedChunks(data)) && Chunks.Text(PackedChunks(data)) == PackedText(data)
    ensures Actions(PackedChunks(data)) == BEFORE + [Inflate(UNPACKED, data)] + AFTER
  {
    var c := Unpacking(Bare(UNPACKED), "__CAPI_GZ__", data);
    PrologueIs();
    EpilogueIs();
    UnpackingIs(data);
    TextOne(c);
    ActionsOne(c);
    TextConcat(PROLOGUE, [c]);
    TextConcat(PROLOGUE + [c], EPILOGUE);
    ActionsConcat(PROLOGUE, [c]);
    ActionsConcat(PROLOGUE + [c], EPILOGUE);
    Flatten(PROLOGUE_TEXT, UNPACK_TEXT, Wrap(Encode(data)), "__CAPI_GZ__\n", EPILOGUE_TEXT);
  }

  lemma {:induction false} InflateIsPut<S>(
    w: World<S>, s: S, before: seq<Action>, path: string, data: seq<byte>, content: seq<byte>, after: seq<Action>)
    requires w.gunzip(data) == Some(content)
    ensures Perform(w, s, before + [Inflate(path, data)] + after) ==
              Perform(w, s, before + [Put(path, content, false)] + after)
  {
    PerformConcat(w, s, before + [Inflate(path, data)], after);
    PerformConcat(w, s, before + [Put(path, content, false)], after);
    PerformConcat(w, s, before, [Inflate(path, data)]);
    PerformConcat(w, s, before, [Put(path, content, false)]);
    var o := Perform(w, s, before);
    if o.Continue? {
      PerformOne(w, o.state, Inflate(path, data));
      PerformOne(w, o.state, Put(path, content, false));
    }
  }

  const BEFORE: seq<Action> := [Do(["set", "-euo", "pipefail"])]
  const AFTER: seq<Action> := [Do(["chmod", "0700", UNPACKED]), Do(["exec", UNPACKED])]

  lemma {:induction false} PackedRuns<S(!new)>(w: World<S>, s: S, data: seq<byte>)
    requires IsGunzip(w)
    ensures Run(w, s, PackedText(data)) == Perform(w, s, BEFORE + [Inflate(UNPACKED, data)] + AFTER)
  {
    PackedIs(data);
    RunAll(w, s, PackedChunks(data), PackedText(data));
  }

  /** The packed script puts back the very script that was packed, makes it executable and runs it. */
  lemma {:induction false} PackedMeaning<S(!new)>(w: World<S>, s: S, script: string, data: seq<byte>)
    requires IsGunzip(w) && w.gunzip(data) == Some(ToBytes(script))
    ensures Run(w, s, PackedText(data)) == Perform(w, s, BEFORE + [Put(UNPACKED, ToBytes(script), false)] + AFTER)
  {
    PackedRuns(w, s, data);
    InflateIsPut(w, s, BEFORE, UNPACKED, data, ToBytes(script), AFTER);
  }

  // Running the packed script is running the script.

  /** What is written to the path can be read from it, until something else is written. */
  ghost predicate Keeps<S(!new)>(w: World<S>, read: S -> Option<seq<byte>>) {
    && (forall s, content, s' :: w.write(s, UNPACKED, content, false) == Some(s') ==> read(s') == Some(content))
    && (forall s, s' :: w.exec(s, ["chmod", "0700", UNPACKED]) == Continue(s') ==> read(s') == read(s))
  }

  /** Executing the path runs the script, if that is what is there. */
  ghost predicate Executes<S(!new)>(w: World<S>, read: S -> Option<seq<byte>>, script: string) {
    forall s :: read(s) == Some(ToBytes(script)) ==> w.exec(s, ["exec", UNPACKED]) == Run(w, s, script)
  }

  /** What the packed script does before it hands over. */
  function Prepare<S>(w: World<S>, s: S, script: string): Outcome<S> {
    Perform(w, s, BEFORE + [Put(UNPACKED, ToBytes(script), false)] + [Do(["chmod", "0700", UNPACKED])])
  }

  lemma {:induction false} PreparedIsThere<S(!new)>(w: World<S>, s: S, script: string, read: S -> Option<seq<byte>>)
    requires Keeps(w, read) && Prepare(w, s, script).Continue?
    ensures read(Prepare(w, s, script).state) == Some(ToBytes(script))
  {
    var put, chmod := Put(UNPACKED, ToBytes(script), false), Do(["chmod", "0700", UNPACKED]);
    PerformConcat(w, s, BEFORE + [put], [chmod]);
    PerformConcat(w, s, BEFORE, [put]);
    var a := Perform(w, s, BEFORE);
    PerformOne(w, a.state, put);
    var b := Act(w, a.state, put);
    PerformOne(w, b.state, chmod);
  }

  lemma {:induction false} HandOver(before: seq<Action>, chmod: Action, exec: Action)
    ensures before + [chmod, exec] == before + [chmod] + [exec]
  {
  }

  /** A packed script that gets to hand over does, from there on, what the script does. */
  lemma {:induction false} PackedRunsScript<S(!new)>(
    w: World<S>, s: S, script: string, data: seq<byte>, read: S -> Option<seq<byte>>)
    requires IsGunzip(w) && w.gunzip(data) == Some(ToBytes(script)) && Keeps(w, read) && Executes(w, read, script)
    ensures var o := Prepare(w, s, script);
            Run(w, s, PackedText(data)) == if o.Continue? then Run(w, o.state, script) else o
  {
    PackedMeaning(w, s, script, data);
    var put, exec := Put(UNPACKED, ToBytes(script), false), Do(["exec", UNPACKED]);
    var chmod := Do(["chmod", "0700", UNPACKED]);
    HandOver(BEFORE + [put], chmod, exec);
    PerformConcat(w, s, BEFORE + [put] + [chmod], [exec]);
    var o := Prepare(w, s, script);
    if o.Continue? {
      PreparedIsThere(w, s, script, read);
      PerformOne(w, o.state, exec);
    }
  }
}
