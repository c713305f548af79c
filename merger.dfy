/**
  The relevance-output merger: `generate_text_3434` concatenates the relevance
  inference CSV files of a project into `text_3434.csv`, keeping one header, and
  stages through the object store; the `Merger` class holds the store clients.
 */
module Merging {
  import opened Config
  import opened Runtime

  const OUTPUT_NAME := "text_3434.csv"

  /** A line sequence without its first line (the header). */
  function Tail(s: seq<Line>): seq<Line>
  {
    if s == [] then [] else s[1..]
  }

  /** The lines a reader gets from the file `name` before it stops. */
  function LinesRead(files: map<string, File>, name: string): seq<Line>
  {
    if name in files && files[name].Text? then files[name].lines else []
  }

  /** Opening and reading `name` to its end raises nothing. */
  predicate ReadsCleanly(files: map<string, File>, name: string)
  {
    name in files && files[name].Text? && !files[name].readFault
  }

  /** The data lines of `names`: every file without its first line, in order. */
  function DataLines(files: map<string, File>, names: seq<string>): seq<Line>
  {
    if names == [] then [] else Tail(LinesRead(files, names[0])) + DataLines(files, names[1..])
  }

  /** The merged output of `names`: all lines of the first file, then the data
      lines of every later file. */
  function Concatenated(files: map<string, File>, names: seq<string>): seq<Line>
  {
    if names == [] then [] else LinesRead(files, names[0]) + DataLines(files, names[1..])
  }

  /** Position of the first listed file whose reading raises; |names| when none does. */
  function FailureIndex(files: map<string, File>, names: seq<string>): (k: nat)
    ensures k <= |names|
    ensures forall i :: 0 <= i < k ==> ReadsCleanly(files, names[i])
    ensures k < |names| ==> !ReadsCleanly(files, names[k])
  {
    if names == [] then 0
    else if !ReadsCleanly(files, names[0]) then 0
    else 1 + FailureIndex(files, names[1..])
  }

  /** How many listed files the merge opens: up to and including the first that fails. */
  function Opened(files: map<string, File>, names: seq<string>): nat
  {
    var k := FailureIndex(files, names);
    if k < |names| then k + 1 else k
  }

  /** The output file's lines once the merge has stopped, normally or not. */
  function Merged(files: map<string, File>, names: seq<string>): seq<Line>
  {
    Concatenated(files, names[..Opened(files, names)])
  }

  /** Whether the merge of `names` succeeds. */
  predicate MergeSucceeds(files: map<string, File>, names: seq<string>)
  {
    names != [] && FailureIndex(files, names) == |names|
  }

  /** The download of the relevance outputs, made only when the store is in use. */
  function RelevanceDownload(env: map<string, string>, project: string, s3Usage: bool,
                             s3: S3Settings, paths: ProjectPaths): (d: seq<Event>)
    ensures forall e :: e in d ==> e.Download?
    ensures |d| == (if s3Usage then 1 else 0)
  {
    if s3Usage
    then [Download(Connect(env, s3.mainBucket), RelevancePrefix(s3.prefix, project), paths.folderRelevance)]
    else []
  }

  /** The upload of the merged file, made only when the store is in use and the
      merge succeeded. */
  function MergedUpload(env: map<string, string>, project: string, s3Usage: bool,
                        s3: S3Settings, paths: ProjectPaths, ok: bool): (u: seq<Event>)
    ensures forall e :: e in u ==> e.Upload?
    ensures |u| == (if s3Usage && ok then 1 else 0)
  {
    if s3Usage && ok
    then [Upload(Connect(env, s3.interimBucket), paths.folderText3434 + "/" + OUTPUT_NAME,
                 InterimMlPrefix(s3.prefix, project), OUTPUT_NAME)]
    else []
  }

  /** The calls `generate_text_3434` makes outside the disk, in order. */
  function MergeTrace(env: map<string, string>, project: string, s3Usage: bool,
                      s3: S3Settings, paths: ProjectPaths, ok: bool): seq<Event>
  {
    RelevanceDownload(env, project, s3Usage, s3, paths)
    + ([Glob(paths.folderRelevance + "/*.csv")] + MergedUpload(env, project, s3Usage, s3, paths, ok))
  }

  /** A merge stops at the first file that does not read cleanly, with that file's
      partial lines as the last ones written. */
  lemma StopsAtFirstFailure(files: map<string, File>, names: seq<string>, i: nat)
    requires i < |names|
    requires forall j :: 0 <= j < i ==> ReadsCleanly(files, names[j])
    requires !ReadsCleanly(files, names[i])
    ensures FailureIndex(files, names) == i
    ensures !MergeSucceeds(files, names)
    ensures Merged(files, names) == Concatenated(files, names[..i + 1])
  {
  }

  /** A merge of files that all read cleanly succeeds and holds every one of them. */
  lemma RunsThrough(files: map<string, File>, names: seq<string>)
    requires names != []
    requires forall j :: 0 <= j < |names| ==> ReadsCleanly(files, names[j])
    ensures MergeSucceeds(files, names)
    ensures Merged(files, names) == Concatenated(files, names)
  {
    assert names[..|names|] == names;
  }

  lemma {:induction false} DataLinesSnoc(files: map<string, File>, names: seq<string>, name: string)
    ensures DataLines(files, names + [name]) == DataLines(files, names) + Tail(LinesRead(files, name))
  {
    if names == [] {
      assert names + [name] == [name];
    } else {
      assert (names + [name])[1..] == names[1..] + [name];
      DataLinesSnoc(files, names[1..], name);
    }
  }

  /** Merging one more file appends all its lines when it is the first, and its
      data lines otherwise. */
  lemma ConcatenatedSnoc(files: map<string, File>, names: seq<string>, name: string)
    ensures Concatenated(files, names + [name])
         == Concatenated(files, names) + (if names == [] then LinesRead(files, name) else Tail(LinesRead(files, name)))
  {
    if names == [] {
      assert names + [name] == [name];
    } else {
      assert (names + [name])[1..] == names[1..] + [name];
      DataLinesSnoc(files, names[1..], name);
    }
  }

  /** The output after the first i + 1 files extends the output after the first i. */
  lemma MergeStep(files: map<string, File>, names: seq<string>, i: nat)
    requires i < |names|
    ensures Concatenated(files, names[..i + 1])
         == Concatenated(files, names[..i]) + (if i == 0 then LinesRead(files, names[i]) else Tail(LinesRead(files, names[i])))
  {
    assert names[..i + 1] == names[..i] + [names[i]];
    ConcatenatedSnoc(files, names[..i], names[i]);
  }

  /** A failed merge leaves every line of the files before the failing one on disk,
      followed by what was read of the failing one. */
  lemma PartialOutputKeepsEarlierFiles(files: map<string, File>, names: seq<string>)
    requires FailureIndex(files, names) < |names|
    ensures var k := FailureIndex(files, names);
            Merged(files, names)
            == Concatenated(files, names[..k])
               + (if k == 0 then LinesRead(files, names[k]) else Tail(LinesRead(files, names[k])))
  {
    var k := FailureIndex(files, names);
    assert names[..k + 1] == names[..k] + [names[k]];
    ConcatenatedSnoc(files, names[..k], names[k]);
  }

  function SumOfLengths(files: map<string, File>, names: seq<string>): nat
  {
    if names == [] then 0 else |LinesRead(files, names[0])| + SumOfLengths(files, names[1..])
  }

  /** The data lines of files that all have a header number one line fewer per file. */
  lemma {:induction false} DataLinesCount(files: map<string, File>, names: seq<string>)
    requires forall i :: 0 <= i < |names| ==> LinesRead(files, names[i]) != []
    ensures |DataLines(files, names)| + |names| == SumOfLengths(files, names)
  {
    if names != [] {
      assert forall i :: 0 <= i < |names| - 1 ==> names[1..][i] == names[i + 1];
      DataLinesCount(files, names[1..]);
    }
  }

  /** With k non-empty inputs the output has the sum of their lengths minus k - 1 lines. */
  lemma LineCount(files: map<string, File>, names: seq<string>)
    requires names != []
    requires forall i :: 0 <= i < |names| ==> LinesRead(files, names[i]) != []
    ensures |Concatenated(files, names)| == SumOfLengths(files, names) - (|names| - 1)
  {
    assert forall i :: 0 <= i < |names| - 1 ==> names[1..][i] == names[i + 1];
    DataLinesCount(files, names[1..]);
  }

  /** Every file starts with the header `h` and holds no other copy of it. */
  predicate SharedHeader(files: map<string, File>, names: seq<string>, h: Line)
  {
    forall i :: 0 <= i < |names| ==>
      var lines := LinesRead(files, names[i]);
      lines != [] && lines[0] == h && h !in lines[1..]
  }

  lemma {:induction false} DataLinesAvoid(files: map<string, File>, names: seq<string>, h: Line)
    requires forall i :: 0 <= i < |names| ==> h !in Tail(LinesRead(files, names[i]))
    ensures h !in DataLines(files, names)
  {
    if names != [] {
      assert forall i :: 0 <= i < |names| - 1 ==> names[1..][i] == names[i + 1];
      DataLinesAvoid(files, names[1..], h);
    }
  }

  /** Files that share the header contribute no copy of it among their data lines. */
  lemma SharedHeaderAvoided(files: map<string, File>, names: seq<string>, h: Line)
    requires SharedHeader(files, names, h)
    ensures h !in DataLines(files, names)
  {
    forall i | 0 <= i < |names|
      ensures h !in Tail(LinesRead(files, names[i]))
    {
      var lines := LinesRead(files, names[i]);
      assert lines != [] && h !in lines[1..];
    }
    DataLinesAvoid(files, names, h);
  }

  lemma OnlyAtHead(h: Line, rest: seq<Line>)
    requires h !in rest
    ensures multiset([h] + rest)[h] == 1
  {
    assert multiset([h] + rest) == multiset([h]) + multiset(rest);
  }

  /** When all inputs share the header, the output holds it exactly once, at the top. */
  lemma HeaderOnce(files: map<string, File>, names: seq<string>, h: Line)
    requires names != []
    requires SharedHeader(files, names, h)
    ensures Concatenated(files, names) != [] && Concatenated(files, names)[0] == h
    ensures multiset(Concatenated(files, names))[h] == 1
  {
    var first := LinesRead(files, names[0]);
    assert first == [h] + first[1..];
    assert SharedHeader(files, names[1..], h) by {
      forall i | 0 <= i < |names| - 1
        ensures names[1..][i] == names[i + 1]
      {
      }
    }
    SharedHeaderAvoided(files, names[1..], h);
    var rest := first[1..] + DataLines(files, names[1..]);
    AppendAssoc([h], first[1..], DataLines(files, names[1..]));
    OnlyAtHead(h, rest);
  }

  /** An empty first file still clears `very_first`: the next file's header is
      dropped like every later one, so no header reaches the output. */
  lemma EmptyFirstFileDropsAllHeaders(files: map<string, File>, names: seq<string>, h: Line)
    requires names != [] && LinesRead(files, names[0]) == []
    requires SharedHeader(files, names[1..], h)
    ensures Concatenated(files, names) == DataLines(files, names[1..])
    ensures h !in Concatenated(files, names)
  {
    SharedHeaderAvoided(files, names[1..], h);
  }

  /** The trace of a merge: a download before the listing exactly when the store is
      used, and one upload of `text_3434.csv` exactly when it is used and the merge
      succeeded. */
  lemma MergeTraceShape(env: map<string, string>, project: string, s3Usage: bool,
                        s3: S3Settings, paths: ProjectPaths, ok: bool)
    ensures var t := MergeTrace(env, project, s3Usage, s3, paths, ok);
            && CountDownloads(t) == (if s3Usage then 1 else 0)
            && CountUploads(t) == (if s3Usage && ok then 1 else 0)
            && DownloadsBeforeListings(t)
            && (forall e :: e in t && e.Upload? ==> e.s3Key == OUTPUT_NAME && e.s3Prefix == InterimMlPrefix(s3.prefix, project))
  {
    var u := MergedUpload(env, project, s3Usage, s3, paths, ok);
    ThreePartTrace(RelevanceDownload(env, project, s3Usage, s3, paths), [Glob(paths.folderRelevance + "/*.csv")], u);
  }

  /** The disk `dirs` with the merged output holding `lines`. */
  function WithOutput(dirs: map<string, map<string, File>>, out: string, lines: seq<Line>): map<string, map<string, File>>
    requires out in dirs
  {
    dirs[out := dirs[out][OUTPUT_NAME := Text(lines, false)]]
  }

  /** Writing the output again replaces what the previous write left. */
  lemma RewriteOutput(dirs: map<string, map<string, File>>, out: string, before: seq<Line>, after: seq<Line>)
    requires out in dirs
    ensures var d := WithOutput(dirs, out, before);
            d[out := d[out][OUTPUT_NAME := Text(after, false)]] == WithOutput(dirs, out, after)
  {
    var d := WithOutput(dirs, out, before);
    assert d[out][OUTPUT_NAME := Text(after, false)] == dirs[out][OUTPUT_NAME := Text(after, false)];
  }

  /** The inner loop of `generate_text_3434` over one input's lines: a line is
      written when `veryFirst` holds or it is not the file's first line. */
  method WriteLines(host: Host, ghost dirs0: map<string, map<string, File>>, out: string,
                    written: seq<Line>, lines: seq<Line>, veryFirst: bool)
    returns (written': seq<Line>)
    requires out in dirs0 && host.dirs == WithOutput(dirs0, out, written)
    modifies host
    ensures written' == written + (if veryFirst then lines else Tail(lines))
    ensures host.dirs == WithOutput(dirs0, out, written')
    ensures host.trace == old(host.trace)
  {
    written' := written;
    var first := true;
    var j := 0;
    while j < |lines|
      invariant 0 <= j <= |lines|
      invariant first == (j == 0)
      invariant written' == written + (if veryFirst then lines[..j] else if j == 0 then [] else lines[1..j])
      invariant host.dirs == WithOutput(dirs0, out, written')
      invariant host.trace == old(host.trace)
    {
      if veryFirst || !first {
        RewriteOutput(dirs0, out, written', written' + [lines[j]]);
        written' := written' + [lines[j]];
        host.Put(out, OUTPUT_NAME, Text(written', false));
      }
      first := false;
      j := j + 1;
    }
    assert lines[..|lines|] == lines;
  }

  /** The `try` block of `generate_text_3434`: streams the listed inputs into the
      output, which starts empty; returns false at the first input that raises. */
  method MergeInputs(host: Host, ghost dirs0: map<string, map<string, File>>, out: string,
                     files: map<string, File>, found: seq<string>)
    returns (ok: bool)
    requires found != []
    requires out in dirs0 && host.dirs == WithOutput(dirs0, out, [])
    modifies host
    ensures ok == MergeSucceeds(files, found)
    ensures host.dirs == WithOutput(dirs0, out, Merged(files, found))
    ensures host.trace == old(host.trace)
  {
    var veryFirst := true;
    var written: seq<Line> := [];
    var i := 0;
    while i < |found|
      invariant 0 <= i <= |found|
      invariant veryFirst == (i == 0)
      invariant forall j :: 0 <= j < i ==> ReadsCleanly(files, found[j])
      invariant written == Concatenated(files, found[..i])
      invariant host.dirs == WithOutput(dirs0, out, written)
      invariant host.trace == old(host.trace)
    {
      var name := found[i];
      MergeStep(files, found, i);
      if name !in files || !files[name].Text? {
        // opening or decoding the file raises before any line is read
        assert LinesRead(files, name) == [] && Tail([]) == [];
        assert Concatenated(files, found[..i + 1]) == written;
        StopsAtFirstFailure(files, found, i);
        return false;
      }
      written := WriteLines(host, dirs0, out, written, files[name].lines, veryFirst);
      assert written == Concatenated(files, found[..i + 1]);
      if files[name].readFault {
        StopsAtFirstFailure(files, found, i);
        return false;
      }
      veryFirst := false;
      i := i + 1;
    }
    RunsThrough(files, found);
    return true;
  }

  /** `generate_text_3434`: `found` is what the glob for `*.csv` in the relevance
      folder returns, in its order; `env` stands for the process environment. */
  method GenerateText3434(host: Host, env: map<string, string>, projectName: string, s3Usage: bool,
                          s3Settings: S3Settings, paths: ProjectPaths, found: seq<string>)
    returns (ok: bool)
    requires paths.folderText3434 in host.dirs
    requires paths.folderText3434 == paths.folderRelevance ==> OUTPUT_NAME !in found
    modifies host
    ensures var files := Folder(old(host.dirs), paths.folderRelevance);
            && ok == MergeSucceeds(files, found)
            && host.dirs == WithOutput(old(host.dirs), paths.folderText3434, Merged(files, found))
            && host.trace == old(host.trace) + MergeTrace(env, projectName, s3Usage, s3Settings, paths, ok)
  {
    var files := Folder(host.dirs, paths.folderRelevance);
    var out := paths.folderText3434;
    ghost var dirs0 := host.dirs;
    ghost var trace0 := host.trace;
    if s3Usage {
      var s3cMain := Connect(env, s3Settings.mainBucket);
      host.Record(Download(s3cMain, RelevancePrefix(s3Settings.prefix, projectName), paths.folderRelevance));
    }
    host.Put(out, OUTPUT_NAME, Text([], false));
    host.Record(Glob(paths.folderRelevance + "/*.csv"));
    ghost var d := RelevanceDownload(env, projectName, s3Usage, s3Settings, paths);
    ghost var g := [Glob(paths.folderRelevance + "/*.csv")];
    assert host.trace == trace0 + d + g;
    if |found| == 0 {
      AppendThree(trace0, d, g, []);
      return false;
    }
    ok := MergeInputs(host, dirs0, out, files, found);
    if !ok {
      AppendThree(trace0, d, g, []);
      return false;
    }
    if s3Usage {
      var s3cInterim := Connect(env, s3Settings.interimBucket);
      host.Record(Upload(s3cInterim, paths.folderText3434 + "/" + OUTPUT_NAME,
                         InterimMlPrefix(s3Settings.prefix, projectName), OUTPUT_NAME));
    }
    AppendThree(trace0, d, g, MergedUpload(env, projectName, s3Usage, s3Settings, paths, true));
    return true;
  }

  /** The `Merger` class: settings fixed at construction and two optional store
      clients that are set together. */
  class Merger {
    const mainSettings: MainSettings
    const s3Settings: S3Settings
    const projectPaths: ProjectPaths
    var s3CommunicationMain: Option<S3Client>
    var s3CommunicationInterim: Option<S3Client>

    /** Both clients are present or both are absent. */
    predicate ClientsPaired()
      reads this
    {
      s3CommunicationMain.Some? == s3CommunicationInterim.Some?
    }

    /** `__init__`: stores the settings; no client exists yet. */
    constructor (mainSettings: MainSettings, s3Settings: S3Settings, projectPaths: ProjectPaths)
      ensures this.mainSettings == mainSettings && this.s3Settings == s3Settings
      ensures this.projectPaths == projectPaths
      ensures s3CommunicationMain == None && s3CommunicationInterim == None
      ensures ClientsPaired()
    {
      this.mainSettings := mainSettings;
      this.s3Settings := s3Settings;
      this.projectPaths := projectPaths;
      s3CommunicationMain := None;
      s3CommunicationInterim := None;
    }

    /** `_setup_s3_usage`: with the store in use, both clients are built from the
        environment; otherwise neither field changes. */
    method SetupS3Usage(env: map<string, string>)
      modifies this
      ensures old(ClientsPaired()) || mainSettings.s3Usage ==> ClientsPaired()
      ensures mainSettings.s3Usage ==>
                s3CommunicationMain == Some(Connect(env, s3Settings.mainBucket))
                && s3CommunicationInterim == Some(Connect(env, s3Settings.interimBucket))
      ensures !mainSettings.s3Usage ==>
                s3CommunicationMain == old(s3CommunicationMain)
                && s3CommunicationInterim == old(s3CommunicationInterim)
    {
      if mainSettings.s3Usage {
        var main := ReturnS3CommunicationMain(env);
        var interim := ReturnS3CommunicationInterim(env);
        s3CommunicationMain := Some(main);
        s3CommunicationInterim := Some(interim);
      }
    }

    /** `_return_s3_communication_main`: a client for the main bucket. */
    method ReturnS3CommunicationMain(env: map<string, string>) returns (c: S3Client)
      ensures c.endpointUrl == Getenv(env, s3Settings.mainBucket.s3Endpoint)
      ensures c.accessKeyId == Getenv(env, s3Settings.mainBucket.s3AccessKey)
      ensures c.secretAccessKey == Getenv(env, s3Settings.mainBucket.s3SecretKey)
      ensures c.bucket == Getenv(env, s3Settings.mainBucket.s3BucketName)
    {
      c := Connect(env, s3Settings.mainBucket);
    }

    /** `_return_s3_communication_interim`: a client for the interim bucket. */
    method ReturnS3CommunicationInterim(env: map<string, string>) returns (c: S3Client)
      ensures c.endpointUrl == Getenv(env, s3Settings.interimBucket.s3Endpoint)
      ensures c.accessKeyId == Getenv(env, s3Settings.interimBucket.s3AccessKey)
      ensures c.secretAccessKey == Getenv(env, s3Settings.interimBucket.s3SecretKey)
      ensures c.bucket == Getenv(env, s3Settings.interimBucket.s3BucketName)
    {
      c := Connect(env, s3Settings.interimBucket);
    }

    /** `_download_inference_related_files_from_s3`: one download of the relevance
        outputs into the relevance folder, through the main client. Without a main
        client the call on `None` raises `AttributeError` before anything happens. */
    method DownloadInferenceRelatedFilesFromS3(host: Host) returns (result: Outcome<()>)
      modifies host
      ensures result.Raise? <==> s3CommunicationMain.None?
      ensures result.Raise? ==>
                result.error == AttributeError("download_files_in_prefix_to_dir")
                && host.trace == old(host.trace)
      ensures result.Return? ==>
                host.trace == old(host.trace) + [Download(s3CommunicationMain.value,
                  RelevancePrefix(s3Settings.prefix, projectPaths.projectName), projectPaths.folderRelevance)]
      ensures host.dirs == old(host.dirs)
    {
      if s3CommunicationMain.None? {
        return Raise(AttributeError("download_files_in_prefix_to_dir"));
      }
      host.Record(Download(s3CommunicationMain.value,
        RelevancePrefix(s3Settings.prefix, projectPaths.projectName), projectPaths.folderRelevance));
      return Return(());
    }
  }
}
