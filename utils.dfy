/**
  The file-staging helpers and the training-info snapshot of `utils/utils.py`.
  Directory enumeration order is not fixed: the helpers that only change a folder
  pick the next listed name nondeterministically, and their results are stated
  for every order; `save_train_info`, whose result depends on the order, takes
  the listings as given.
 */
module Utils {
  import opened Config
  import opened Runtime

  /** `m` agrees with `big` on every name of `m`. */
  predicate SubMap(m: map<string, File>, big: map<string, File>)
  {
    forall n :: n in m ==> n in big && m[n] == big[n]
  }

  // ----- copy_file_without_overwrite -----

  /** The destination once every source file it lacks has been copied into it. */
  function CopiedWithoutOverwrite(src: map<string, File>, dest: map<string, File>): (r: map<string, File>)
    ensures r.Keys == src.Keys + dest.Keys
    ensures forall n :: n in dest ==> r[n] == dest[n]
    ensures forall n :: n in src && n !in dest ==> r[n] == src[n]
  {
    map n | n in src.Keys + dest.Keys :: if n in dest then dest[n] else src[n]
  }

  /** Copying without overwrite is the union in which the destination wins, so a
      second copy of the same source changes nothing. */
  lemma CopyIsUnionKeepingDest(src: map<string, File>, dest: map<string, File>)
    ensures CopiedWithoutOverwrite(src, dest) == src + dest
    ensures CopiedWithoutOverwrite(src, CopiedWithoutOverwrite(src, dest)) == CopiedWithoutOverwrite(src, dest)
  {
    var r := CopiedWithoutOverwrite(src, dest);
    assert r.Keys == (src + dest).Keys;
    assert CopiedWithoutOverwrite(src, r).Keys == r.Keys;
  }

  lemma CopyOneMore(src: map<string, File>, done: set<string>, name: string, dest: map<string, File>)
    requires name in src
    ensures var before := CopiedWithoutOverwrite(src - (src.Keys - done), dest);
            var after := CopiedWithoutOverwrite(src - (src.Keys - (done + {name})), dest);
            after == if name in before then before else before[name := src[name]]
  {
    var before := CopiedWithoutOverwrite(src - (src.Keys - done), dest);
    var after := CopiedWithoutOverwrite(src - (src.Keys - (done + {name})), dest);
    if name in before {
      assert after.Keys == before.Keys;
    } else {
      assert after.Keys == before.Keys + {name};
    }
  }

  /** `copy_file_without_overwrite`: every file of `srcPath` whose name is not yet
      in `destPath` is copied there; always returns true. */
  method CopyFileWithoutOverwrite(host: Host, srcPath: string, destPath: string) returns (r: bool)
    requires srcPath in host.dirs && destPath in host.dirs
    modifies host
    ensures r
    ensures host.dirs == old(host.dirs)[destPath := CopiedWithoutOverwrite(old(host.dirs[srcPath]), old(host.dirs[destPath]))]
    ensures host.trace == old(host.trace) + [ListDir(srcPath)]
  {
    host.Record(ListDir(srcPath));
    var src := host.dirs[srcPath];
    ghost var dest0 := host.dirs[destPath];
    ghost var dirs0 := host.dirs;
    var pending := src.Keys;
    assert CopiedWithoutOverwrite(src - (src.Keys - {}), dest0) == dest0;
    assert src.Keys - {} == pending;
    while pending != {}
      invariant pending <= src.Keys
      invariant host.dirs == dirs0[destPath := CopiedWithoutOverwrite(src - pending, dest0)]
      invariant host.trace == old(host.trace) + [ListDir(srcPath)]
      decreases pending
    {
      var name :| name in pending;
      ghost var done := src.Keys - pending;
      assert src.Keys - done == pending;
      assert src.Keys - (done + {name}) == pending - {name};
      CopyOneMore(src, done, name, dest0);
      if name !in host.dirs[destPath] {
        host.Put(destPath, name, src[name]);
      }
      pending := pending - {name};
    }
    assert src - {} == src;
    return true;
  }

  // ----- link_files -----

  /** `link_files`: hard-links every file of `sourceDir` into `destinationDir`
      under the same name. Linking onto an existing name raises and stops the
      loop; names linked before stay linked. */
  method LinkFiles(host: Host, sourceDir: string, destinationDir: string) returns (result: Outcome<()>)
    requires sourceDir in host.dirs && destinationDir in host.dirs
    modifies host
    ensures destinationDir in host.dirs
    ensures host.dirs == old(host.dirs)[destinationDir := host.dirs[destinationDir]]
    ensures var src := old(host.dirs[sourceDir]);
            var dest := old(host.dirs[destinationDir]);
            && (result.Raise? <==> src.Keys * dest.Keys != {})
            && (result.Return? ==> host.dirs[destinationDir] == dest + src)
            && (result.Raise? ==>
                  && result.error.FileExists? && result.error.name in src.Keys * dest.Keys
                  && SubMap(dest, host.dirs[destinationDir])
                  && SubMap(host.dirs[destinationDir], src + dest))
    ensures host.trace == old(host.trace) + [ListDir(sourceDir)]
  {
    host.Record(ListDir(sourceDir));
    var src := host.dirs[sourceDir];
    ghost var dest0 := host.dirs[destinationDir];
    ghost var dirs0 := host.dirs;
    var pending := src.Keys;
    assert dest0 + (src - pending) == dest0;
    while pending != {}
      invariant pending <= src.Keys
      invariant (src - pending).Keys !! dest0.Keys
      invariant host.dirs == dirs0[destinationDir := dest0 + (src - pending)]
      invariant host.trace == old(host.trace) + [ListDir(sourceDir)]
      decreases pending
    {
      var name :| name in pending;
      if name in host.dirs[destinationDir] {
        assert name in dest0;
        assert name in src.Keys * dest0.Keys;
        assert SubMap(dest0, dest0 + (src - pending));
        assert SubMap(dest0 + (src - pending), src + dest0);
        return Raise(FileExists(name));
      }
      host.Put(destinationDir, name, src[name]);
      assert dest0 + (src - (pending - {name})) == (dest0 + (src - pending))[name := src[name]];
      pending := pending - {name};
    }
    assert src - {} == src;
    return Return(());
  }

  // ----- link_extracted_files -----

  /** Python's `s[:-k]` for k >= 1: all but the last k characters, or "" when
      there are no more than k. */
  function DropLast(s: string, k: nat): string
  {
    if |s| >= k then s[..|s| - k] else ""
  }

  predicate EndsWith(s: string, suffix: string)
  {
    |suffix| <= |s| && s[|s| - |suffix|..] == suffix
  }

  /** `name[:-5] + ".pdf"`: the document an extraction file is named after. */
  function PdfNameOf(name: string): (p: string)
    ensures EndsWith(p, ".pdf")
  {
    DropLast(name, 5) + ".pdf"
  }

  /** `pdf[:-4] + ".json"`: the extraction file named after a document. */
  function JsonNameOf(pdf: string): (j: string)
    ensures EndsWith(j, ".json")
  {
    DropLast(pdf, 4) + ".json"
  }

  lemma JsonPdfRoundTrip(name: string)
    requires EndsWith(name, ".json")
    ensures JsonNameOf(PdfNameOf(name)) == name
  {
    var stem := name[..|name| - 5];
    assert name == stem + ".json";
    assert PdfNameOf(name) == stem + ".pdf";
    assert DropLast(stem + ".pdf", 4) == stem;
  }

  lemma PdfJsonRoundTrip(pdf: string)
    requires EndsWith(pdf, ".pdf")
    ensures PdfNameOf(JsonNameOf(pdf)) == pdf
  {
    var stem := pdf[..|pdf| - 4];
    assert pdf == stem + ".pdf";
    assert JsonNameOf(pdf) == stem + ".json";
    assert DropLast(stem + ".json", 5) == stem;
  }

  /** The `extracted_pdfs` list, as the set its membership test reads. */
  function ExtractedPdfs(ext: set<string>): (r: set<string>)
    ensures forall p :: p in r ==> EndsWith(p, ".pdf")
  {
    set n | n in ext :: PdfNameOf(n)
  }

  /** The extraction names `link_extracted_files` looks for: `pdf[:-4] + ".json"`
      for every listed pdf some extraction name maps to. */
  function Wanted(ext: set<string>, pdfs: set<string>): set<string>
  {
    set p | p in pdfs && p in ExtractedPdfs(ext) :: JsonNameOf(p)
  }

  /** The files of `m` whose names are in `names`. */
  function Restrict(m: map<string, File>, names: set<string>): map<string, File>
  {
    map n | n in m && n in names :: m[n]
  }

  /** Every name looked for maps back to a pdf in the pdf folder. */
  lemma WantedHasItsPdf(ext: set<string>, pdfs: set<string>, j: string)
    requires j in Wanted(ext, pdfs)
    ensures PdfNameOf(j) in pdfs
  {
    var p :| p in pdfs && p in ExtractedPdfs(ext) && JsonNameOf(p) == j;
    var n :| n in ext && PdfNameOf(n) == p;
    PdfJsonRoundTrip(p);
  }

  /** For a folder of `.json` files, the names looked for are exactly the
      extractions whose pdf is listed, so every one of them exists. */
  lemma WantedInJsonFolder(ext: set<string>, pdfs: set<string>)
    requires forall n :: n in ext ==> EndsWith(n, ".json")
    ensures Wanted(ext, pdfs) == set n | n in ext && PdfNameOf(n) in pdfs
    ensures Wanted(ext, pdfs) <= ext
  {
    forall j | j in Wanted(ext, pdfs)
      ensures j in ext && PdfNameOf(j) in pdfs
    {
      WantedHasItsPdf(ext, pdfs, j);
      var p :| p in pdfs && p in ExtractedPdfs(ext) && JsonNameOf(p) == j;
      var n :| n in ext && PdfNameOf(n) == p;
      JsonPdfRoundTrip(n);
    }
    forall n | n in ext && PdfNameOf(n) in pdfs
      ensures n in Wanted(ext, pdfs)
    {
      JsonPdfRoundTrip(n);
      assert PdfNameOf(n) in ExtractedPdfs(ext);
    }
  }

  /** A stray non-`.json` name can match a pdf whose `.json` does not exist:
      `notes.txt` maps to `note.pdf`, which is looked for as `note.json`. */
  lemma StrayNameIsLookedForUnderAnotherName()
    ensures "note.json" in Wanted({"notes.txt"}, {"note.pdf"})
    ensures "note.json" !in {"notes.txt"}
  {
    assert PdfNameOf("notes.txt") == "note.pdf";
    assert "note.pdf" in ExtractedPdfs({"notes.txt"});
    assert JsonNameOf("note.pdf") == "note.json";
  }

  /** The destination once the pdfs `done` have been handled without raising. */
  function LinkedSoFar(ext: map<string, File>, done: set<string>, dest: map<string, File>): map<string, File>
  {
    CopiedWithoutOverwrite(Restrict(ext, Wanted(ext.Keys, done)), dest)
  }

  /** Every name looked for on behalf of `done` exists in the destination or the source. */
  predicate NoneMissing(ext: map<string, File>, done: set<string>, dest: map<string, File>)
  {
    forall j :: j in Wanted(ext.Keys, done) ==> j in dest || j in ext
  }

  lemma WantedOneMore(ext: set<string>, done: set<string>, pdf: string)
    ensures pdf !in ExtractedPdfs(ext) ==> Wanted(ext, done + {pdf}) == Wanted(ext, done)
    ensures pdf in ExtractedPdfs(ext) ==> Wanted(ext, done + {pdf}) == Wanted(ext, done) + {JsonNameOf(pdf)}
  {
  }

  lemma RestrictedCopyOneMore(ext: map<string, File>, w: set<string>, j: string, dest: map<string, File>)
    ensures var before := CopiedWithoutOverwrite(Restrict(ext, w), dest);
            var after := CopiedWithoutOverwrite(Restrict(ext, w + {j}), dest);
            && (j in before || j !in ext ==> after == before)
            && (j !in before && j in ext ==> after == before[j := ext[j]])
  {
    var before := CopiedWithoutOverwrite(Restrict(ext, w), dest);
    var after := CopiedWithoutOverwrite(Restrict(ext, w + {j}), dest);
    if j in before || j !in ext {
      assert after.Keys == before.Keys;
    } else {
      assert after.Keys == before.Keys + {j};
    }
  }

  /** Handling one more pdf: it is skipped, finds its extraction present, copies
      it, or finds it missing from both folders. */
  lemma LinkStep(ext: map<string, File>, done: set<string>, pdf: string, dest: map<string, File>)
    requires NoneMissing(ext, done, dest)
    ensures var cur := LinkedSoFar(ext, done, dest);
            var next := LinkedSoFar(ext, done + {pdf}, dest);
            var j := JsonNameOf(pdf);
            if pdf !in ExtractedPdfs(ext.Keys) || j in cur then
              next == cur && NoneMissing(ext, done + {pdf}, dest)
            else if j in ext then
              next == cur[j := ext[j]] && NoneMissing(ext, done + {pdf}, dest)
            else
              j !in dest && j in Wanted(ext.Keys, done + {pdf})
  {
    WantedOneMore(ext.Keys, done, pdf);
    if pdf in ExtractedPdfs(ext.Keys) {
      RestrictedCopyOneMore(ext, Wanted(ext.Keys, done), JsonNameOf(pdf), dest);
    }
  }

  /** Handling more pdfs only adds files. */
  lemma LinkedSoFarGrows(ext: map<string, File>, done: set<string>, all: set<string>, dest: map<string, File>)
    requires done <= all
    ensures Wanted(ext.Keys, done) <= Wanted(ext.Keys, all)
    ensures SubMap(dest, LinkedSoFar(ext, done, dest))
    ensures SubMap(LinkedSoFar(ext, done, dest), LinkedSoFar(ext, all, dest))
  {
  }

  /** A file the handling added is an extraction whose pdf was handled. */
  lemma LinkedNamesHaveTheirPdf(ext: map<string, File>, done: set<string>, dest: map<string, File>)
    ensures forall n :: n in LinkedSoFar(ext, done, dest) && n !in dest ==> n in ext && PdfNameOf(n) in done
  {
    forall n | n in LinkedSoFar(ext, done, dest) && n !in dest
      ensures n in ext && PdfNameOf(n) in done
    {
      WantedHasItsPdf(ext.Keys, done, n);
    }
  }

  /** `link_extracted_files`: for every pdf in `srcPdf` that an extraction in
      `srcExt` is named after, copies `pdf[:-4] + ".json"` from `srcExt` into
      `destExt` unless `destExt` has it; a looked-for name missing from `srcExt`
      raises. Returns true otherwise. */
  method LinkExtractedFiles(host: Host, srcExt: string, srcPdf: string, destExt: string)
    returns (result: Outcome<bool>)
    requires srcExt in host.dirs && srcPdf in host.dirs && destExt in host.dirs
    modifies host
    ensures destExt in host.dirs
    ensures host.dirs == old(host.dirs)[destExt := host.dirs[destExt]]
    ensures var ext := old(host.dirs[srcExt]);
            var pdfs := old(host.dirs[srcPdf]).Keys;
            var dest := old(host.dirs[destExt]);
            && (result.Raise? <==> !NoneMissing(ext, pdfs, dest))
            && (result.Return? ==> result.value && host.dirs[destExt] == LinkedSoFar(ext, pdfs, dest))
            && (result.Raise? ==>
                  && result.error.FileNotFound?
                  && result.error.name in Wanted(ext.Keys, pdfs)
                  && result.error.name !in dest && result.error.name !in ext
                  && SubMap(dest, host.dirs[destExt])
                  && SubMap(host.dirs[destExt], LinkedSoFar(ext, pdfs, dest)))
            && (forall n :: n in host.dirs[destExt] && n !in dest ==> n in ext && PdfNameOf(n) in pdfs)
    ensures host.trace == old(host.trace) + [ListDir(srcExt), ListDir(srcPdf)]
  {
    host.Record(ListDir(srcExt));
    var ext := host.dirs[srcExt];
    var extractedPdfs := ExtractedPdfs(ext.Keys);
    host.Record(ListDir(srcPdf));
    var pdfs := host.dirs[srcPdf].Keys;
    ghost var dest0 := host.dirs[destExt];
    ghost var dirs0 := host.dirs;
    var pending := pdfs;
    assert Wanted(ext.Keys, pdfs - pending) == {};
    assert LinkedSoFar(ext, pdfs - pending, dest0) == dest0;
    while pending != {}
      invariant pending <= pdfs
      invariant NoneMissing(ext, pdfs - pending, dest0)
      invariant host.dirs == dirs0[destExt := LinkedSoFar(ext, pdfs - pending, dest0)]
      invariant host.trace == old(host.trace) + [ListDir(srcExt), ListDir(srcPdf)]
      decreases pending
    {
      var pdf :| pdf in pending;
      ghost var done := pdfs - pending;
      ghost var cur := LinkedSoFar(ext, done, dest0);
      assert pdfs - (pending - {pdf}) == done + {pdf};
      LinkStep(ext, done, pdf, dest0);
      if pdf in extractedPdfs {
        var jsonName := JsonNameOf(pdf);
        if jsonName !in host.dirs[destExt] {
          if jsonName !in ext {
            LinkedSoFarGrows(ext, done + {pdf}, pdfs, dest0);
            LinkedSoFarGrows(ext, done, pdfs, dest0);
            LinkedNamesHaveTheirPdf(ext, done, dest0);
            return Raise(FileNotFound(jsonName));
          }
          host.Put(destExt, jsonName, ext[jsonName]);
          UpdateTwice(dirs0, destExt, cur, cur[jsonName := ext[jsonName]]);
        }
      }
      pending := pending - {pdf};
    }
    assert pdfs - {} == pdfs;
    LinkedNamesHaveTheirPdf(ext, pdfs, dest0);
    return Return(true);
  }

  // ----- save_train_info -----

  /** The keys a training summary record may hold. */
  const TRAIN_INFO_KEYS: set<string> := {"project_name", "train_settings", "pdfs_used", "annotations", "kpis"}

  /** `filename[-5:] == '.xlsx'`: the last five characters, or the whole name when
      it is shorter, spell `.xlsx`. */
  predicate IsXlsx(name: string): (b: bool)
    ensures b <==> EndsWith(name, ".xlsx")
  {
    (if |name| >= 5 then name[|name| - 5..] else name) == ".xlsx"
  }

  /** The position of the first `.xlsx` name at or after `from`, in listing order. */
  function FirstXlsxFrom(names: seq<string>, from: nat): (r: Option<nat>)
    requires from <= |names|
    ensures r.Some? ==> from <= r.value < |names| && IsXlsx(names[r.value])
    ensures r.Some? ==> forall i :: from <= i < r.value ==> !IsXlsx(names[i])
    ensures r.None? ==> forall i :: from <= i < |names| ==> !IsXlsx(names[i])
    decreases |names| - from
  {
    if from == |names| then None
    else if IsXlsx(names[from]) then Some(from)
    else FirstXlsxFrom(names, from + 1)
  }

  /** The position of the first `.xlsx` name in listing order. */
  function FirstXlsx(names: seq<string>): Option<nat>
  {
    FirstXlsxFrom(names, 0)
  }

  /** The summary file's name, used both on disk and as the upload key. */
  function SummaryName(relevanceModel: string, kpiModel: string): (n: string)
    ensures |n| == |relevanceModel| + |kpiModel| + 24
    ensures n[..12] == "SUMMARY_REL_" && n[12..12 + |relevanceModel|] == relevanceModel
    ensures n[12 + |relevanceModel|..17 + |relevanceModel|] == "_KPI_"
    ensures n[17 + |relevanceModel|..|n| - 7] == kpiModel && EndsWith(n, ".pickle")
  {
    "SUMMARY_REL_" + relevanceModel + "_KPI_" + kpiModel + ".pickle"
  }

  /** The record `save_train_info` dumps. */
  function TrainRecord(projectName: string, settings: MainSettings, pdfsUsed: seq<string>,
                       annotationDir: string, annotationListing: seq<string>, mappingDir: string)
    : (r: map<string, Value>)
    ensures "train_settings" in r && r["train_settings"] == Settings(settings)
    ensures "pdfs_used" in r && r["pdfs_used"] == Names(pdfsUsed)
    ensures "annotations" in r ==> FirstXlsx(annotationListing).Some?
  {
    var base := map["project_name" := Str(projectName), "train_settings" := Settings(settings),
                    "pdfs_used" := Names(pdfsUsed)];
    var withAnnotations := match FirstXlsx(annotationListing)
      case None => base
      case Some(k) => base["annotations" := Frame(annotationDir + "/" + annotationListing[k])];
    withAnnotations["kpis" := Frame(mappingDir + "/kpi_mapping.csv")]
  }

  /** The record holds only the five summary keys, always all but `annotations`,
      and `annotations` exactly when some annotation file is an `.xlsx`, read from
      the first one listed. */
  lemma TrainRecordKeys(projectName: string, settings: MainSettings, pdfsUsed: seq<string>,
                        annotationDir: string, annotationListing: seq<string>, mappingDir: string)
    ensures var r := TrainRecord(projectName, settings, pdfsUsed, annotationDir, annotationListing, mappingDir);
            && r.Keys <= TRAIN_INFO_KEYS
            && TRAIN_INFO_KEYS - {"annotations"} <= r.Keys
            && ("annotations" in r <==> exists i :: 0 <= i < |annotationListing| && IsXlsx(annotationListing[i]))
            && r["project_name"] == Str(projectName)
            && r["kpis"] == Frame(mappingDir + "/kpi_mapping.csv")
  {
    var r := TrainRecord(projectName, settings, pdfsUsed, annotationDir, annotationListing, mappingDir);
    var base := map["project_name" := Str(projectName), "train_settings" := Settings(settings),
                    "pdfs_used" := Names(pdfsUsed)];
    assert base.Keys == {"project_name", "train_settings", "pdfs_used"};
    match FirstXlsx(annotationListing)
    case None =>
      assert r.Keys == TRAIN_INFO_KEYS - {"annotations"};
    case Some(k) =>
      assert IsXlsx(annotationListing[k]);
      assert r.Keys == TRAIN_INFO_KEYS;
  }

  /** The annotations entry is the table read from the first `.xlsx` listed. */
  lemma TrainRecordAnnotations(projectName: string, settings: MainSettings, pdfsUsed: seq<string>,
                               annotationDir: string, annotationListing: seq<string>, mappingDir: string, k: nat)
    requires k < |annotationListing| && IsXlsx(annotationListing[k])
    requires forall i :: 0 <= i < k ==> !IsXlsx(annotationListing[i])
    ensures var r := TrainRecord(projectName, settings, pdfsUsed, annotationDir, annotationListing, mappingDir);
            "annotations" in r && r["annotations"] == Frame(annotationDir + "/" + annotationListing[k])
  {
    var f := FirstXlsx(annotationListing);
    assert f.Some?;
    assert f.value == k;
  }

  /** Names listed after the first `.xlsx` do not change which one is read. */
  lemma {:induction false} LaterXlsxIgnored(front: seq<string>, rest: seq<string>, from: nat)
    requires from <= |front| && FirstXlsxFrom(front, from).Some?
    ensures FirstXlsxFrom(front + rest, from) == FirstXlsxFrom(front, from)
    decreases |front| - from
  {
    assert (front + rest)[from] == front[from];
    if !IsXlsx(front[from]) {
      LaterXlsxIgnored(front, rest, from + 1);
    }
  }

  /** The three store downloads `save_train_info` issues first when the store is in use. */
  function TrainingDownloads(projectName: string, s3Usage: bool, s3c: S3Client,
                             s3Settings: S3Settings, paths: ProjectPaths): (d: seq<Event>)
    ensures forall e :: e in d ==> e.Download?
    ensures |d| == (if s3Usage then 3 else 0)
  {
    var projectPrefix := s3Settings.prefix + "/" + projectName + "/data";
    if s3Usage
    then [Download(s3c, projectPrefix + "/input/kpi_mapping", paths.folderSourceMapping),
          Download(s3c, projectPrefix + "/input/annotations", paths.folderSourceAnnotation),
          Download(s3c, projectPrefix + "/input/pdfs/training", paths.folderSourcePdf)]
    else []
  }

  /** The local enumerations and table reads between the downloads and the upload. */
  function LocalReads(paths: ProjectPaths, annotationListing: seq<string>): (m: seq<Event>)
    ensures forall e :: e in m ==> !e.Download? && !e.Upload?
  {
    [ListDir(paths.folderSourcePdf), ListDir(paths.folderSourceAnnotation)]
    + (match FirstXlsx(annotationListing)
       case None => []
       case Some(k) => [ReadExcel(paths.folderSourceAnnotation + "/" + annotationListing[k])])
    + [ReadCsv(paths.folderSourceMapping + "/kpi_mapping.csv")]
  }

  /** The upload of the dumped summary, issued only when the store is in use. */
  function SummaryUpload(projectName: string, s3Usage: bool, s3c: S3Client, settings: MainSettings,
                         s3Settings: S3Settings, paths: ProjectPaths): (u: seq<Event>)
    ensures forall e :: e in u ==> e.Upload?
    ensures |u| == (if s3Usage then 1 else 0)
  {
    var name := SummaryName(settings.relevanceModelName, settings.kpiModelName);
    if s3Usage
    then [Upload(s3c, paths.projectModelFolder + "/" + name, ModelsPrefix(s3Settings.prefix, projectName), name)]
    else []
  }

  /** The external calls of one `save_train_info` run, in order. */
  function TrainInfoTrace(projectName: string, s3Usage: bool, s3c: S3Client, settings: MainSettings,
                          s3Settings: S3Settings, paths: ProjectPaths, annotationListing: seq<string>)
    : seq<Event>
  {
    TrainingDownloads(projectName, s3Usage, s3c, s3Settings, paths)
    + (LocalReads(paths, annotationListing)
       + SummaryUpload(projectName, s3Usage, s3c, settings, s3Settings, paths))
  }

  /** With the store in use, exactly three downloads come before any listing and one
      upload follows, whose key is the summary's local file name; without it, no
      store call is made. */
  lemma TrainInfoTraceShape(projectName: string, s3Usage: bool, s3c: S3Client, settings: MainSettings,
                            s3Settings: S3Settings, paths: ProjectPaths, annotationListing: seq<string>)
    ensures var t := TrainInfoTrace(projectName, s3Usage, s3c, settings, s3Settings, paths, annotationListing);
            var name := SummaryName(settings.relevanceModelName, settings.kpiModelName);
            && CountDownloads(t) == (if s3Usage then 3 else 0)
            && CountUploads(t) == (if s3Usage then 1 else 0)
            && DownloadsBeforeListings(t)
            && (forall e :: e in t && e.Upload? ==>
                  e.s3Key == name && e.filePath == paths.projectModelFolder + "/" + name
                  && e.s3Prefix == ModelsPrefix(s3Settings.prefix, projectName))
  {
    var u := SummaryUpload(projectName, s3Usage, s3c, settings, s3Settings, paths);
    ThreePartTrace(TrainingDownloads(projectName, s3Usage, s3c, s3Settings, paths),
                   LocalReads(paths, annotationListing), u);
  }

  /** The annotation loop of `save_train_info`: the first `.xlsx` name clears the
      `first` flag and is read into `annotations`; later ones are skipped. */
  method AddFirstAnnotations(host: Host, annotationDir: string, annotationListing: seq<string>,
                             dirTrain: map<string, Value>)
    returns (dirTrain': map<string, Value>)
    modifies host
    ensures host.dirs == old(host.dirs)
    ensures FirstXlsx(annotationListing).None? ==> dirTrain' == dirTrain && host.trace == old(host.trace)
    ensures FirstXlsx(annotationListing).Some? ==>
              var path := annotationDir + "/" + annotationListing[FirstXlsx(annotationListing).value];
              dirTrain' == dirTrain["annotations" := Frame(path)] && host.trace == old(host.trace) + [ReadExcel(path)]
  {
    dirTrain' := dirTrain;
    ghost var chosen: nat := 0;
    var first := true;
    for i := 0 to |annotationListing|
      invariant first <==> forall j :: 0 <= j < i ==> !IsXlsx(annotationListing[j])
      invariant first ==> dirTrain' == dirTrain && host.trace == old(host.trace)
      invariant !first ==> chosen < i && IsXlsx(annotationListing[chosen])
      invariant !first ==> forall j :: 0 <= j < chosen ==> !IsXlsx(annotationListing[j])
      invariant !first ==>
                  var path := annotationDir + "/" + annotationListing[chosen];
                  dirTrain' == dirTrain["annotations" := Frame(path)] && host.trace == old(host.trace) + [ReadExcel(path)]
      invariant host.dirs == old(host.dirs)
    {
      var filename := annotationListing[i];
      if IsXlsx(filename) {
        if first {
          var path := annotationDir + "/" + filename;
          host.Record(ReadExcel(path));
          dirTrain' := dirTrain'["annotations" := Frame(path)];
          chosen := i;
          first := false;
        }
      }
    }
    if !first {
      var f := FirstXlsx(annotationListing);
      assert f.Some?;
      assert f.value == chosen;
    }
  }

  /** The downloads at the head of `save_train_info`: mapping, annotations and
      training pdfs, each into its local folder, when the store is in use. */
  method DownloadTrainingInputs(host: Host, projectName: string, s3Usage: bool, s3cMain: S3Client,
                                s3Settings: S3Settings, paths: ProjectPaths)
    modifies host
    ensures host.dirs == old(host.dirs)
    ensures host.trace == old(host.trace) + TrainingDownloads(projectName, s3Usage, s3cMain, s3Settings, paths)
  {
    if s3Usage {
      var projectPrefix := s3Settings.prefix + "/" + projectName + "/data";
      host.Record(Download(s3cMain, projectPrefix + "/input/kpi_mapping", paths.folderSourceMapping));
      host.Record(Download(s3cMain, projectPrefix + "/input/annotations", paths.folderSourceAnnotation));
      host.Record(Download(s3cMain, projectPrefix + "/input/pdfs/training", paths.folderSourcePdf));
    }
  }

  /** The record `save_train_info` builds, field by field, with the reads it makes. */
  method CollectTrainRecord(host: Host, projectName: string, mainSettings: MainSettings, paths: ProjectPaths,
                            pdfListing: seq<string>, annotationListing: seq<string>)
    returns (dirTrain: map<string, Value>)
    modifies host
    ensures host.dirs == old(host.dirs)
    ensures host.trace == old(host.trace) + LocalReads(paths, annotationListing)
    ensures dirTrain == TrainRecord(projectName, mainSettings, pdfListing, paths.folderSourceAnnotation,
                                    annotationListing, paths.folderSourceMapping)
  {
    dirTrain := map[];
    dirTrain := dirTrain["project_name" := Str(projectName)];
    dirTrain := dirTrain["train_settings" := Settings(mainSettings)];
    host.Record(ListDir(paths.folderSourcePdf));
    dirTrain := dirTrain["pdfs_used" := Names(pdfListing)];
    host.Record(ListDir(paths.folderSourceAnnotation));
    dirTrain := AddFirstAnnotations(host, paths.folderSourceAnnotation, annotationListing, dirTrain);
    var kpiPath := paths.folderSourceMapping + "/kpi_mapping.csv";
    host.Record(ReadCsv(kpiPath));
    dirTrain := dirTrain["kpis" := Frame(kpiPath)];
  }

  /** The end of `save_train_info`: the record is dumped under the summary name in
      the project's model folder and, when the store is in use, uploaded. */
  method StoreSummary(host: Host, projectName: string, s3Usage: bool, s3cMain: S3Client,
                      mainSettings: MainSettings, s3Settings: S3Settings, paths: ProjectPaths,
                      dirTrain: map<string, Value>)
    requires paths.projectModelFolder in host.dirs
    modifies host
    ensures host.dirs == old(host.dirs)[paths.projectModelFolder :=
              old(host.dirs)[paths.projectModelFolder][SummaryName(mainSettings.relevanceModelName, mainSettings.kpiModelName) :=
                Pickled(dirTrain)]]
    ensures host.trace == old(host.trace) + SummaryUpload(projectName, s3Usage, s3cMain, mainSettings, s3Settings, paths)
  {
    var relevanceModel := mainSettings.relevanceModelName;
    var kpiModel := mainSettings.kpiModelName;
    var nameOut := paths.projectModelFolder + "/" + SummaryName(relevanceModel, kpiModel);
    host.Put(paths.projectModelFolder, SummaryName(relevanceModel, kpiModel), Pickled(dirTrain));
    if s3Usage {
      host.Record(Upload(s3cMain, nameOut, ModelsPrefix(s3Settings.prefix, projectName),
                         SummaryName(relevanceModel, kpiModel)));
    }
  }

  /** `save_train_info`: `pdfListing` and `annotationListing` are what `os.listdir`
      returns for the pdf and annotation folders, in its order. Returns nothing. */
  method SaveTrainInfo(host: Host, projectName: string, s3Usage: bool, s3cMain: S3Client,
                       mainSettings: MainSettings, s3Settings: S3Settings, paths: ProjectPaths,
                       pdfListing: seq<string>, annotationListing: seq<string>)
    requires paths.projectModelFolder in host.dirs
    modifies host
    ensures host.dirs == old(host.dirs)[paths.projectModelFolder :=
              old(host.dirs)[paths.projectModelFolder][SummaryName(mainSettings.relevanceModelName, mainSettings.kpiModelName) :=
                Pickled(TrainRecord(projectName, mainSettings, pdfListing, paths.folderSourceAnnotation,
                                    annotationListing, paths.folderSourceMapping))]]
    ensures host.trace == old(host.trace)
              + TrainInfoTrace(projectName, s3Usage, s3cMain, mainSettings, s3Settings, paths, annotationListing)
  {
    DownloadTrainingInputs(host, projectName, s3Usage, s3cMain, s3Settings, paths);
    var dirTrain := CollectTrainRecord(host, projectName, mainSettings, paths, pdfListing, annotationListing);
    StoreSummary(host, projectName, s3Usage, s3cMain, mainSettings, s3Settings, paths, dirTrain);
    AppendThree(old(host.trace), TrainingDownloads(projectName, s3Usage, s3cMain, s3Settings, paths),
                LocalReads(paths, annotationListing),
                SummaryUpload(projectName, s3Usage, s3cMain, mainSettings, s3Settings, paths));
  }
}
