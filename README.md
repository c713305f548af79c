# Relevance-output merger and training-file helpers, in Dafny

This project models the file-handling core of the KPI data-extraction pipeline:

- `generate_text_3434` (in `data_extractor/code/utils/merger.py`) merges the per-document
  relevance-inference CSV files of a project into one training file, `text_3434.csv`.
  The merged file keeps only the first file's header. The inputs can be downloaded from
  the object store beforehand and the result uploaded afterwards.
- The `Merger` class of the same file holds the settings and the two store clients
  (main bucket and interim bucket).
- The helpers of `data_extractor/code/utils/utils.py`:
  - `copy_file_without_overwrite` copies a folder into another without replacing files;
  - `link_files` hard-links a whole folder into another;
  - `link_extracted_files` copies the extraction `.json` of every listed pdf;
  - `save_train_info` writes the training summary record and optionally uploads it.

The model is split into four modules:

- `Config` (`config.dfy`) holds the settings records, the local folder layout and the
  remote prefixes built with `pathlib` joins.
- `Runtime` (`runtime.dfy`) models the world the code runs in.
  - A `Host` object holds the local disk as folders of named files (`dirs`).
  - It also holds a `trace` of the calls made outside the disk: store downloads and
    uploads, directory listings, globs and table reads.
  - The environment is a map from variable names to values.
- `Merging` (`merger.dfy`) models `merger.py`.
- `Utils` (`utils.dfy`) models `utils.py`.

Each operation that changes the disk step by step is a method with loops. Each such
method is proved against a specification function: `Merged`, `CopiedWithoutOverwrite`,
`LinkedSoFar`, `TrainRecord`, `MergeTrace` or `TrainInfoTrace`. Lemmas then prove what
the code promises about those functions.

With no `*.csv` input the code opens `text_3434.csv` for writing
(`data_extractor/code/utils/merger.py:78`) before it globs (`merger.py:80`). The output
therefore exists and is empty when the function returns false; `GenerateText3434` states
this, since `Merged(files, [])` is empty.

## Model

| member | source | states |
|---|---|---|
| Config.Join | data_extractor/code/utils/merger.py:75 | `Path(base) / segment` for a segment without separators: the base, a `/`, then the segment; an empty part on either side contributes nothing. |
| Config.RelevancePrefix | data_extractor/code/utils/merger.py:75 | The download prefix is `<prefix>/<project>/data/output/RELEVANCE/Text`. An empty store prefix or project name contributes nothing, as an empty part of a `Path` does. |
| Config.InterimMlPrefix | data_extractor/code/utils/merger.py:105 | The upload prefix of the merged file is `<prefix>/<project>/data/interim/ml`, with the same empty-part rule. |
| Config.ModelsPrefix | data_extractor/code/utils/utils.py:65 | The upload prefix of the summary is `<prefix>/<project>/models`, with the same empty-part rule. |
| Runtime.Getenv | data_extractor/code/utils/merger.py:32-37 | `os.getenv`: a value exactly when the variable is set, and then the variable's value. |
| Runtime.Connect | data_extractor/code/utils/merger.py:68-73 | A client built from one bucket's settings has each credential exactly when the environment variable named for it is set (also merger.py:99-104). |
| Merging.FailureIndex | data_extractor/code/utils/merger.py:85-96 | Gives the position of the first listed input that cannot be opened or read to its end. Every earlier input reads cleanly and that one does not; the list length means none fails. |
| Merging.StopsAtFirstFailure | data_extractor/code/utils/merger.py:85-96 | When input i is the first that raises, the merge fails and the output holds exactly what inputs 0..i contributed. |
| Merging.RunsThrough | data_extractor/code/utils/merger.py:85-96 | When every listed input reads cleanly, the merge succeeds and the output is the concatenation of all of them. |
| Merging.ConcatenatedSnoc | data_extractor/code/utils/merger.py:87-95 | One more input appends all its lines when it is the very first, and all but its first line otherwise. |
| Merging.MergeStep | data_extractor/code/utils/merger.py:87-95 | The output after i + 1 inputs extends the output after i inputs by what input i contributes. |
| Merging.PartialOutputKeepsEarlierFiles | data_extractor/code/utils/merger.py:85-96 | After a failure the output is not rolled back. It holds every line of the earlier inputs, then what was read of the failing one. |
| Merging.LineCount | data_extractor/code/utils/merger.py:87-95 | With k non-empty inputs, the output has the sum of their line counts minus k - 1 lines. |
| Merging.HeaderOnce | data_extractor/code/utils/merger.py:87-95 | When every input starts with the same header and has no other copy of it, the output starts with that header and holds it exactly once. |
| Merging.EmptyFirstFileDropsAllHeaders | data_extractor/code/utils/merger.py:87-95 | An empty first input still clears `very_first`. Every later header is then dropped, so no header reaches the output. |
| Merging.RelevanceDownload | data_extractor/code/utils/merger.py:67-76 | The pre-merge download happens exactly once when the store is used, and never otherwise. |
| Merging.MergedUpload | data_extractor/code/utils/merger.py:98-108 | The upload happens exactly once when the store is used and the merge succeeded, and never otherwise. |
| Merging.MergeTraceShape | data_extractor/code/utils/merger.py:67-108 | The trace of a merge has one download when the store is used (otherwise none), issued before the glob. It has one upload exactly when the store is used and the merge succeeded; that upload's key is `text_3434.csv` and its prefix is the interim prefix. |
| Merging.WriteLines | data_extractor/code/utils/merger.py:89-93 | The inner loop writes all of an input's lines while `very_first` holds, and all but the first otherwise. The output file on disk follows every write. |
| Merging.MergeInputs | data_extractor/code/utils/merger.py:85-96 | The `try` block returns true exactly when the merge succeeds. The output file holds `Merged(files, found)` whether or not it does. |
| Merging.GenerateText3434 | data_extractor/code/utils/merger.py:54-108 | Returns true exactly when at least one input is listed and every input reads cleanly. The output file (opened with truncation) holds the merged lines, no other file changes, and the calls outside the disk are exactly `MergeTrace`. |
| Merging.Merger.constructor | data_extractor/code/utils/merger.py:15-24 | Keeps the three settings objects; both clients start absent. |
| Merging.Merger.SetupS3Usage | data_extractor/code/utils/merger.py:26-29 | With the store in use, both clients are built from the environment for their own buckets, so they are present together. Otherwise neither field changes. |
| Merging.Merger.ReturnS3CommunicationMain | data_extractor/code/utils/merger.py:31-37 | Each of the client's four fields (endpoint, access key, secret key, bucket) is the `os.getenv` lookup of the variable the main bucket's settings name for it. |
| Merging.Merger.ReturnS3CommunicationInterim | data_extractor/code/utils/merger.py:39-45 | The same four lookups for the interim bucket. |
| Merging.Merger.DownloadInferenceRelatedFilesFromS3 | data_extractor/code/utils/merger.py:47-50 | With a main client: one download of the relevance prefix into the relevance folder through it. Without one (never set up, or `s3_usage` false) the call on `None` raises `AttributeError` and no call is made. The local disk is untouched either way. |
| Utils.CopiedWithoutOverwrite | data_extractor/code/utils/utils.py:75-84 | The result's names are those of both folders. Destination files are kept and every other source file is added. |
| Utils.CopyIsUnionKeepingDest | data_extractor/code/utils/utils.py:82-83 | Copying without overwrite is the map union in which the destination wins, and repeating the copy changes nothing. |
| Utils.CopyFileWithoutOverwrite | data_extractor/code/utils/utils.py:75-84 | For any listing order, the destination becomes `CopiedWithoutOverwrite(src, dest)`, no other folder changes, and the result is true. |
| Utils.LinkFiles | data_extractor/code/utils/utils.py:86-89 | The call raises exactly when the two folders share a name. If it returns, the destination gains every source file. If it raises, the error is `FileExistsError` on a shared name, and the destination lies between its old content and the full union. |
| Utils.ExtractedPdfs | data_extractor/code/utils/utils.py:93 | The `extracted_pdfs` list as a set: every name in it ends in `.pdf`. |
| Utils.PdfNameOf | data_extractor/code/utils/utils.py:93 | `name[:-5] + ".pdf"` ends in `.pdf`. |
| Utils.JsonNameOf | data_extractor/code/utils/utils.py:96 | `pdf[:-4] + ".json"` ends in `.json`. |
| Utils.JsonPdfRoundTrip | data_extractor/code/utils/utils.py:93-96 | A `.json` name maps to its pdf and back to itself. |
| Utils.PdfJsonRoundTrip | data_extractor/code/utils/utils.py:93-96 | A `.pdf` name maps to its `.json` and back to itself. |
| Utils.WantedHasItsPdf | data_extractor/code/utils/utils.py:93-96 | Every extraction name looked for maps back to a pdf in the pdf folder. |
| Utils.WantedInJsonFolder | data_extractor/code/utils/utils.py:93-96 | When the extraction folder holds only `.json` names, the names looked for are exactly the extractions whose pdf is listed, so all of them exist. |
| Utils.StrayNameIsLookedForUnderAnotherName | data_extractor/code/utils/utils.py:93-103 | A non-`.json` name (`notes.txt`) makes the loop look for a file (`note.json`) that is not in the extraction folder. |
| Utils.LinkStep | data_extractor/code/utils/utils.py:94-103 | Handling one more pdf either skips it, finds its extraction already in the destination, copies it, or finds it missing from both folders. |
| Utils.LinkedSoFarGrows | data_extractor/code/utils/utils.py:94-103 | Handling more pdfs only adds files, and keeps every file the destination had. |
| Utils.LinkedNamesHaveTheirPdf | data_extractor/code/utils/utils.py:94-103 | Every file the loop added is an extraction whose pdf was handled. |
| Utils.LinkExtractedFiles | data_extractor/code/utils/utils.py:92-104 | For any listing order: the call raises exactly when a looked-for extraction is in neither folder, with `FileNotFoundError` on that name. Otherwise it returns true and the destination is `LinkedSoFar`. Every added file is an extraction whose pdf is listed. |
| Utils.IsXlsx | data_extractor/code/utils/utils.py:47 | `filename[-5:] == '.xlsx'` holds exactly when the name ends in `.xlsx`; a name shorter than five characters never does. |
| Utils.FirstXlsxFrom | data_extractor/code/utils/utils.py:45-50 | Finds the first name from a position on whose last five characters are `.xlsx`; none when there is no such name. |
| Utils.SummaryName | data_extractor/code/utils/utils.py:59 | The summary's name is `"SUMMARY_REL_" + rel + "_KPI_" + kpi + ".pickle"`: its parts sit at those positions and its length is the two model names' plus 24. The upload key at utils.py:66 is the same name. |
| Utils.TrainRecord | data_extractor/code/utils/utils.py:39-51 | The dumped record holds the main settings under `train_settings` and the pdf listing under `pdfs_used`, and holds `annotations` only when some annotation file is an `.xlsx`. |
| Utils.TrainRecordKeys | data_extractor/code/utils/utils.py:39-51 | The record holds `project_name`, `train_settings`, `pdfs_used` and `kpis` always, plus `annotations` exactly when some annotation file is an `.xlsx`, and no other key. |
| Utils.TrainRecordAnnotations | data_extractor/code/utils/utils.py:45-50 | `annotations` is the table read from the first `.xlsx` listed. |
| Utils.LaterXlsxIgnored | data_extractor/code/utils/utils.py:45-50 | Names listed after the first `.xlsx` do not change which one is read. |
| Utils.TrainingDownloads | data_extractor/code/utils/utils.py:32-37 | Three downloads when the store is used, none otherwise. |
| Utils.SummaryUpload | data_extractor/code/utils/utils.py:63-66 | One upload when the store is used, none otherwise. |
| Utils.TrainInfoTraceShape | data_extractor/code/utils/utils.py:32-66 | The trace has three downloads (issued before any listing) and one upload when the store is used, and none of either otherwise. The upload's key is the summary's file name, its file is that name in the model folder, and its prefix is `<prefix>/<project>/models`. |
| Utils.AddFirstAnnotations | data_extractor/code/utils/utils.py:45-50 | The `first`-flag loop reads only the first `.xlsx` listed and stores it under `annotations`; with no `.xlsx` the record and the trace are unchanged. |
| Utils.DownloadTrainingInputs | data_extractor/code/utils/utils.py:32-37 | Records exactly the three downloads when the store is used, and leaves the disk unchanged. |
| Utils.CollectTrainRecord | data_extractor/code/utils/utils.py:39-51 | Builds exactly `TrainRecord` and records the two listings and the table reads in order. |
| Utils.StoreSummary | data_extractor/code/utils/utils.py:53-66 | Writes the record as `SUMMARY_REL_<rel>_KPI_<kpi>.pickle` in the model folder, and uploads it when the store is used. |
| Utils.SaveTrainInfo | data_extractor/code/utils/utils.py:14-68 | The model folder gains, or has replaced, the summary file holding `TrainRecord`; nothing else on disk changes. The calls outside the disk are exactly `TrainInfoTrace`. |

## Left out

- Object-store transfers are recorded as calls only. A download adds nothing to the local folders in the model, and no network failure is modelled.
- `os.getenv` reads a map passed in as `env`; the process environment is not modelled.
- Tables read with `pandas` are identified by the path they were read from (`Frame`). Pickling is modelled as storing the record itself in the file.
- Directory listing order is a parameter where the result depends on it (`generate_text_3434`'s glob, `save_train_info`'s listings). Where the result does not depend on it, the next name is an arbitrary choice and the contract holds for every order.
- The glob's `*.csv` filter is not modelled: the listing passed in is taken to be the glob's result.
- `pathlib` normalisation is not modelled. `Join` covers segments without separators, and empty parts; a lone empty path, which `pathlib` prints as `.`, never ends a prefix here.
- Hard-link sharing and permissions are not modelled: `link_files` gives the destination a copy of each file.
- Subfolders inside the folders the helpers list are not modelled; every listed name is a file.
- Write errors on output files are not modelled.
- Folders the code expects to exist are preconditions: the output folder of the merge, the model folder of `save_train_info`, and the folders `copy_file_without_overwrite`, `link_files` and `link_extracted_files` list or write. Opening a file in a missing folder is not modelled.
- Utils.SaveTrainInfo: the pdf and annotation listings are taken as given parameters and the table reads always succeed. The `FileNotFoundError` that `os.listdir` raises on a missing pdf or annotation folder (utils.py:44, 46), and the one `pd.read_csv` raises on a missing `kpi_mapping.csv` (utils.py:51), are not modelled.
- Merging.GenerateText3434: requires that the merged output is not one of its own listed inputs. The code would read back the file it is writing.
- Merging.GenerateText3434: models the output as the sequence of lines written. A last input line without a newline joining the next written line is not modelled.
- `print` output is not modelled.
- Folders are keyed by their path string, so two spellings of one folder are two folders.
- An input that is not a text file is modelled as raising on open; a decoding error part way through a text file is the `readFault` flag.
- `data_extractor/code/utils/settings_handler.py` and `data_extractor/code/model_pipeline/model_pipeline/config_qa_farm_train.py` are configuration only and are not part of this model.
