# Rapid Photo Downloader: rename-and-move, name editor and PPA helper, in Dafny

This project models three parts of Rapid Photo Downloader and proves properties of them.

- **The rename-and-move daemon** (`rapid/renameandmovefile.py`). The daemon takes each downloaded file, sitting under a temporary name, and gives it its generated subfolder and file name. It moves the file there. A clash either fails the download or, under the "add identifier" policy, gets `_1`, `_2`, … appended to the stem. The THM, audio and XMP sidecars follow the file. The session counters advance once a file is placed. When RAW and JPEG synchronisation is on, the `SyncRawJpeg` tracker makes the two halves of a RAW+JPEG pair share one sequence value.
  - The model has three classes: `RenameMoveFileWorker`, `RpdFile` and `FileSystem`.
  - The file system is modelled as a set of existing paths plus a set of destinations that a rename cannot write.
  - The name generators, the metadata reader, `Sequences` and `DownloadsTodayTracker` are inputs to the model, or records of the calls made to them.
- **The file and subfolder name editor** (`raphodo/nameeditor.py`). This part has four pieces:
  - The editor turns a pref list into text (`displayPrefList`). It turns text back into a pref list from the boundaries of the highlighted `<label>` tokens (`generatePrefList`, `_parseTextFragment`). It also locates the token under the cursor (`locatePrefValue`).
  - The highlighter finds the tokens (`find_all`, `highlightBlock`).
  - The preset combo box keeps its rows: built-in presets, custom presets, separators, the "(New Custom Preset)" / "(edited)" header and the action rows.
  - The dialog keeps its cached preset lists (`movePresetToFront`, `saveNewPreset`, `updateExistingPreset`, `clearCustomPresets`).
- **The PPA packaging script's string handling** (`tools/ppa/prepare_source_tarball_and_debian_folder.py`). This covers reading a version off a package name (`extract_version`), checking the built tarball's version (`validate_versions`) and naming the staged `.orig.tar.gz` and its signature (`copy_sources`).

Files:
- `wrappers.dfy`: `Option`.
- `py_str.dfy`: the Python string and path operations the source relies on:
  - `str.split` and `str.join`;
  - `str.find` and `str.endswith`;
  - `str(int)`;
  - `os.path.join`, `os.path.splitext` and the base name.
- `sync_raw_jpeg.dfy`: `SyncRawJpeg`.
- `rename_move_file.dfy`: the worker.
- `pref_editor.dfy`: `PrefEditor`.
- `pref_highlighter.dfy`: `PrefHighlighter`.
- `presets.dfy`:
  - `make_subfolder_menu_entry`;
  - `PresetComboBox`;
  - `CreatePreset`;
  - the preset part of `PrefDialog`.
- `ppa_source.dfy`: the PPA script.

The central results are:
- **Text and pref lists round-trip** (`GeneratedRoundTrip`). Displaying the pref list that `generatePrefList` builds from a text gives back that same text.
- **Highlighter boundaries are tokens** (`HighlightedAreTokens`). Every boundary the highlighter records frames a known `<label>`.
- **RAW+JPEG pairs share a sequence value** (`PairSharesSequence`).
- **Clash handling is characterised in full** (`MoveFile`, `AddUniqueIdentifier`). The identifier picked is the first free candidate above the stored count.
- **Preset reordering keeps each name with its pref list** (`MoveToFrontKeepsPairs`).
- **`extract_version` agrees with its own doctests.** The search is modelled as Python's `re.search`, `$` included.

## Model

| member | source | states |
|---|---|---|
| SyncRawJpegTracker.Added | rapid/renameandmovefile.py:81-88 | Recording a download adds its stem and changes no other stem. The new extension is listed afterwards. A new stem gets exactly `([ext], date_time, sub_seconds, sequence)`. A known stem keeps its time, sub-seconds and sequence. Its extension list gains the new extension at the end when it was not listed. When it was already listed, the whole dictionary is unchanged. |
| SyncRawJpegTracker.Match | rapid/renameandmovefile.py:90-117 | The four outcomes, each with the exact condition for it. No match means the stem is unknown. A datetime mismatch means the time or sub-seconds differ. Already-downloaded means the same time and the extension was already seen. Matching pair means the same time and a new extension. A sequence number comes back exactly in the last two cases, and it is the one stored. |
| SyncRawJpegTracker.AddedWellFormed | rapid/renameandmovefile.py:81-88 | Recording keeps every stem with at least one extension and lists no extension twice. |
| SyncRawJpegTracker.PairSharesSequence | rapid/renameandmovefile.py:81-117 | The second half of a new RAW+JPEG pair matches the first and gets the first's sequence value. The stem then lists both extensions. Offering either half again reports it as already downloaded, with that same sequence. |
| SyncRawJpegTracker.SyncRawJpeg.constructor | rapid/renameandmovefile.py:78-79 | The tracker starts with no photos. |
| SyncRawJpegTracker.SyncRawJpeg.AddDownload | rapid/renameandmovefile.py:81-88 | The tracker's dictionary becomes `Added` of the old one, and stays well formed. |
| SyncRawJpegTracker.SyncRawJpeg.ExtExifDateTime | rapid/renameandmovefile.py:119-124 | For a recorded stem, returns the first extension recorded for it, together with the stem's date/time and sub-seconds. |
| PyStr.Split | raphodo/nameeditor.py:285 | `str.split` on one character gives at least one piece, and no piece contains the separator. |
| PyStr.JoinSplit | raphodo/nameeditor.py:285 | Joining the pieces of a split, with the same separator, gives back the string. |
| PyStr.SplitJoin | raphodo/nameeditor.py:415 | Splitting a join of separator-free pieces gives back the pieces. |
| PyStr.SplitNoSeparator | raphodo/nameeditor.py:285 | A string without the separator splits into itself alone. |
| PyStr.JoinSnoc | raphodo/nameeditor.py:415 | A join is the join of all pieces but the last, then the separator, then the last piece. |
| PyStr.Slice | raphodo/nameeditor.py:326 | Python slicing: the substring for ordered bounds, and the empty string when the upper bound is not above the lower. |
| PyStr.Decimal | rapid/renameandmovefile.py:405-407 | `str(n)` is a non-empty string of decimal digits, with at least two digits from 10 on. |
| PyStr.DecimalInjective | rapid/renameandmovefile.py:405-407 | Different counts give different decimal strings. |
| PyStr.Find | raphodo/nameeditor.py:384 | `str.find` from `start` returns the first occurrence at or after `start`, or -1 exactly when there is none. |
| PyStr.RFind | rapid/renameandmovefile.py:402 | The last index of a character, or -1 when it does not occur. |
| PyStr.PathJoinInjective | rapid/renameandmovefile.py:412-414 | `os.path.join` with the same folder, and relative names that start alike, is injective in the name. |
| PyStr.SplitExt | rapid/renameandmovefile.py:402 | `os.path.splitext`: root plus extension is the path. The extension is empty, or a dot followed by no dot and no slash. |
| PyStr.SplitExtFileName | rapid/renameandmovefile.py:402 | A file name whose stem has a non-dot character and no slash, followed by a one-dot extension, splits exactly into stem and extension. |
| PyStr.BaseName | tools/ppa/prepare_source_tarball_and_debian_folder.py:120 | The base name is a suffix of the path. |
| PyStr.RFindAppend | rapid/renameandmovefile.py:402 | The last occurrence in `a + b` is found in `b` when it occurs there, else in `a`. |
| PyStr.RFindPrefix | rapid/renameandmovefile.py:402 | Cutting a string after its last occurrence keeps that occurrence last. |
| PpaSource.MatchEnd | tools/ppa/prepare_source_tarball_and_debian_folder.py:85 | Where `$` matches: the end of the string, or just before a final newline. |
| PpaSource.VersionStart | tools/ppa/prepare_source_tarball_and_debian_folder.py:85 | The leftmost start from which the rest up to `$` is a version, or None exactly when there is none. |
| PpaSource.ExtractVersion | tools/ppa/prepare_source_tarball_and_debian_folder.py:76-90 | The result is a version and a suffix of the name up to `$`. No earlier start gives a version. None means no suffix of the name is a version. |
| PpaSource.JoinDigitGroups | tools/ppa/prepare_source_tarball_and_debian_folder.py:85 | Digit groups joined by dots contain only digits and dots. |
| PpaSource.VersionChars | tools/ppa/prepare_source_tarball_and_debian_folder.py:85 | A version is made only of digits and dots. |
| PpaSource.NotVersionWithChar | tools/ppa/prepare_source_tarball_and_debian_folder.py:85 | A string holding a character that is neither a digit nor a dot is not a version. |
| PpaSource.ExtractVersionAfterSeparator | tools/ppa/prepare_source_tarball_and_debian_folder.py:76-90 | A version after a character that is neither a digit nor a dot is extracted exactly. |
| PpaSource.ExtractVersionShowInFileManager | tools/ppa/prepare_source_tarball_and_debian_folder.py:80-81 | The first doctest: `show-in-file-manager-1.1.5` gives `1.1.5`. |
| PpaSource.ExtractVersionRapidPhotoDownloader | tools/ppa/prepare_source_tarball_and_debian_folder.py:82-83 | The second doctest: `rapid-photo-downloader-0.9.35` gives `0.9.35`. |
| PpaSource.StripPackageExt | tools/ppa/prepare_source_tarball_and_debian_folder.py:119 | Strips `.tar.gz`'s length off the end, or gives the empty string for a shorter path, as Python's negative slice does. |
| PpaSource.ValidateVersions | tools/ppa/prepare_source_tarball_and_debian_folder.py:118-130 | Gives the expected version when the stripped path ends with it. Otherwise it exits unless the user goes on. Any version returned is the expected one or a real version. |
| PpaSource.ValidateFallsBackToTarballVersion | tools/ppa/prepare_source_tarball_and_debian_folder.py:118-130 | When the versions disagree and the user goes on, the tarball's own version is used. |
| PpaSource.BaseNameOfJoin | tools/ppa/prepare_source_tarball_and_debian_folder.py:120 | The base name of `folder/name` is `name` when the name has no slash. |
| PpaSource.PpaNamesRoundTrip | tools/ppa/prepare_source_tarball_and_debian_folder.py:136-137 | Package and version are read back from the `.orig.tar.gz` name when neither has an underscore. The signature name is the tarball name plus `.asc`. |
| PpaSource.CopySourcesInStaging | tools/ppa/prepare_source_tarball_and_debian_folder.py:133-153 | The path returned lies in the staging folder under the PPA tarball name. |
| PpaSource.PpaTarballName | tools/ppa/prepare_source_tarball_and_debian_folder.py:136 | The name starts with the package and an underscore and ends with `.orig.tar.gz`. It has no slash when the package and version have none. |
| PpaSource.CopySources | tools/ppa/prepare_source_tarball_and_debian_folder.py:133-153 | The path returned ends with the PPA tarball name, whether or not the copy happens. |
| RenameMoveFile.BlankNameArea | rapid/renameandmovefile.py:364-390 | The area reported as blank, for each of the four cases, with the exact condition for each. Nothing is reported exactly when both subfolder and name are non-empty. |
| RenameMoveFile.CandidateInjective | rapid/renameandmovefile.py:392-431 | Different identifiers give different candidate paths. |
| RenameMoveFile.SidecarExtension | rapid/renameandmovefile.py:328-362 | The recorded sidecar extension when there is one, else the default (`.THM`, `.WAV`). |
| RenameMoveFile.SidecarSharesBaseName | rapid/renameandmovefile.py:548-551 | A sidecar named from the file's base name plus its own extension splits back into that base name and extension. |
| RenameMoveFile.CandidateSet | rapid/renameandmovefile.py:392-431 | The candidates with identifiers in `(lo, hi]` are `hi - lo` distinct paths. |
| RenameMoveFile.TakenCandidatesBound | rapid/renameandmovefile.py:392-431 | Taken candidates cannot outnumber the existing files, so the search for a free identifier ends. |
| RenameMoveFile.FileSystem.Rename | rapid/renameandmovefile.py:581-582 | `os.rename` either moves the source to the destination, or fails and changes nothing. |
| RenameMoveFile.FileSystem.Remove | rapid/renameandmovefile.py:503 | `os.remove` deletes the path. |
| RenameMoveFile.RenameMoveFileWorker.constructor | rapid/renameandmovefile.py:189-197 | No duplicate counters and an empty tracker. The sequences and the downloads-today tracker are made from the preferences. |
| RenameMoveFile.RenameMoveFileWorker.NotifyFileAlreadyExists | rapid/renameandmovefile.py:205-251 | Without an identifier the download fails with a "file already exists" problem. With one it is a warning that records the identifier. |
| RenameMoveFile.RenameMoveFileWorker.NotifyDownloadFailureFileError | rapid/renameandmovefile.py:253-267 | The download fails with a copying-error problem. |
| RenameMoveFile.RenameMoveFileWorker.DownloadFileExists | rapid/renameandmovefile.py:269-281 | Asks for an identifier exactly under the add-identifier policy. Otherwise the download fails as already existing. |
| RenameMoveFile.RenameMoveFileWorker.CheckForFatalNameGenerationErrors | rapid/renameandmovefile.py:364-390 | Succeeds exactly when subfolder and name are both non-empty. Otherwise the file fails with the blank area named. |
| RenameMoveFile.RenameMoveFileWorker.ChooseIdentifier | rapid/renameandmovefile.py:402-421 | The identifier is above the stored count. Every candidate between the two exists. The chosen candidate does not exist. The counter is updated and the name and path become the candidate's. |
| RenameMoveFile.RenameMoveFileWorker.AddUniqueIdentifier | rapid/renameandmovefile.py:392-431 | The first free candidate is chosen as above. The rename succeeds exactly when the temp file exists and the target is writable. On success the file is placed with a warning naming `_n`. On failure the download fails with a copying error and no file moves. |
| RenameMoveFile.RenameMoveFileWorker.MoveFile | rapid/renameandmovefile.py:542-605 | Sets path, full name and base name. A free destination is renamed into exactly when possible. A taken destination fails the download with `FileAlreadyExistsNoDownload`. Under add-identifier it is placed under the first free `_n` name instead: the name becomes that candidate's, and the problems gain `UniqueIdentifierAdded("_n")` with a warning, or `DownloadCopyingError` when that rename fails. Otherwise the name is kept. Counters only grow. The result is True only for the direct rename. |
| RenameMoveFile.RenameMoveFileWorker.RenameIntoPlace | rapid/renameandmovefile.py:569-597 | The direct rename: on success the status becomes downloaded, or stays a warning. On failure the download fails with a copying error. |
| RenameMoveFile.RenameMoveFileWorker.LoadMetadata | rapid/renameandmovefile.py:135-153 | Metadata is read once. Success means it is present. Failure adds the bad-metadata problem. |
| RenameMoveFile.RenameMoveFileWorker.GenerateName | rapid/renameandmovefile.py:156-185 | The generated value, or the empty string when metadata is missing or the generator returned None. The generator's problems, or the bad-metadata problem, are added. |
| RenameMoveFile.RenameMoveFileWorker.GenerateNames | rapid/renameandmovefile.py:508-540 | Subfolder, name, success and problems gained are `GeneratedNaming` of the generators. The subfolder is the subfolder generator's value, or blank when the metadata is unreadable or the generator gave None. The name is generated only when the subfolder is not blank; otherwise it keeps its old value. The problems gained are the subfolder generator's (or bad metadata), then the name generator's, then the blank area on failure. Succeeds exactly when both names are non-empty. Failure fails the download. Success with problems marks it a warning. |
| RenameMoveFile.RenameMoveFileWorker.SyncRawJpg | rapid/renameandmovefile.py:433-477 | Metadata that cannot be read fails the file. The problems gained are the bad-metadata problem, then the blank-name-area problem if an area is blank, and the sequences are untouched. Otherwise the sequence to use is the tracker's match. An already-downloaded file fails with `FileAlreadyDownloaded` unless the policy is add-identifier; under add-identifier its status and problems are unchanged. A datetime mismatch is a warning with `SameFileDifferentExif`. A pair or no match leaves the status and problems alone. The matched sequence value is set unless the file was already downloaded. |
| RenameMoveFile.RenameMoveFileWorker.MoveAssociateFile | rapid/renameandmovefile.py:307-326 | The sidecar target is the base name plus the extension. The rename succeeds or changes nothing. |
| RenameMoveFile.RenameMoveFileWorker.MoveThmFile | rapid/renameandmovefile.py:328-342 | The THM file moves next to the file under the THM extension (default `.THM`) when it can. |
| RenameMoveFile.RenameMoveFileWorker.MoveAudioFile | rapid/renameandmovefile.py:344-362 | The audio file moves next to the file under the audio extension (default `.WAV`) when it can. |
| RenameMoveFile.RenameMoveFileWorker.MoveXmpFile | rapid/renameandmovefile.py:658-669 | The XMP file moves next to the file, and its name is recorded only when the rename succeeded. |
| RenameMoveFile.RenameMoveFileWorker.MoveSidecars | rapid/renameandmovefile.py:652-669 | The file system is the old one after the THM, audio and XMP steps in turn: each recorded temporary sidecar that exists is renamed to its target when the target can be written. The THM and audio names are recorded whenever there is a temporary sidecar. The XMP name is recorded exactly when its rename happened. |
| RenameMoveFile.RenameMoveFileWorker.PrepareRpdFile | rapid/renameandmovefile.py:479-491 | The download folder is `DownloadFolder(prefs, fileType)`: the photo folder for a photo, the video folder otherwise. |
| RenameMoveFile.RenameMoveFileWorker.AdvanceCounters | rapid/renameandmovefile.py:641-650 | One sequence increment (when a session number or letter is used), one stored-number step (when used) and one downloads-today increment. |
| RenameMoveFile.RenameMoveFileWorker.PlaceFile | rapid/renameandmovefile.py:607-630 | The folder is `DownloadFolder(prefs, fileType)`. The subfolder, name and problems are `NamingOf` the pairing tracker and the generators (`PlacedAsNamed`). A file that is not named keeps its old subfolder and name, gains the naming problems and is not moved. A named file is moved as `MovedAs` states. A placed file has non-empty names, sits at its destination, is downloaded or a warning, and the temporary file is replaced by it. Otherwise the download failed and nothing moved, or the file went in under an identifier with a warning and the `UniqueIdentifierAdded` problem. Sidecar names are untouched. With synchronisation, the tracker's answer is kept for the bookkeeping. |
| RenameMoveFile.RenameMoveFileWorker.NameFile | rapid/renameandmovefile.py:612-622 | Success, subfolder, name and problems gained are `NamingOf` the pairing tracker and the generators. A tracker refusal (unreadable metadata, or already downloaded without add-identifier) ends naming with the refusal's problems. Otherwise the pairing problems come first, then the generators'. The metadata is loaded once. A file that is not named has failed. With synchronisation, the tracker's answer for the photo is returned. The session counters are not touched. |
| RenameMoveFile.RenameMoveFileWorker.CheckPairing | rapid/renameandmovefile.py:614-618 | `sync_raw_jpg` as `process_file` uses it: the file fails exactly when `PairingRefusal` refuses it, with the refusal's problems. Otherwise the metadata is present, the pairing problems are added, and the tracker's sequence value and the photo's name and extension are returned. |
| RenameMoveFile.NamedIsGenerated | rapid/renameandmovefile.py:607-630 | A file is named exactly when the metadata loaded, both generators gave non-empty values, and a synchronised photo was not already downloaded under a policy other than add-identifier. A named file's subfolder and name are the generators' values, and its problems are the pairing problems followed by the two generators' problems. |
| RenameMoveFile.PlacedIsGenerated | rapid/renameandmovefile.py:607-630 | A file `process_file` placed has metadata, the subfolder and name its generators gave, sits at `Destination(folder, subfolder, name)`, and gained exactly the pairing problems and the generators' problems. |
| RenameMoveFile.BlankAreaProblems | rapid/renameandmovefile.py:364-390 | No blank-area problem exactly when both subfolder and name are non-empty. |
| RenameMoveFile.RenameMoveFileWorker.MoveNamedFile | rapid/renameandmovefile.py:622-623 | `move_file`'s three outcomes as `process_file` sees them (`MovedAs`): placed at `Destination(folder, subfolder, name)` with the problems unchanged and the temporary file gone; failed with nothing moved and the problem `MoveProblem` names; or placed under the identifier candidate with a warning while the result is False. |
| RenameMoveFile.RenameMoveFileWorker.RecordPlacement | rapid/renameandmovefile.py:632-669 | A synchronised file is recorded in the tracker with the matched sequence, or a fresh one. The counters advance exactly when no matched sequence was reused. The file system is the old one after the three sidecar steps, and the sidecar names are as `MoveSidecars` states. |
| RenameMoveFile.RenameMoveFileWorker.ProcessFile | rapid/renameandmovefile.py:607-672 | The folder, subfolder, name and problems are as `PlaceFile` states, in terms of the state before the call (`PlacedAsNamed` of `NamingOf`). A placed file is downloaded at its destination, and the file system is the old one with the temporary file replaced by it, then the three sidecar steps. An unplaced file has failed with nothing moved, or went in under an identifier with a warning, and its sidecars stay. The tracker gains the file exactly when it is synchronised and placed. The counters advance exactly when it is placed and reuses no matched sequence (`CountersAdvanced`). Counters only grow. |
| RenameMoveFile.RenameMoveFileWorker.RecordIfPlaced | rapid/renameandmovefile.py:628-669 | Nothing changes unless the file was placed. For a placed file: the tracker gains it exactly when synchronised, with the reused or the fresh sequence value; the counters advance exactly when no sequence value is reused; the file system goes through the sidecar steps. |
| RenameMoveFile.RenameMoveFileWorker.ProcessRenameFailure | rapid/renameandmovefile.py:493-506 | The temporary file is deleted. |
| RenameMoveFile.RenameMoveFileWorker.HandleMessage | rapid/renameandmovefile.py:743-844 | There is a reply exactly for messages other than `download_started`, and it answers that message. `download_started` reloads the preferences and makes fresh sequences and tracker. `download_completed` replies with the session `Sequences`' stored number and the tracker, and changes nothing else. A file message replies for that file with its metadata cleared. A failed download changes nothing. A succeeded download relays `process_file`: counters, pairing tracker, status and file system for a placed file. An unplaced file ends with its temporary copy removed. |
| RenameMoveFile.RenameMoveFileWorker.Run | rapid/renameandmovefile.py:743-844 | The replies answer the messages other than `download_started`, one for one and in order: a session result for `download_completed`, and for a file message a reply with that file and count that is never a success for a failed download. Every file handed back has its metadata cleared. |
| RenameMoveFile.Answered | rapid/renameandmovefile.py:776-838 | The messages answered are messages of the run, and none is a `download_started`. |
| RenameMoveFile.AnsweredStep | rapid/renameandmovefile.py:763-838 | Handling one more message, answered or not, keeps the replies answering the messages handled so far, in order. |
| RenameMoveFile.SidecarsKeepPlacedFile | rapid/renameandmovefile.py:652-669 | After the sidecar steps the placed file is still there and the temporary file has not come back, unless a sidecar's temporary name is the placed file or a sidecar target is the temporary file. |
| RenameMoveFile.ClashScenarioDestination | rapid/renameandmovefile.py:545-549 | The destination of the clash example is `/photos/2024/IMG_0001.JPG`. |
| RenameMoveFile.ClashScenarioExtension | rapid/renameandmovefile.py:402 | `IMG_0001.JPG` splits into `IMG_0001` and `.JPG`. |
| RenameMoveFile.ClashScenarioCandidate | rapid/renameandmovefile.py:402-414 | The first identifier candidate is `/photos/2024/IMG_0001_1.JPG`. |
| RenameMoveFile.AddIdentifierClashScenario | rapid/renameandmovefile.py:542-605 | With the destination taken under add-identifier, the file ends up as `IMG_0001_1.JPG` with a warning, yet `move_file` returns False. |
| NameEditorPrefs.BisectLeft | raphodo/nameeditor.py:209 | `bisect_left`: every boundary before the index is below the key, and none from it on is. |
| NameEditorPrefs.LocatePrefValue | raphodo/nameeditor.py:193-244 | No boundaries means not here. A pref starts at the position exactly when the answer is "at" or "on left and at". Found boundaries are real boundaries. "On left" means one ends just before the position. "Positioned in" means the position is inside one. Unused fields are -1. |
| NameEditorPrefs.AppendAssoc | raphodo/nameeditor.py:262 | Joining displayed texts is associative. |
| NameEditorPrefs.DisplayOne | raphodo/nameeditor.py:246-262 | One triple displays as its own value. |
| NameEditorPrefs.DisplayAppend | raphodo/nameeditor.py:246-262 | Displaying whole triples followed by more shows the two texts one after the other. |
| NameEditorPrefs.DisplayJoin | raphodo/nameeditor.py:246-262 | Displaying two joined pref lists shows their texts one after the other. |
| NameEditorPrefs.TextPrefs | raphodo/nameeditor.py:288-290 | A TEXT triple with one colour. |
| NameEditorPrefs.SeparatorPrefs | raphodo/nameeditor.py:291-293 | A SEPARATOR triple with one colour. |
| NameEditorPrefs.PiecesPrefs | raphodo/nameeditor.py:285-293 | Subfolder pieces give whole triples with one colour each. |
| NameEditorPrefs.FragmentPrefs | raphodo/nameeditor.py:283-295 | What `_parseTextFragment` adds is whole triples with one colour each. |
| NameEditorPrefs.TokenColored | raphodo/nameeditor.py:297-298 | Every token's text has a colour. |
| NameEditorPrefs.TokenPrefs | raphodo/nameeditor.py:320-324 | A token adds one triple and one colour. |
| NameEditorPrefs.Step | raphodo/nameeditor.py:318-328 | A loop turn adds whole triples with one colour each. |
| NameEditorPrefs.Segments | raphodo/nameeditor.py:318-328 | The loop adds whole triples with one colour each. |
| NameEditorPrefs.SegmentsSnoc | raphodo/nameeditor.py:318-328 | Each loop turn extends what the loop has built by one step. |
| NameEditorPrefs.Leading | raphodo/nameeditor.py:313-315 | The leading text adds whole triples. |
| NameEditorPrefs.Trailing | raphodo/nameeditor.py:341-343 | The trailing text adds whole triples. |
| NameEditorPrefs.GeneratedBalanced | raphodo/nameeditor.py:345 | The closing assertion of `generatePrefList` holds: one colour per triple, for every text. |
| NameEditorPrefs.JoinedUpToJoin | raphodo/nameeditor.py:285-293 | The text of the first `n` pieces is their join, plus the separator when more follow. |
| NameEditorPrefs.PieceDisplay | raphodo/nameeditor.py:285-293 | A piece and the separator after it display as the piece and `os.sep`. |
| NameEditorPrefs.PiecesDisplay | raphodo/nameeditor.py:285-293 | The first `n` pieces display as their join so far. |
| NameEditorPrefs.FragmentRoundTrip | raphodo/nameeditor.py:283-295 | Displaying what `_parseTextFragment` makes of a fragment gives back the fragment, in both modes. |
| NameEditorPrefs.TokenRoundTrip | raphodo/nameeditor.py:320-324 | A token's triple displays as the token's text. |
| NameEditorPrefs.StepRoundTrip | raphodo/nameeditor.py:318-328 | A token and the gap after it display as the text up to the next token. |
| NameEditorPrefs.SegmentsRoundTrip | raphodo/nameeditor.py:318-328 | The loop's list displays as the text from the first token to token `n`. |
| NameEditorPrefs.LeadingRoundTrip | raphodo/nameeditor.py:313-315 | The leading list displays as the text before the first token. |
| NameEditorPrefs.TrailingRoundTrip | raphodo/nameeditor.py:330-343 | The trailing list displays as the text after the last token. |
| NameEditorPrefs.GeneratedRoundTrip | raphodo/nameeditor.py:301-347 | Displaying the pref list `generatePrefList` builds gives back the editor's text, for non-overlapping tokens. |
| NameEditorPrefs.FrontRoundTrip | raphodo/nameeditor.py:312-328 | Everything before the last token displays as the text before it. |
| NameEditorPrefs.JoinRoundTrip | raphodo/nameeditor.py:246-262 | Lists displaying as `x` and `y` display, joined, as `x + y`. |
| NameEditorPrefs.BackRoundTrip | raphodo/nameeditor.py:330-343 | The last token and the trailing list display as the text from that token on. |
| NameEditorPrefs.PrefEditor.constructor | raphodo/nameeditor.py:275-281 | The editor with its tables installed and empty lists. |
| NameEditorPrefs.PrefEditor.DisplayPrefList | raphodo/nameeditor.py:246-262 | The document shows the pref list's text, and is unchanged when the list is malformed. |
| NameEditorPrefs.PrefEditor.ParseTextFragment | raphodo/nameeditor.py:283-295 | Appends exactly the fragment's triples and colours. |
| NameEditorPrefs.PrefEditor.AddToken | raphodo/nameeditor.py:330-335 | Appends the token's triple and colour. |
| NameEditorPrefs.PrefEditor.AddSegment | raphodo/nameeditor.py:321-328 | Appends one loop step. |
| NameEditorPrefs.PrefEditor.AddSegments | raphodo/nameeditor.py:318-328 | Appends every step for all tokens but the last. |
| NameEditorPrefs.PrefEditor.AddNextSegment | raphodo/nameeditor.py:318-328 | One turn of the loop moves the lists one step further. |
| NameEditorPrefs.PrefEditor.AddTrailing | raphodo/nameeditor.py:330-343 | Appends the trailing text's triples. |
| NameEditorPrefs.PrefEditor.AddLast | raphodo/nameeditor.py:330-343 | Appends the last token, then the trailing text. |
| NameEditorPrefs.PrefEditor.GeneratePrefList | raphodo/nameeditor.py:301-347 | The lists become the generated pref list and colours, with one colour per triple. |
| NameEditorHighlighter.OccurrencesMatch | raphodo/nameeditor.py:373-388 | The contract of `Occurrences`, the positions `find_all` yields from `start`: every one is a match at or after `start`, and each match begins after the previous one ends. |
| NameEditorHighlighter.OccurrencesComplete | raphodo/nameeditor.py:373-388 | Every match position is covered by a yielded match. |
| NameEditorHighlighter.AllOccurrencesOrdered | raphodo/nameeditor.py:373-388 | The contract of `AllOccurrences`, everything `find_all` yields: matches, increasing and non-overlapping. An empty pattern or no match yields nothing. |
| NameEditorHighlighter.OccurrenceMatches | raphodo/nameeditor.py:373-388 | The `m`-th yielded position is a match. |
| NameEditorHighlighter.RuleBoundariesAreTokens | raphodo/nameeditor.py:390-401 | Every boundary recorded for the rules frames a known `<label>`. |
| NameEditorHighlighter.RuleBoundaryIsToken | raphodo/nameeditor.py:395-399 | Any one recorded boundary frames a known label. |
| NameEditorHighlighter.RuleMatchIsToken | raphodo/nameeditor.py:397-399 | The span of each match of `<label>` frames that label. |
| NameEditorHighlighter.RuleSpanIsToken | raphodo/nameeditor.py:398-399 | A match of `<label>` at `i` spans `i` to `i + len - 1`, framing the label. |
| NameEditorHighlighter.Insert | raphodo/nameeditor.py:399 | `SortedList.add` keeps the list sorted and adds exactly the element. |
| NameEditorHighlighter.InsertAfterHead | raphodo/nameeditor.py:399 | Inserting behind the head keeps the list sorted and adds exactly the element. |
| NameEditorHighlighter.PrefHighlighter.constructor | raphodo/nameeditor.py:357-371 | One rule per label, `<label>` with that text's colour, in label order. No boundaries yet. |
| NameEditorHighlighter.PrefHighlighter.FindAll | raphodo/nameeditor.py:373-388 | The positions are exactly every non-overlapping match, left to right. |
| NameEditorHighlighter.PrefHighlighter.HighlightBlock | raphodo/nameeditor.py:390-401 | The boundaries are sorted and are exactly the spans of every rule's matches. |
| NameEditorHighlighter.PrefHighlighter.AddBoundary | raphodo/nameeditor.py:399 | The pair joins the sorted boundaries. |
| NameEditorHighlighter.PrefHighlighter.AddMatches | raphodo/nameeditor.py:395-399 | The spans of every match of one rule join the sorted boundaries. |
| NameEditorHighlighter.OccurrencesStep | raphodo/nameeditor.py:383-388 | A found match is the next position yielded and the search resumes after it. -1 ends the sequence. |
| NameEditorHighlighter.SpansSnoc | raphodo/nameeditor.py:395-399 | One more match adds its span. |
| NameEditorHighlighter.HighlightedAreTokens | raphodo/nameeditor.py:390-401 | Any boundaries equal, as a multiset, to the recorded ones are all tokens. This is what `generatePrefList` needs from the highlighter. |
| NameEditorPresets.MenuEntryParts | raphodo/nameeditor.py:404-415 | The entry is the description, ` - `, then the elements joined by `os.sep`. The elements split back out. |
| NameEditorPresets.MenuEntries | raphodo/nameeditor.py:632-633 | One menu entry per built-in preset, in order. |
| NameEditorPresets.QtInsertAt | raphodo/nameeditor.py:468-474 | `insertItem` at a row puts the item there and shifts the rest down. |
| NameEditorPresets.QtRemoveAt | raphodo/nameeditor.py:477-484 | `removeItem` at a row removes that row only. |
| NameEditorPresets.Entries | raphodo/nameeditor.py:431-452 | One enabled row per name, in order. |
| NameEditorPresets.EntriesAppend | raphodo/nameeditor.py:431-452 | Rows for two name lists are the rows of each. |
| NameEditorPresets.PlainLayout | raphodo/nameeditor.py:419-456 | Without header or footer the combo box shows just its body. |
| NameEditorPresets.LayoutParts | raphodo/nameeditor.py:419-456 | The rows are: header, built-ins, custom block, actions, footer. |
| NameEditorPresets.LayoutLength | raphodo/nameeditor.py:419-456 | The combo box has the header rows, one row per built-in, a separator plus one row per custom preset when there are any, three action rows and the footer. |
| NameEditorPresets.LayoutBuiltinRow | raphodo/nameeditor.py:435-437 | The `i`-th built-in preset is `i` rows below the header. |
| NameEditorPresets.LayoutCustomRow | raphodo/nameeditor.py:439-449 | With custom presets, a separator follows the built-ins and the `i`-th custom preset is `i` rows below it. |
| NameEditorPresets.HeaderLayout | raphodo/nameeditor.py:486-511 | With a header, the rows are the header line, a separator, the body and the footer. |
| NameEditorPresets.RemoveAllRow | raphodo/nameeditor.py:530-541 | "Remove All Custom Presets..." is the last row, or the second to last when a preset is edited. |
| NameEditorPresets.RemoveCustomBlock | raphodo/nameeditor.py:477-484 | Removing rows `start`..`end` takes out exactly the separator and the custom presets. |
| NameEditorPresets.RemoveRowStep | raphodo/nameeditor.py:482-484 | Removing row `row` continues the bottom-up removal. |
| NameEditorPresets.QtRemoveLast | raphodo/nameeditor.py:524-526 | Removing the last row drops it. |
| NameEditorPresets.ResetRows | raphodo/nameeditor.py:513-528 | Two removals at the top, plus the last row when edited, leave just the body. |
| NameEditorPresets.InsertOnlyCustom | raphodo/nameeditor.py:468-475 | The separator, then the new name, gives the body with that one custom preset. |
| NameEditorPresets.InsertFirstCustom | raphodo/nameeditor.py:472-474 | Inserting after the separator makes the name the first custom preset. |
| NameEditorPresets.FirstCustomPresetSeparatorMisplaced | raphodo/nameeditor.py:458-475 | As written, the first preset added while "(New Custom Preset)" shows leaves the separator between two built-ins, and no separator above the new preset. |
| NameEditorPresets.StaleSeparatorAfterRemoveAll | raphodo/nameeditor.py:477-484 | As written, after "remove all" the next preset added has no separator above it. |
| NameEditorPresets.AddCustomAsWrittenWithoutHeader | raphodo/nameeditor.py:458-475 | The source's steps of `addCustomPreset` (separator when the flag says none, reset when a header shows, insert the name), with no header shown and a truthful flag, give the layout with the new preset first among the custom presets. |
| NameEditorPresets.PresetComboBox.constructor | raphodo/nameeditor.py:419-456 | Built-ins, then a separator and the custom names when there are some, then a separator and the two actions. "Remove all" is enabled exactly when custom presets exist. |
| NameEditorPresets.PresetComboBox.SetRemoveAllCustomEnabled | raphodo/nameeditor.py:530-541 | The row computed from the count is the "remove all" row, which takes the requested state. |
| NameEditorPresets.PresetComboBox.ResetPresetList | raphodo/nameeditor.py:513-528 | The header, its separator and any update row go, leaving the plain body. |
| NameEditorPresets.PresetComboBox.SetPresetNew | raphodo/nameeditor.py:486-494 | Shows and selects "(New Custom Preset)" at the top. It does nothing when already shown. |
| NameEditorPresets.PresetComboBox.SetPresetEdited | raphodo/nameeditor.py:496-511 | Shows and selects "name (edited)" at the top, and "Update Custom Preset" at the bottom. |
| NameEditorPresets.PresetComboBox.AddCustomPreset | raphodo/nameeditor.py:458-475 | The name becomes the first custom preset, shown in the plain layout and selected. |
| NameEditorPresets.PresetComboBox.RemoveRows | raphodo/nameeditor.py:482-484 | The rows from `start` to `end` are gone, and the rest keep their order. |
| NameEditorPresets.PresetComboBox.RemoveAllCustomPresets | raphodo/nameeditor.py:477-484 | The custom presets and their separator are gone, and the header stays. |
| NameEditorPresets.SaveEnabled | raphodo/nameeditor.py:580-584 | Saving is allowed exactly for a non-empty name not already used. |
| NameEditorPresets.SaveKeepsDistinct | raphodo/nameeditor.py:1090-1097 | A name that can be saved keeps the preset names distinct. |
| NameEditorPresets.CreatePreset.constructor | raphodo/nameeditor.py:552-577 | The save button starts disabled. |
| NameEditorPresets.CreatePreset.NameEdited | raphodo/nameeditor.py:580-584 | The save button is enabled exactly for a non-empty, unused name. |
| NameEditorPresets.IndexOf | raphodo/nameeditor.py:1130 | `list.index`: the first position of the element. None exactly when it is absent. |
| NameEditorPresets.IndexOfDistinct | raphodo/nameeditor.py:1130 | In a list without repeats, `index` finds each element at its own position. |
| NameEditorPresets.PopPosition | raphodo/nameeditor.py:1154-1155 | `list.pop(index)` with Python's negative indices: the position removed, or None when `pop` raises. |
| NameEditorPresets.MoveToFront | raphodo/nameeditor.py:1154-1157 | The element comes first, those before it shift back one, and those after it stay. |
| NameEditorPresets.InsertAt | raphodo/nameeditor.py:1156-1157 | `insert` puts the element at the index. |
| NameEditorPresets.MoveToFrontUndone | raphodo/nameeditor.py:1154-1157 | Putting the front element back at its old index restores the list. |
| NameEditorPresets.MoveToFrontPermutes | raphodo/nameeditor.py:1154-1157 | Moving to the front is a permutation. |
| NameEditorPresets.MoveToFrontDistinct | raphodo/nameeditor.py:1154-1157 | Moving to the front keeps the names distinct. |
| NameEditorPresets.PresetOf | raphodo/nameeditor.py:1104-1105 | A name's pref list is found exactly when the name is present. |
| NameEditorPresets.MoveToFrontKeepsPairs | raphodo/nameeditor.py:1139-1160 | Moving both lists the same way keeps every name with its own pref list. |
| NameEditorPresets.AsWrittenMovesActivatedOnlyWhen | raphodo/nameeditor.py:1107-1108 | As written, the preset moved is the activated one only when it is already first, or exactly in the middle. |
| NameEditorPresets.ActivatedMoveIndexAsWritten | raphodo/nameeditor.py:1107-1108 | For a custom preset the index passed is never positive, and it is zero only for the first custom preset. |
| NameEditorPresets.ActivatingSecondOfThreeMovesThird | raphodo/nameeditor.py:1107-1108 | With two built-ins and presets a, b, c, activating b moves c to the front. |
| NameEditorPresets.PrefDialog.constructor | raphodo/nameeditor.py:1196-1203 | The dialog's cached lists are the stored presets, with combined lists built from them. |
| NameEditorPresets.PrefDialog.UpdateCombinedPrefs | raphodo/nameeditor.py:1201-1203 | The combined lists are the built-ins followed by the custom presets. |
| NameEditorPresets.PrefDialog.MovePresetToFront | raphodo/nameeditor.py:1139-1160 | Index 0 or a `pop` that raises changes nothing. Otherwise both lists move the same preset to the front, and the combined and stored lists follow. |
| NameEditorPresets.PrefDialog.UpdateExistingPreset | raphodo/nameeditor.py:1118-1137 | Works exactly when the current preset is saved. The preset gets the new pref list and moves to the front. |
| NameEditorPresets.PrefDialog.SaveNewPreset | raphodo/nameeditor.py:1162-1179 | The new preset comes first, with its pref list. The combined and stored lists follow. |
| NameEditorPresets.PrefDialog.ClearCustomPresets | raphodo/nameeditor.py:1181-1194 | No custom presets remain. No current preset is set. The combined lists are the built-ins. |
| NameEditorPresets.PrefDialog.ActivatePreset | raphodo/nameeditor.py:1103-1108 | Returns the activated preset's pref list. A built-in preset changes nothing. An activated custom preset at combined index `index` makes both lists `MoveToFront` of the old ones at `index - len(builtin_pref_names)`, so it comes first with its own list. The presets are permuted and nothing is lost. |
| NameEditorPresets.MoveToFrontOfFirst | raphodo/nameeditor.py:1154-1157 | Moving the first preset to the front changes nothing. |

## Left out

- **Qt:** painting, text formats, signals and slots, dialogs, button boxes and layouts are not modelled. Rows are plain values with a text, a class and an enabled flag. Setting the combo box's current index is modelled as a field.
- **I/O:**
  - The daemon's zmq messaging, logging, `os.makedirs` and the `os.path.isdir` test are not modelled.
  - `os.path.exists` and `os.rename` are modelled only by the file system abstraction above.
  - A failure to create the subfolder only logs in the source, so leaving it out changes no outcome.
- **Subprocesses and the console:** the PPA script's git, gpg and dpkg steps and its console output are not modelled. `Confirm.ask` is a boolean parameter.
- **Metadata readers and generators:** exiftool and the `gn.*` generators are not modelled. Their results are inputs (`Generation`, `readableMetadata`).
- **`process_renamed_file`** (lines 674-741) is not modelled: thumbnails, QImage and exiftool.
- RenameMoveFile.RenameMoveFileWorker.RecordPlacement: rapid/renameandmovefile.py:631-632 assigns the attribute `self.sequences.create_matched_sequences` without calling it, so the tracker stores the bound method, not a sequence value. The model stores the opaque `freshMatchedSequence` of the file message instead. It does not model what a later reuse of that stored method object would do. The same holds for `RecordIfPlaced`, `ProcessFile` and `HandleMessage`, which relay this value.
- **`Sequences` and `DownloadsTodayTracker`:** their code is not part of this model. The worker records the calls it makes on them. The stored sequence number reported at `download_completed` is read from the session's `Sequences`. The model's `Sequences` record keeps the number it was created with, because whatever `Sequences.increment` does to it inside is not visible here. The visible code advances only `prefs.stored_sequence_no`.
- **`find_all` ending with `raise StopIteration`:** under PEP 479 (Python 3.7 and later) this turns into a RuntimeError when the generator finishes. The model treats it as the plain end of iteration that the code evidently means.
- **`\d` in `extract_version`:** modelled as ASCII digits. Python also matches other Unicode decimal digits.
- **`extract_version` with no match:** the source raises a string, which is itself a TypeError. The model returns `NoVersion`.
- **`_updateCombinedPrefs`** adds `tuple(preset_pref_lists)` to `builtin_pref_lists`. That concatenation raises TypeError when the built-ins are a list (the renaming editors use `[]`). The model concatenates sequences.
- **`get_dist_tarball_and_signature`** and the rest of the PPA script (debian folder, changelog, upload) are not modelled. They are globbing and subprocess work.
- RenameMoveFile.RenameMoveFileWorker.constructor: also creates the `Sequences` and `DownloadsTodayTracker` that the source makes only when `download_started` arrives. A file message before that would hit missing attributes in the source.
- RenameMoveFile.RenameMoveFileWorker.MoveFile: reproduces the source's return value. It gives False after a successful rename under an identifier (see `AddIdentifierClashScenario`), so that file gets no sidecars and no counter advance.
- NameEditorPrefs.GeneratedRoundTrip: assumes that the tokens do not overlap. The highlighter guarantees this only for labels without `<` or `>`, and the model does not prove it.
  - It also assumes `Distinguishable`: the TEXT and SEPARATOR markers differ from each other and from every pref value, and the separator is `os.sep`. Without that, a displayed text could be read back into a different pref list.
- NameEditorPresets.PresetComboBox.constructor: takes the built-in presets as given. The source sets `builtin_presets` only for the photo and video subfolder preset types (lines 429-432). For the file-renaming types the loop at line 435 raises AttributeError, which the model does not reproduce.
- PpaSource.ValidateVersions: works on the path as a raw string, and so does `PpaSource.StripPackageExt`. The source wraps the stripped string in `Path` (lines 119-120), which drops a trailing slash, collapses `//` and removes `.` components before `.name` and `str()` are taken. For such paths the model's base name and suffix test can differ.
- RenameMoveFile.RenameMoveFileWorker.Run: states the replies message by message (kind, file, count, and failure for a failed download), not the whole state threaded through the loop. `HandleMessage` is a method, so its effect on the worker and the file system is stated by its own contract for one message, not by a function that could be folded.
- NameEditorPresets.PrefDialog.ActivatePreset: models only the branch for a built-in or custom preset.
  - Its argument is the combined index. The source finds that index with `combined_pref_names.index`, the first match by text.
  - The other branches (new preset, remove all, update) are sequences of the modelled `AddCustomPreset`, `SaveNewPreset`, `RemoveAllCustomPresets`, `ClearCustomPresets` and `UpdateExistingPreset`.
- **`RpdFile` and `Preferences`** come from `rpdfile.py` and `preferences.py`, which are not part of this model. They hold only the fields used here. `Preferences.set_preset` is a pair of stored lists.
- **`same_name_different_exif`** (lines 283-305): only the problem it records is modelled, not the message text.
- **Integers are unbounded.** Python's are too, so nothing is lost.

## Findings

| source | as written | input that shows it | evidently intended | confidence | as-written member | corrected member |
|---|---|---|---|---|---|---|
| raphodo/nameeditor.py:1107-1108 | `movePresetToFront(index=len(self.builtin_pref_names) - index)` passes zero or a negative index, and `pop` counts negative indices from the end. | Two built-ins and custom presets a, b, c: activating b (combined index 3) passes -1 and moves c to the front. | Pass `index - len(self.builtin_pref_names)`, so that the activated preset moves to the front. | not executed | NameEditorPresets.ActivatingSecondOfThreeMovesThird | NameEditorPresets.PrefDialog.ActivatePreset |
| raphodo/nameeditor.py:468-474 | In `addCustomPreset`, the separator is inserted at `len(builtin_presets)` before `resetPresetList` removes the two header rows. | Three built-ins, no custom preset, "(New Custom Preset)" shown, then a preset is added: the separator ends up between the first and second built-in. | Reset first, then insert the separator after the built-ins. | not executed | NameEditorPresets.FirstCustomPresetSeparatorMisplaced | NameEditorPresets.PresetComboBox.AddCustomPreset |
| raphodo/nameeditor.py:477-484 | `removeAllCustomPresets` removes the separator row but leaves `preset_separator` True. | One built-in and one custom preset: after "remove all", adding a preset inserts no separator, so the preset sits right against "Save New Custom Preset...". | Clear `preset_separator` along with the row. | not executed | NameEditorPresets.StaleSeparatorAfterRemoveAll | NameEditorPresets.PresetComboBox.RemoveAllCustomPresets |
