/**
 * The rename-and-move daemon of rapid/renameandmovefile.py: for each downloaded
 * file it takes the generated subfolder and file name, moves the temporary file
 * to that destination, resolves a clash either by failing or by appending `_1`,
 * `_2`, ... to the stem, moves the THM, audio and XMP sidecars next to it, and
 * advances the sequence counters after a successful move.
 *
 * The environment is reduced to what decides the outcome: the file system is a
 * finite set of existing paths plus the set of destinations a rename cannot
 * write; the metadata reader, the name generators, `Sequences` and
 * `DownloadsTodayTracker` are inputs or records of the calls made to them.
 */
module RenameMoveFile {
  import opened Wrappers
  import opened PyStr
  import opened SyncRawJpegTracker

  datatype DownloadStatus = DownloadPending | Downloaded | DownloadedWithWarning | DownloadFailed

  datatype ConflictResolution = SkipDownload | AddIdentifier

  datatype FileType = Photo | Video

  /** The problem notifications this file attaches to a download. */
  datatype Problem =
    | CannotDownloadBadMetadata
    | FileAlreadyExistsNoDownload
    | UniqueIdentifierAdded(identifier: string)
    | DownloadCopyingError
    | ErrorInNameGeneration(area: string)
    | FileAlreadyDownloaded
    | SameFileDifferentExif
    | GeneratorProblem(detail: string)

  datatype Metadata = Metadata(dateTime: DateTime, subSeconds: SubSeconds)

  /**
   * What a `gn.*` generator produced for one file: the name (None when it
   * returned None) and the problems it recorded on the file.
   */
  datatype Generation = Generation(value: Option<string>, problems: seq<Problem>)

  /** The preference values the daemon reads, as loaded by `prefs.sync()`. */
  datatype Prefs = Prefs(
    conflictResolution: ConflictResolution,
    mustSynchronizeRawJpg: bool,
    anyPrefUsesSessionSequenceNo: bool,
    anyPrefUsesSequenceLetter: bool,
    anyPrefUsesStoredSequenceNo: bool,
    photoDownloadFolder: string,
    videoDownloadFolder: string,
    storedSequenceNo: int,
    dayStart: string,
    downloadsToday: seq<string>)

  /** The calls made on a `gn.Sequences` object, whose own code is not part of this model. */
  datatype Sequences = Sequences(storedSequenceNo: int, matchedSequenceValue: Option<SequenceValue>,
                                 incrementCalls: seq<(bool, bool)>)

  datatype TrackerCall = GetOrResetDownloadsToday | IncrementDownloadsToday

  /** A `DownloadsTodayTracker` as created from the preferences, with the calls made on it. */
  datatype DownloadsTodayTracker = DownloadsTodayTracker(dayStart: string, downloadsToday: seq<string>,
                                                         calls: seq<TrackerCall>)

  datatype SyncRawJpegResult = SyncRawJpegResult(sequenceToUse: Option<SequenceValue>, failed: bool,
                                                 photoName: string, photoExt: string)

  const DefaultThmExtension := ".THM"
  const DefaultAudioExtension := ".WAV"

  // ---------------------------------------------------------------------------
  // Pure parts

  /**
   * `check_for_fatal_name_generation_errors`: None when both the subfolder and
   * the file name are non-empty, otherwise the area reported as blank.
   */
  function BlankNameArea(subfolder: string, name: string): (r: Option<string>)
    ensures r.None? <==> subfolder != "" && name != ""
    ensures r == Some("subfolder and filename") <==> subfolder == "" && name == ""
    ensures r == Some("filename") <==> subfolder != "" && name == ""
    ensures r == Some("subfolder") <==> subfolder == "" && name != ""
  {
    if subfolder == "" || name == "" then
      if subfolder == "" && name == "" then Some("subfolder and filename")
      else if name == "" then Some("filename")
      else Some("subfolder")
    else
      None
  }

  /** `dict.get(key, 0)` on the duplicate-file counters. */
  function Count(m: map<string, nat>, key: string): nat {
    if key in m then m[key] else 0
  }

  /** No destination is forgotten and no clash count goes down. */
  predicate CountsGrow(before: map<string, nat>, after: map<string, nat>) {
    forall k :: k in before ==> k in after && after[k] >= before[k]
  }

  /** The `n`-th name tried for a clashing destination: the stem, `_n`, then the extension. */
  function IdentifiedName(root: string, ext: string, n: nat): string {
    root + "_" + Decimal(n) + ext
  }

  /** The full path of the `n`-th name tried in folder `path` for the file name `name`. */
  function Candidate(path: string, name: string, n: nat): string {
    PathJoin(path, IdentifiedName(SplitExt(name).0, SplitExt(name).1, n))
  }

  /** Different counter values give different candidate paths, so the search never revisits a path. */
  lemma CandidateInjective(path: string, name: string, j: nat, k: nat)
    requires j != k
    ensures Candidate(path, name, j) != Candidate(path, name, k)
  {
    var root, ext := SplitExt(name).0, SplitExt(name).1;
    var bj, bk := IdentifiedName(root, ext, j), IdentifiedName(root, ext, k);
    if Candidate(path, name, j) == Candidate(path, name, k) {
      assert bj[0] == bk[0] by {
        if |root| > 0 {
          assert bj[0] == root[0] && bk[0] == root[0];
        } else {
          assert bj[0] == '_' && bk[0] == '_';
        }
      }
      PathJoinInjective(path, bj, bk);
      var p := root + "_";
      assert bj == p + Decimal(j) + ext && bk == p + Decimal(k) + ext;
      assert |Decimal(j)| == |Decimal(k)|;
      assert Decimal(j) == bj[|p|..|p| + |Decimal(j)|];
      assert Decimal(k) == bk[|p|..|p| + |Decimal(k)|];
      DecimalInjective(j, k);
    }
  }

  /** The extension a sidecar is given: its own recorded extension when set, else the default. */
  function SidecarExtension(recorded: string, default: string): (r: string)
    ensures recorded != "" ==> r == recorded
    ensures recorded == "" ==> r == default
  {
    if recorded != "" then recorded else default
  }

  /**
   * A sidecar path is the primary file's base name plus the sidecar's
   * extension; splitting it again gives back exactly that base name and
   * extension, so a sidecar always lands next to its primary file and shares its stem.
   */
  lemma SidecarSharesBaseName(primary: string, ext: string)
    requires SplitExt(primary).1 != ""
    requires |ext| > 0 && ext[0] == Dot && Dot !in ext[1..] && Slash !in ext
    ensures SplitExt(SplitExt(primary).0 + ext) == (SplitExt(primary).0, ext)
  {
    var base := SplitExt(primary).0;
    var sepIndex := RFind(primary, Slash);
    var dotIndex := RFind(primary, Dot);
    assert dotIndex > sepIndex && HasNonDotBetween(primary, sepIndex + 1, dotIndex);
    assert base == primary[..dotIndex];
    var p := base + ext;
    assert RFind(ext, Dot) == 0 by {
      RFindAppend([ext[0]], ext[1..], Dot);
      assert [ext[0]] + ext[1..] == ext;
    }
    RFindAppend(base, ext, Dot);
    assert RFind(p, Dot) == |base|;
    RFindAppend(base, ext, Slash);
    RFindPrefix(primary, dotIndex, Slash);
    assert RFind(p, Slash) == sepIndex;
    var k :| sepIndex + 1 <= k < dotIndex && 0 <= k && primary[k] != Dot;
    assert p[k] == primary[k];
    assert HasNonDotBetween(p, sepIndex + 1, |base|);
    assert p[..|base|] == base && p[|base|..] == ext;
  }

  // ---------------------------------------------------------------------------
  // The file system

  /** Existing paths, and the destinations that `os.rename` cannot write (permissions, full disk, ...). */
  class FileSystem {
    var files: set<string>
    const failingTargets: set<string>

    constructor (files: set<string>, failingTargets: set<string>)
      ensures this.files == files && this.failingTargets == failingTargets
    {
      this.files := files;
      this.failingTargets := failingTargets;
    }

    /** `os.rename` succeeds when the source exists and the destination can be written. */
    predicate RenameSucceeds(source: string, destination: string)
      reads this
    {
      source in files && destination !in failingTargets
    }

    /** `os.rename`: the source path goes, the destination path exists. */
    method Rename(source: string, destination: string) returns (ok: bool)
      modifies this`files
      ensures ok == old(RenameSucceeds(source, destination))
      ensures files == if ok then old(files) - {source} + {destination} else old(files)
    {
      ok := RenameSucceeds(source, destination);
      if ok {
        files := files - {source} + {destination};
      }
    }

    /** `os.remove`; removing a missing path only logs an error. */
    method Remove(path: string)
      modifies this`files
      ensures files == old(files) - {path}
    {
      files := files - {path};
    }
  }

  // ---------------------------------------------------------------------------
  // The file being downloaded

  class RpdFile {
    const fileType: FileType
    const name: string
    const tempFullFileName: string
    const tempThmFullName: string
    const tempAudioFullName: string
    const tempXmpFullName: string
    const thmExtension: string
    const audioExtension: string
    const xmpExtension: string
    /** What reading the metadata with exiftool gives: None when reading fails. */
    const readableMetadata: Option<Metadata>

    var metadata: Option<Metadata>
    var status: DownloadStatus
    var problems: seq<Problem>
    var downloadFolder: string
    var downloadSubfolder: string
    var downloadName: string
    var downloadPath: string
    var downloadFullFileName: string
    var downloadFullBaseName: string
    var downloadThmFullName: string
    var downloadAudioFullName: string
    var downloadXmpFullName: string

    constructor (fileType: FileType, name: string, tempFullFileName: string, tempThmFullName: string,
                 tempAudioFullName: string, tempXmpFullName: string, thmExtension: string,
                 audioExtension: string, xmpExtension: string, readableMetadata: Option<Metadata>)
      ensures this.fileType == fileType && this.name == name && this.tempFullFileName == tempFullFileName
      ensures this.tempThmFullName == tempThmFullName && this.tempAudioFullName == tempAudioFullName
      ensures this.tempXmpFullName == tempXmpFullName && this.thmExtension == thmExtension
      ensures this.audioExtension == audioExtension && this.xmpExtension == xmpExtension
      ensures this.readableMetadata == readableMetadata
      ensures metadata == None && status == DownloadPending && problems == []
      ensures downloadSubfolder == "" && downloadName == ""
    {
      this.fileType, this.name, this.tempFullFileName := fileType, name, tempFullFileName;
      this.tempThmFullName, this.tempAudioFullName, this.tempXmpFullName := tempThmFullName, tempAudioFullName, tempXmpFullName;
      this.thmExtension, this.audioExtension, this.xmpExtension := thmExtension, audioExtension, xmpExtension;
      this.readableMetadata := readableMetadata;
      metadata, status, problems := None, DownloadPending, [];
      downloadFolder, downloadSubfolder, downloadName, downloadPath := "", "", "", "";
      downloadFullFileName, downloadFullBaseName := "", "";
      downloadThmFullName, downloadAudioFullName, downloadXmpFullName := "", "", "";
    }
  }

  /** The name `_generate_name` settles on: blank when the metadata is unreadable or the generator gave None. */
  function GeneratedValue(loaded: bool, generation: Generation): string {
    if loaded && generation.value.Some? then generation.value.value else ""
  }

  /** The destination `move_file` computes: folder, subfolder and name joined. */
  function Destination(folder: string, subfolder: string, name: string): string {
    PathJoin(PathJoin(folder, subfolder), name)
  }

  /** The destination `move_file` computes for a file from its folder, subfolder and name. */
  function DestinationOf(rpd: RpdFile): string
    reads rpd
  {
    Destination(rpd.downloadFolder, rpd.downloadSubfolder, rpd.downloadName)
  }

  /** Where `move_thm_file` puts the THM sidecar: the file's base name plus the THM extension. */
  function ThmTarget(rpd: RpdFile): string
    reads rpd`downloadFullBaseName
  {
    rpd.downloadFullBaseName + SidecarExtension(rpd.thmExtension, DefaultThmExtension)
  }

  /** Where `move_audio_file` puts the audio sidecar. */
  function AudioTarget(rpd: RpdFile): string
    reads rpd`downloadFullBaseName
  {
    rpd.downloadFullBaseName + SidecarExtension(rpd.audioExtension, DefaultAudioExtension)
  }

  /** Where `process_file` puts the XMP sidecar. */
  function XmpTarget(rpd: RpdFile): string
    reads rpd`downloadFullBaseName
  {
    rpd.downloadFullBaseName + rpd.xmpExtension
  }

  /**
   * One sidecar step of `process_file`: a temporary sidecar that was recorded
   * and exists is renamed to its target, unless the target cannot be written.
   */
  function SidecarMoved(files: set<string>, temp: string, target: string, failing: set<string>): set<string> {
    if temp != "" && temp in files && target !in failing then files - {temp} + {target} else files
  }

  /** The file system after the THM and the audio steps. */
  function AfterThmAudio(files: set<string>, rpd: RpdFile, failing: set<string>): set<string>
    reads rpd`downloadFullBaseName
  {
    SidecarMoved(SidecarMoved(files, rpd.tempThmFullName, ThmTarget(rpd), failing),
                 rpd.tempAudioFullName, AudioTarget(rpd), failing)
  }

  /** The file system after the THM, audio and XMP steps, in that order. */
  function AfterSidecars(files: set<string>, rpd: RpdFile, failing: set<string>): set<string>
    reads rpd`downloadFullBaseName
  {
    SidecarMoved(AfterThmAudio(files, rpd, failing), rpd.tempXmpFullName, XmpTarget(rpd), failing)
  }

  /** Whether the XMP step renames the sidecar, once the THM and audio steps are done. */
  predicate XmpMoved(files: set<string>, rpd: RpdFile, failing: set<string>)
    reads rpd`downloadFullBaseName
  {
    rpd.tempXmpFullName != "" && rpd.tempXmpFullName in AfterThmAudio(files, rpd, failing) && XmpTarget(rpd) !in failing
  }

  /**
   * The sidecar steps leave the placed file where it is and do not bring the
   * temporary file back, as long as no sidecar's temporary name is the placed
   * file and no sidecar target is the temporary file.
   */
  lemma SidecarsKeepPlacedFile(files: set<string>, rpd: RpdFile, failing: set<string>, placed: string)
    requires placed != rpd.tempFullFileName
    requires placed != rpd.tempThmFullName && placed != rpd.tempAudioFullName && placed != rpd.tempXmpFullName
    requires rpd.tempFullFileName != ThmTarget(rpd) && rpd.tempFullFileName != AudioTarget(rpd)
    requires rpd.tempFullFileName != XmpTarget(rpd)
    ensures var after := AfterSidecars(files - {rpd.tempFullFileName} + {placed}, rpd, failing);
            placed in after && rpd.tempFullFileName !in after
  {
  }

  /** Whether placing a file advances the counters: synchronization is off, or the tracker has no value to reuse. */
  predicate AdvancesCounters(synchronizes: bool, photos: Photos, name: string, metadata: Option<Metadata>) {
    !synchronizes || (metadata.Some? && SequenceToReuse(photos, name, metadata.value).None?)
  }

  /** The metadata once `load_metadata` has run: what was loaded before, else what reading gives. */
  function LoadedMetadata(loaded: Option<Metadata>, readable: Option<Metadata>): Option<Metadata> {
    if loaded.Some? then loaded else readable
  }

  /** The sequence value the pairing tracker hands back for a photo, if any. */
  function SequenceToReuse(photos: Photos, name: string, metadata: Metadata): Option<SequenceValue> {
    Match(photos, SplitExt(name).0, SplitExt(name).1, metadata.dateTime, metadata.subSeconds).sequenceNumber
  }

  /** The folder `prepare_rpd_file` chooses for a file of this type. */
  function DownloadFolder(prefs: Prefs, fileType: FileType): string {
    if fileType == Photo then prefs.photoDownloadFolder else prefs.videoDownloadFolder
  }

  /** The problem `check_for_fatal_name_generation_errors` records: one for a blank area, none otherwise. */
  function BlankAreaProblems(subfolder: string, name: string): (r: seq<Problem>)
    ensures r == [] <==> subfolder != "" && name != ""
  {
    match BlankNameArea(subfolder, name)
    case None => []
    case Some(area) => [ErrorInNameGeneration(area)]
  }

  /** How the pairing tracker classifies a photo whose metadata is loaded. */
  function SyncStatus(photos: Photos, name: string, metadata: Metadata): SyncRawJpegStatus {
    Match(photos, SplitExt(name).0, SplitExt(name).1, metadata.dateTime, metadata.subSeconds).status
  }

  /**
   * What the naming steps of `process_file` leave on the file: whether it is
   * named (and so moved next), its subfolder and file name, and the problems
   * recorded on the way.
   */
  datatype Naming = Naming(named: bool, subfolder: string, name: string, problems: seq<Problem>)

  /**
   * The pairing check of `sync_raw_jpg`: None when the photo goes on to name
   * generation; otherwise the problems with which its processing ends, for
   * unreadable metadata or for a photo already placed when identifiers are
   * not added.
   */
  function PairingRefusal(photos: Photos, fileName: string, metadata: Option<Metadata>, policy: ConflictResolution,
                          subfolder: string, name: string): Option<seq<Problem>>
  {
    if metadata.None? then
      Some([CannotDownloadBadMetadata] + BlankAreaProblems(subfolder, name))
    else if SyncStatus(photos, fileName, metadata.value) == ErrorAlreadyDownloaded && policy != AddIdentifier then
      Some([FileAlreadyDownloaded])
    else
      None
  }

  /** The problem the pairing check records on a photo it lets through: a capture-time clash. */
  function PairingProblems(photos: Photos, fileName: string, metadata: Metadata): seq<Problem> {
    if SyncStatus(photos, fileName, metadata) == ErrorDatetimeMismatch then [SameFileDifferentExif] else []
  }

  /** What `generate_names` leaves on the file, given whether the metadata could be loaded. */
  function GeneratedNaming(loaded: bool, subfolderGeneration: Generation, nameGeneration: Generation,
                           oldName: string): Naming
  {
    var subfolder := GeneratedValue(loaded, subfolderGeneration);
    var name := if subfolder != "" then GeneratedValue(loaded, nameGeneration) else oldName;
    Naming(subfolder != "" && name != "", subfolder, name,
           (if loaded then subfolderGeneration.problems else [CannotDownloadBadMetadata])
           + (if subfolder != "" then nameGeneration.problems else [])
           + BlankAreaProblems(subfolder, name))
  }

  /**
   * The naming steps of `process_file`, given the metadata as loaded: the
   * pairing check when synchronizing, whose refusal ends the processing
   * before any name is generated, then `generate_names`.
   */
  function NamingOf(synchronize: bool, photos: Photos, fileName: string, metadata: Option<Metadata>,
                    policy: ConflictResolution, subfolderGeneration: Generation, nameGeneration: Generation,
                    oldSubfolder: string, oldName: string): Naming
  {
    var refusal := PairingRefusal(photos, fileName, metadata, policy, oldSubfolder, oldName);
    if synchronize && refusal.Some? then
      Naming(false, oldSubfolder, oldName, refusal.value)
    else
      var generated := GeneratedNaming(metadata.Some?, subfolderGeneration, nameGeneration, oldName);
      generated.(problems := (if synchronize then PairingProblems(photos, fileName, metadata.value) else [])
                             + generated.problems)
  }

  /**
   * A named file carries exactly what the generators produced: the metadata
   * was read, both generators gave a non-empty value and those values are the
   * subfolder and the name; the problems are the generators' own, after a
   * capture-time clash if the pairing check found one. The file is named
   * exactly when both generators gave a non-empty value and the pairing check,
   * if any, let it through.
   */
  lemma {:induction false} NamedIsGenerated(synchronize: bool, photos: Photos, fileName: string, metadata: Option<Metadata>,
                                            policy: ConflictResolution, subfolderGeneration: Generation,
                                            nameGeneration: Generation, oldSubfolder: string, oldName: string)
    ensures var n := NamingOf(synchronize, photos, fileName, metadata, policy, subfolderGeneration, nameGeneration,
                              oldSubfolder, oldName);
            && (n.named <==>
                  && metadata.Some?
                  && subfolderGeneration.value.Some? && subfolderGeneration.value.value != ""
                  && nameGeneration.value.Some? && nameGeneration.value.value != ""
                  && !(synchronize && SyncStatus(photos, fileName, metadata.value) == ErrorAlreadyDownloaded
                       && policy != AddIdentifier))
            && (n.named ==>
                  && subfolderGeneration.value == Some(n.subfolder)
                  && nameGeneration.value == Some(n.name)
                  && n.problems == (if synchronize then PairingProblems(photos, fileName, metadata.value) else [])
                                   + subfolderGeneration.problems + nameGeneration.problems)
  {
    var n := NamingOf(synchronize, photos, fileName, metadata, policy, subfolderGeneration, nameGeneration,
                      oldSubfolder, oldName);
    if n.named {
      assert BlankAreaProblems(n.subfolder, n.name) == [];
    }
  }

  /**
   * The problem `move_file` records when the direct rename does not happen:
   * a clash without identifiers, the identifier the file went in under, or a
   * copying error from the rename that failed.
   */
  function MoveProblem(destinationExisted: bool, policy: ConflictResolution, status: DownloadStatus, count: nat): Problem {
    if destinationExisted && policy != AddIdentifier then FileAlreadyExistsNoDownload
    else if status == DownloadedWithWarning then UniqueIdentifierAdded("_" + Decimal(count))
    else DownloadCopyingError
  }

  /**
   * How `move_file` left a file it was given a folder, subfolder and name
   * for: in place at the destination they make up, with no new problem; or
   * not moved directly, with the problem the move recorded, and, when it went
   * in under an identifier, at the identifier candidate.
   */
  predicate MovedAs(rpd: RpdFile, folder: string, subfolder: string, name: string, problems: seq<Problem>,
                    files: set<string>, policy: ConflictResolution, counts: map<string, nat>, moveSucceeded: bool)
    reads rpd`downloadFolder, rpd`downloadSubfolder, rpd`downloadName, rpd`downloadFullFileName, rpd`problems, rpd`status
  {
    var destination := Destination(folder, subfolder, name);
    && rpd.downloadFolder == folder
    && rpd.downloadSubfolder == subfolder
    && (moveSucceeded ==> rpd.downloadName == name && rpd.downloadFullFileName == destination && rpd.problems == problems)
    && (!moveSucceeded ==>
          rpd.problems == problems + [MoveProblem(destination in files, policy, rpd.status, Count(counts, destination))])
    && (!moveSucceeded && rpd.status == DownloadedWithWarning ==>
          rpd.downloadFullFileName == Candidate(PathJoin(folder, subfolder), name, Count(counts, destination)))
  }

  /**
   * How the naming and the move left the file: a file that was not named
   * keeps the naming's subfolder, name and problems and is not moved; a named
   * file is moved as `MovedAs` says, after the naming's problems.
   */
  predicate PlacedAsNamed(rpd: RpdFile, n: Naming, folder: string, problems: seq<Problem>, files: set<string>,
                          policy: ConflictResolution, counts: map<string, nat>, moveSucceeded: bool)
    reads rpd`downloadFolder, rpd`downloadSubfolder, rpd`downloadName, rpd`downloadFullFileName, rpd`problems, rpd`status
  {
    && (!n.named ==>
          && rpd.downloadFolder == folder && rpd.downloadSubfolder == n.subfolder && rpd.downloadName == n.name
          && !moveSucceeded && rpd.problems == problems + n.problems)
    && (n.named ==> MovedAs(rpd, folder, n.subfolder, n.name, problems + n.problems, files, policy, counts, moveSucceeded))
  }

  /**
   * A file placed at its destination sits under exactly the subfolder and
   * name the generators produced, from metadata that could be read, and
   * carries the generators' problems after the pairing check's.
   */
  lemma PlacedIsGenerated(rpd: RpdFile, synchronize: bool, photos: Photos, metadata: Option<Metadata>,
                          policy: ConflictResolution, subfolderGeneration: Generation, nameGeneration: Generation,
                          oldSubfolder: string, oldName: string, folder: string, problems: seq<Problem>,
                          files: set<string>, counts: map<string, nat>)
    requires PlacedAsNamed(rpd, NamingOf(synchronize, photos, rpd.name, metadata, policy, subfolderGeneration,
                                         nameGeneration, oldSubfolder, oldName),
                           folder, problems, files, policy, counts, true)
    ensures metadata.Some?
    ensures subfolderGeneration.value == Some(rpd.downloadSubfolder) && nameGeneration.value == Some(rpd.downloadName)
    ensures rpd.downloadFullFileName == Destination(folder, rpd.downloadSubfolder, rpd.downloadName)
    ensures rpd.problems == problems
                              + (if synchronize then PairingProblems(photos, rpd.name, metadata.value) else [])
                              + subfolderGeneration.problems + nameGeneration.problems
  {
    NamedIsGenerated(synchronize, photos, rpd.name, metadata, policy, subfolderGeneration, nameGeneration,
                     oldSubfolder, oldName);
  }

  /** The `Sequences.increment` call a placement makes, if the session number or the letter is used. */
  function IncrementCall(prefs: Prefs): seq<(bool, bool)> {
    if prefs.anyPrefUsesSessionSequenceNo || prefs.anyPrefUsesSequenceLetter then
      [(prefs.anyPrefUsesSessionSequenceNo, prefs.anyPrefUsesSequenceLetter)]
    else
      []
  }

  /** How much a placement advances the stored sequence number. */
  function StoredIncrement(prefs: Prefs): int {
    if prefs.anyPrefUsesStoredSequenceNo then 1 else 0
  }

  /**
   * The counters after one file: unchanged unless `advanced`, and otherwise
   * advanced once as `process_file` does (the `Sequences.increment` call, the
   * stored number when it is used, downloads-today always).
   */
  predicate CountersAdvanced(prefsBefore: Prefs, sequencesBefore: Sequences, trackerBefore: DownloadsTodayTracker,
                             prefsAfter: Prefs, sequencesAfter: Sequences, trackerAfter: DownloadsTodayTracker,
                             advanced: bool)
  {
    && sequencesAfter.incrementCalls == sequencesBefore.incrementCalls + (if advanced then IncrementCall(prefsBefore) else [])
    && prefsAfter == prefsBefore.(storedSequenceNo := prefsBefore.storedSequenceNo
                                   + (if advanced then StoredIncrement(prefsBefore) else 0))
    && trackerAfter == trackerBefore.(calls := trackerBefore.calls + (if advanced then [IncrementDownloadsToday] else []))
  }

  /** The candidates numbered `lo + 1` to `hi`. */
  ghost function CandidateSet(path: string, name: string, lo: nat, hi: nat): (r: set<string>)
    requires lo <= hi
    ensures |r| == hi - lo
    ensures forall k :: lo < k <= hi ==> Candidate(path, name, k) in r
    ensures forall x :: x in r ==> exists k :: lo < k <= hi && x == Candidate(path, name, k)
    decreases hi - lo
  {
    if hi == lo then {}
    else
      var rest := CandidateSet(path, name, lo, hi - 1);
      assert Candidate(path, name, hi) !in rest by {
        forall k | lo < k <= hi - 1 ensures Candidate(path, name, k) != Candidate(path, name, hi) {
          CandidateInjective(path, name, k, hi);
        }
      }
      rest + {Candidate(path, name, hi)}
  }

  /**
   * As many candidates as were found taken are distinct existing paths, so
   * the search for a free one takes at most one more step than there are files.
   */
  lemma TakenCandidatesBound(path: string, name: string, files: set<string>, lo: nat, hi: nat)
    requires lo <= hi
    requires forall k :: lo < k <= hi ==> Candidate(path, name, k) in files
    ensures hi - lo <= |files|
  {
    var taken := CandidateSet(path, name, lo, hi);
    assert taken <= files;
    SubsetSize(taken, files);
  }

  lemma SubsetSize<T>(a: set<T>, b: set<T>)
    requires a <= b
    ensures |a| <= |b|
  {
    if a != {} {
      var x :| x in a;
      SubsetSize(a - {x}, b - {x});
    }
  }

  // ---------------------------------------------------------------------------
  // Messages

  datatype FileRequest = FileRequest(
    rpdFile: RpdFile,
    downloadCount: int,
    downloadSucceeded: bool,
    subfolderGeneration: Generation,
    nameGeneration: Generation,
    /**
     * What the tracker records for a placed photo with no sequence value to
     * reuse. The worker stores the attribute `sequences.create_matched_sequences`
     * there without calling it; the model takes this opaque value instead.
     */
    freshMatchedSequence: SequenceValue)

  datatype Message = DownloadStarted(prefs: Prefs) | DownloadCompleted | FileMessage(request: FileRequest)

  datatype Reply =
    | SessionResult(storedSequenceNo: int, downloadsToday: DownloadsTodayTracker)
    | FileResult(moveSucceeded: bool, rpdFile: RpdFile, downloadCount: int)

  /** The messages a run answers, in order: every message except `download_started`. */
  function Answered(messages: seq<Message>): (r: seq<Message>)
    ensures forall m :: m in r ==> m in messages && !m.DownloadStarted?
  {
    if |messages| == 0 then []
    else
      var last := messages[|messages| - 1];
      Answered(messages[..|messages| - 1]) + (if last.DownloadStarted? then [] else [last])
  }

  /**
   * A reply answers a message: `download_completed` with the session result,
   * a file message with the same file and download count, and never with a
   * success when the download itself failed.
   */
  predicate Answers(m: Message, r: Reply) {
    match m
    case DownloadStarted(_) => false
    case DownloadCompleted => r.SessionResult?
    case FileMessage(request) =>
      && r.FileResult? && r.rpdFile == request.rpdFile && r.downloadCount == request.downloadCount
      && (!request.downloadSucceeded ==> !r.moveSucceeded)
  }

  /** The replies answer the messages one for one, in order. */
  predicate AnswersAll(answered: seq<Message>, replies: seq<Reply>) {
    |replies| == |answered| && forall j :: 0 <= j < |replies| ==> Answers(answered[j], replies[j])
  }

  /** Handling one more message keeps the replies answering the messages handled so far, in order. */
  lemma AnsweredStep(messages: seq<Message>, i: nat, replies: seq<Reply>, reply: Option<Reply>)
    requires i < |messages|
    requires AnswersAll(Answered(messages[..i]), replies)
    requires reply.Some? <==> !messages[i].DownloadStarted?
    requires reply.Some? ==> Answers(messages[i], reply.value)
    ensures AnswersAll(Answered(messages[..i + 1]), if reply.Some? then replies + [reply.value] else replies)
  {
    assert messages[..i + 1][..i] == messages[..i];
    assert messages[..i + 1][i] == messages[i];
  }

  function FilesOf(messages: seq<Message>): set<RpdFile> {
    set m | m in messages && m.FileMessage? :: m.request.rpdFile
  }

  // ---------------------------------------------------------------------------
  // The worker

  class RenameMoveFileWorker {
    var prefs: Prefs
    var duplicateFiles: map<string, nat>
    var sequences: Sequences
    var downloadsTodayTracker: DownloadsTodayTracker
    const syncRawJpeg: SyncRawJpeg
    const fs: FileSystem

    ghost predicate Valid()
      reads syncRawJpeg
    {
      syncRawJpeg.Valid()
    }

    /**
     * The daemon's start-up together with the objects a `download_started`
     * message creates (the source creates them only when that message arrives).
     */
    constructor (prefs: Prefs, fs: FileSystem)
      ensures Valid() && fresh(syncRawJpeg)
      ensures this.prefs == prefs && this.fs == fs
      ensures duplicateFiles == map[] && syncRawJpeg.photos == map[]
      ensures sequences == Sequences(prefs.storedSequenceNo, None, [])
      ensures downloadsTodayTracker == DownloadsTodayTracker(prefs.dayStart, prefs.downloadsToday, [GetOrResetDownloadsToday])
    {
      this.prefs := prefs;
      this.fs := fs;
      duplicateFiles := map[];
      sequences := Sequences(prefs.storedSequenceNo, None, []);
      downloadsTodayTracker := DownloadsTodayTracker(prefs.dayStart, prefs.downloadsToday, [GetOrResetDownloadsToday]);
      syncRawJpeg := new SyncRawJpeg();
    }

    /** `notify_file_already_exists`: without an identifier the download fails, with one it is a warning. */
    method NotifyFileAlreadyExists(rpd: RpdFile, identifier: Option<string>)
      modifies rpd`status, rpd`problems
      ensures identifier.None? ==>
                rpd.status == DownloadFailed && rpd.problems == old(rpd.problems) + [FileAlreadyExistsNoDownload]
      ensures identifier.Some? ==>
                && rpd.status == DownloadedWithWarning
                && rpd.problems == old(rpd.problems) + [UniqueIdentifierAdded(identifier.value)]
    {
      if identifier.None? {
        rpd.problems := rpd.problems + [FileAlreadyExistsNoDownload];
        rpd.status := DownloadFailed;
      } else {
        rpd.problems := rpd.problems + [UniqueIdentifierAdded(identifier.value)];
        rpd.status := DownloadedWithWarning;
      }
    }

    /** `notify_download_failure_file_error`. */
    method NotifyDownloadFailureFileError(rpd: RpdFile)
      modifies rpd`status, rpd`problems
      ensures rpd.status == DownloadFailed && rpd.problems == old(rpd.problems) + [DownloadCopyingError]
    {
      rpd.problems := rpd.problems + [DownloadCopyingError];
      rpd.status := DownloadFailed;
    }

    /** `download_file_exists`: True when the policy adds an identifier; otherwise the download fails. */
    method DownloadFileExists(rpd: RpdFile) returns (addIdentifier: bool)
      modifies rpd`status, rpd`problems
      ensures addIdentifier == (prefs.conflictResolution == AddIdentifier)
      ensures addIdentifier ==> rpd.status == old(rpd.status) && rpd.problems == old(rpd.problems)
      ensures !addIdentifier ==>
                rpd.status == DownloadFailed && rpd.problems == old(rpd.problems) + [FileAlreadyExistsNoDownload]
    {
      if prefs.conflictResolution == AddIdentifier {
        addIdentifier := true;
      } else {
        NotifyFileAlreadyExists(rpd, None);
        addIdentifier := false;
      }
    }

    /** `check_for_fatal_name_generation_errors`. */
    method CheckForFatalNameGenerationErrors(rpd: RpdFile) returns (ok: bool)
      modifies rpd`status, rpd`problems
      ensures ok == (rpd.downloadSubfolder != "" && rpd.downloadName != "")
      ensures ok ==> rpd.status == old(rpd.status) && rpd.problems == old(rpd.problems)
      ensures !ok ==>
                && rpd.status == DownloadFailed
                && rpd.problems == old(rpd.problems)
                     + [ErrorInNameGeneration(BlankNameArea(rpd.downloadSubfolder, rpd.downloadName).value)]
    {
      var area := BlankNameArea(rpd.downloadSubfolder, rpd.downloadName);
      if area.Some? {
        rpd.problems := rpd.problems + [ErrorInNameGeneration(area.value)];
        rpd.status := DownloadFailed;
        ok := false;
      } else {
        ok := true;
      }
    }


    /**
     * The search loop of `add_unique_identifier`: numbering from the counter
     * kept for the original destination, which advances by one per attempt,
     * it tries `stem_1.ext`, `stem_2.ext`, ... in the same folder and stops
     * at the first candidate that does not exist.
     */
    method ChooseIdentifier(rpd: RpdFile) returns (count: nat)
      modifies this`duplicateFiles, rpd`downloadName, rpd`downloadFullFileName
      ensures count > Count(old(duplicateFiles), old(rpd.downloadFullFileName))
      ensures duplicateFiles == old(duplicateFiles)[old(rpd.downloadFullFileName) := count]
      ensures rpd.downloadName == IdentifiedName(SplitExt(old(rpd.downloadName)).0, SplitExt(old(rpd.downloadName)).1, count)
      ensures rpd.downloadFullFileName == Candidate(rpd.downloadPath, old(rpd.downloadName), count)
      ensures forall k :: Count(old(duplicateFiles), old(rpd.downloadFullFileName)) < k < count ==>
                Candidate(rpd.downloadPath, old(rpd.downloadName), k) in fs.files
      ensures rpd.downloadFullFileName !in fs.files
    {
      var name := rpd.downloadName;
      var fullName := rpd.downloadFullFileName;
      var path := rpd.downloadPath;
      var root, ext := SplitExt(name).0, SplitExt(name).1;
      var n0 := Count(duplicateFiles, fullName);
      count := n0 + 1;
      duplicateFiles := duplicateFiles[fullName := count];
      rpd.downloadName := IdentifiedName(root, ext, count);
      rpd.downloadFullFileName := PathJoin(path, rpd.downloadName);
      while rpd.downloadFullFileName in fs.files
        invariant count > n0
        invariant duplicateFiles == old(duplicateFiles)[fullName := count]
        invariant rpd.downloadName == IdentifiedName(root, ext, count)
        invariant rpd.downloadFullFileName == Candidate(path, name, count)
        invariant forall k :: n0 < k < count ==> Candidate(path, name, k) in fs.files
        decreases |fs.files| - (count - 1 - n0)
      {
        // The candidate exists: the source gets EEXIST and tries the next number.
        TakenCandidatesBound(path, name, fs.files, n0, count);
        count := count + 1;
        duplicateFiles := duplicateFiles[fullName := count];
        rpd.downloadName := IdentifiedName(root, ext, count);
        rpd.downloadFullFileName := PathJoin(path, rpd.downloadName);
      }
    }

    /**
     * `add_unique_identifier`: renames the file to the first free candidate
     * name; the download is then a warning, or fails if that rename fails.
     */
    method AddUniqueIdentifier(rpd: RpdFile) returns (ok: bool)
      modifies this`duplicateFiles, rpd`downloadName, rpd`downloadFullFileName, rpd`status, rpd`problems, fs`files
      ensures Count(duplicateFiles, old(rpd.downloadFullFileName)) > Count(old(duplicateFiles), old(rpd.downloadFullFileName))
      ensures duplicateFiles == old(duplicateFiles)[old(rpd.downloadFullFileName) := Count(duplicateFiles, old(rpd.downloadFullFileName))]
      ensures rpd.downloadName == IdentifiedName(SplitExt(old(rpd.downloadName)).0, SplitExt(old(rpd.downloadName)).1,
                                                 Count(duplicateFiles, old(rpd.downloadFullFileName)))
      ensures rpd.downloadFullFileName == Candidate(rpd.downloadPath, old(rpd.downloadName), Count(duplicateFiles, old(rpd.downloadFullFileName)))
      ensures forall k :: Count(old(duplicateFiles), old(rpd.downloadFullFileName)) < k < Count(duplicateFiles, old(rpd.downloadFullFileName)) ==>
                Candidate(rpd.downloadPath, old(rpd.downloadName), k) in old(fs.files)
      ensures rpd.downloadFullFileName !in old(fs.files)
      ensures ok ==> fs.files == old(fs.files) - {rpd.tempFullFileName} + {rpd.downloadFullFileName}
      ensures ok ==> rpd.status == DownloadedWithWarning
      ensures ok ==> rpd.problems == old(rpd.problems) + [UniqueIdentifierAdded("_" + Decimal(Count(duplicateFiles, old(rpd.downloadFullFileName))))]
      ensures ok <==> rpd.tempFullFileName in old(fs.files) && rpd.downloadFullFileName !in fs.failingTargets
      ensures !ok ==> fs.files == old(fs.files) && rpd.status == DownloadFailed
      ensures !ok ==> rpd.problems == old(rpd.problems) + [DownloadCopyingError]
    {
      var count := ChooseIdentifier(rpd);
      ok := fs.Rename(rpd.tempFullFileName, rpd.downloadFullFileName);
      if ok {
        NotifyFileAlreadyExists(rpd, Some("_" + Decimal(count)));
      } else {
        NotifyDownloadFailureFileError(rpd);
      }
    }

    /**
     * `move_file`: renames the temporary file to folder/subfolder/name. A clash
     * either fails the download or, under the add-identifier policy, runs
     * the identifier search, whose outcome is not returned: only the direct
     * rename makes the result True.
     */
    method MoveFile(rpd: RpdFile) returns (moveSucceeded: bool)
      modifies this`duplicateFiles, fs`files
      modifies rpd`downloadPath, rpd`downloadFullFileName, rpd`downloadFullBaseName, rpd`downloadName, rpd`status, rpd`problems
      ensures rpd.downloadPath == PathJoin(rpd.downloadFolder, rpd.downloadSubfolder)
      ensures rpd.downloadFullBaseName == SplitExt(old(DestinationOf(rpd))).0
      ensures CountsGrow(old(duplicateFiles), duplicateFiles)
      ensures moveSucceeded ==> rpd.downloadFullFileName == DestinationOf(rpd)
      ensures moveSucceeded <==> old(DestinationOf(rpd)) !in old(fs.files)
                                 && rpd.tempFullFileName in old(fs.files) && old(DestinationOf(rpd)) !in fs.failingTargets
      ensures moveSucceeded ==> fs.files == old(fs.files) - {rpd.tempFullFileName} + {old(DestinationOf(rpd))}
      ensures moveSucceeded ==> rpd.downloadFullFileName == old(DestinationOf(rpd)) && rpd.downloadName == old(rpd.downloadName)
      ensures moveSucceeded ==> rpd.status == (if old(rpd.status) == DownloadedWithWarning then DownloadedWithWarning else Downloaded)
      ensures moveSucceeded ==> rpd.problems == old(rpd.problems)
      ensures old(DestinationOf(rpd)) !in old(fs.files) ==> duplicateFiles == old(duplicateFiles)
      ensures old(DestinationOf(rpd)) !in old(fs.files) && !moveSucceeded ==>
                fs.files == old(fs.files) && rpd.status == DownloadFailed && rpd.problems == old(rpd.problems) + [DownloadCopyingError]
      ensures old(DestinationOf(rpd)) in old(fs.files) && prefs.conflictResolution != AddIdentifier ==>
                && fs.files == old(fs.files) && rpd.status == DownloadFailed
                && rpd.problems == old(rpd.problems) + [FileAlreadyExistsNoDownload]
                && duplicateFiles == old(duplicateFiles)
      ensures old(DestinationOf(rpd)) in old(fs.files) && prefs.conflictResolution == AddIdentifier ==>
                var dest := old(DestinationOf(rpd));
                && !moveSucceeded
                && duplicateFiles == old(duplicateFiles)[dest := Count(duplicateFiles, dest)]
                && Count(duplicateFiles, dest) > Count(old(duplicateFiles), dest)
                && rpd.downloadFullFileName == Candidate(rpd.downloadPath, old(rpd.downloadName), Count(duplicateFiles, dest))
                && (rpd.status == DownloadedWithWarning || rpd.status == DownloadFailed)
                && (forall k :: Count(old(duplicateFiles), dest) < k < Count(duplicateFiles, dest) ==>
                      Candidate(rpd.downloadPath, old(rpd.downloadName), k) in old(fs.files))
                && rpd.downloadFullFileName !in old(fs.files)
                && (rpd.status == DownloadedWithWarning <==>
                      rpd.tempFullFileName in old(fs.files) && rpd.downloadFullFileName !in fs.failingTargets)
                && (rpd.status == DownloadedWithWarning ==>
                      fs.files == old(fs.files) - {rpd.tempFullFileName} + {rpd.downloadFullFileName})
                && (rpd.status == DownloadFailed ==> fs.files == old(fs.files))
                && rpd.downloadName == IdentifiedName(SplitExt(old(rpd.downloadName)).0, SplitExt(old(rpd.downloadName)).1,
                                                      Count(duplicateFiles, dest))
                && (rpd.status == DownloadedWithWarning ==>
                      rpd.problems == old(rpd.problems) + [UniqueIdentifierAdded("_" + Decimal(Count(duplicateFiles, dest)))])
                && (rpd.status == DownloadFailed ==> rpd.problems == old(rpd.problems) + [DownloadCopyingError])
      ensures !(old(DestinationOf(rpd)) in old(fs.files) && prefs.conflictResolution == AddIdentifier) ==>
                rpd.downloadName == old(rpd.downloadName)
    {
      moveSucceeded := false;
      rpd.downloadPath := PathJoin(rpd.downloadFolder, rpd.downloadSubfolder);
      rpd.downloadFullFileName := PathJoin(rpd.downloadPath, rpd.downloadName);
      rpd.downloadFullBaseName := SplitExt(rpd.downloadFullFileName).0;
      var addUniqueIdentifier := false;
      if rpd.downloadFullFileName in fs.files {
        addUniqueIdentifier := DownloadFileExists(rpd);
      } else {
        moveSucceeded := RenameIntoPlace(rpd);
      }
      if addUniqueIdentifier {
        var placed := AddUniqueIdentifier(rpd);
      }
    }

    /** The direct rename of `move_file`: success marks the file downloaded, failure records a copying error. */
    method RenameIntoPlace(rpd: RpdFile) returns (renamed: bool)
      modifies fs`files, rpd`status, rpd`problems
      ensures renamed == old(fs.RenameSucceeds(rpd.tempFullFileName, rpd.downloadFullFileName))
      ensures renamed ==> fs.files == old(fs.files) - {rpd.tempFullFileName} + {rpd.downloadFullFileName}
      ensures renamed ==> rpd.status == (if old(rpd.status) == DownloadedWithWarning then DownloadedWithWarning else Downloaded)
      ensures renamed ==> rpd.problems == old(rpd.problems)
      ensures !renamed ==>
                fs.files == old(fs.files) && rpd.status == DownloadFailed && rpd.problems == old(rpd.problems) + [DownloadCopyingError]
    {
      renamed := fs.Rename(rpd.tempFullFileName, rpd.downloadFullFileName);
      if renamed {
        if rpd.status != DownloadedWithWarning {
          rpd.status := Downloaded;
        }
      } else {
        NotifyDownloadFailureFileError(rpd);
      }
    }

    /** `load_metadata`: reads the metadata once; a failed read records a problem each time it is tried. */
    method LoadMetadata(rpd: RpdFile) returns (ok: bool)
      modifies rpd`metadata, rpd`problems
      ensures ok == (old(rpd.metadata).Some? || rpd.readableMetadata.Some?)
      ensures rpd.metadata == if old(rpd.metadata).Some? then old(rpd.metadata) else rpd.readableMetadata
      ensures rpd.problems == if ok then old(rpd.problems) else old(rpd.problems) + [CannotDownloadBadMetadata]
    {
      if rpd.metadata.None? {
        if rpd.readableMetadata.None? {
          rpd.problems := rpd.problems + [CannotDownloadBadMetadata];
          return false;
        }
        rpd.metadata := rpd.readableMetadata;
      }
      return true;
    }

    /** `_generate_name`: the generator's value once the metadata is loaded; '' otherwise or for None. */
    method GenerateName(rpd: RpdFile, generation: Generation) returns (value: string)
      modifies rpd`metadata, rpd`problems
      ensures var loaded := old(rpd.metadata).Some? || rpd.readableMetadata.Some?;
              && rpd.metadata == (if old(rpd.metadata).Some? then old(rpd.metadata) else rpd.readableMetadata)
              && value == GeneratedValue(loaded, generation)
              && rpd.problems == old(rpd.problems) + (if loaded then generation.problems else [CannotDownloadBadMetadata])
    {
      var loaded := LoadMetadata(rpd);
      if loaded {
        rpd.problems := rpd.problems + generation.problems;
        value := if generation.value.Some? then generation.value.value else "";
      } else {
        value := "";
      }
    }

    /**
     * `generate_names`: the subfolder first; the file name only when the
     * subfolder is not blank. A file that collected problems is marked as a
     * warning. Fails exactly when the subfolder or the name is blank.
     */
    method GenerateNames(rpd: RpdFile, subfolderGeneration: Generation, nameGeneration: Generation)
      returns (ok: bool)
      modifies rpd`metadata, rpd`problems, rpd`downloadSubfolder, rpd`downloadName, rpd`status
      ensures ok == (rpd.downloadSubfolder != "" && rpd.downloadName != "")
      ensures rpd.metadata == if old(rpd.metadata).Some? then old(rpd.metadata) else rpd.readableMetadata
      ensures var loaded := old(rpd.metadata).Some? || rpd.readableMetadata.Some?;
              && rpd.downloadSubfolder == GeneratedValue(loaded, subfolderGeneration)
              && rpd.downloadName == (if rpd.downloadSubfolder != "" then GeneratedValue(loaded, nameGeneration)
                                      else old(rpd.downloadName))
              && rpd.problems == old(rpd.problems)
                   + (if loaded then subfolderGeneration.problems else [CannotDownloadBadMetadata])
                   + (if rpd.downloadSubfolder != "" then nameGeneration.problems else [])
                   + (if ok then [] else [ErrorInNameGeneration(BlankNameArea(rpd.downloadSubfolder, rpd.downloadName).value)])
      ensures !ok ==> rpd.status == DownloadFailed
      ensures ok ==> rpd.status == (if |rpd.problems| > 0 then DownloadedWithWarning else old(rpd.status))
      ensures var generated := GeneratedNaming(rpd.metadata.Some?, subfolderGeneration, nameGeneration, old(rpd.downloadName));
              && ok == generated.named
              && rpd.downloadSubfolder == generated.subfolder && rpd.downloadName == generated.name
              && rpd.problems == old(rpd.problems) + generated.problems
    {
      rpd.downloadSubfolder := GenerateName(rpd, subfolderGeneration);
      if rpd.downloadSubfolder != "" {
        rpd.downloadName := GenerateName(rpd, nameGeneration);
        if |rpd.problems| > 0 {
          rpd.status := DownloadedWithWarning;
        }
      }
      ok := CheckForFatalNameGenerationErrors(rpd);
    }

    /**
     * `sync_raw_jpg`: classifies the photo against the pairing tracker. It
     * fails when the metadata cannot be read, or when the exact file was
     * already placed and the policy does not add identifiers. Otherwise the
     * matched sequence value (or None) is handed to `Sequences`, and a
     * capture-time clash is a warning.
     */
    method SyncRawJpg(rpd: RpdFile) returns (result: SyncRawJpegResult)
      requires Valid()
      modifies rpd`metadata, rpd`problems, rpd`status, this`sequences
      ensures result.photoName == SplitExt(rpd.name).0 && result.photoExt == SplitExt(rpd.name).1
      ensures rpd.metadata == if old(rpd.metadata).Some? then old(rpd.metadata) else rpd.readableMetadata
      ensures rpd.metadata.None? ==> result.failed && result.sequenceToUse.None? && rpd.status == DownloadFailed
      ensures rpd.metadata.None? ==> sequences == old(sequences)
      ensures var refusal := PairingRefusal(syncRawJpeg.photos, rpd.name, rpd.metadata, prefs.conflictResolution,
                                            rpd.downloadSubfolder, rpd.downloadName);
              && result.failed == refusal.Some?
              && rpd.problems == old(rpd.problems)
                   + (if refusal.Some? then refusal.value else PairingProblems(syncRawJpeg.photos, rpd.name, rpd.metadata.value))
      ensures rpd.metadata.None? ==>
                rpd.problems == old(rpd.problems) + [CannotDownloadBadMetadata]
                  + (match BlankNameArea(rpd.downloadSubfolder, rpd.downloadName)
                     case None => []
                     case Some(area) => [ErrorInNameGeneration(area)])
      ensures rpd.metadata.Some? ==>
                var m := Match(syncRawJpeg.photos, result.photoName, result.photoExt,
                               rpd.metadata.value.dateTime, rpd.metadata.value.subSeconds);
                && result.sequenceToUse == m.sequenceNumber
                && result.failed == (m.status == ErrorAlreadyDownloaded && prefs.conflictResolution != AddIdentifier)
                && (result.failed ==> rpd.status == DownloadFailed && rpd.problems == old(rpd.problems) + [FileAlreadyDownloaded])
                && (m.status == ErrorAlreadyDownloaded && !result.failed ==>
                      rpd.status == old(rpd.status) && rpd.problems == old(rpd.problems))
                && (m.status == ErrorAlreadyDownloaded ==> sequences == old(sequences))
                && (m.status != ErrorAlreadyDownloaded ==>
                      sequences == old(sequences).(matchedSequenceValue := m.sequenceNumber))
                && (m.status == ErrorDatetimeMismatch ==>
                      rpd.status == DownloadedWithWarning && rpd.problems == old(rpd.problems) + [SameFileDifferentExif])
                && (m.status == MatchingPair || m.status == NoMatch ==>
                      rpd.status == old(rpd.status) && rpd.problems == old(rpd.problems))
    {
      var photoName, photoExt := SplitExt(rpd.name).0, SplitExt(rpd.name).1;
      var loaded := LoadMetadata(rpd);
      if !loaded {
        rpd.status := DownloadFailed;
        var named := CheckForFatalNameGenerationErrors(rpd);
        return SyncRawJpegResult(None, true, photoName, photoExt);
      }
      var md := rpd.metadata.value;
      var matching := syncRawJpeg.MatchingPair(photoName, photoExt, md.dateTime, md.subSeconds);
      var failed := false;
      if matching.status == ErrorAlreadyDownloaded {
        if prefs.conflictResolution != AddIdentifier {
          rpd.problems := rpd.problems + [FileAlreadyDownloaded];
          rpd.status := DownloadFailed;
          failed := true;
        }
      } else {
        sequences := sequences.(matchedSequenceValue := matching.sequenceNumber);
        if matching.status == ErrorDatetimeMismatch {
          // same_name_different_exif
          rpd.problems := rpd.problems + [SameFileDifferentExif];
          rpd.status := DownloadedWithWarning;
        }
      }
      result := SyncRawJpegResult(matching.sequenceNumber, failed, photoName, photoExt);
    }

    /** `_move_associate_file`: renames a sidecar to the base name plus its extension, without checking for a clash. */
    method MoveAssociateFile(extension: string, fullBaseName: string, tempAssociateFile: string)
      returns (success: bool, downloadFullName: string)
      modifies fs`files
      ensures downloadFullName == fullBaseName + extension
      ensures success == old(fs.RenameSucceeds(tempAssociateFile, downloadFullName))
      ensures fs.files == if success then old(fs.files) - {tempAssociateFile} + {downloadFullName} else old(fs.files)
    {
      downloadFullName := fullBaseName + extension;
      success := fs.Rename(tempAssociateFile, downloadFullName);
    }


    /** `move_thm_file`: the THM name is recorded whether or not the rename worked. */
    method MoveThmFile(rpd: RpdFile)
      modifies fs`files, rpd`downloadThmFullName
      ensures rpd.downloadThmFullName == rpd.downloadFullBaseName + SidecarExtension(rpd.thmExtension, DefaultThmExtension)
      ensures fs.files == if rpd.tempThmFullName in old(fs.files) && rpd.downloadThmFullName !in fs.failingTargets
                          then old(fs.files) - {rpd.tempThmFullName} + {rpd.downloadThmFullName}
                          else old(fs.files)
    {
      var ext := SidecarExtension(rpd.thmExtension, DefaultThmExtension);
      var moved;
      moved, rpd.downloadThmFullName := MoveAssociateFile(ext, rpd.downloadFullBaseName, rpd.tempThmFullName);
    }

    /** `move_audio_file`: the audio name is recorded whether or not the rename worked. */
    method MoveAudioFile(rpd: RpdFile)
      modifies fs`files, rpd`downloadAudioFullName
      ensures rpd.downloadAudioFullName == rpd.downloadFullBaseName + SidecarExtension(rpd.audioExtension, DefaultAudioExtension)
      ensures fs.files == if rpd.tempAudioFullName in old(fs.files) && rpd.downloadAudioFullName !in fs.failingTargets
                          then old(fs.files) - {rpd.tempAudioFullName} + {rpd.downloadAudioFullName}
                          else old(fs.files)
    {
      var ext := SidecarExtension(rpd.audioExtension, DefaultAudioExtension);
      var moved;
      moved, rpd.downloadAudioFullName := MoveAssociateFile(ext, rpd.downloadFullBaseName, rpd.tempAudioFullName);
    }

    /** The XMP step of `process_file`: the XMP name is recorded only when its rename worked. */
    method MoveXmpFile(rpd: RpdFile)
      modifies fs`files, rpd`downloadXmpFullName
      ensures var target := rpd.downloadFullBaseName + rpd.xmpExtension;
              var moved := rpd.tempXmpFullName in old(fs.files) && target !in fs.failingTargets;
              && fs.files == (if moved then old(fs.files) - {rpd.tempXmpFullName} + {target} else old(fs.files))
              && rpd.downloadXmpFullName == (if moved then target else old(rpd.downloadXmpFullName))
    {
      var target := rpd.downloadFullBaseName + rpd.xmpExtension;
      var moved := fs.Rename(rpd.tempXmpFullName, target);
      if moved {
        rpd.downloadXmpFullName := target;
      }
    }

    /** The sidecar steps of `process_file`: each sidecar present in the temporary folder is moved next to the file. */
    method MoveSidecars(rpd: RpdFile)
      modifies fs`files, rpd`downloadThmFullName, rpd`downloadAudioFullName, rpd`downloadXmpFullName
      ensures fs.files == AfterSidecars(old(fs.files), rpd, fs.failingTargets)
      ensures rpd.downloadThmFullName == if rpd.tempThmFullName != "" then ThmTarget(rpd) else old(rpd.downloadThmFullName)
      ensures rpd.downloadAudioFullName == if rpd.tempAudioFullName != "" then AudioTarget(rpd) else old(rpd.downloadAudioFullName)
      ensures rpd.downloadXmpFullName == if XmpMoved(old(fs.files), rpd, fs.failingTargets) then XmpTarget(rpd)
                                         else old(rpd.downloadXmpFullName)
    {
      if rpd.tempThmFullName != "" {
        MoveThmFile(rpd);
      }
      if rpd.tempAudioFullName != "" {
        MoveAudioFile(rpd);
      }
      if rpd.tempXmpFullName != "" {
        MoveXmpFile(rpd);
      }
    }

    /** `prepare_rpd_file`: the download folder for the file's type. */
    method PrepareRpdFile(rpd: RpdFile)
      modifies rpd`downloadFolder
      ensures rpd.downloadFolder == DownloadFolder(prefs, rpd.fileType)
    {
      if rpd.fileType == Photo {
        rpd.downloadFolder := prefs.photoDownloadFolder;
      } else {
        rpd.downloadFolder := prefs.videoDownloadFolder;
      }
    }

    /** Whether `process_file` synchronizes this file with the RAW/JPEG tracker. */
    predicate Synchronizes(rpd: RpdFile)
      reads this`prefs
    {
      prefs.mustSynchronizeRawJpg && rpd.fileType == Photo
    }

    /**
     * The counter step of `process_file`: `Sequences.increment` when the session
     * number or the letter is used, the stored number when it is used, and
     * downloads-today always.
     */
    method AdvanceCounters()
      modifies this`sequences, this`prefs, this`downloadsTodayTracker
      ensures sequences == old(sequences).(incrementCalls := old(sequences.incrementCalls) + IncrementCall(old(prefs)))
      ensures prefs == old(prefs).(storedSequenceNo := old(prefs.storedSequenceNo) + StoredIncrement(old(prefs)))
      ensures downloadsTodayTracker == old(downloadsTodayTracker).(calls := old(downloadsTodayTracker.calls) + [IncrementDownloadsToday])
    {
      var usesSessionSequenceNo := prefs.anyPrefUsesSessionSequenceNo;
      var usesSequenceLetter := prefs.anyPrefUsesSequenceLetter;
      if usesSessionSequenceNo || usesSequenceLetter {
        sequences := sequences.(incrementCalls := sequences.incrementCalls + [(usesSessionSequenceNo, usesSequenceLetter)]);
      }
      if prefs.anyPrefUsesStoredSequenceNo {
        prefs := prefs.(storedSequenceNo := prefs.storedSequenceNo + 1);
      }
      downloadsTodayTracker := downloadsTodayTracker.(calls := downloadsTodayTracker.calls + [IncrementDownloadsToday]);
    }

    /**
     * The first half of `process_file`: choose the folder, consult the pairing
     * tracker when synchronizing (a failure there ends the processing),
     * generate the names and, when both are non-blank, move the file.
     */
    method PlaceFile(rpd: RpdFile, subfolderGeneration: Generation, nameGeneration: Generation)
      returns (moveSucceeded: bool, synchronize: bool, syncResult: SyncRawJpegResult)
      requires Valid()
      modifies this`duplicateFiles, this`sequences, fs`files, rpd
      ensures synchronize == Synchronizes(rpd)
      ensures CountsGrow(old(duplicateFiles), duplicateFiles)
      ensures sequences.incrementCalls == old(sequences.incrementCalls)
      ensures moveSucceeded ==> rpd.status == Downloaded || rpd.status == DownloadedWithWarning
      ensures moveSucceeded ==> rpd.downloadSubfolder != "" && rpd.downloadName != ""
      ensures moveSucceeded ==> rpd.downloadFullFileName == DestinationOf(rpd)
      ensures moveSucceeded ==> fs.files == old(fs.files) - {rpd.tempFullFileName} + {rpd.downloadFullFileName}
      ensures !moveSucceeded ==> rpd.status == DownloadFailed || rpd.status == DownloadedWithWarning
      ensures !moveSucceeded && rpd.status == DownloadFailed ==> fs.files == old(fs.files)
      ensures !moveSucceeded && rpd.status == DownloadedWithWarning ==>
                && rpd.downloadFullFileName !in old(fs.files)
                && fs.files == old(fs.files) - {rpd.tempFullFileName} + {rpd.downloadFullFileName}
      ensures rpd.downloadThmFullName == old(rpd.downloadThmFullName)
      ensures rpd.downloadAudioFullName == old(rpd.downloadAudioFullName)
      ensures rpd.downloadXmpFullName == old(rpd.downloadXmpFullName)
      ensures rpd.metadata == LoadedMetadata(old(rpd.metadata), rpd.readableMetadata)
      ensures moveSucceeded && synchronize ==>
                && rpd.metadata.Some?
                && syncResult.sequenceToUse == SequenceToReuse(syncRawJpeg.photos, rpd.name, rpd.metadata.value)
                && syncResult.photoName == SplitExt(rpd.name).0 && syncResult.photoExt == SplitExt(rpd.name).1
      ensures PlacedAsNamed(rpd, NamingOf(synchronize, syncRawJpeg.photos, rpd.name, rpd.metadata, prefs.conflictResolution,
                                          subfolderGeneration, nameGeneration, old(rpd.downloadSubfolder), old(rpd.downloadName)),
                            DownloadFolder(prefs, rpd.fileType), old(rpd.problems), old(fs.files), prefs.conflictResolution,
                            duplicateFiles, moveSucceeded)
    {
      moveSucceeded := false;
      PrepareRpdFile(rpd);
      synchronize := Synchronizes(rpd);
      var named;
      named, syncResult := NameFile(rpd, synchronize, subfolderGeneration, nameGeneration);
      if named {
        moveSucceeded := MoveNamedFile(rpd);
      }
    }

    /**
     * The naming steps of `process_file`: the pairing tracker when
     * synchronizing (its failure ends the processing), then the subfolder and
     * file name. A file that is not named has failed.
     */
    method NameFile(rpd: RpdFile, synchronize: bool, subfolderGeneration: Generation, nameGeneration: Generation)
      returns (named: bool, syncResult: SyncRawJpegResult)
      requires Valid()
      modifies this`sequences, rpd`metadata, rpd`problems, rpd`status, rpd`downloadSubfolder, rpd`downloadName
      ensures sequences.incrementCalls == old(sequences.incrementCalls)
      ensures rpd.metadata == LoadedMetadata(old(rpd.metadata), rpd.readableMetadata)
      ensures named ==> rpd.downloadSubfolder != "" && rpd.downloadName != ""
      ensures !named ==> rpd.status == DownloadFailed
      ensures var n := NamingOf(synchronize, syncRawJpeg.photos, rpd.name, rpd.metadata, prefs.conflictResolution,
                                subfolderGeneration, nameGeneration, old(rpd.downloadSubfolder), old(rpd.downloadName));
              && named == n.named
              && rpd.downloadSubfolder == n.subfolder && rpd.downloadName == n.name
              && rpd.problems == old(rpd.problems) + n.problems
      ensures named && synchronize ==>
                && rpd.metadata.Some?
                && syncResult.sequenceToUse == SequenceToReuse(syncRawJpeg.photos, rpd.name, rpd.metadata.value)
                && syncResult.photoName == SplitExt(rpd.name).0 && syncResult.photoExt == SplitExt(rpd.name).1
    {
      syncResult := SyncRawJpegResult(None, false, "", "");
      ghost var problems := rpd.problems;
      ghost var pairing: seq<Problem> := [];
      if synchronize {
        syncResult := CheckPairing(rpd);
        if syncResult.failed {
          return false, syncResult;
        }
        pairing := PairingProblems(syncRawJpeg.photos, rpd.name, rpd.metadata.value);
      }
      named := GenerateNames(rpd, subfolderGeneration, nameGeneration);
      ghost var generated := GeneratedNaming(rpd.metadata.Some?, subfolderGeneration, nameGeneration, old(rpd.downloadName));
      assert rpd.problems == problems + pairing + generated.problems;
      assert rpd.problems == problems + (pairing + generated.problems);
    }

    /**
     * `sync_raw_jpg` as the naming steps see it: either it refuses the photo,
     * which has then failed with the refusal's problems, or it lets it through
     * with its metadata loaded and the capture-time clash recorded, if any.
     */
    method CheckPairing(rpd: RpdFile) returns (syncResult: SyncRawJpegResult)
      requires Valid()
      modifies rpd`metadata, rpd`problems, rpd`status, this`sequences
      ensures sequences.incrementCalls == old(sequences.incrementCalls)
      ensures rpd.metadata == LoadedMetadata(old(rpd.metadata), rpd.readableMetadata)
      ensures var refusal := PairingRefusal(syncRawJpeg.photos, rpd.name, rpd.metadata, prefs.conflictResolution,
                                            rpd.downloadSubfolder, rpd.downloadName);
              && syncResult.failed == refusal.Some?
              && (refusal.Some? ==> rpd.status == DownloadFailed && rpd.problems == old(rpd.problems) + refusal.value)
              && (refusal.None? ==>
                    && rpd.metadata.Some?
                    && rpd.problems == old(rpd.problems) + PairingProblems(syncRawJpeg.photos, rpd.name, rpd.metadata.value)
                    && syncResult.sequenceToUse == SequenceToReuse(syncRawJpeg.photos, rpd.name, rpd.metadata.value)
                    && syncResult.photoName == SplitExt(rpd.name).0 && syncResult.photoExt == SplitExt(rpd.name).1)
    {
      syncResult := SyncRawJpg(rpd);
    }

    /**
     * `move_file` as `process_file` sees it: either the file is in place under
     * its destination, or the download failed and nothing moved, or the file
     * went in under an identifier, which `move_file` still reports as a failure.
     */
    method MoveNamedFile(rpd: RpdFile) returns (moveSucceeded: bool)
      modifies this`duplicateFiles, fs`files
      modifies rpd`downloadPath, rpd`downloadFullFileName, rpd`downloadFullBaseName, rpd`downloadName, rpd`status, rpd`problems
      ensures CountsGrow(old(duplicateFiles), duplicateFiles)
      ensures moveSucceeded ==> rpd.status == Downloaded || rpd.status == DownloadedWithWarning
      ensures moveSucceeded ==> rpd.downloadName == old(rpd.downloadName) && rpd.downloadFullFileName == DestinationOf(rpd)
      ensures moveSucceeded ==> fs.files == old(fs.files) - {rpd.tempFullFileName} + {rpd.downloadFullFileName}
      ensures !moveSucceeded ==> rpd.status == DownloadFailed || rpd.status == DownloadedWithWarning
      ensures !moveSucceeded && rpd.status == DownloadFailed ==> fs.files == old(fs.files)
      ensures !moveSucceeded && rpd.status == DownloadedWithWarning ==>
                && rpd.downloadFullFileName !in old(fs.files)
                && fs.files == old(fs.files) - {rpd.tempFullFileName} + {rpd.downloadFullFileName}
      ensures rpd.downloadPath == PathJoin(rpd.downloadFolder, rpd.downloadSubfolder)
      ensures MovedAs(rpd, old(rpd.downloadFolder), old(rpd.downloadSubfolder), old(rpd.downloadName), old(rpd.problems),
                      old(fs.files), prefs.conflictResolution, duplicateFiles, moveSucceeded)
    {
      moveSucceeded := MoveFile(rpd);
    }

    /**
     * `process_file`. The counters advance only after the direct rename
     * succeeded, and only when synchronization is off or found no sequence
     * value to reuse. A synchronized photo that was moved is recorded in the
     * tracker with the reused value or with a freshly matched one.
     */
    method ProcessFile(rpd: RpdFile, subfolderGeneration: Generation, nameGeneration: Generation,
                       freshMatchedSequence: SequenceValue)
      returns (moveSucceeded: bool, ghost advanced: bool)
      requires Valid()
      modifies this`duplicateFiles, this`sequences, this`prefs, this`downloadsTodayTracker, fs`files, syncRawJpeg, rpd
      ensures Valid()
      ensures CountsGrow(old(duplicateFiles), duplicateFiles)
      ensures moveSucceeded ==> rpd.status == Downloaded || rpd.status == DownloadedWithWarning
      ensures moveSucceeded ==> rpd.downloadSubfolder != "" && rpd.downloadName != ""
      ensures moveSucceeded ==> rpd.downloadFullFileName == DestinationOf(rpd)
      ensures moveSucceeded && old(Synchronizes(rpd)) ==> rpd.metadata.Some?
      ensures advanced <==> moveSucceeded && AdvancesCounters(old(Synchronizes(rpd)), old(syncRawJpeg.photos), rpd.name, rpd.metadata)
      ensures moveSucceeded && old(Synchronizes(rpd)) && rpd.metadata.Some? ==>
                var reused := SequenceToReuse(old(syncRawJpeg.photos), rpd.name, rpd.metadata.value);
                syncRawJpeg.photos == Added(old(syncRawJpeg.photos), SplitExt(rpd.name).0, SplitExt(rpd.name).1,
                                            rpd.metadata.value.dateTime, rpd.metadata.value.subSeconds,
                                            if reused.Some? then reused.value else freshMatchedSequence)
      ensures !(moveSucceeded && old(Synchronizes(rpd))) ==> syncRawJpeg.photos == old(syncRawJpeg.photos)
      ensures CountersAdvanced(old(prefs), old(sequences), old(downloadsTodayTracker), prefs, sequences, downloadsTodayTracker,
                               advanced)
      ensures rpd.metadata == LoadedMetadata(old(rpd.metadata), rpd.readableMetadata)
      ensures moveSucceeded ==>
                var placed := old(fs.files) - {rpd.tempFullFileName} + {rpd.downloadFullFileName};
                && fs.files == AfterSidecars(placed, rpd, fs.failingTargets)
                && rpd.downloadXmpFullName == (if XmpMoved(placed, rpd, fs.failingTargets) then XmpTarget(rpd)
                                               else old(rpd.downloadXmpFullName))
      ensures moveSucceeded && rpd.tempThmFullName != "" ==> rpd.downloadThmFullName == ThmTarget(rpd)
      ensures moveSucceeded && rpd.tempAudioFullName != "" ==> rpd.downloadAudioFullName == AudioTarget(rpd)
      ensures !moveSucceeded ==> rpd.status == DownloadFailed || rpd.status == DownloadedWithWarning
      ensures !moveSucceeded && rpd.status == DownloadFailed ==> fs.files == old(fs.files)
      ensures !moveSucceeded && rpd.status == DownloadedWithWarning ==>
                && rpd.downloadFullFileName !in old(fs.files)
                && fs.files == old(fs.files) - {rpd.tempFullFileName} + {rpd.downloadFullFileName}
      ensures !moveSucceeded ==> rpd.downloadXmpFullName == old(rpd.downloadXmpFullName)
      ensures PlacedAsNamed(rpd, NamingOf(old(Synchronizes(rpd)), old(syncRawJpeg.photos), rpd.name, rpd.metadata,
                                          old(prefs.conflictResolution), subfolderGeneration, nameGeneration,
                                          old(rpd.downloadSubfolder), old(rpd.downloadName)),
                            DownloadFolder(old(prefs), rpd.fileType), old(rpd.problems), old(fs.files),
                            old(prefs.conflictResolution), duplicateFiles, moveSucceeded)
    {
      var synchronize, syncResult;
      ghost var n := NamingOf(Synchronizes(rpd), syncRawJpeg.photos, rpd.name, LoadedMetadata(rpd.metadata, rpd.readableMetadata),
                              prefs.conflictResolution, subfolderGeneration, nameGeneration,
                              rpd.downloadSubfolder, rpd.downloadName);
      ghost var folder, problems, files := DownloadFolder(prefs, rpd.fileType), rpd.problems, fs.files;
      moveSucceeded, synchronize, syncResult := PlaceFile(rpd, subfolderGeneration, nameGeneration);
      assert PlacedAsNamed(rpd, n, folder, problems, files, prefs.conflictResolution, duplicateFiles, moveSucceeded);
      advanced := RecordIfPlaced(rpd, moveSucceeded, synchronize, syncResult, freshMatchedSequence);
      assert prefs.conflictResolution == old(prefs.conflictResolution);
      assert PlacedAsNamed(rpd, n, folder, problems, files, prefs.conflictResolution, duplicateFiles, moveSucceeded);
    }

    /**
     * The second half of `process_file`, stated in the terms of the whole
     * call: nothing changes unless the file was placed, and a placed file is
     * recorded by `RecordPlacement`.
     */
    method RecordIfPlaced(rpd: RpdFile, moveSucceeded: bool, synchronize: bool, syncResult: SyncRawJpegResult,
                          freshMatchedSequence: SequenceValue)
      returns (ghost advanced: bool)
      requires Valid()
      requires moveSucceeded && synchronize ==>
                 && rpd.metadata.Some?
                 && syncResult.sequenceToUse == SequenceToReuse(syncRawJpeg.photos, rpd.name, rpd.metadata.value)
                 && syncResult.photoName == SplitExt(rpd.name).0 && syncResult.photoExt == SplitExt(rpd.name).1
      modifies this`sequences, this`prefs, this`downloadsTodayTracker, fs`files, syncRawJpeg
      modifies rpd`downloadThmFullName, rpd`downloadAudioFullName, rpd`downloadXmpFullName
      ensures Valid()
      ensures advanced <==> moveSucceeded && AdvancesCounters(synchronize, old(syncRawJpeg.photos), rpd.name, rpd.metadata)
      ensures moveSucceeded && synchronize && rpd.metadata.Some? ==>
                var reused := SequenceToReuse(old(syncRawJpeg.photos), rpd.name, rpd.metadata.value);
                syncRawJpeg.photos == Added(old(syncRawJpeg.photos), SplitExt(rpd.name).0, SplitExt(rpd.name).1,
                                            rpd.metadata.value.dateTime, rpd.metadata.value.subSeconds,
                                            if reused.Some? then reused.value else freshMatchedSequence)
      ensures !(moveSucceeded && synchronize) ==> syncRawJpeg.photos == old(syncRawJpeg.photos)
      ensures CountersAdvanced(old(prefs), old(sequences), old(downloadsTodayTracker), prefs, sequences, downloadsTodayTracker,
                               advanced)
      ensures fs.files == if moveSucceeded then AfterSidecars(old(fs.files), rpd, fs.failingTargets) else old(fs.files)
      ensures rpd.downloadXmpFullName == if moveSucceeded && XmpMoved(old(fs.files), rpd, fs.failingTargets) then XmpTarget(rpd)
                                         else old(rpd.downloadXmpFullName)
      ensures moveSucceeded && rpd.tempThmFullName != "" ==> rpd.downloadThmFullName == ThmTarget(rpd)
      ensures moveSucceeded && rpd.tempAudioFullName != "" ==> rpd.downloadAudioFullName == AudioTarget(rpd)
    {
      advanced := false;
      if moveSucceeded {
        advanced := RecordPlacement(rpd, synchronize, syncResult, freshMatchedSequence);
      }
    }

    /**
     * What `process_file` does once the file is in place: records a
     * synchronized photo in the tracker, advances the counters unless a
     * sequence value was reused, and moves the sidecar files.
     */
    method RecordPlacement(rpd: RpdFile, synchronize: bool, syncResult: SyncRawJpegResult,
                           freshMatchedSequence: SequenceValue)
      returns (ghost advanced: bool)
      requires Valid() && (synchronize ==> rpd.metadata.Some?)
      modifies this`sequences, this`prefs, this`downloadsTodayTracker, fs`files, syncRawJpeg
      modifies rpd`downloadThmFullName, rpd`downloadAudioFullName, rpd`downloadXmpFullName
      ensures Valid()
      ensures advanced <==> !synchronize || syncResult.sequenceToUse.None?
      ensures synchronize ==>
                syncRawJpeg.photos == Added(old(syncRawJpeg.photos), syncResult.photoName, syncResult.photoExt,
                                            rpd.metadata.value.dateTime, rpd.metadata.value.subSeconds,
                                            if syncResult.sequenceToUse.Some? then syncResult.sequenceToUse.value
                                            else freshMatchedSequence)
      ensures !synchronize ==> syncRawJpeg.photos == old(syncRawJpeg.photos)
      ensures CountersAdvanced(old(prefs), old(sequences), old(downloadsTodayTracker), prefs, sequences, downloadsTodayTracker,
                               advanced)
      ensures fs.files == AfterSidecars(old(fs.files), rpd, fs.failingTargets)
      ensures rpd.downloadThmFullName == if rpd.tempThmFullName != "" then ThmTarget(rpd) else old(rpd.downloadThmFullName)
      ensures rpd.downloadAudioFullName == if rpd.tempAudioFullName != "" then AudioTarget(rpd) else old(rpd.downloadAudioFullName)
      ensures rpd.downloadXmpFullName == if XmpMoved(old(fs.files), rpd, fs.failingTargets) then XmpTarget(rpd)
                                         else old(rpd.downloadXmpFullName)
    {
      advanced := false;
      if synchronize {
        var sequence := if syncResult.sequenceToUse.None? then freshMatchedSequence else syncResult.sequenceToUse.value;
        syncRawJpeg.AddDownload(syncResult.photoName, syncResult.photoExt, rpd.metadata.value.dateTime,
                                rpd.metadata.value.subSeconds, sequence);
      }
      if !synchronize || syncResult.sequenceToUse.None? {
        AdvanceCounters();
        advanced := true;
      }
      MoveSidecars(rpd);
    }

    /** `process_rename_failure`: removes the temporary file that was not placed. */
    method ProcessRenameFailure(rpd: RpdFile)
      modifies fs`files
      ensures fs.files == old(fs.files) - {rpd.tempFullFileName}
    {
      fs.Remove(rpd.tempFullFileName);
    }

    /**
     * One pass of the loop in `run`. `download_started` reloads the
     * preferences and creates a fresh downloads-today tracker and `Sequences`
     * but keeps the duplicate-file counters and the pairing tracker;
     * `download_completed` reports the stored sequence number and the tracker;
     * a file message is processed when its download succeeded, a temporary
     * file that could not be placed is removed, and the reply carries the
     * file with its metadata cleared.
     */
    method HandleMessage(message: Message) returns (reply: Option<Reply>)
      requires Valid()
      modifies this`prefs, this`sequences, this`downloadsTodayTracker, this`duplicateFiles, fs`files, syncRawJpeg
      modifies if message.FileMessage? then {message.request.rpdFile} else {}
      ensures Valid()
      ensures CountsGrow(old(duplicateFiles), duplicateFiles)
      ensures reply.Some? <==> !message.DownloadStarted?
      ensures reply.Some? ==> Answers(message, reply.value)
      ensures message.DownloadStarted? ==>
                && reply.None?
                && prefs == message.prefs
                && downloadsTodayTracker == DownloadsTodayTracker(message.prefs.dayStart, message.prefs.downloadsToday,
                                                                  [GetOrResetDownloadsToday])
                && sequences == Sequences(message.prefs.storedSequenceNo, None, [])
                && duplicateFiles == old(duplicateFiles) && syncRawJpeg.photos == old(syncRawJpeg.photos)
      ensures message.DownloadCompleted? ==>
                && reply == Some(SessionResult(old(sequences.storedSequenceNo), old(downloadsTodayTracker)))
                && downloadsTodayTracker == old(downloadsTodayTracker).(calls := old(downloadsTodayTracker.calls) + [GetOrResetDownloadsToday])
                && prefs == old(prefs) && sequences == old(sequences) && duplicateFiles == old(duplicateFiles)
                && fs.files == old(fs.files) && syncRawJpeg.photos == old(syncRawJpeg.photos)
      ensures message.FileMessage? ==>
                && reply.Some? && reply.value.FileResult?
                && reply.value.rpdFile == message.request.rpdFile
                && reply.value.downloadCount == message.request.downloadCount
                && message.request.rpdFile.metadata.None?
                && (!message.request.downloadSucceeded ==>
                      && !reply.value.moveSucceeded && fs.files == old(fs.files)
                      && prefs == old(prefs) && sequences == old(sequences) && duplicateFiles == old(duplicateFiles))
                && (message.request.downloadSucceeded && !reply.value.moveSucceeded ==>
                      message.request.rpdFile.tempFullFileName !in fs.files)
      ensures message.FileMessage? && message.request.downloadSucceeded && reply.Some? && reply.value.FileResult? ==>
                var rpd := message.request.rpdFile;
                var metadata := LoadedMetadata(old(rpd.metadata), rpd.readableMetadata);
                var moved := reply.value.moveSucceeded;
                var synchronized := old(Synchronizes(rpd));
                var advanced := moved && AdvancesCounters(synchronized, old(syncRawJpeg.photos), rpd.name, metadata);
                && CountersAdvanced(old(prefs), old(sequences), old(downloadsTodayTracker),
                                    prefs, sequences, downloadsTodayTracker, advanced)
                && (moved && synchronized && metadata.Some? ==>
                      var reused := SequenceToReuse(old(syncRawJpeg.photos), rpd.name, metadata.value);
                      syncRawJpeg.photos == Added(old(syncRawJpeg.photos), SplitExt(rpd.name).0, SplitExt(rpd.name).1,
                                                  metadata.value.dateTime, metadata.value.subSeconds,
                                                  if reused.Some? then reused.value else message.request.freshMatchedSequence))
                && (!(moved && synchronized) ==> syncRawJpeg.photos == old(syncRawJpeg.photos))
                && (moved ==>
                      && (rpd.status == Downloaded || rpd.status == DownloadedWithWarning)
                      && rpd.downloadFullFileName == DestinationOf(rpd)
                      && fs.files == AfterSidecars(old(fs.files) - {rpd.tempFullFileName} + {rpd.downloadFullFileName},
                                                   rpd, fs.failingTargets))
                && (!moved ==>
                      && (rpd.status == DownloadFailed || rpd.status == DownloadedWithWarning)
                      && fs.files == (if rpd.status == DownloadedWithWarning then old(fs.files) + {rpd.downloadFullFileName}
                                      else old(fs.files)) - {rpd.tempFullFileName})
    {
      match message {
        case DownloadStarted(p) =>
          prefs := p;
          downloadsTodayTracker := DownloadsTodayTracker(p.dayStart, p.downloadsToday, []);
          sequences := Sequences(p.storedSequenceNo, None, []);
          downloadsTodayTracker := downloadsTodayTracker.(calls := downloadsTodayTracker.calls + [GetOrResetDownloadsToday]);
          reply := None;
        case DownloadCompleted =>
          reply := Some(SessionResult(sequences.storedSequenceNo, downloadsTodayTracker));
          downloadsTodayTracker := downloadsTodayTracker.(calls := downloadsTodayTracker.calls + [GetOrResetDownloadsToday]);
        case FileMessage(request) =>
          var rpd := request.rpdFile;
          var moveSucceeded := false;
          if request.downloadSucceeded {
            ghost var advanced;
            moveSucceeded, advanced := ProcessFile(rpd, request.subfolderGeneration, request.nameGeneration,
                                                   request.freshMatchedSequence);
            if !moveSucceeded {
              ProcessRenameFailure(rpd);
            }
          }
          rpd.metadata := None;
          reply := Some(FileResult(moveSucceeded, rpd, request.downloadCount));
      }
    }

    /**
     * `run`: the duplicate-file counters start empty once per run and every
     * message is handled in order; every message except `download_started`
     * is answered, and every file handed back has its metadata cleared.
     */
    method Run(messages: seq<Message>) returns (replies: seq<Reply>)
      requires Valid()
      modifies this`prefs, this`sequences, this`downloadsTodayTracker, this`duplicateFiles, fs`files, syncRawJpeg
      modifies FilesOf(messages)
      ensures Valid()
      ensures AnswersAll(Answered(messages), replies)
      ensures forall r :: r in replies && r.FileResult? ==> r.rpdFile in FilesOf(messages) && r.rpdFile.metadata.None?
    {
      duplicateFiles := map[];
      replies := [];
      var i := 0;
      while i < |messages|
        invariant 0 <= i <= |messages|
        invariant Valid()
        invariant AnswersAll(Answered(messages[..i]), replies)
        invariant forall r :: r in replies && r.FileResult? ==> r.rpdFile in FilesOf(messages) && r.rpdFile.metadata.None?
      {
        assert messages[i] in messages;
        var reply := HandleMessage(messages[i]);
        AnsweredStep(messages, i, replies, reply);
        if reply.Some? {
          replies := replies + [reply.value];
        }
        i := i + 1;
      }
      assert messages[..i] == messages;
    }
  }

  /** The destination of the clash scenario below. */
  lemma ClashScenarioDestination()
    ensures PathJoin("/photos", "2024") == "/photos/2024"
    ensures Destination("/photos", "2024", "IMG_0001.JPG") == "/photos/2024/IMG_0001.JPG"
  {
    assert PathJoin("/photos", "2024") == "/photos/2024" by {
      assert "/photos" + [Slash] + "2024" == "/photos/2024";
    }
    assert PathJoin("/photos/2024", "IMG_0001.JPG") == "/photos/2024/IMG_0001.JPG" by {
      assert "/photos/2024" + [Slash] + "IMG_0001.JPG" == "/photos/2024/IMG_0001.JPG";
    }
  }

  /** The file name of the clash scenario below, split at its extension. */
  lemma ClashScenarioExtension()
    ensures SplitExt("IMG_0001.JPG") == ("IMG_0001", ".JPG")
  {
    assert "IMG_0001" + ".JPG" == "IMG_0001.JPG";
    assert "IMG_0001"[0] != Dot;
    SplitExtFileName("IMG_0001", ".JPG");
  }

  /** The first identifier candidate of the clash scenario below. */
  lemma ClashScenarioCandidate()
    ensures Candidate("/photos/2024", "IMG_0001.JPG", 1) == "/photos/2024/IMG_0001_1.JPG"
  {
    ClashScenarioExtension();
    assert IdentifiedName("IMG_0001", ".JPG", 1) == "IMG_0001_1.JPG" by {
      assert Decimal(1) == "1";
    }
    assert PathJoin("/photos/2024", "IMG_0001_1.JPG") == "/photos/2024/IMG_0001_1.JPG" by {
      assert "/photos/2024" + [Slash] + "IMG_0001_1.JPG" == "/photos/2024/IMG_0001_1.JPG";
    }
  }

  /**
   * A clash under the add-identifier policy: `/photos/2024/IMG_0001.JPG`
   * already exists, so the file is renamed to `IMG_0001_1.JPG` and the
   * download is marked as a warning, yet `move_file` answers False because
   * only a direct rename sets its result.
   */
  method AddIdentifierClashScenario() returns (moveSucceeded: bool, placedAs: string, status: DownloadStatus,
                                                placed: bool)
    ensures !moveSucceeded
    ensures placedAs == "/photos/2024/IMG_0001_1.JPG"
    ensures status == DownloadedWithWarning && placed
  {
    var temp := "/tmp/IMG_0001.JPG";
    var existing := "/photos/2024/IMG_0001.JPG";
    var fs := new FileSystem({temp, existing}, {});
    var prefs := Prefs(AddIdentifier, false, false, false, false, "/photos", "/videos", 0, "", []);
    var worker := new RenameMoveFileWorker(prefs, fs);
    var rpd := new RpdFile(Photo, "IMG_0001.JPG", temp, "", "", "", "", "", "", Some(Metadata(0, "")));
    rpd.downloadFolder, rpd.downloadSubfolder, rpd.downloadName := "/photos", "2024", "IMG_0001.JPG";
    ClashScenarioDestination();
    ClashScenarioCandidate();
    assert DestinationOf(rpd) == existing;
    moveSucceeded := worker.MoveFile(rpd);
    assert rpd.downloadPath == "/photos/2024";
    assert Candidate("/photos/2024", "IMG_0001.JPG", 1) !in {temp, existing};
    assert Count(worker.duplicateFiles, existing) == 1;
    placedAs, status := rpd.downloadFullFileName, rpd.status;
    placed := placedAs in fs.files;
  }
}
