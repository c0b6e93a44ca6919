/**
 * The RAW/JPEG pairing tracker of the rename-and-move daemon (class SyncRawJpeg
 * of rapid/renameandmovefile.py). For every file stem already placed in this
 * session it remembers the extensions placed under that stem, the EXIF capture
 * date-time and sub-seconds, and the sequence value the first placement used.
 * A second file with the same stem and the same capture time but another
 * extension is the other half of a RAW+JPEG pair and reuses that sequence value.
 */
module SyncRawJpegTracker {
  import opened Wrappers

  /** EXIF values and sequence values are opaque here: they are only compared for equality. */
  type DateTime = int
  type SubSeconds = string
  type SequenceValue = int

  datatype SyncRawJpegStatus = MatchingPair | NoMatch | ErrorAlreadyDownloaded | ErrorDatetimeMismatch

  datatype SyncRawJpegMatch = SyncRawJpegMatch(status: SyncRawJpegStatus, sequenceNumber: Option<SequenceValue>)

  /** The tuple `([extension, ...], date_time, sub_seconds, sequence_number_used)`. */
  datatype PhotoRecord = PhotoRecord(extensions: seq<string>, dateTime: DateTime, subSeconds: SubSeconds,
                                     sequenceNumber: SequenceValue)

  type Photos = map<string, PhotoRecord>

  predicate NoDuplicates(s: seq<string>) {
    forall i, j :: 0 <= i < j < |s| ==> s[i] != s[j]
  }

  /** Every recorded stem has at least one extension and lists each extension once. */
  predicate WellFormed(photos: Photos) {
    forall name :: name in photos ==> |photos[name].extensions| > 0 && NoDuplicates(photos[name].extensions)
  }

  /**
   * The dictionary after `add_download`. A new stem gets the record
   * `([extension], date_time, sub_seconds, sequence)`; a known stem is never
   * overwritten: its capture time, sub-seconds, sequence value and listed
   * extensions stay, and the new extension is appended only when it is not
   * listed yet, so re-adding a listed extension changes nothing. No other stem changes.
   */
  function Added(photos: Photos, name: string, extension: string, dateTime: DateTime, subSeconds: SubSeconds,
                 sequenceUsed: SequenceValue): (r: Photos)
    ensures r.Keys == photos.Keys + {name}
    ensures forall n :: n in photos && n != name ==> r[n] == photos[n]
    ensures extension in r[name].extensions
    ensures name !in photos ==> r[name] == PhotoRecord([extension], dateTime, subSeconds, sequenceUsed)
    ensures name in photos ==>
              && r[name].dateTime == photos[name].dateTime
              && r[name].subSeconds == photos[name].subSeconds
              && r[name].sequenceNumber == photos[name].sequenceNumber
              && r[name].extensions == (if extension in photos[name].extensions then photos[name].extensions
                                        else photos[name].extensions + [extension])
    ensures name in photos && extension in photos[name].extensions ==> r == photos
  {
    if name !in photos then
      photos[name := PhotoRecord([extension], dateTime, subSeconds, sequenceUsed)]
    else if extension !in photos[name].extensions then
      photos[name := photos[name].(extensions := photos[name].extensions + [extension])]
    else
      photos
  }

  /**
   * `matching_pair`: classifies a file against the stems already placed.
   * The four outcomes are exclusive and cover every input; a sequence value
   * is returned exactly for a duplicate or for the other half of a pair.
   */
  function Match(photos: Photos, name: string, extension: string, dateTime: DateTime, subSeconds: SubSeconds)
    : (r: SyncRawJpegMatch)
    ensures r.status == NoMatch <==> name !in photos
    ensures r.status == ErrorDatetimeMismatch <==>
              name in photos && (photos[name].dateTime != dateTime || photos[name].subSeconds != subSeconds)
    ensures r.status == ErrorAlreadyDownloaded <==>
              name in photos && photos[name].dateTime == dateTime && photos[name].subSeconds == subSeconds
              && extension in photos[name].extensions
    ensures r.status == MatchingPair <==>
              name in photos && photos[name].dateTime == dateTime && photos[name].subSeconds == subSeconds
              && extension !in photos[name].extensions
    ensures r.sequenceNumber.Some? <==> r.status == MatchingPair || r.status == ErrorAlreadyDownloaded
    ensures r.sequenceNumber.Some? ==> r.sequenceNumber.value == photos[name].sequenceNumber
  {
    if name in photos then
      var rec := photos[name];
      if rec.dateTime == dateTime && rec.subSeconds == subSeconds then
        if extension in rec.extensions then
          SyncRawJpegMatch(ErrorAlreadyDownloaded, Some(rec.sequenceNumber))
        else
          SyncRawJpegMatch(MatchingPair, Some(rec.sequenceNumber))
      else
        SyncRawJpegMatch(ErrorDatetimeMismatch, None)
    else
      SyncRawJpegMatch(NoMatch, None)
  }

  /** `add_download` keeps every extension list non-empty and free of duplicates. */
  lemma AddedWellFormed(photos: Photos, name: string, extension: string, dateTime: DateTime,
                        subSeconds: SubSeconds, sequenceUsed: SequenceValue)
    requires WellFormed(photos)
    ensures WellFormed(Added(photos, name, extension, dateTime, subSeconds, sequenceUsed))
  {
    var r := Added(photos, name, extension, dateTime, subSeconds, sequenceUsed);
    if name in photos && extension !in photos[name].extensions {
      var exts := photos[name].extensions;
      var exts' := exts + [extension];
      assert r[name].extensions == exts';
      forall i, j | 0 <= i < j < |exts'| ensures exts'[i] != exts'[j] {
        if j == |exts| {
          assert exts'[i] == exts[i];
        }
      }
    }
  }

  /**
   * The RAW+JPEG pairing scenario: two files with one stem and one capture
   * time but different extensions, placed in either order. The second is told
   * it is the matching half and is given the first one's sequence value; once
   * it is recorded, the stem has one entry listing both extensions, and both
   * files now read as already downloaded with that sequence value.
   */
  lemma {:induction false} PairSharesSequence(photos: Photos, name: string, first: string, second: string,
                                              dateTime: DateTime, subSeconds: SubSeconds, sequence: SequenceValue)
    requires name !in photos
    requires first != second
    ensures var afterFirst := Added(photos, name, first, dateTime, subSeconds, sequence);
            var m := Match(afterFirst, name, second, dateTime, subSeconds);
            && m == SyncRawJpegMatch(MatchingPair, Some(sequence))
            && var afterBoth := Added(afterFirst, name, second, dateTime, subSeconds, m.sequenceNumber.value);
               && afterBoth[name] == PhotoRecord([first, second], dateTime, subSeconds, sequence)
               && Match(afterBoth, name, first, dateTime, subSeconds) == SyncRawJpegMatch(ErrorAlreadyDownloaded, Some(sequence))
               && Match(afterBoth, name, second, dateTime, subSeconds) == SyncRawJpegMatch(ErrorAlreadyDownloaded, Some(sequence))
  {
    var afterFirst := Added(photos, name, first, dateTime, subSeconds, sequence);
    assert afterFirst[name].extensions == [first];
    var afterBoth := Added(afterFirst, name, second, dateTime, subSeconds, sequence);
    assert afterBoth[name].extensions == [first, second];
  }

  /** The tracker object: the session's `photos` dictionary, updated in place. */
  class SyncRawJpeg {
    var photos: Photos

    ghost predicate Valid()
      reads this
    {
      WellFormed(photos)
    }

    constructor ()
      ensures Valid() && photos == map[]
    {
      photos := map[];
    }

    /** Registers a placement without overwriting an existing record. */
    method AddDownload(name: string, extension: string, dateTime: DateTime, subSeconds: SubSeconds,
                       sequenceUsed: SequenceValue)
      requires Valid()
      modifies this
      ensures Valid()
      ensures photos == Added(old(photos), name, extension, dateTime, subSeconds, sequenceUsed)
    {
      AddedWellFormed(photos, name, extension, dateTime, subSeconds, sequenceUsed);
      if name !in photos {
        photos := photos[name := PhotoRecord([extension], dateTime, subSeconds, sequenceUsed)];
      } else if extension !in photos[name].extensions {
        var rec := photos[name];
        photos := photos[name := rec.(extensions := rec.extensions + [extension])];
      }
    }

    function MatchingPair(name: string, extension: string, dateTime: DateTime, subSeconds: SubSeconds)
      : SyncRawJpegMatch
      reads this
    {
      Match(photos, name, extension, dateTime, subSeconds)
    }

    /**
     * `ext_exif_date_time`: the first extension placed under a known stem, with
     * its capture date-time and sub-seconds. The source indexes the dictionary
     * directly, so the stem must have been placed.
     */
    function ExtExifDateTime(name: string): (r: (string, DateTime, SubSeconds))
      requires Valid() && name in photos
      reads this
      ensures r.0 == photos[name].extensions[0] && r.0 in photos[name].extensions
      ensures r.1 == photos[name].dateTime && r.2 == photos[name].subSeconds
    {
      (photos[name].extensions[0], photos[name].dateTime, photos[name].subSeconds)
    }
  }
}
