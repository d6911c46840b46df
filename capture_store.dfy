/**
 * The capture store (`saveCapture`, `getLatestCapture`): a snapshot image
 * and its style analysis are written as `capture_<ts>.png` and
 * `capture_<ts>.json` into the captures directory, and the newest `.json`
 * file is read back with the snapshot re-encoded as a PNG data URL.
 *
 * The clock (`Date.now()`, the ISO date, the file system's mtime) is given
 * as parameters; the base64 codec is a pair of oracle functions.
 */
module Captures {
  import opened Common
  import opened Files

  /** Stands for the absolute path of `<backend>/captures`. */
  const CapturesDir := "captures"

  function ImageName(ts: nat): string {
    "capture_" + NatToString(ts) + ".png"
  }

  function DataName(ts: nat): string {
    "capture_" + NatToString(ts) + ".json"
  }

  /** `path.join(CAPTURES_DIR, name)`. */
  function PathOf(name: string): string {
    CapturesDir + "/" + name
  }

  /** The directory entry a path names, when it lies directly inside the captures directory. */
  function Resolve(path: string): (r: Option<string>)
    ensures r.Some? ==> path == PathOf(r.value)
  {
    if StartsWith(path, CapturesDir + "/") then Some(path[|CapturesDir| + 1..]) else None
  }

  lemma ResolvePathOf(name: string)
    ensures Resolve(PathOf(name)) == Some(name)
  {
    assert PathOf(name)[..|CapturesDir| + 1] == CapturesDir + "/";
  }

  // ----------------------------------------------------------------------
  // `snapshot.replace(/^data:image\/\w+;base64,/, '')`

  const ImagePrefix := "data:image/"
  const Base64Marker := ";base64,"

  /** The regular expression class `\w`. */
  predicate IsWordChar(c: char) {
    ('a' <= c <= 'z') || ('A' <= c <= 'Z') || ('0' <= c <= '9') || c == '_'
  }

  predicate IsWord(w: string) {
    |w| > 0 && forall k :: 0 <= k < |w| ==> IsWordChar(w[k])
  }

  /** The length of the run of word characters `s` starts with (`\w+` is greedy). */
  function WordRun(s: string): (n: nat)
    ensures n <= |s|
    ensures forall k :: 0 <= k < n ==> IsWordChar(s[k])
    ensures n == |s| || !IsWordChar(s[n])
  {
    if |s| == 0 || !IsWordChar(s[0]) then 0 else 1 + WordRun(s[1..])
  }

  lemma {:induction false} WordRunOfWord(w: string, t: string)
    requires forall k :: 0 <= k < |w| ==> IsWordChar(w[k])
    requires |t| > 0 && !IsWordChar(t[0])
    ensures WordRun(w + t) == |w|
    decreases |w|
  {
    if |w| > 0 {
      assert (w + t)[1..] == w[1..] + t;
      WordRunOfWord(w[1..], t);
    }
  }

  /** The string begins with `data:image/`, a word, and `;base64,`. */
  ghost predicate HasDataUrlPrefix(s: string) {
    exists w :: IsWord(w) && StartsWith(s, ImagePrefix + w + Base64Marker)
  }

  function StripDataUrlPrefix(s: string): (r: string)
    ensures HasDataUrlPrefix(s) ==> exists w :: IsWord(w) && s == ImagePrefix + w + Base64Marker + r
    ensures !HasDataUrlPrefix(s) ==> r == s
  {
    if StartsWith(s, ImagePrefix) then
      var rest := s[|ImagePrefix|..];
      var n := WordRun(rest);
      if n > 0 && StartsWith(rest[n..], Base64Marker) then
        var r := rest[n + |Base64Marker|..];
        assert s == ImagePrefix + rest[..n] + Base64Marker + r;
        assert IsWord(rest[..n]) && StartsWith(s, ImagePrefix + rest[..n] + Base64Marker);
        r
      else
        NoDataUrlPrefix(s);
        s
    else
      s
  }

  /** When the greedy scan finds no prefix, no word makes one. */
  lemma NoDataUrlPrefix(s: string)
    requires StartsWith(s, ImagePrefix)
    requires var rest := s[|ImagePrefix|..];
             var n := WordRun(rest);
             !(n > 0 && StartsWith(rest[n..], Base64Marker))
    ensures !HasDataUrlPrefix(s)
  {
    if w :| IsWord(w) && StartsWith(s, ImagePrefix + w + Base64Marker) {
      PrefixFound(s, w);
      assert false;
    }
  }

  /** A `data:image/<word>;base64,` prefix is what the greedy scan finds, the word being the whole run. */
  lemma PrefixFound(s: string, w: string)
    requires IsWord(w) && StartsWith(s, ImagePrefix + w + Base64Marker)
    ensures StartsWith(s, ImagePrefix)
    ensures var rest := s[|ImagePrefix|..];
            WordRun(rest) == |w| && StartsWith(rest[|w|..], Base64Marker)
  {
    PrefixSplit(s, ImagePrefix, w, Base64Marker);
    var t := s[|ImagePrefix| + |w|..];
    assert t[0] == ';' by { assert t[0] == t[..|Base64Marker|][0]; }
    WordRunOfWord(w, t);
  }

  /** A string that starts with `a + w + m` starts with `a`, continues with `w`, then with `m`. */
  lemma PrefixSplit(s: string, a: string, w: string, m: string)
    requires StartsWith(s, a + w + m)
    ensures StartsWith(s, a)
    ensures s[|a|..] == w + s[|a| + |w|..]
    ensures StartsWith(s[|a| + |w|..], m)
  {
    var p := a + w + m;
    assert forall k :: 0 <= k < |p| ==> s[k] == p[k] by {
      forall k | 0 <= k < |p| ensures s[k] == p[k] {
        assert s[..|p|][k] == s[k];
      }
    }
    assert s[..|a|] == a;
    assert s[|a|..][..|w|] == w;
    assert s[|a| + |w|..][..|m|] == m;
  }

  lemma StartsWithConcat(x: string, y: string)
    ensures StartsWith(x + y, x)
  {
    assert (x + y)[..|x|] == x;
  }

  /** A PNG data URL loses its prefix; a string without the prefix is kept whole. */
  lemma StripExamples()
    ensures StripDataUrlPrefix("data:image/png;base64,QUJD") == "QUJD"
    ensures StripDataUrlPrefix("QUJD") == "QUJD"
  {
    var w, r := "png", "QUJD";
    var s := ImagePrefix + w + Base64Marker + r;
    assert s == "data:image/png;base64,QUJD";
    StartsWithConcat(ImagePrefix + w + Base64Marker, r);
    PrefixFound(s, w);
    assert s[|ImagePrefix|..][|w| + |Base64Marker|..] == r;
    assert !StartsWith("QUJD", ImagePrefix);
  }

  // ----------------------------------------------------------------------
  // The store

  /** The record `saveCapture` writes and returns. */
  function CaptureRecordFor(ts: nat, analysis: Analysis, createdAt: string): CaptureRecord {
    CaptureRecord(ts, PathOf(ImageName(ts)), "/captures/" + ImageName(ts), analysis, createdAt)
  }

  /** The directory after a save: the PNG, then the JSON record, both stamped `now`. */
  function SavedCapture(dir: Directory, ts: nat, analysis: Analysis, createdAt: string, now: int, bytes: seq<byte>): Directory {
    dir[ImageName(ts) := FileEntry(Png(bytes), now)]
       [DataName(ts) := FileEntry(CaptureJson(CaptureRecordFor(ts, analysis, createdAt)), now)]
  }

  /** The bytes `readFileSync` returns; only PNG files are read as bytes here. */
  function FileBytes(c: Content): seq<byte> {
    if c.Png? then c.bytes else []
  }

  /** The contents of the newest `.json` file, if there is one. */
  function LatestCaptureFile(dir: Directory, listing: seq<string>): (r: Option<Content>)
    requires IsListingOf(listing, dir)
    ensures r.None? <==> forall n :: n in dir ==> !IsJsonName(n)
    ensures r.Some? ==> exists n :: n in dir && IsJsonName(n) && dir[n].content == r.value
                                    && forall m :: m in dir && IsJsonName(m) ==> dir[m].mtime <= dir[n].mtime
  {
    var k := LatestJson(listing, dir);
    if k.None? then
      assert forall n :: n in dir ==> !IsJsonName(n) by {
        forall n | n in dir ensures !IsJsonName(n) {
          var i :| 0 <= i < |listing| && listing[i] == n;
        }
      }
      None
    else
      var n := listing[k.value];
      assert forall m :: m in dir && IsJsonName(m) ==> dir[m].mtime <= dir[n].mtime by {
        forall m | m in dir && IsJsonName(m) ensures dir[m].mtime <= dir[n].mtime {
          var i :| 0 <= i < |listing| && listing[i] == m;
        }
      }
      Some(dir[n].content)
  }

  /** The PNG bytes at a record's `snapshotPath`, when that file exists. */
  function SnapshotBytes(dir: Directory, path: string): (r: Option<seq<byte>>)
    ensures r.Some? <==> Resolve(path).Some? && Resolve(path).value in dir
  {
    var name := Resolve(path);
    if name.Some? && name.value in dir then Some(FileBytes(dir[name.value].content)) else None
  }

  datatype CaptureReply =
    | CaptureRequired                                            // 400
    | CaptureSaved(capture: CaptureRecord)
    | NoCaptures                                                 // 404
    | ReadFailed                                                 // 500, `JSON.parse` throws
    | LatestCapture(record: Option<CaptureRecord>, snapshot: Option<string>)
  {
    function HttpStatus(): int {
      match this
      case CaptureRequired => 400
      case NoCaptures => 404
      case ReadFailed => 500
      case _ => 200
    }
  }

  const PngDataUrlPrefix := "data:image/png;base64,"

  class CaptureStore {
    var files: Directory

    constructor (initial: Directory)
      ensures files == initial
    {
      files := initial;
    }

    /**
     * `saveCapture`. `overshootData` is `None` when falsy; `decode` is
     * `Buffer.from(_, 'base64')`.
     */
    method SaveCapture(snapshot: string, overshootData: Option<Analysis>, ts: nat, createdAt: string, now: int,
                       decode: string -> seq<byte>)
      returns (reply: CaptureReply)
      modifies this
      ensures snapshot == "" || overshootData.None? ==> reply == CaptureRequired && files == old(files)
      ensures snapshot != "" && overshootData.Some? ==>
                && reply == CaptureSaved(CaptureRecordFor(ts, overshootData.value, createdAt))
                && files == SavedCapture(old(files), ts, overshootData.value, createdAt, now,
                                         decode(StripDataUrlPrefix(snapshot)))
    {
      if snapshot == "" || overshootData.None? {
        return CaptureRequired;
      }
      var base64Data := StripDataUrlPrefix(snapshot);
      var imageName := ImageName(ts);
      files := files[imageName := FileEntry(Png(decode(base64Data)), now)];
      var captureData := CaptureRecord(ts, PathOf(imageName), "/captures/" + imageName, overshootData.value, createdAt);
      files := files[DataName(ts) := FileEntry(CaptureJson(captureData), now)];
      reply := CaptureSaved(captureData);
    }

    /** `getLatestCapture`; `encode` is `toString('base64')`. */
    method GetLatestCapture(listing: seq<string>, encode: seq<byte> -> string) returns (reply: CaptureReply)
      requires IsListingOf(listing, files)
      ensures var latest := LatestCaptureFile(files, listing);
              && (reply == NoCaptures <==> latest.None?)
              && (reply == ReadFailed <==> latest.Some? && !latest.value.IsJson())
              && (latest.Some? && latest.value.IsJson() ==> reply.LatestCapture?)
              && (reply.LatestCapture? ==>
                    && reply.record == (if latest.value.CaptureJson? then Some(latest.value.capture) else None)
                    && (reply.snapshot.Some? <==>
                          reply.record.Some? && SnapshotBytes(files, reply.record.value.snapshotPath).Some?)
                    && (reply.snapshot.Some? ==>
                          reply.snapshot.value
                            == PngDataUrlPrefix + encode(SnapshotBytes(files, reply.record.value.snapshotPath).value)))
    {
      var latest := LatestCaptureFile(files, listing);
      if latest.None? {
        return NoCaptures;
      }
      if !latest.value.IsJson() {
        return ReadFailed;
      }
      if !latest.value.CaptureJson? {
        return LatestCapture(None, None);
      }
      var captureData := latest.value.capture;
      var snapshot := None;
      var bytes := SnapshotBytes(files, captureData.snapshotPath);
      if bytes.Some? {
        snapshot := Some(PngDataUrlPrefix + encode(bytes.value));
      }
      reply := LatestCapture(Some(captureData), snapshot);
    }
  }

  lemma ImageNameIsNotJson(ts: nat)
    ensures !IsJsonName(ImageName(ts))
    ensures ImageName(ts) != DataName(ts)
  {
    var s := ImageName(ts);
    assert s[|s| - 1] == 'g';
    assert DataName(ts)[|DataName(ts)| - 1] == 'n';
  }

  lemma DataNameIsJson(ts: nat)
    ensures IsJsonName(DataName(ts))
  {
    var s := DataName(ts);
    assert s[|s| - 5..] == ".json";
  }

  /**
   * Saving and then reading the newest capture, with every existing file
   * older than the save, returns the record just written, and its snapshot
   * path leads to the decoded bytes.
   */
  lemma SaveThenLatest(dir: Directory, ts: nat, analysis: Analysis, createdAt: string, now: int,
                       bytes: seq<byte>, listing: seq<string>)
    requires forall n :: n in dir ==> dir[n].mtime < now
    requires IsListingOf(listing, SavedCapture(dir, ts, analysis, createdAt, now, bytes))
    ensures var saved := SavedCapture(dir, ts, analysis, createdAt, now, bytes);
            var rec := CaptureRecordFor(ts, analysis, createdAt);
            && LatestCaptureFile(saved, listing) == Some(CaptureJson(rec))
            && rec.overshootData == analysis
            && SnapshotBytes(saved, rec.snapshotPath) == Some(bytes)
  {
    var saved := SavedCapture(dir, ts, analysis, createdAt, now, bytes);
    ImageNameIsNotJson(ts);
    DataNameIsJson(ts);
    NewestJsonIsSelected(listing, saved, DataName(ts));
    ResolvePathOf(ImageName(ts));
  }
}
