/**
 * The on-disk records the capture and preferences controllers write and
 * read. A directory is a map from file name to contents and an integer
 * modification time; `readdirSync`'s order is a listing of the names.
 * `JSON.stringify`/`JSON.parse` are abstracted: a JSON file holds the
 * record it was written from, `OtherJson` a well-formed JSON object none of
 * whose fields the readers use, `Unparseable` text that makes `JSON.parse` throw.
 */
module Files {
  import opened Common

  /** The style analysis posted with a capture; `""` stands for an absent field. */
  datatype Analysis = Analysis(colour: string, color: string, style: string, item: string)

  /** `capture_<ts>.json`. */
  datatype CaptureRecord = CaptureRecord(
    timestamp: nat,
    snapshotPath: string,
    snapshotUrl: string,
    overshootData: Analysis,
    createdAt: string)

  /** One body-part annotation. */
  datatype Preference = Preference(bodyPart: string, comment: string)

  /** `preferences_<ts>.json` and `latest.json`. */
  datatype PreferencesRecord = PreferencesRecord(timestamp: nat, preferences: seq<Preference>, createdAt: string)

  /** `style_vibe_<ts>.json` and `latest_style_vibe.json`. */
  datatype StyleVibeRecord = StyleVibeRecord(timestamp: nat, styleVibe: string, createdAt: string)

  datatype Content =
    | Png(bytes: seq<byte>)
    | Text(text: string)
    | CaptureJson(capture: CaptureRecord)
    | PreferencesJson(prefs: PreferencesRecord)
    | StyleVibeJson(vibe: StyleVibeRecord)
    | OtherJson
    | Unparseable
  {
    /** `JSON.parse` of the file succeeds. */
    predicate IsJson() {
      CaptureJson? || PreferencesJson? || StyleVibeJson? || OtherJson?
    }
  }

  datatype FileEntry = FileEntry(content: Content, mtime: int)

  type Directory = map<string, FileEntry>

  /** `listing` is a `readdirSync` result for `dir`: every name once, in some order. */
  predicate IsListingOf(listing: seq<string>, dir: Directory) {
    && (forall k :: 0 <= k < |listing| ==> listing[k] in dir)
    && (forall n :: n in dir ==> n in listing)
    && (forall i, j :: 0 <= i < j < |listing| ==> listing[i] != listing[j])
  }

  predicate IsJsonName(name: string) {
    EndsWith(name, ".json")
  }

  /**
   * `readdirSync(dir).filter(f => f.endsWith('.json'))` sorted by mtime,
   * newest first, then the head: the index of the first `.json` name in
   * listing order whose mtime no other `.json` name exceeds (the sort is
   * stable, so ties keep listing order).
   */
  function LatestJson(listing: seq<string>, dir: Directory): (r: Option<nat>)
    requires forall k :: 0 <= k < |listing| ==> listing[k] in dir
    ensures r.None? <==> forall k :: 0 <= k < |listing| ==> !IsJsonName(listing[k])
    ensures r.Some? ==> r.value < |listing| && IsJsonName(listing[r.value])
    ensures r.Some? ==> forall k :: 0 <= k < |listing| && IsJsonName(listing[k]) ==>
                          dir[listing[k]].mtime <= dir[listing[r.value]].mtime
    ensures r.Some? ==> forall k :: 0 <= k < r.value && IsJsonName(listing[k]) ==>
                          dir[listing[k]].mtime < dir[listing[r.value]].mtime
    decreases |listing|
  {
    if |listing| == 0 then None
    else
      var rest := LatestJson(listing[1..], dir);
      if IsJsonName(listing[0]) && (rest.None? || dir[listing[0]].mtime >= dir[listing[1..][rest.value]].mtime)
      then Some(0)
      else if rest.None? then None
      else Some(rest.value + 1)
  }

  /** A `.json` name strictly newer than every other `.json` name is the one selected. */
  lemma NewestJsonIsSelected(listing: seq<string>, dir: Directory, name: string)
    requires IsListingOf(listing, dir)
    requires name in dir && IsJsonName(name)
    requires forall n :: n in dir && n != name && IsJsonName(n) ==> dir[n].mtime < dir[name].mtime
    ensures LatestJson(listing, dir).Some? && listing[LatestJson(listing, dir).value] == name
  {
    var i :| 0 <= i < |listing| && listing[i] == name;
    assert IsJsonName(listing[i]);
  }
}
