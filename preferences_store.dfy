/**
 * The preferences store (`savePreferences`, `getLatestPreferences`,
 * `saveStyleVibe`): every save writes a timestamped JSON record, the same
 * record under a fixed "latest" name, a numbered text rendering for the
 * model prompt, and that text under a fixed "latest" name.
 *
 * `createdAt` and `savedAt` are the two `new Date().toISOString()` calls of
 * a save (they need not be equal); `now` is the mtime the writes get.
 */
module Preferences {
  import opened Common
  import opened Files

  const LatestJsonName := "latest.json"
  const LatestTextName := "latest.txt"
  const LatestVibeJsonName := "latest_style_vibe.json"
  const LatestVibeTextName := "latest_style_vibe.txt"

  function PreferencesJsonName(ts: nat): string { "preferences_" + NatToString(ts) + ".json" }
  function PreferencesTextName(ts: nat): string { "preferences_" + NatToString(ts) + ".txt" }
  function VibeJsonName(ts: nat): string { "style_vibe_" + NatToString(ts) + ".json" }
  function VibeTextName(ts: nat): string { "style_vibe_" + NatToString(ts) + ".txt" }

  // ----------------------------------------------------------------------
  // The text rendering

  const TextHeader := "User Style Preferences:\n\n"

  /** The first line of the block for the preference numbered `i` (1-based). */
  function BodyPartLine(i: nat, p: Preference): string {
    NatToString(i) + ". Body Part: " + p.bodyPart + "\n"
  }

  /** The rest of the block: the comment line and a blank line. */
  function CommentLines(p: Preference): string {
    "   Comment: " + p.comment + "\n\n"
  }

  function Entry(i: nat, p: Preference): string {
    BodyPartLine(i, p) + CommentLines(p)
  }

  /** The blocks of `prefs`, numbered from `start`, in list order. */
  function Entries(prefs: seq<Preference>, start: nat): string
    decreases |prefs|
  {
    if |prefs| == 0 then "" else Entry(start, prefs[0]) + Entries(prefs[1..], start + 1)
  }

  function SavedAtLine(savedAt: string): string {
    "Saved at: " + savedAt + "\n"
  }

  /** The whole text file. */
  function PreferencesText(prefs: seq<Preference>, savedAt: string): string {
    TextHeader + Entries(prefs, 1) + SavedAtLine(savedAt)
  }

  /** Rendering a concatenation renders each part, the second numbered on from the first. */
  lemma {:induction false} EntriesConcat(a: seq<Preference>, b: seq<Preference>, start: nat)
    ensures Entries(a + b, start) == Entries(a, start) + Entries(b, start + |a|)
    decreases |a|
  {
    if |a| > 0 {
      assert (a + b)[0] == a[0];
      assert (a + b)[1..] == a[1..] + b;
      EntriesConcat(a[1..], b, start + 1);
      calc {
        Entries(a + b, start);
        Entry(start, a[0]) + Entries(a[1..] + b, start + 1);
        Entry(start, a[0]) + (Entries(a[1..], start + 1) + Entries(b, start + 1 + |a[1..]|));
        (Entry(start, a[0]) + Entries(a[1..], start + 1)) + Entries(b, start + |a|);
      }
    } else {
      assert a + b == b;
    }
  }

  lemma EntriesSnoc(prefs: seq<Preference>, p: Preference, start: nat)
    ensures Entries(prefs + [p], start) == Entries(prefs, start) + Entry(start + |prefs|, p)
  {
    EntriesConcat(prefs, [p], start);
    assert Entries([p], start + |prefs|) == Entry(start + |prefs|, p) + Entries([], start + |prefs| + 1);
  }

  /**
   * Between the header and the "Saved at:" line come the blocks of the
   * preferences before the k-th, then the k-th preference's block numbered
   * k + 1, then the blocks after it.
   */
  lemma EntryPosition(prefs: seq<Preference>, k: nat)
    requires k < |prefs|
    ensures Entries(prefs, 1) == Entries(prefs[..k], 1) + Entry(k + 1, prefs[k]) + Entries(prefs[k + 1..], k + 2)
  {
    var before, rest := prefs[..k], prefs[k..];
    assert prefs == before + rest;
    EntriesConcat(before, rest, 1);
    assert rest[0] == prefs[k] && rest[1..] == prefs[k + 1..];
    assert Entries(rest, k + 1) == Entry(k + 1, prefs[k]) + Entries(prefs[k + 1..], k + 2);
  }

  /** The text starts with the header and ends with the "Saved at:" line. */
  lemma TextFrame(prefs: seq<Preference>, savedAt: string)
    ensures StartsWith(PreferencesText(prefs, savedAt), TextHeader)
    ensures EndsWith(PreferencesText(prefs, savedAt), SavedAtLine(savedAt))
  {
    var text := PreferencesText(prefs, savedAt);
    assert text[..|TextHeader|] == TextHeader;
    assert text[|text| - |SavedAtLine(savedAt)|..] == SavedAtLine(savedAt);
  }

  /** The `forEach` that builds the text with `+=`. */
  method RenderPreferences(prefs: seq<Preference>, savedAt: string) returns (text: string)
    ensures text == PreferencesText(prefs, savedAt)
  {
    text := TextHeader;
    var index := 0;
    while index < |prefs|
      invariant index <= |prefs|
      invariant text == TextHeader + Entries(prefs[..index], 1)
    {
      ghost var done := prefs[..index];
      EntriesSnoc(done, prefs[index], 1);
      assert prefs[..index + 1] == done + [prefs[index]];
      ghost var before := text;
      text := text + BodyPartLine(index + 1, prefs[index]);
      text := text + CommentLines(prefs[index]);
      assert text == before + Entry(index + 1, prefs[index]);
      assert text == TextHeader + Entries(prefs[..index + 1], 1);
      index := index + 1;
    }
    assert prefs[..index] == prefs;
    text := text + SavedAtLine(savedAt);
  }

  /** The style-vibe text file. */
  function VibeText(styleVibe: string, savedAt: string): string {
    "Selected Style Vibe: " + styleVibe + "\n" + SavedAtLine(savedAt)
  }

  // ----------------------------------------------------------------------
  // The directory after each save

  function SavedPreferences(dir: Directory, ts: nat, prefs: seq<Preference>, createdAt: string, savedAt: string, now: int): Directory {
    var record := PreferencesJson(PreferencesRecord(ts, prefs, createdAt));
    var text := Text(PreferencesText(prefs, savedAt));
    dir[PreferencesJsonName(ts) := FileEntry(record, now)]
       [LatestJsonName := FileEntry(record, now)]
       [PreferencesTextName(ts) := FileEntry(text, now)]
       [LatestTextName := FileEntry(text, now)]
  }

  function SavedStyleVibe(dir: Directory, ts: nat, styleVibe: string, createdAt: string, savedAt: string, now: int): Directory {
    var record := StyleVibeJson(StyleVibeRecord(ts, styleVibe, createdAt));
    var text := Text(VibeText(styleVibe, savedAt));
    dir[VibeJsonName(ts) := FileEntry(record, now)]
       [LatestVibeJsonName := FileEntry(record, now)]
       [VibeTextName(ts) := FileEntry(text, now)]
       [LatestVibeTextName := FileEntry(text, now)]
  }

  datatype PreferencesReply =
    | PreferencesNotArray                                   // 400
    | PreferencesSaved(saved: PreferencesRecord)
    | NoPreferences                                         // 404
    | ReadFailed                                            // 500, `JSON.parse` throws
    | LatestPreferences(record: Option<PreferencesRecord>)  // `None`: JSON without the record's shape
    | StyleVibeRequired                                     // 400
    | StyleVibeSaved(vibe: StyleVibeRecord)
  {
    function HttpStatus(): int {
      match this
      case PreferencesNotArray => 400
      case StyleVibeRequired => 400
      case NoPreferences => 404
      case ReadFailed => 500
      case _ => 200
    }
  }

  class PreferencesStore {
    var files: Directory

    constructor (initial: Directory)
      ensures files == initial
    {
      files := initial;
    }

    /** `savePreferences`; `preferences` is `None` when the body's member is not an array. */
    method SavePreferences(preferences: Option<seq<Preference>>, ts: nat, createdAt: string, savedAt: string, now: int)
      returns (reply: PreferencesReply)
      modifies this
      ensures preferences.None? ==> reply == PreferencesNotArray && files == old(files)
      ensures preferences.Some? ==>
                && reply == PreferencesSaved(PreferencesRecord(ts, preferences.value, createdAt))
                && files == SavedPreferences(old(files), ts, preferences.value, createdAt, savedAt, now)
    {
      if preferences.None? {
        return PreferencesNotArray;
      }
      var preferencesData := PreferencesRecord(ts, preferences.value, createdAt);
      files := files[PreferencesJsonName(ts) := FileEntry(PreferencesJson(preferencesData), now)];
      files := files[LatestJsonName := FileEntry(PreferencesJson(preferencesData), now)];
      var textContent := RenderPreferences(preferences.value, savedAt);
      files := files[PreferencesTextName(ts) := FileEntry(Text(textContent), now)];
      files := files[LatestTextName := FileEntry(Text(textContent), now)];
      reply := PreferencesSaved(preferencesData);
    }

    /** `getLatestPreferences`: the contents of `latest.json`. */
    method GetLatestPreferences() returns (reply: PreferencesReply)
      ensures LatestJsonName !in files <==> reply == NoPreferences
      ensures LatestJsonName in files && !files[LatestJsonName].content.IsJson() <==> reply == ReadFailed
      ensures reply.LatestPreferences? <==> LatestJsonName in files && files[LatestJsonName].content.IsJson()
      ensures reply.LatestPreferences? ==>
                reply.record == (if files[LatestJsonName].content.PreferencesJson?
                                 then Some(files[LatestJsonName].content.prefs) else None)
    {
      if LatestJsonName !in files {
        return NoPreferences;
      }
      var content := files[LatestJsonName].content;
      if !content.IsJson() {
        return ReadFailed;
      }
      reply := LatestPreferences(if content.PreferencesJson? then Some(content.prefs) else None);
    }

    /** `saveStyleVibe`; `""` stands for a missing or empty `styleVibe`. */
    method SaveStyleVibe(styleVibe: string, ts: nat, createdAt: string, savedAt: string, now: int)
      returns (reply: PreferencesReply)
      modifies this
      ensures styleVibe == "" ==> reply == StyleVibeRequired && files == old(files)
      ensures styleVibe != "" ==>
                && reply == StyleVibeSaved(StyleVibeRecord(ts, styleVibe, createdAt))
                && files == SavedStyleVibe(old(files), ts, styleVibe, createdAt, savedAt, now)
    {
      if styleVibe == "" {
        return StyleVibeRequired;
      }
      var vibeData := StyleVibeRecord(ts, styleVibe, createdAt);
      files := files[VibeJsonName(ts) := FileEntry(StyleVibeJson(vibeData), now)];
      files := files[LatestVibeJsonName := FileEntry(StyleVibeJson(vibeData), now)];
      var textContent := "Selected Style Vibe: " + styleVibe + "\n";
      textContent := textContent + "Saved at: " + savedAt + "\n";
      assert textContent == VibeText(styleVibe, savedAt);
      files := files[VibeTextName(ts) := FileEntry(Text(textContent), now)];
      files := files[LatestVibeTextName := FileEntry(Text(textContent), now)];
      reply := StyleVibeSaved(vibeData);
    }
  }

  // ----------------------------------------------------------------------
  // Properties of the saves

  /** The four names a preferences save writes. */
  function PreferencesNames(ts: nat): set<string> {
    {PreferencesJsonName(ts), LatestJsonName, PreferencesTextName(ts), LatestTextName}
  }

  /** The four names a style-vibe save writes. */
  function VibeNames(ts: nat): set<string> {
    {VibeJsonName(ts), LatestVibeJsonName, VibeTextName(ts), LatestVibeTextName}
  }

  /** The timestamped names differ from each other and from every fixed name. */
  lemma NamesDistinct(ts: nat)
    ensures PreferencesJsonName(ts) != PreferencesTextName(ts) && VibeJsonName(ts) != VibeTextName(ts)
    ensures PreferencesJsonName(ts) !in {LatestJsonName, LatestTextName, LatestVibeJsonName, LatestVibeTextName}
    ensures PreferencesTextName(ts) !in {LatestJsonName, LatestTextName, LatestVibeJsonName, LatestVibeTextName}
    ensures VibeJsonName(ts) !in {LatestJsonName, LatestTextName, LatestVibeJsonName, LatestVibeTextName}
    ensures VibeTextName(ts) !in {LatestJsonName, LatestTextName, LatestVibeJsonName, LatestVibeTextName}
  {
    var pj, pt := PreferencesJsonName(ts), PreferencesTextName(ts);
    var vj, vt := VibeJsonName(ts), VibeTextName(ts);
    assert pj[0] == 'p' && pt[0] == 'p' && vj[0] == 's' && vt[0] == 's';
    assert pj[|pj| - 1] == 'n' && pt[|pt| - 1] == 't';
    assert vj[|vj| - 1] == 'n' && vt[|vt| - 1] == 't';
  }

  /**
   * A preferences save: `latest.json` holds the same record as the
   * timestamped JSON, and `latest.txt` the same text as the timestamped text.
   */
  lemma SavePreferencesMirrors(dir: Directory, ts: nat, prefs: seq<Preference>, createdAt: string, savedAt: string, now: int)
    ensures var saved := SavedPreferences(dir, ts, prefs, createdAt, savedAt, now);
            && PreferencesNames(ts) <= saved.Keys
            && saved[LatestJsonName] == saved[PreferencesJsonName(ts)]
            && saved[LatestJsonName].content == PreferencesJson(PreferencesRecord(ts, prefs, createdAt))
            && saved[LatestTextName] == saved[PreferencesTextName(ts)]
            && saved[LatestTextName].content == Text(PreferencesText(prefs, savedAt))
  {
    NamesDistinct(ts);
  }

  /** A preferences save adds its four names and changes no other file, the style-vibe files included. */
  lemma SavePreferencesFrame(dir: Directory, ts: nat, prefs: seq<Preference>, createdAt: string, savedAt: string, now: int)
    ensures var saved := SavedPreferences(dir, ts, prefs, createdAt, savedAt, now);
            && saved.Keys == dir.Keys + PreferencesNames(ts)
            && (forall n :: n in dir && n !in PreferencesNames(ts) ==> saved[n] == dir[n])
            && LatestVibeJsonName !in PreferencesNames(ts) && LatestVibeTextName !in PreferencesNames(ts)
  {
    NamesDistinct(ts);
  }

  /**
   * A style-vibe save: the two JSON files hold the same record and the two
   * text files the same text, which starts with the selected vibe.
   */
  lemma SaveStyleVibeMirrors(dir: Directory, ts: nat, styleVibe: string, createdAt: string, savedAt: string, now: int)
    ensures var saved := SavedStyleVibe(dir, ts, styleVibe, createdAt, savedAt, now);
            && VibeNames(ts) <= saved.Keys
            && saved[LatestVibeJsonName] == saved[VibeJsonName(ts)]
            && saved[LatestVibeJsonName].content == StyleVibeJson(StyleVibeRecord(ts, styleVibe, createdAt))
            && saved[LatestVibeTextName] == saved[VibeTextName(ts)]
            && saved[LatestVibeTextName].content.Text?
            && StartsWith(saved[LatestVibeTextName].content.text, "Selected Style Vibe: " + styleVibe)
  {
    NamesDistinct(ts);
    var t := VibeText(styleVibe, savedAt);
    var p := "Selected Style Vibe: " + styleVibe;
    assert t == p + "\n" + SavedAtLine(savedAt);
    assert t[..|p|] == p;
  }

  /** A style-vibe save adds its four names and changes no other file, `latest.json` and `latest.txt` included. */
  lemma SaveStyleVibeFrame(dir: Directory, ts: nat, styleVibe: string, createdAt: string, savedAt: string, now: int)
    ensures var saved := SavedStyleVibe(dir, ts, styleVibe, createdAt, savedAt, now);
            && saved.Keys == dir.Keys + VibeNames(ts)
            && (forall n :: n in dir && n !in VibeNames(ts) ==> saved[n] == dir[n])
            && LatestJsonName !in VibeNames(ts) && LatestTextName !in VibeNames(ts)
  {
    NamesDistinct(ts);
  }

  /** Reading `latest.json` after a save gives back the saved preferences, in order. */
  lemma SaveThenReadPreferences(dir: Directory, ts: nat, prefs: seq<Preference>, createdAt: string, savedAt: string, now: int)
    ensures var saved := SavedPreferences(dir, ts, prefs, createdAt, savedAt, now);
            && LatestJsonName in saved && saved[LatestJsonName].content.IsJson()
            && saved[LatestJsonName].content.PreferencesJson?
            && saved[LatestJsonName].content.prefs.preferences == prefs
  {
    SavePreferencesMirrors(dir, ts, prefs, createdAt, savedAt, now);
  }
}
