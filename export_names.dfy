/** The file, folder and entry names the export functions build
    (lib/recall/export.ts). The regular expressions `/[^a-z0-9]/gi` and
    `/[^a-z0-9_.]/gi` keep exactly the ASCII letters and digits (and `_`, `.`
    for the second): under the `i` flag without `u`, no character outside
    ASCII folds into those ranges. After the replacement only ASCII is left,
    so ASCII lower-casing is all `toLowerCase` can do. */
module ExportNames {
  import opened Wrappers
  import opened Text
  import opened RecallTypes

  /** `s.replace(/[^…]/gi, '_')`: every character `keep` rejects becomes '_'. */
  function Sanitize(s: string, keep: char -> bool): (r: string)
    ensures |r| == |s|
    ensures forall i | 0 <= i < |s| :: r[i] == (if keep(s[i]) then s[i] else '_')
  {
    seq(|s|, i requires 0 <= i < |s| => if keep(s[i]) then s[i] else '_')
  }

  /** The character class `[a-z0-9_.]` under the `i` flag. */
  predicate IsArchiveNameChar(c: char) {
    IsAsciiAlnum(c) || c == '_' || c == '.'
  }

  /** A character a slug may hold: `[a-z0-9_]`. */
  predicate IsSlugChar(c: char) {
    ('a' <= c <= 'z') || IsDigit(c) || c == '_'
  }

  /** The title stem shared by the report and archive names. */
  function Slug(title: string): (r: string)
    ensures |r| == |title|
    ensures forall i | 0 <= i < |r| :: IsSlugChar(r[i])
    ensures forall i | 0 <= i < |r| :: (r[i] == '_' <==> !IsAsciiAlnum(title[i]))
    ensures forall i | 0 <= i < |r| :: IsAsciiAlnum(title[i]) ==> r[i] == LowerChar(title[i])
  {
    ToLower(Sanitize(title, IsAsciiAlnum))
  }

  /** Slugging a slug changes nothing. */
  lemma SlugIdempotent(title: string)
    ensures Slug(Slug(title)) == Slug(title)
  {
    var s := Slug(title);
    assert forall i | 0 <= i < |s| :: Slug(s)[i] == s[i];
  }

  /** Name of the PDF report: `{slug}_case_report.pdf`. */
  function ReportFileName(title: string): (r: string)
    ensures |r| == |title| + 16
    ensures r[..|title|] == Slug(title) && r[|title|..] == "_case_report.pdf"
  {
    Slug(title) + "_case_report.pdf"
  }

  /** Name of the whole-case archive: `{slug}_photos.zip`. */
  function ArchiveFileName(title: string): (r: string)
    ensures |r| == |title| + 11
    ensures r[..|title|] == Slug(title) && r[|title|..] == "_photos.zip"
  {
    Slug(title) + "_photos.zip"
  }

  /** `toISOString().split('T')[0]`: the date part of the ISO text. */
  function IsoDate(iso: string): (r: string)
    ensures r <= iso && 'T' !in r
  {
    BeforeFirst(iso, 'T')
  }

  /** `toTimeString().slice(0, 5).replace(':', '')`. */
  function HourMinute(timeText: string): string {
    var head := if |timeText| < 5 then timeText else timeText[..5];
    ReplaceFirst(head, ":", "")
  }

  /** For a time text `HH:MM…` the folder gets `HHMM`. */
  lemma HourMinuteOfClock(hh: string, mm: string, rest: string)
    requires |hh| == 2 && |mm| == 2 && ':' !in hh
    ensures HourMinute(hh + ":" + mm + rest) == hh + mm
  {
    var t := hh + ":" + mm + rest;
    var head := t[..5];
    assert head == hh + ":" + mm;
    assert OccursAt(head, ":", 2);
    assert !OccursAt(head, ":", 0) && !OccursAt(head, ":", 1) by {
      assert head[0] == hh[0] && head[1] == hh[1];
    }
    assert IndexOf(head, ":", 0) == Some(2);
    assert head[..2] == hh && head[3..] == mm;
  }

  /** The archive folder of a log with photos: `{date}_{HHMM}_{log_type}`,
      from the ISO text and the local time text of its creation time. */
  function FolderName(log: RecallLog, isoText: string, timeText: string): (r: string)
    ensures |r| >= |log.log_type.Name()| + 2
    ensures r[|r| - |log.log_type.Name()|..] == log.log_type.Name()
    ensures var date := IsoDate(isoText);
      && |r| > |date| && r[..|date|] == date && r[|date|] == '_'
      && date <= isoText && 'T' !in date
  {
    IsoDate(isoText) + "_" + HourMinute(timeText) + "_" + log.log_type.Name()
  }

  /** For an ISO text `{date}T…` and a time text `HH:MM…` the folder is
      `{date}_{HHMM}_{log_type}`. */
  lemma FolderNameOfClock(log: RecallLog, date: string, rest: string, hh: string, mm: string, trail: string)
    requires 'T' !in date && |hh| == 2 && |mm| == 2 && ':' !in hh
    ensures FolderName(log, date + "T" + rest, hh + ":" + mm + trail)
         == date + "_" + hh + mm + "_" + log.log_type.Name()
  {
    BeforeFirstOfJoined(date, 'T', rest);
    HourMinuteOfClock(hh, mm, trail);
  }

  /** Entry name of the `i`-th photo of a log (counting from 0): its
      original name, or `photo_{i+1}.jpg` when that is absent or empty. */
  function EntryName(photo: RecallPhoto, i: nat): (r: string)
    ensures Truthy(photo.original_filename) ==> r == photo.original_filename.value
    ensures !Truthy(photo.original_filename) ==>
      r == "photo_" + NatToString(i + 1) + ".jpg" && r != ""
  {
    if Truthy(photo.original_filename) then photo.original_filename.value
    else "photo_" + NatToString(i + 1) + ".jpg"
  }

  /** Two photos without a usable original name never share a fallback name. */
  lemma FallbackNamesDistinct(p: RecallPhoto, q: RecallPhoto, i: nat, j: nat)
    requires !Truthy(p.original_filename) && !Truthy(q.original_filename) && i != j
    ensures EntryName(p, i) != EntryName(q, j)
  {
    var a, b := EntryName(p, i), EntryName(q, j);
    if a == b {
      NatToStringInjective(i + 1, j + 1, a, b);
    }
  }

  lemma NatToStringInjective(m: nat, n: nat, a: string, b: string)
    requires a == "photo_" + NatToString(m) + ".jpg" && b == "photo_" + NatToString(n) + ".jpg" && a == b
    ensures m == n
  {
    assert NatToString(m) == a[6..|a| - 4];
    assert NatToString(n) == b[6..|b| - 4];
    NatToStringRoundTrip(m);
    NatToStringRoundTrip(n);
  }

  /** Name under which a single photo is saved: its original name, or
      `photo.jpg`. */
  function SinglePhotoName(photo: RecallPhoto): (r: string)
    ensures r != ""
    ensures Truthy(photo.original_filename) ==> r == photo.original_filename.value
  {
    if Truthy(photo.original_filename) then photo.original_filename.value else "photo.jpg"
  }

  /** Name of a single log's archive:
      `{caseName_}{log_type}_{date}_photos.zip`, with every character
      outside `[a-z0-9_.]` replaced by '_' and then lower-cased. */
  function LogArchiveName(caseName: Option<string>, log: RecallLog, isoText: string): (r: string)
    ensures forall i | 0 <= i < |r| :: IsSlugChar(r[i]) || r[i] == '.'
    ensures |r| >= 11 && r[|r| - 11..] == "_photos.zip"
  {
    var raw := (if Truthy(caseName) then caseName.value + "_" else "") + log.log_type.Name() + "_" + IsoDate(isoText) + "_photos.zip";
    var r := ToLower(Sanitize(raw, IsArchiveNameChar));
    assert raw[|raw| - 11..] == "_photos.zip";
    assert forall i | |raw| - 11 <= i < |raw| :: IsArchiveNameChar(raw[i]) && LowerChar(raw[i]) == raw[i];
    r
  }

  /** Without a case name the archive name leads with the lower-cased log
      type and an underscore. */
  lemma LogArchiveNameLeadsWithType(log: RecallLog, isoText: string)
    ensures var n := log.log_type.Name();
      var r := LogArchiveName(None, log, isoText);
      |r| > |n| && r[..|n| + 1] == ToLower(n) + "_"
  {
    var n := log.log_type.Name();
    var head := n + "_";
    var raw := "" + n + "_" + IsoDate(isoText) + "_photos.zip";
    TypeNameIsLetters(log.log_type);
    assert raw == head + (IsoDate(isoText) + "_photos.zip");
    SanitizeKeepsPrefix(head, IsoDate(isoText) + "_photos.zip");
    assert ToLower(head) == ToLower(n) + "_";
  }

  /** Every log type's label is made of ASCII letters. */
  lemma TypeNameIsLetters(t: LogType)
    ensures forall i | 0 <= i < |t.Name()| :: IsAsciiLetter(t.Name()[i])
  {
    match t
    case Before => case During => case After => case Issue =>
    case Resolution => case Call => case Visit => case Invoice =>
  }

  /** A leading part the archive-name class keeps whole comes out only
      lower-cased. */
  lemma SanitizeKeepsPrefix(head: string, tail: string)
    requires forall i | 0 <= i < |head| :: IsArchiveNameChar(head[i])
    ensures ToLower(Sanitize(head + tail, IsArchiveNameChar))[..|head|] == ToLower(head)
  {
    var raw := head + tail;
    assert forall i | 0 <= i < |head| :: raw[i] == head[i];
  }
}
