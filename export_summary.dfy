/** The `case_summary.txt` text of `generateCaseSummary`
    (lib/recall/export.ts): a header, one numbered entry per log in
    ascending creation order, and a two-line footer with no newline at the
    end. Dates arrive already rendered by `dateTimeText`; the current time by
    `nowText`. */
module ExportSummary {
  import opened Wrappers
  import opened Text
  import opened RecallTypes
  import opened LogOrder

  const Signature: string := "Recall - Case Management System"

  function CaseLine(case_: RecallCase): string {
    "Case: " + case_.title + "\n"
  }

  /** A labelled line, present only when the value is a non-empty text. */
  function OptionalLine(tag: string, value: Option<string>): string {
    if Truthy(value) then tag + value.value + "\n" else ""
  }

  function DateLines(case_: RecallCase, dateTimeText: Timestamp -> string): string {
    "Created: " + dateTimeText(case_.created_at) + "\n"
    + "Last Updated: " + dateTimeText(case_.updated_at) + "\n\n"
  }

  function Banner(logCount: nat): string {
    "=== LOGS (" + NatToString(logCount) + ") ===\n\n"
  }

  /** Case, optional client and location, the two dates, a blank line and
      the log count banner followed by a blank line. */
  function SummaryHeader(case_: RecallCase, logCount: nat, dateTimeText: Timestamp -> string): string {
    CaseLine(case_)
    + OptionalLine("Client: ", case_.client_name)
    + OptionalLine("Location: ", case_.location_text)
    + DateLines(case_, dateTimeText)
    + Banner(logCount)
  }

  /** The entry of the log numbered `number`: its heading line, its note
      indented when not blank, its photo count when it has photos, then a
      blank line. */
  function Entry(number: nat, l: LogWithPhotos, dateTimeText: Timestamp -> string): string {
    var count := |l.photos|;
    NatToString(number) + ". " + l.log.log_type.Name() + " - " + dateTimeText(l.log.created_at) + "\n"
    + (if !IsBlank(l.log.note) then "   " + l.log.note + "\n" else "")
    + (if count > 0 then "   📷 " + NatToString(count) + " photo" + (if count > 1 then "s" else "") + "\n" else "")
    + "\n"
  }

  /** The entries of `logs`, numbered from 1 in the order given. */
  function Entries(logs: seq<LogWithPhotos>, dateTimeText: Timestamp -> string): string {
    if logs == [] then ""
    else Entries(logs[..|logs| - 1], dateTimeText) + Entry(|logs|, logs[|logs| - 1], dateTimeText)
  }

  function SummaryFooter(nowText: string): string {
    "Generated: " + nowText + "\n" + Signature
  }

  /** The summary of a case whose logs are already in report order. */
  function SummaryText(case_: RecallCase, logs: seq<LogWithPhotos>, dateTimeText: Timestamp -> string, nowText: string): string {
    SummaryHeader(case_, |logs|, dateTimeText) + Entries(logs, dateTimeText) + SummaryFooter(nowText)
  }

  /** `generateCaseSummary`: sorts the caller's logs oldest first and builds
      the text by appending to it. */
  method GenerateCaseSummary(case_: RecallCase, logs: array<LogWithPhotos>, dateTimeText: Timestamp -> string, nowText: string)
    returns (summary: string)
    modifies logs
    ensures SortedByCreated(logs[..]) && multiset(logs[..]) == multiset(old(logs[..]))
    ensures SameTies(logs[..], old(logs[..]))
    ensures summary == SummaryText(case_, logs[..], dateTimeText, nowText)
  {
    summary := WriteHeader(case_, logs.Length, dateTimeText);
    SortByCreated(logs);
    summary := AppendEntries(summary, logs, dateTimeText);
    ghost var body := summary;
    summary := summary + ("Generated: " + nowText + "\n");
    summary := summary + Signature;
    AppendTwice(body, "Generated: " + nowText + "\n", Signature);
  }

  /** The header, built line by line as the source does. */
  method WriteHeader(case_: RecallCase, logCount: nat, dateTimeText: Timestamp -> string) returns (summary: string)
    ensures summary == SummaryHeader(case_, logCount, dateTimeText)
  {
    summary := "Case: " + case_.title + "\n";
    summary := AppendOptional(summary, "Client: ", case_.client_name);
    summary := AppendOptional(summary, "Location: ", case_.location_text);
    summary := AppendDates(summary, case_, dateTimeText);
    summary := summary + ("=== LOGS (" + NatToString(logCount) + ") ===\n\n");
  }

  /** `if (value) summary += tag + value + "\n"`. */
  method AppendOptional(summary: string, tag: string, value: Option<string>) returns (extended: string)
    ensures extended == summary + OptionalLine(tag, value)
  {
    extended := summary;
    if Truthy(value) {
      extended := extended + (tag + value.value + "\n");
    }
  }

  /** The creation and update lines. */
  method AppendDates(summary: string, case_: RecallCase, dateTimeText: Timestamp -> string) returns (extended: string)
    ensures extended == summary + DateLines(case_, dateTimeText)
  {
    extended := summary + ("Created: " + dateTimeText(case_.created_at) + "\n");
    extended := extended + ("Last Updated: " + dateTimeText(case_.updated_at) + "\n\n");
    AppendTwice(summary, "Created: " + dateTimeText(case_.created_at) + "\n", "Last Updated: " + dateTimeText(case_.updated_at) + "\n\n");
  }

  /** Entries grow by the entry of the last log. */
  lemma EntriesSnoc(logs: seq<LogWithPhotos>, dateTimeText: Timestamp -> string)
    requires logs != []
    ensures Entries(logs, dateTimeText)
         == Entries(logs[..|logs| - 1], dateTimeText) + Entry(|logs|, logs[|logs| - 1], dateTimeText)
  {
  }

  lemma AppendTwice(x: string, y: string, z: string)
    ensures x + y + z == x + (y + z)
  {
  }

  /** The `forEach` over the sorted logs. */
  method AppendEntries(summary: string, logs: array<LogWithPhotos>, dateTimeText: Timestamp -> string)
    returns (extended: string)
    ensures extended == summary + Entries(logs[..], dateTimeText)
  {
    extended := summary;
    for index := 0 to logs.Length
      invariant extended == summary + Entries(logs[..index], dateTimeText)
    {
      extended := AppendEntry(extended, index, logs[index], dateTimeText);
      EntriesSnoc(logs[..index + 1], dateTimeText);
      assert logs[..index + 1][..index] == logs[..index];
      AppendTwice(summary, Entries(logs[..index], dateTimeText), Entry(index + 1, logs[index], dateTimeText));
    }
    assert logs[..logs.Length] == logs[..];
  }

  /** One turn of the `forEach`: appends the entry of the log at `index`. */
  method AppendEntry(summary: string, index: nat, l: LogWithPhotos, dateTimeText: Timestamp -> string)
    returns (extended: string)
    ensures extended == summary + Entry(index + 1, l, dateTimeText)
  {
    extended := summary + (NatToString(index + 1) + ". " + l.log.log_type.Name() + " - " + dateTimeText(l.log.created_at) + "\n");
    if !IsBlank(l.log.note) {
      extended := extended + ("   " + l.log.note + "\n");
    }
    var photoCount := |l.photos|;
    if photoCount > 0 {
      extended := extended + ("   📷 " + NatToString(photoCount) + " photo" + (if photoCount > 1 then "s" else "") + "\n");
    }
    extended := extended + "\n";
  }

  /** `a` is a prefix of `a + b`. */
  lemma PrefixOfAppend(a: string, b: string)
    ensures a <= a + b
  {
    assert (a + b)[..|a|] == a;
  }

  /** The summary opens with the case line. */
  lemma SummaryStartsWithCase(case_: RecallCase, logs: seq<LogWithPhotos>, dateTimeText: Timestamp -> string, nowText: string)
    ensures "Case: " + case_.title + "\n" <= SummaryText(case_, logs, dateTimeText, nowText)
  {
    PrefixOfChain(CaseLine(case_), OptionalLine("Client: ", case_.client_name), OptionalLine("Location: ", case_.location_text),
      DateLines(case_, dateTimeText), Banner(|logs|), Entries(logs, dateTimeText), SummaryFooter(nowText));
  }

  lemma PrefixOfChain(a: string, b: string, c: string, d: string, e: string, f: string, g: string)
    ensures a <= a + b + c + d + e + f + g
  {
    assert (a + b + c + d + e + f + g)[..|a|] == a;
  }

  /** The line after the case line is a client line exactly when the case
      has a non-empty client name. */
  lemma ClientLineIffNamed(case_: RecallCase, logCount: nat, dateTimeText: Timestamp -> string)
    ensures var h := SummaryHeader(case_, logCount, dateTimeText);
      var k := |CaseLine(case_)|;
      |h| >= k + 8 && (h[k..k + 8] == "Client: " <==> Truthy(case_.client_name))
  {
    var c, o1 := CaseLine(case_), OptionalLine("Client: ", case_.client_name);
    var o2, d, b := OptionalLine("Location: ", case_.location_text), DateLines(case_, dateTimeText), Banner(logCount);
    var h := SummaryHeader(case_, logCount, dateTimeText);
    var rest := o1 + o2 + d + b;
    Regroup(c, o1, o2, d, b);
    assert h == c + rest;
    assert |d| >= 9 && d[..9] == "Created: ";
    if Truthy(case_.client_name) {
      assert rest[..8] == o1[..8] == "Client: ";
    } else if Truthy(case_.location_text) {
      assert rest[0] == o2[0] == 'L';
    } else {
      assert rest[1] == d[1] == 'r';
    }
    assert h[|c|..|c| + 8] == rest[..8];
  }

  lemma Regroup(a: string, b: string, c: string, d: string, e: string)
    ensures a + b + c + d + e == a + (b + c + d + e)
  {
  }

  /** The summary closes with the signature and no newline after it. */
  lemma SummaryEndsWithSignature(case_: RecallCase, logs: seq<LogWithPhotos>, dateTimeText: Timestamp -> string, nowText: string)
    ensures var t := SummaryText(case_, logs, dateTimeText, nowText);
      |t| >= |Signature| && t[|t| - |Signature|..] == Signature && t[|t| - 1] != '\n'
  {
    var t := SummaryText(case_, logs, dateTimeText, nowText);
    var front := SummaryHeader(case_, |logs|, dateTimeText) + Entries(logs, dateTimeText) + "Generated: " + nowText + "\n";
    assert t == front + Signature;
  }

  /** The count banner names the number of logs and closes the header. */
  lemma SummaryBanner(case_: RecallCase, logs: seq<LogWithPhotos>, dateTimeText: Timestamp -> string)
    ensures var h := SummaryHeader(case_, |logs|, dateTimeText);
      var banner := "=== LOGS (" + NatToString(|logs|) + ") ===\n\n";
      |h| >= |banner| && h[|h| - |banner|..] == banner
  {
  }

  /** The concatenation of a sequence of texts. */
  function Concat(parts: seq<string>): string {
    if parts == [] then "" else Concat(parts[..|parts| - 1]) + parts[|parts| - 1]
  }

  /** The entries are the logs' entries in order, the i-th (from 0)
      numbered i + 1. */
  lemma {:induction false} EntriesNumbered(logs: seq<LogWithPhotos>, dateTimeText: Timestamp -> string)
    ensures Entries(logs, dateTimeText)
         == Concat(seq(|logs|, i requires 0 <= i < |logs| => Entry(i + 1, logs[i], dateTimeText)))
  {
    var parts := seq(|logs|, i requires 0 <= i < |logs| => Entry(i + 1, logs[i], dateTimeText));
    if logs != [] {
      var init := logs[..|logs| - 1];
      EntriesNumbered(init, dateTimeText);
      assert parts[..|parts| - 1] == seq(|init|, i requires 0 <= i < |init| => Entry(i + 1, init[i], dateTimeText));
    }
  }

  /** Each entry opens with its number, a dot and a space. */
  lemma EntryStartsWithNumber(number: nat, l: LogWithPhotos, dateTimeText: Timestamp -> string)
    ensures NatToString(number) + ". " <= Entry(number, l, dateTimeText)
  {
    var e := Entry(number, l, dateTimeText);
    var rest := e[|NatToString(number) + ". "|..];
    assert e == NatToString(number) + ". " + rest;
  }
}
