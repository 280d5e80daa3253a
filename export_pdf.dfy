/** The case report of `exportCaseToPDF` (lib/recall/export.ts): which lines
    are written, on which page and at which height. The renderer's line
    wrapping is the `lines` count of the environment; dates come pre-formatted
    from the environment's formatters. A report is the sequence of text items
    placed on its pages. */
module ExportPdf {
  import opened Wrappers
  import opened Text
  import opened RecallTypes
  import opened LogOrder
  import opened ExportNames

  datatype ItemKind = TitleLine | DetailLine | LogHeading | NoteLine | PhotoCountLine | FilesLine | FooterLine

  /** One `pdf.text(...)` call: what was written, on which page, where. */
  datatype PdfItem = PdfItem(kind: ItemKind, page: nat, x: int, y: int, text: string)

  /** The report so far, the vertical cursor `yPos` and the current page. */
  datatype Cursor = Cursor(items: seq<PdfItem>, y: int, page: nat)

  /** What the report takes from the renderer and the clock: the number of
      lines a text wraps to at width 170, the local date and date-time
      renderings of a timestamp, and the rendering of the current time. */
  datatype PdfEnv = PdfEnv(
    lines: string -> nat,
    dateText: Timestamp -> string,
    dateTimeText: Timestamp -> string,
    nowText: string)

  const TopY: int := 20
  const BreakY: int := 250
  const LeftX: int := 20
  const FilesX: int := 25

  /** `addText`: writes the wrapped text at the cursor and moves the cursor
      down 7 per line plus 5. */
  function AddText(c: Cursor, kind: ItemKind, text: string, x: int, env: PdfEnv): (r: Cursor)
    ensures r.items == c.items + [PdfItem(kind, c.page, x, c.y, text)]
    ensures r.page == c.page && r.y == c.y + 7 * env.lines(text) + 5
  {
    Cursor(c.items + [PdfItem(kind, c.page, x, c.y, text)], c.y + 7 * env.lines(text) + 5, c.page)
  }

  /** A cursor below 250 moves to the top of a new page. */
  function BreakIfLow(c: Cursor): (r: Cursor)
    ensures r.items == c.items && r.y <= BreakY && r.y <= c.y
    ensures c.y > BreakY <==> r.page == c.page + 1
    ensures c.y > BreakY ==> r.y == TopY
    ensures c.y <= BreakY ==> r == c
  {
    if c.y > BreakY then Cursor(c.items, TopY, c.page + 1) else c
  }

  function HeadingText(l: LogWithPhotos, env: PdfEnv): string {
    l.log.log_type.Name() + " - " + env.dateTimeText(l.log.created_at)
  }

  /** "📷 {n} photo{s} attached". */
  function PhotoCountText(n: nat): string {
    "📷 " + NatToString(n) + " photo" + (if n > 1 then "s" else "") + " attached"
  }

  /** How a photo is named in the report: its original name, or `photo`. */
  function FileLabel(p: RecallPhoto): string {
    if Truthy(p.original_filename) then p.original_filename.value else "photo"
  }

  /** Labels of the first (at most three) photos. */
  function ListedLabels(photos: seq<RecallPhoto>): (r: seq<string>)
    ensures |r| == if |photos| < 3 then |photos| else 3
    ensures forall i | 0 <= i < |r| :: r[i] == FileLabel(photos[i])
  {
    var shown := if |photos| < 3 then photos else photos[..3];
    seq(|shown|, i requires 0 <= i < |shown| => FileLabel(shown[i]))
  }

  /** "Files: a, b, c" and, past three photos, " +{rest} more". */
  function FilesText(photos: seq<RecallPhoto>): string {
    var n := |photos|;
    "Files: " + Join(ListedLabels(photos), ", ") + (if n > 3 then " +" + NatToString(n - 3) + " more" else "")
  }

  /** The part of the report one log contributes. */
  function Section(c: Cursor, l: LogWithPhotos, includePhotos: bool, env: PdfEnv): Cursor {
    var c1 := BreakIfLow(c);
    var c2 := AddText(c1, LogHeading, HeadingText(l, env), LeftX, env);
    var c4 := PhotoLines(NoteLines(c2, l, env), l.photos, includePhotos, env);
    Cursor(c4.items, c4.y + 10, c4.page)
  }

  /** The note, when it is not blank. */
  function NoteLines(c: Cursor, l: LogWithPhotos, env: PdfEnv): Cursor {
    if !IsBlank(l.log.note) then AddText(c, NoteLine, l.log.note, LeftX, env) else c
  }

  /** The photo count and, when photos are included, the file list; nothing
      for a log without photos. */
  function PhotoLines(c: Cursor, photos: seq<RecallPhoto>, includePhotos: bool, env: PdfEnv): Cursor {
    if |photos| > 0 then
      var d := AddText(c, PhotoCountLine, PhotoCountText(|photos|), LeftX, env);
      if includePhotos then AddText(d, FilesLine, FilesText(photos), FilesX, env) else d
    else c
  }

  /** The report after the sections of `logs`, in order. */
  function Sections(c: Cursor, logs: seq<LogWithPhotos>, includePhotos: bool, env: PdfEnv): Cursor {
    if logs == [] then c
    else Section(Sections(c, logs[..|logs| - 1], includePhotos, env), logs[|logs| - 1], includePhotos, env)
  }

  /** Title, optional client and location, creation date, then a gap of 10. */
  function Header(case_: RecallCase, env: PdfEnv): Cursor {
    var c0 := Cursor([], TopY, 1);
    var c1 := AddText(c0, TitleLine, case_.title, LeftX, env);
    var c2 := if Truthy(case_.client_name) then AddText(c1, DetailLine, "Client: " + case_.client_name.value, LeftX, env) else c1;
    var c3 := if Truthy(case_.location_text) then AddText(c2, DetailLine, "Location: " + case_.location_text.value, LeftX, env) else c2;
    var c4 := AddText(c3, DetailLine, "Created: " + env.dateText(case_.created_at), LeftX, env);
    Cursor(c4.items, c4.y + 10, c4.page)
  }

  /** The two footer lines, 10 and 20 below the cursor, after the page check. */
  function Footer(c: Cursor, env: PdfEnv): seq<PdfItem> {
    var f := BreakIfLow(c);
    f.items + [PdfItem(FooterLine, f.page, LeftX, f.y + 10, "Generated on " + env.nowText),
               PdfItem(FooterLine, f.page, LeftX, f.y + 20, "Recall - Case Management System")]
  }

  /** The whole report for logs already in report order. */
  function Report(case_: RecallCase, logs: seq<LogWithPhotos>, includePhotos: bool, env: PdfEnv): seq<PdfItem> {
    Footer(Sections(Header(case_, env), logs, includePhotos, env), env)
  }

  /** Every log heading sits on its page between the top margin and the
      break line. */
  predicate HeadingsPlaced(items: seq<PdfItem>) {
    forall k | 0 <= k < |items| && items[k].kind == LogHeading :: TopY <= items[k].y <= BreakY
  }

  lemma SectionPlacesHeading(c: Cursor, l: LogWithPhotos, includePhotos: bool, env: PdfEnv)
    requires c.y >= TopY && HeadingsPlaced(c.items)
    ensures var r := Section(c, l, includePhotos, env);
      r.y >= TopY && HeadingsPlaced(r.items) && r.page >= c.page
  {
  }

  lemma {:induction false} SectionsPlaceHeadings(c: Cursor, logs: seq<LogWithPhotos>, includePhotos: bool, env: PdfEnv)
    requires c.y >= TopY && HeadingsPlaced(c.items)
    ensures var r := Sections(c, logs, includePhotos, env);
      r.y >= TopY && HeadingsPlaced(r.items) && r.page >= c.page
  {
    if logs != [] {
      var init := logs[..|logs| - 1];
      SectionsPlaceHeadings(c, init, includePhotos, env);
      SectionPlacesHeading(Sections(c, init, includePhotos, env), logs[|logs| - 1], includePhotos, env);
    }
  }

  /** Every log section of a report starts between y = 20 and y = 250 of its
      page, and the two footer lines land at y and y + 10 for some y between
      30 and 260, however long the header and the notes are. */
  lemma ReportLayout(case_: RecallCase, logs: seq<LogWithPhotos>, includePhotos: bool, env: PdfEnv)
    ensures var doc := Report(case_, logs, includePhotos, env);
      && HeadingsPlaced(doc)
      && |doc| >= 2
      && doc[|doc| - 2].kind == FooterLine && 30 <= doc[|doc| - 2].y <= 260
      && doc[|doc| - 1].kind == FooterLine && doc[|doc| - 1].y == doc[|doc| - 2].y + 10
      && doc[|doc| - 2].page == doc[|doc| - 1].page >= 1
  {
    var h := Header(case_, env);
    assert HeadingsPlaced(h.items);
    SectionsPlaceHeadings(h, logs, includePhotos, env);
  }

  /** The texts of the log headings, in the order they were written. */
  function Headings(items: seq<PdfItem>): seq<string> {
    if items == [] then []
    else Headings(items[..|items| - 1]) + (if items[|items| - 1].kind == LogHeading then [items[|items| - 1].text] else [])
  }

  lemma {:induction false} HeadingsAppend(a: seq<PdfItem>, b: seq<PdfItem>)
    ensures Headings(a + b) == Headings(a) + Headings(b)
  {
    if b != [] {
      assert (a + b)[..|a + b| - 1] == a + b[..|b| - 1];
      HeadingsAppend(a, b[..|b| - 1]);
    } else {
      assert a + b == a;
    }
  }

  lemma SectionHeadings(c: Cursor, l: LogWithPhotos, includePhotos: bool, env: PdfEnv)
    ensures Headings(Section(c, l, includePhotos, env).items) == Headings(c.items) + [HeadingText(l, env)]
  {
    var r := Section(c, l, includePhotos, env);
    SectionShape(c, l, includePhotos, env);
    var added := r.items[|c.items|..];
    assert r.items == c.items + added;
    OneHeading(added, HeadingText(l, env));
    HeadingsAppend(c.items, added);
  }

  lemma OneHeading(added: seq<PdfItem>, text: string)
    requires |added| >= 1 && added[0].kind == LogHeading && added[0].text == text
    requires forall k | 1 <= k < |added| :: added[k].kind != LogHeading
    ensures Headings(added) == [text]
  {
    assert added == [added[0]] + added[1..];
    HeadingsAppend([added[0]], added[1..]);
    NoHeadings(added[1..]);
    assert Headings([added[0]]) == Headings([]) + [added[0].text];
  }

  lemma {:induction false} NoHeadings(items: seq<PdfItem>)
    requires forall k | 0 <= k < |items| :: items[k].kind != LogHeading
    ensures Headings(items) == []
  {
    if items != [] {
      NoHeadings(items[..|items| - 1]);
    }
  }

  lemma {:induction false} SectionsHeadings(c: Cursor, logs: seq<LogWithPhotos>, includePhotos: bool, env: PdfEnv)
    ensures Headings(Sections(c, logs, includePhotos, env).items)
         == Headings(c.items) + seq(|logs|, i requires 0 <= i < |logs| => HeadingText(logs[i], env))
  {
    if logs != [] {
      var init := logs[..|logs| - 1];
      SectionsHeadings(c, init, includePhotos, env);
      SectionHeadings(Sections(c, init, includePhotos, env), logs[|logs| - 1], includePhotos, env);
      HeadingTextsSnoc(logs, env);
    }
  }

  lemma HeadingTextsSnoc(logs: seq<LogWithPhotos>, env: PdfEnv)
    requires logs != []
    ensures var init := logs[..|logs| - 1];
      seq(|logs|, i requires 0 <= i < |logs| => HeadingText(logs[i], env))
      == seq(|init|, i requires 0 <= i < |init| => HeadingText(init[i], env)) + [HeadingText(logs[|logs| - 1], env)]
  {
  }

  /** The report has one heading per log, in the order of the logs given,
      and nothing else is written as a heading. */
  lemma ReportHeadings(case_: RecallCase, logs: seq<LogWithPhotos>, includePhotos: bool, env: PdfEnv)
    ensures Headings(Report(case_, logs, includePhotos, env))
         == seq(|logs|, i requires 0 <= i < |logs| => HeadingText(logs[i], env))
  {
    var h := Header(case_, env);
    NoHeadings(h.items);
    SectionsHeadings(h, logs, includePhotos, env);
    FooterAddsNoHeading(Sections(h, logs, includePhotos, env), env);
  }

  lemma FooterAddsNoHeading(c: Cursor, env: PdfEnv)
    ensures Headings(Footer(c, env)) == Headings(c.items)
  {
    var f := BreakIfLow(c);
    var tail := [PdfItem(FooterLine, f.page, LeftX, f.y + 10, "Generated on " + env.nowText),
                 PdfItem(FooterLine, f.page, LeftX, f.y + 20, "Recall - Case Management System")];
    NoHeadings(tail);
    HeadingsAppend(c.items, tail);
  }

  function Kinds(items: seq<PdfItem>): seq<ItemKind> {
    seq(|items|, i requires 0 <= i < |items| => items[i].kind)
  }

  /** What one log adds to the report: its heading; its note only when the
      note is not blank; the photo count only when it has photos; the file
      list only then and only when photos are included. */
  lemma SectionShape(c: Cursor, l: LogWithPhotos, includePhotos: bool, env: PdfEnv)
    ensures var r := Section(c, l, includePhotos, env);
      var n := |l.photos|;
      && |r.items| >= |c.items|
      && r.items[..|c.items|] == c.items
      && r.items[|c.items|].text == HeadingText(l, env)
      && Kinds(r.items[|c.items|..])
         == [LogHeading]
          + (if !IsBlank(l.log.note) then [NoteLine] else [])
          + (if n > 0 then [PhotoCountLine] + (if includePhotos then [FilesLine] else []) else [])
  {
  }

  /** A single photo is "photo", more than one "photos". */
  lemma PhotoCountWording(n: nat)
    requires n > 0
    ensures n == 1 ==> PhotoCountText(n) == "📷 1 photo attached"
    ensures n > 1 ==> PhotoCountText(n) == "📷 " + NatToString(n) + " photos attached"
  {
    if n == 1 {
      assert NatToString(1) == "1";
    }
  }

  /** The count of photos hidden behind " +N more". */
  function HiddenCount(photos: seq<RecallPhoto>): nat {
    if |photos| > 3 then |photos| - 3 else 0
  }

  /** The file line accounts for every photo: the names it lists plus the
      "+N more" it announces are exactly the photo count, and no "+N more"
      is written when nothing is hidden. */
  lemma FilesLineAccountsForAll(photos: seq<RecallPhoto>)
    ensures |ListedLabels(photos)| + HiddenCount(photos) == |photos|
    ensures HiddenCount(photos) == 0 ==> FilesText(photos) == "Files: " + Join(ListedLabels(photos), ", ")
    ensures HiddenCount(photos) > 0 ==>
      FilesText(photos) == "Files: " + Join(ListedLabels(photos), ", ") + " +" + NatToString(HiddenCount(photos)) + " more"
  {
  }

  /** `exportCaseToPDF`: sorts the caller's logs oldest first, then writes
      the report; returns the items written and the file name it is saved
      under. */
  method ExportCaseToPdf(case_: RecallCase, logs: array<LogWithPhotos>, includePhotos: bool, env: PdfEnv)
    returns (doc: seq<PdfItem>, fileName: string)
    modifies logs
    ensures SortedByCreated(logs[..]) && multiset(logs[..]) == multiset(old(logs[..]))
    ensures SameTies(logs[..], old(logs[..]))
    ensures doc == Report(case_, logs[..], includePhotos, env)
    ensures fileName == ReportFileName(case_.title)
  {
    var yPos: int, page: nat;
    doc, yPos, page := WriteHeader(case_, env);
    ghost var header := Cursor(doc, yPos, page);

    SortByCreated(logs);
    ghost var sorted := logs[..];
    for i := 0 to logs.Length
      invariant logs[..] == sorted
      invariant Cursor(doc, yPos, page) == Sections(header, sorted[..i], includePhotos, env)
    {
      doc, yPos, page := WriteSection(doc, yPos, page, logs[i], includePhotos, env);
      assert sorted[..i + 1][..i] == sorted[..i];
    }
    assert sorted[..logs.Length] == sorted;
    doc := WriteFooter(doc, yPos, page, env);
    fileName := ReportFileName(case_.title);
  }

  /** The footer, on a new page when the cursor is below 250. */
  method WriteFooter(doc0: seq<PdfItem>, y0: int, page0: nat, env: PdfEnv) returns (doc: seq<PdfItem>)
    ensures doc == Footer(Cursor(doc0, y0, page0), env)
  {
    var yPos, page := y0, page0;
    if yPos > BreakY {
      page := page + 1;
      yPos := TopY;
    }
    doc := doc0 + [PdfItem(FooterLine, page, LeftX, yPos + 10, "Generated on " + env.nowText),
                   PdfItem(FooterLine, page, LeftX, yPos + 20, "Recall - Case Management System")];
  }

  /** The header block, written from the top of the first page. */
  method WriteHeader(case_: RecallCase, env: PdfEnv) returns (doc: seq<PdfItem>, yPos: int, page: nat)
    ensures Cursor(doc, yPos, page) == Header(case_, env)
  {
    page := 1;
    yPos := TopY;
    doc := [PdfItem(TitleLine, page, LeftX, yPos, case_.title)];
    yPos := yPos + 7 * env.lines(case_.title) + 5;
    if Truthy(case_.client_name) {
      var t := "Client: " + case_.client_name.value;
      doc := doc + [PdfItem(DetailLine, page, LeftX, yPos, t)];
      yPos := yPos + 7 * env.lines(t) + 5;
    }
    if Truthy(case_.location_text) {
      var t := "Location: " + case_.location_text.value;
      doc := doc + [PdfItem(DetailLine, page, LeftX, yPos, t)];
      yPos := yPos + 7 * env.lines(t) + 5;
    }
    var created := "Created: " + env.dateText(case_.created_at);
    doc := doc + [PdfItem(DetailLine, page, LeftX, yPos, created)];
    yPos := yPos + 7 * env.lines(created) + 5;
    yPos := yPos + 10;
  }

  /** One iteration of the report's loop over the logs. */
  method WriteSection(doc0: seq<PdfItem>, y0: int, page0: nat, l: LogWithPhotos, includePhotos: bool, env: PdfEnv)
    returns (doc: seq<PdfItem>, yPos: int, page: nat)
    ensures Cursor(doc, yPos, page) == Section(Cursor(doc0, y0, page0), l, includePhotos, env)
  {
    doc, yPos, page := doc0, y0, page0;
    if yPos > BreakY {
      page := page + 1;
      yPos := TopY;
    }
    var heading := HeadingText(l, env);
    doc := doc + [PdfItem(LogHeading, page, LeftX, yPos, heading)];
    yPos := yPos + 7 * env.lines(heading) + 5;
    doc, yPos := WriteNote(doc, yPos, page, l, env);
    doc, yPos := WritePhotoLines(doc, yPos, page, l.photos, includePhotos, env);
    yPos := yPos + 10;
  }

  /** The note line of `WriteSection`. */
  method WriteNote(doc0: seq<PdfItem>, y0: int, page: nat, l: LogWithPhotos, env: PdfEnv)
    returns (doc: seq<PdfItem>, yPos: int)
    ensures Cursor(doc, yPos, page) == NoteLines(Cursor(doc0, y0, page), l, env)
  {
    doc, yPos := doc0, y0;
    if !IsBlank(l.log.note) {
      doc := doc + [PdfItem(NoteLine, page, LeftX, yPos, l.log.note)];
      yPos := yPos + 7 * env.lines(l.log.note) + 5;
    }
  }

  /** The photo lines of `WriteSection`. */
  method WritePhotoLines(doc0: seq<PdfItem>, y0: int, page: nat, photos: seq<RecallPhoto>, includePhotos: bool, env: PdfEnv)
    returns (doc: seq<PdfItem>, yPos: int)
    ensures Cursor(doc, yPos, page) == PhotoLines(Cursor(doc0, y0, page), photos, includePhotos, env)
  {
    doc, yPos := doc0, y0;
    var photoCount := |photos|;
    if photoCount > 0 {
      var countLine := PhotoCountText(photoCount);
      doc := doc + [PdfItem(PhotoCountLine, page, LeftX, yPos, countLine)];
      yPos := yPos + 7 * env.lines(countLine) + 5;
      if includePhotos {
        var files := FilesText(photos);
        doc := doc + [PdfItem(FilesLine, page, FilesX, yPos, files)];
        yPos := yPos + 7 * env.lines(files) + 5;
      }
    }
  }
}
