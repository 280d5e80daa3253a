/** The Recall case repository of lib/recall/supabase.ts over in-memory
    tables. Queries are functions of the tables: filter, order, then window
    or limit, plus the nested counts the select embeds. Writes are methods
    of `RecallDatabase`, which holds the three tables. The authenticated
    user is a parameter (`None` when nobody is signed in); row-level
    security, which the source leaves to the database, is not part of the
    model, so the queries filter only where the source asks them to. */
module Repo {
  import opened Wrappers
  import opened Text
  import opened RecallTypes

  datatype RepoError = NotAuthenticated | NoSingleRow | DuplicateKey {
    function Message(): string {
      match this
      case NotAuthenticated => "User not authenticated"
      case NoSingleRow => "JSON object requested, multiple (or no) rows returned"
      case DuplicateKey => "duplicate key value violates unique constraint"
    }
  }

  // Filtering, ordering and windowing.

  /** The rows of `s` that satisfy `p`, in their order. */
  function Filter<T>(s: seq<T>, p: T -> bool): (r: seq<T>)
    ensures |r| <= |s|
    ensures forall i | 0 <= i < |r| :: r[i] in s && p(r[i])
    ensures forall i | 0 <= i < |s| && p(s[i]) :: s[i] in r
  {
    if s == [] then []
    else if p(s[0]) then [s[0]] + Filter(s[1..], p)
    else Filter(s[1..], p)
  }

  /** Every row's key is at least the next row's. */
  predicate SortedDesc<T>(s: seq<T>, key: T -> int) {
    forall i, j | 0 <= i < j < |s| :: key(s[i]) >= key(s[j])
  }

  /** Puts `x` before the first row whose key is not larger, keeping the
      rows of equal key that `x` preceded behind it. */
  function InsertDesc<T>(x: T, s: seq<T>, key: T -> int): seq<T> {
    if s == [] || key(x) >= key(s[0]) then [x] + s
    else [s[0]] + InsertDesc(x, s[1..], key)
  }

  /** Inserting adds `x` and loses nothing. */
  lemma {:induction false} InsertDescPerm<T>(x: T, s: seq<T>, key: T -> int)
    ensures multiset(InsertDesc(x, s, key)) == multiset(s) + multiset{x}
  {
    if s != [] && key(x) < key(s[0]) {
      InsertDescPerm(x, s[1..], key);
      assert s == [s[0]] + s[1..];
    }
  }

  /** A row placed before a sorted sequence whose keys it bounds keeps it sorted. */
  lemma ConsSorted<T>(h: T, rest: seq<T>, key: T -> int)
    requires SortedDesc(rest, key)
    requires forall y | y in rest :: key(h) >= key(y)
    ensures SortedDesc([h] + rest, key)
  {
    var r := [h] + rest;
    forall i, j | 0 <= i < j < |r| ensures key(r[i]) >= key(r[j]) {
      if i == 0 {
        assert r[j] == rest[j - 1];
      } else {
        assert r[i] == rest[i - 1] && r[j] == rest[j - 1];
      }
    }
  }

  /** Inserting into a sorted sequence keeps it sorted. */
  lemma {:induction false} InsertDescSorted<T>(x: T, s: seq<T>, key: T -> int)
    requires SortedDesc(s, key)
    ensures SortedDesc(InsertDesc(x, s, key), key)
  {
    if s == [] || key(x) >= key(s[0]) {
      forall y | y in s ensures key(x) >= key(y) {
        var j :| 0 <= j < |s| && s[j] == y;
      }
      ConsSorted(x, s, key);
    } else {
      var rest := InsertDesc(x, s[1..], key);
      InsertDescSorted(x, s[1..], key);
      InsertDescPerm(x, s[1..], key);
      forall y | y in rest ensures key(s[0]) >= key(y) {
        assert y in multiset(rest);
        if y != x {
          assert y in multiset(s[1..]);
          var j :| 0 <= j < |s[1..]| && s[1..][j] == y;
          assert s[j + 1] == y;
        }
      }
      ConsSorted(s[0], rest, key);
    }
  }

  /** `.order(key, { ascending: false })`: largest key first, ties in table
      order. */
  function SortDesc<T>(s: seq<T>, key: T -> int): (r: seq<T>)
    ensures SortedDesc(r, key)
    ensures multiset(r) == multiset(s)
    ensures |r| == |s|
    ensures forall i | 0 <= i < |r| :: r[i] in s
  {
    if s == [] then []
    else
      var sorted := SortDesc(s[1..], key);
      InsertDescSorted(s[0], sorted, key);
      InsertDescPerm(s[0], sorted, key);
      var r := InsertDesc(s[0], sorted, key);
      assert s == [s[0]] + s[1..];
      assert |r| == |multiset(r)| == |s|;
      assert forall i | 0 <= i < |r| :: r[i] in s by {
        forall i | 0 <= i < |r| ensures r[i] in s {
          assert r[i] in multiset(r);
        }
      }
      r
  }

  /** `.range(offset, offset + limit - 1)`: the rows at positions `offset`
      up to `offset + limit - 1`, as far as they exist. */
  function Window<T>(s: seq<T>, offset: nat, limit: nat): (r: seq<T>)
    ensures |r| == (if offset >= |s| then 0 else Min(limit, |s| - offset))
    ensures forall i | 0 <= i < |r| :: r[i] == s[offset + i]
  {
    if offset >= |s| then [] else s[offset..offset + Min(limit, |s| - offset)]
  }

  /** `.limit(n)`: the first `n` rows. */
  function Limit<T>(s: seq<T>, n: nat): (r: seq<T>)
    ensures |r| == Min(n, |s|) && r == s[..|r|]
  {
    s[..Min(n, |s|)]
  }

  function Min(a: nat, b: nat): nat {
    if a <= b then a else b
  }

  // Embedded counts.

  /** The embedded `count` aggregates of a row: `logs` is the list the
      `recall_logs(count)` embedding returns, `photos` one entry per log
      holding that log's `recall_photos(count)` list. Either may be absent. */
  datatype Embedded = Embedded(logs: Option<seq<nat>>, photos: Option<seq<Option<seq<nat>>>>)

  /** `xs?.[0]?.count || 0`. */
  function FirstCount(xs: Option<seq<nat>>): (r: nat)
    ensures xs.Some? && xs.value != [] ==> r == xs.value[0]
    ensures xs.None? || xs.value == [] ==> r == 0
  {
    if xs.Some? && xs.value != [] then xs.value[0] else 0
  }

  /** `photos?.reduce((sum, log) => sum + (log.recall_photos?.[0]?.count || 0), 0) || 0`. */
  function SumCounts(perLog: Option<seq<Option<seq<nat>>>>): nat {
    if perLog.None? then 0 else SumFirst(perLog.value)
  }

  function SumFirst(entries: seq<Option<seq<nat>>>): nat {
    if entries == [] then 0
    else SumFirst(entries[..|entries| - 1]) + FirstCount(entries[|entries| - 1])
  }

  /** The logs of a case, in table order. */
  function LogsOf(logs: seq<RecallLog>, caseId: string): (r: seq<RecallLog>)
    ensures forall l :: l in r <==> l in logs && l.case_id == caseId
  {
    Filter(logs, (l: RecallLog) => l.case_id == caseId)
  }

  /** The photos of a log, in table order. */
  function PhotosOf(photos: seq<RecallPhoto>, logId: string): (r: seq<RecallPhoto>)
    ensures forall p :: p in r <==> p in photos && p.log_id == logId
  {
    Filter(photos, (p: RecallPhoto) => p.log_id == logId)
  }

  /** What the database embeds in a case row for
      `logs:recall_logs(count), photos:recall_logs(recall_photos(count))`. */
  function Embed(caseId: string, logs: seq<RecallLog>, photos: seq<RecallPhoto>): Embedded {
    var own := LogsOf(logs, caseId);
    Embedded(LogCountEmbed(caseId, logs), Some(PhotoEntries(own, photos)))
  }

  /** One `recall_photos(count)` list per log, in the logs' order. */
  function PhotoEntries(own: seq<RecallLog>, photos: seq<RecallPhoto>): (r: seq<Option<seq<nat>>>)
    ensures |r| == |own|
  {
    seq(|own|, i requires 0 <= i < |own| => Some([|PhotosOf(photos, own[i].id)|]))
  }

  /** What the database embeds for `logs:recall_logs(count)`. */
  function LogCountEmbed(caseId: string, logs: seq<RecallLog>): Option<seq<nat>> {
    Some([|LogsOf(logs, caseId)|])
  }

  /** A case with the counts the listing pages show; `photo_count` is absent
      from search results. */
  datatype CaseWithCounts = CaseWithCounts(case_: RecallCase, log_count: nat, photo_count: Option<nat>)

  function WithCounts(c: RecallCase, logs: seq<RecallLog>, photos: seq<RecallPhoto>): CaseWithCounts {
    var e := Embed(c.id, logs, photos);
    CaseWithCounts(c, FirstCount(e.logs), Some(SumCounts(e.photos)))
  }

  function WithCountsAll(cases: seq<RecallCase>, logs: seq<RecallLog>, photos: seq<RecallPhoto>): (r: seq<CaseWithCounts>)
    ensures |r| == |cases|
    ensures forall i | 0 <= i < |r| :: r[i] == WithCounts(cases[i], logs, photos)
  {
    seq(|cases|, i requires 0 <= i < |cases| => WithCounts(cases[i], logs, photos))
  }

  /** The photos whose log is one of `ids`. */
  function PhotosIn(photos: seq<RecallPhoto>, ids: set<string>): seq<RecallPhoto> {
    Filter(photos, (p: RecallPhoto) => p.log_id in ids)
  }

  function Ids(logs: seq<RecallLog>): set<string> {
    set l | l in logs :: l.id
  }

  /** No two rows share an id. */
  predicate UniqueBy<T>(s: seq<T>, id: T -> string) {
    forall i, j | 0 <= i < j < |s| :: id(s[i]) != id(s[j])
  }

  function CaseId(c: RecallCase): string {
    c.id
  }

  function LogId(l: RecallLog): string {
    l.id
  }

  function PhotoId(p: RecallPhoto): string {
    p.id
  }

  /** Log ids are unique within the list. */
  predicate DistinctIds(logs: seq<RecallLog>) {
    UniqueBy(logs, LogId)
  }

  /** Dropping rows keeps ids unique. */
  lemma {:induction false} FilterKeepsUnique<T>(s: seq<T>, p: T -> bool, id: T -> string)
    requires UniqueBy(s, id)
    ensures UniqueBy(Filter(s, p), id)
  {
    if s != [] {
      var rest := s[1..];
      assert UniqueBy(rest, id) by {
        forall i, j | 0 <= i < j < |rest| ensures id(rest[i]) != id(rest[j]) {
          assert rest[i] == s[i + 1] && rest[j] == s[j + 1];
        }
      }
      FilterKeepsUnique(rest, p, id);
      var r := Filter(s, p);
      var tail := Filter(rest, p);
      if p(s[0]) {
        assert r == [s[0]] + tail;
        forall i, j | 0 <= i < j < |r| ensures id(r[i]) != id(r[j]) {
          assert r[j] == tail[j - 1] && tail[j - 1] in rest;
          if i == 0 {
            var m :| 0 <= m < |rest| && rest[m] == tail[j - 1];
            assert s[m + 1] == r[j];
          } else {
            assert r[i] == tail[i - 1];
          }
        }
      } else {
        assert r == tail;
      }
    }
  }

  lemma {:induction false} PhotosInUnion(photos: seq<RecallPhoto>, ids: set<string>, id: string)
    requires id !in ids
    ensures |PhotosIn(photos, ids + {id})| == |PhotosIn(photos, ids)| + |PhotosOf(photos, id)|
  {
    if photos != [] {
      PhotosInUnion(photos[1..], ids, id);
    }
  }

  /** The sum of the per-log photo counts, over a case's logs. */
  lemma {:induction false} SumFirstCountsPhotos(own: seq<RecallLog>, photos: seq<RecallPhoto>)
    requires DistinctIds(own)
    ensures SumFirst(PhotoEntries(own, photos)) == |PhotosIn(photos, Ids(own))|
  {
    if own == [] {
      assert Ids(own) == {};
      PhotosInNone(photos);
    } else {
      var init := own[..|own| - 1];
      var last := own[|own| - 1];
      LastLogSplit(own, photos);
      SumFirstCountsPhotos(init, photos);
      PhotosInUnion(photos, Ids(init), last.id);
    }
  }

  /** Dropping the last log drops the last entry, and the last log's id is
      new to the others. */
  lemma LastLogSplit(own: seq<RecallLog>, photos: seq<RecallPhoto>)
    requires own != [] && DistinctIds(own)
    ensures var init := own[..|own| - 1];
      && DistinctIds(init)
      && PhotoEntries(own, photos)[..|own| - 1] == PhotoEntries(init, photos)
      && PhotoEntries(own, photos)[|own| - 1] == Some([|PhotosOf(photos, own[|own| - 1].id)|])
      && Ids(own) == Ids(init) + {own[|own| - 1].id}
      && own[|own| - 1].id !in Ids(init)
  {
    var init := own[..|own| - 1];
    assert own == init + [own[|own| - 1]];
  }

  lemma {:induction false} PhotosInNone(photos: seq<RecallPhoto>)
    ensures PhotosIn(photos, {}) == []
  {
    if photos != [] {
      PhotosInNone(photos[1..]);
    }
  }

  /** The listing's `log_count` is the number of the case's logs and its
      `photo_count` the number of photos attached to them. */
  lemma CountsAreRowCounts(c: RecallCase, logs: seq<RecallLog>, photos: seq<RecallPhoto>)
    requires DistinctIds(LogsOf(logs, c.id))
    ensures WithCounts(c, logs, photos).log_count == |LogsOf(logs, c.id)|
    ensures WithCounts(c, logs, photos).photo_count == Some(|PhotosIn(photos, Ids(LogsOf(logs, c.id)))|)
  {
    SumFirstCountsPhotos(LogsOf(logs, c.id), photos);
  }

  /** On a table whose log ids are unique, the counts a listing embeds are
      the row counts. */
  lemma TableCountsAreRowCounts(c: RecallCase, logs: seq<RecallLog>, photos: seq<RecallPhoto>)
    requires DistinctIds(logs)
    ensures WithCounts(c, logs, photos).log_count == |LogsOf(logs, c.id)|
    ensures WithCounts(c, logs, photos).photo_count == Some(|PhotosIn(photos, Ids(LogsOf(logs, c.id)))|)
  {
    FilterKeepsUnique(logs, (l: RecallLog) => l.case_id == c.id, LogId);
    CountsAreRowCounts(c, logs, photos);
  }

  // Case queries.

  predicate IsActive(c: RecallCase) {
    c.deleted_at.None?
  }

  function UpdatedAt(c: RecallCase): int {
    c.updated_at
  }

  /** The deletion time of a soft-deleted row. */
  function DeletedAt(c: RecallCase): int {
    if c.deleted_at.Some? then c.deleted_at.value else 0
  }

  /** The caller's active cases, most recently updated first. */
  function ActiveCases(cases: seq<RecallCase>, owner: string): (r: seq<RecallCase>)
    ensures forall c :: c in r <==> c in cases && c.owner_id == owner && IsActive(c)
    ensures SortedDesc(r, UpdatedAt)
  {
    var r := SortDesc(Filter(cases, (c: RecallCase) => c.owner_id == owner && IsActive(c)), UpdatedAt);
    assert forall c :: c in r <==> c in multiset(r);
    r
  }

  /** The caller's soft-deleted cases, most recently deleted first. */
  function DeletedCases(cases: seq<RecallCase>, owner: string): (r: seq<RecallCase>)
    ensures forall c :: c in r <==> c in cases && c.owner_id == owner && !IsActive(c)
    ensures SortedDesc(r, DeletedAt)
  {
    var r := SortDesc(Filter(cases, (c: RecallCase) => c.owner_id == owner && !IsActive(c)), DeletedAt);
    assert forall c :: c in r <==> c in multiset(r);
    r
  }

  /** `getCases(limit = 20, offset = 0)`. */
  function GetCases(user: Option<string>, cases: seq<RecallCase>, logs: seq<RecallLog>, photos: seq<RecallPhoto>,
                    limit: nat := 20, offset: nat := 0)
    : (r: Result<seq<CaseWithCounts>, RepoError>)
    ensures user.None? <==> r == Err(NotAuthenticated)
    ensures r.Ok? ==> |r.value| <= limit
    ensures r.Ok? ==> forall i | 0 <= i < |r.value| ::
      var c := r.value[i].case_;
      c in cases && c.owner_id == user.value && IsActive(c) && r.value[i] == WithCounts(c, logs, photos)
    ensures r.Ok? ==> forall i, j | 0 <= i < j < |r.value| :: r.value[i].case_.updated_at >= r.value[j].case_.updated_at
    ensures r.Ok? ==> var all := ActiveCases(cases, user.value);
      && |r.value| == (if offset >= |all| then 0 else Min(limit, |all| - offset))
      && forall i | 0 <= i < |r.value| :: r.value[i].case_ == all[offset + i]
  {
    if user.None? then Err(NotAuthenticated)
    else
      var page := Window(ActiveCases(cases, user.value), offset, limit);
      Ok(WithCountsAll(page, logs, photos))
  }

  /** The first page holds every active case of the caller when they fit. */
  lemma FirstPageIsComplete(user: string, cases: seq<RecallCase>, logs: seq<RecallLog>, photos: seq<RecallPhoto>, limit: nat, c: RecallCase)
    requires c in cases && c.owner_id == user && IsActive(c)
    requires |ActiveCases(cases, user)| <= limit
    ensures exists i | 0 <= i < |GetCases(Some(user), cases, logs, photos, limit).value| ::
      GetCases(Some(user), cases, logs, photos, limit).value[i].case_ == c
  {
    var all := ActiveCases(cases, user);
    var k :| 0 <= k < |all| && all[k] == c;
    assert GetCases(Some(user), cases, logs, photos, limit).value[k].case_ == c;
  }

  /** Paging through the listing `limit` rows at a time reaches every
      active case of the caller: it sits on the page that starts at the
      multiple of `limit` just below its position. */
  lemma EveryCaseOnSomePage(user: string, cases: seq<RecallCase>, logs: seq<RecallLog>, photos: seq<RecallPhoto>, limit: nat, c: RecallCase)
    returns (page: nat, i: nat)
    requires c in cases && c.owner_id == user && IsActive(c)
    requires limit >= 1
    ensures var r := GetCases(Some(user), cases, logs, photos, limit, page * limit).value;
      i < |r| && r[i].case_ == c
  {
    var all := ActiveCases(cases, user);
    assert c in all;
    var k :| 0 <= k < |all| && all[k] == c;
    var offset;
    page, offset, i := WindowReaches(all, k, limit);
    ListingIsWindow(user, cases, logs, photos, limit, offset, i);
  }

  /** Row `i` of the listing at `offset` is row `i` of that window of the
      caller's active cases. */
  lemma ListingIsWindow(user: string, cases: seq<RecallCase>, logs: seq<RecallLog>, photos: seq<RecallPhoto>, limit: nat, offset: nat, i: nat)
    requires i < |Window(ActiveCases(cases, user), offset, limit)|
    ensures var r := GetCases(Some(user), cases, logs, photos, limit, offset).value;
      i < |r| && r[i].case_ == Window(ActiveCases(cases, user), offset, limit)[i]
  {
  }

  /** Row `k` of a listing is row `i` of page `page`. */
  lemma WindowReaches<T>(s: seq<T>, k: nat, limit: nat) returns (page: nat, offset: nat, i: nat)
    requires k < |s| && limit >= 1
    ensures offset == page * limit
    ensures i < |Window(s, offset, limit)| && Window(s, offset, limit)[i] == s[k]
  {
    page, offset, i := PageOf(k, limit);
  }

  /** Position `k` lies on page `page`, at `i` within it. */
  lemma {:induction false} PageOf(k: nat, limit: nat) returns (page: nat, offset: nat, i: nat)
    requires limit >= 1
    ensures offset == page * limit && k == offset + i && i < limit
  {
    if k < limit {
      page, offset, i := 0, 0, k;
    } else {
      var p, o, j := PageOf(k - limit, limit);
      page, offset, i := p + 1, o + limit, j;
    }
  }

  /** `getDeletedCases(limit = 50)`. */
  function GetDeletedCases(user: Option<string>, cases: seq<RecallCase>, logs: seq<RecallLog>, photos: seq<RecallPhoto>,
                           limit: nat := 50)
    : (r: Result<seq<CaseWithCounts>, RepoError>)
    ensures user.None? <==> r == Err(NotAuthenticated)
    ensures r.Ok? ==> |r.value| <= limit
    ensures r.Ok? ==> forall i | 0 <= i < |r.value| ::
      var c := r.value[i].case_;
      c in cases && c.owner_id == user.value && !IsActive(c) && r.value[i] == WithCounts(c, logs, photos)
    ensures r.Ok? ==> forall i, j | 0 <= i < j < |r.value| :: DeletedAt(r.value[i].case_) >= DeletedAt(r.value[j].case_)
    ensures r.Ok? ==> var all := DeletedCases(cases, user.value);
      && |r.value| == Min(limit, |all|)
      && forall i | 0 <= i < |r.value| :: r.value[i].case_ == all[i]
  {
    if user.None? then Err(NotAuthenticated)
    else Ok(WithCountsAll(Limit(DeletedCases(cases, user.value), limit), logs, photos))
  }

  /** Every case of an owner is listed by exactly one of the two queries'
      filters. */
  lemma ActiveAndDeletedPartition(cases: seq<RecallCase>, owner: string)
    ensures multiset(ActiveCases(cases, owner)) + multiset(DeletedCases(cases, owner))
         == multiset(Filter(cases, (c: RecallCase) => c.owner_id == owner))
  {
    PartitionCounts(cases, owner);
  }

  lemma {:induction false} PartitionCounts(cases: seq<RecallCase>, owner: string)
    ensures multiset(Filter(cases, (c: RecallCase) => c.owner_id == owner && IsActive(c)))
          + multiset(Filter(cases, (c: RecallCase) => c.owner_id == owner && !IsActive(c)))
         == multiset(Filter(cases, (c: RecallCase) => c.owner_id == owner))
  {
    if cases != [] {
      PartitionCounts(cases[1..], owner);
    }
  }

  /** A case with its logs and each log's photos, as `getCase` embeds them. */
  datatype CaseDetail = CaseDetail(case_: RecallCase, logs: seq<LogWithPhotos>)

  /** The active rows with the given id. */
  function ActiveWithId(cases: seq<RecallCase>, id: string): (r: seq<RecallCase>)
    ensures forall c :: c in r <==> c in cases && c.id == id && IsActive(c)
  {
    Filter(cases, (c: RecallCase) => c.id == id && IsActive(c))
  }

  /** Case ids are unique within the table, as the primary key keeps them. */
  predicate UniqueCaseIds(cases: seq<RecallCase>) {
    UniqueBy(cases, CaseId)
  }

  /** Photo ids are unique within the table. */
  predicate UniquePhotoIds(photos: seq<RecallPhoto>) {
    UniqueBy(photos, PhotoId)
  }

  /** With unique ids at most one row has a given id, so `.single()` can
      only fail for want of a row. */
  lemma AtMostOneWithId(cases: seq<RecallCase>, id: string)
    requires UniqueCaseIds(cases)
    ensures |ActiveWithId(cases, id)| <= 1
  {
    var r := ActiveWithId(cases, id);
    if |r| > 1 {
      assert r[0] in r && r[1] in r;
      assert CaseId(r[0]) == id == CaseId(r[1]);
      FilterKeepsUnique(cases, (c: RecallCase) => c.id == id && IsActive(c), CaseId);
      assert false;
    }
  }

  function Detail(c: RecallCase, logs: seq<RecallLog>, photos: seq<RecallPhoto>): CaseDetail {
    var own := LogsOf(logs, c.id);
    CaseDetail(c, seq(|own|, i requires 0 <= i < |own| => LogWithPhotos(own[i], PhotosOf(photos, own[i].id))))
  }

  /** `getCase`: `.single()` over the active rows with the id. */
  function GetCase(id: string, cases: seq<RecallCase>, logs: seq<RecallLog>, photos: seq<RecallPhoto>)
    : (r: Result<CaseDetail, RepoError>)
    ensures r.Ok? <==> |ActiveWithId(cases, id)| == 1
    ensures r.Ok? ==> r.value.case_ in cases && r.value.case_.id == id && IsActive(r.value.case_)
    ensures r.Err? ==> r.error == NoSingleRow
    ensures r.Ok? ==> var own := LogsOf(logs, id);
      && |r.value.logs| == |own|
      && forall i | 0 <= i < |own| ::
           r.value.logs[i].log == own[i] && r.value.logs[i].photos == PhotosOf(photos, own[i].id)
  {
    var rows := ActiveWithId(cases, id);
    if |rows| != 1 then Err(NoSingleRow) else Ok(Detail(rows[0], logs, photos))
  }

  /** A soft-deleted case is invisible to `getCase`. */
  lemma GetCaseSkipsDeleted(id: string, cases: seq<RecallCase>, logs: seq<RecallLog>, photos: seq<RecallPhoto>)
    requires forall c | c in cases && c.id == id :: !IsActive(c)
    ensures GetCase(id, cases, logs, photos) == Err(NoSingleRow)
  {
    var r := ActiveWithId(cases, id);
    if r != [] {
      assert r[0] in cases;
    }
  }

  /** The search form: an optional text, log type and case. */
  datatype SearchFilters = SearchFilters(query: Option<string>, log_type: Option<LogType>, case_id: Option<string>)

  /** `column.ilike.%q%`: `q` occurs in `s` ignoring ASCII case. */
  predicate ContainsIgnoringCase(s: string, q: string) {
    IsInfix(ToLower(q), ToLower(s))
  }

  /** The `.or(title.ilike…, client_name.ilike…)` filter of `searchCases`;
      an empty query adds no filter. */
  predicate MatchesQuery(c: RecallCase, query: Option<string>) {
    !Truthy(query)
    || ContainsIgnoringCase(c.title, query.value)
    || (c.client_name.Some? && ContainsIgnoringCase(c.client_name.value, query.value))
  }

  /** `searchCases`: the caller's active cases matching the query, most
      recently updated first, at most 50, with `log_count` only. */
  function SearchCases(user: Option<string>, filters: SearchFilters, cases: seq<RecallCase>, logs: seq<RecallLog>)
    : (r: Result<seq<CaseWithCounts>, RepoError>)
    ensures user.None? <==> r == Err(NotAuthenticated)
    ensures r.Ok? ==> |r.value| <= 50
    ensures r.Ok? ==> forall i | 0 <= i < |r.value| ::
      var c := r.value[i].case_;
      && c in cases && c.owner_id == user.value && IsActive(c) && MatchesQuery(c, filters.query)
      && r.value[i].log_count == |LogsOf(logs, c.id)| && r.value[i].photo_count.None?
    ensures r.Ok? ==> forall i, j | 0 <= i < j < |r.value| :: r.value[i].case_.updated_at >= r.value[j].case_.updated_at
    ensures r.Ok? ==> var all := SortDesc(MatchingCases(cases, user.value, filters.query), UpdatedAt);
      && |r.value| == Min(50, |all|)
      && forall i | 0 <= i < |r.value| :: r.value[i].case_ == all[i]
  {
    if user.None? then Err(NotAuthenticated)
    else
      var page := Limit(SortDesc(MatchingCases(cases, user.value, filters.query), UpdatedAt), 50);
      Ok(WithLogCounts(page, logs))
  }

  /** The caller's active cases that match the query, in table order. */
  function MatchingCases(cases: seq<RecallCase>, owner: string, query: Option<string>): (r: seq<RecallCase>)
    ensures forall c :: c in r <==> c in cases && c.owner_id == owner && IsActive(c) && MatchesQuery(c, query)
  {
    Filter(cases, (c: RecallCase) => c.owner_id == owner && IsActive(c) && MatchesQuery(c, query))
  }

  /** The search rows: `log_count` from the embedded count, no `photo_count`. */
  function WithLogCounts(page: seq<RecallCase>, logs: seq<RecallLog>): (r: seq<CaseWithCounts>)
    ensures |r| == |page|
    ensures forall i | 0 <= i < |r| ::
      r[i].case_ == page[i] && r[i].log_count == |LogsOf(logs, page[i].id)| && r[i].photo_count.None?
  {
    seq(|page|, i requires 0 <= i < |page| => CaseWithCounts(page[i], FirstCount(LogCountEmbed(page[i].id, logs)), None))
  }

  /** A log with the photo count `searchLogs` embeds. */
  datatype LogWithCount = LogWithCount(log: RecallLog, photo_count: nat)

  /** The conjunction of the filters `searchLogs` applies; an absent or
      empty filter adds nothing. */
  predicate MatchesLog(l: RecallLog, filters: SearchFilters) {
    && (Truthy(filters.case_id) ==> l.case_id == filters.case_id.value)
    && (filters.log_type.Some? ==> l.log_type == filters.log_type.value)
    && (Truthy(filters.query) ==> ContainsIgnoringCase(l.note, filters.query.value))
  }

  function CreatedAt(l: RecallLog): int {
    l.created_at
  }

  /** `searchLogs`: the matching logs newest first, at most 100. It asks
      for no signed-in user. */
  function SearchLogs(filters: SearchFilters, logs: seq<RecallLog>, photos: seq<RecallPhoto>): (r: seq<LogWithCount>)
    ensures |r| <= 100
    ensures forall i | 0 <= i < |r| ::
      r[i].log in logs && MatchesLog(r[i].log, filters) && r[i].photo_count == |PhotosOf(photos, r[i].log.id)|
    ensures forall i, j | 0 <= i < j < |r| :: r[i].log.created_at >= r[j].log.created_at
    ensures var all := SortDesc(MatchingLogs(logs, filters), CreatedAt);
      && |r| == Min(100, |all|)
      && forall i | 0 <= i < |r| :: r[i].log == all[i]
  {
    var page := Limit(SortDesc(MatchingLogs(logs, filters), CreatedAt), 100);
    WithPhotoCounts(page, photos)
  }

  function MatchingLogs(logs: seq<RecallLog>, filters: SearchFilters): (r: seq<RecallLog>)
    ensures forall l :: l in r <==> l in logs && MatchesLog(l, filters)
  {
    Filter(logs, (l: RecallLog) => MatchesLog(l, filters))
  }

  /** `photo_count: log.photos?.[0]?.count || 0` over the embedded count. */
  function WithPhotoCounts(page: seq<RecallLog>, photos: seq<RecallPhoto>): (r: seq<LogWithCount>)
    ensures |r| == |page|
    ensures forall i | 0 <= i < |r| :: r[i].log == page[i] && r[i].photo_count == |PhotosOf(photos, page[i].id)|
  {
    seq(|page|, i requires 0 <= i < |page| => LogWithCount(page[i], FirstCount(Some([|PhotosOf(photos, page[i].id)|]))))
  }

  /** Each filter narrows the search: adding one never admits a log the
      search without it would reject. */
  lemma LogFiltersConjoin(l: RecallLog, filters: SearchFilters)
    ensures MatchesLog(l, filters) <==>
      && MatchesLog(l, SearchFilters(None, None, filters.case_id))
      && MatchesLog(l, SearchFilters(None, filters.log_type, None))
      && MatchesLog(l, SearchFilters(filters.query, None, None))
  {
  }

  /** When at most 50 cases match, the search returns every one of them. */
  lemma SmallCaseSearchIsComplete(user: string, filters: SearchFilters, cases: seq<RecallCase>, logs: seq<RecallLog>, c: RecallCase)
    requires |MatchingCases(cases, user, filters.query)| <= 50
    requires c in cases && c.owner_id == user && IsActive(c) && MatchesQuery(c, filters.query)
    ensures exists i | 0 <= i < |SearchCases(Some(user), filters, cases, logs).value| ::
      SearchCases(Some(user), filters, cases, logs).value[i].case_ == c
  {
    var all := SortDesc(MatchingCases(cases, user, filters.query), UpdatedAt);
    assert c in multiset(all);
    var k :| 0 <= k < |all| && all[k] == c;
    assert SearchCases(Some(user), filters, cases, logs).value[k].case_ == c;
  }

  /** When at most 100 logs match, the search returns every one of them. */
  lemma SmallLogSearchIsComplete(filters: SearchFilters, logs: seq<RecallLog>, photos: seq<RecallPhoto>, l: RecallLog)
    requires |MatchingLogs(logs, filters)| <= 100
    requires l in logs && MatchesLog(l, filters)
    ensures exists i | 0 <= i < |SearchLogs(filters, logs, photos)| :: SearchLogs(filters, logs, photos)[i].log == l
  {
    var all := SortDesc(MatchingLogs(logs, filters), CreatedAt);
    assert l in multiset(all);
    var k :| 0 <= k < |all| && all[k] == l;
    assert SearchLogs(filters, logs, photos)[k].log == l;
  }

  function PhotoCreatedAt(p: RecallPhoto): int {
    p.created_at
  }

  /** `getAllCasePhotos`: no logs, no photo query; otherwise the photos of
      the case's logs, newest first. */
  function GetAllCasePhotos(caseId: string, logs: seq<RecallLog>, photos: seq<RecallPhoto>): (r: seq<RecallPhoto>)
    ensures LogsOf(logs, caseId) == [] ==> r == []
    ensures forall p :: p in r <==> p in photos && exists l | l in logs :: l.case_id == caseId && l.id == p.log_id
    ensures SortedDesc(r, PhotoCreatedAt)
  {
    var own := LogsOf(logs, caseId);
    if |own| == 0 then []
    else
      var r := SortDesc(PhotosIn(photos, Ids(own)), PhotoCreatedAt);
      assert forall p :: p in r <==> p in multiset(r);
      r
  }

  // Writes.

  /** The fields `updateCase` may change; an absent field is left alone. */
  datatype CaseUpdates = CaseUpdates(title: Option<string>, client_name: Option<string>, location_text: Option<string>)

  function ApplyUpdates(c: RecallCase, u: CaseUpdates): RecallCase {
    c.(title := u.title.GetOr(c.title),
       client_name := if u.client_name.Some? then u.client_name else c.client_name,
       location_text := if u.location_text.Some? then u.location_text else c.location_text)
  }

  /** Every row with the id gets `deleted_at := stamp`; the rest are kept. */
  function SetDeletedAt(cases: seq<RecallCase>, id: string, stamp: Option<Timestamp>): (r: seq<RecallCase>)
    ensures |r| == |cases|
    ensures forall i | 0 <= i < |r| ::
      r[i] == if cases[i].id == id then cases[i].(deleted_at := stamp) else cases[i]
  {
    seq(|cases|, i requires 0 <= i < |cases| => if cases[i].id == id then cases[i].(deleted_at := stamp) else cases[i])
  }

  /** Restoring after a soft delete gives back the table as it was, when
      the case was active before. */
  lemma DeleteThenRestore(cases: seq<RecallCase>, id: string, now: Timestamp)
    requires forall c | c in cases && c.id == id :: IsActive(c)
    ensures SetDeletedAt(SetDeletedAt(cases, id, Some(now)), id, None) == cases
  {
    var r := SetDeletedAt(SetDeletedAt(cases, id, Some(now)), id, None);
    forall i | 0 <= i < |cases| ensures r[i] == cases[i] {
      if cases[i].id == id {
        assert cases[i] in cases;
      }
    }
  }

  /** A soft-deleted case leaves the active listing and enters the deleted
      one; no other column changes. */
  lemma DeleteMovesToDeleted(cases: seq<RecallCase>, id: string, now: Timestamp, owner: string)
    ensures forall c | c in ActiveCases(SetDeletedAt(cases, id, Some(now)), owner) :: c.id != id
    ensures forall c | c in cases && c.id == id && c.owner_id == owner ::
      c.(deleted_at := Some(now)) in DeletedCases(SetDeletedAt(cases, id, Some(now)), owner)
  {
    var after := SetDeletedAt(cases, id, Some(now));
    forall c | c in cases && c.id == id && c.owner_id == owner
      ensures c.(deleted_at := Some(now)) in after
    {
      var i :| 0 <= i < |cases| && cases[i] == c;
      assert after[i] == c.(deleted_at := Some(now));
    }
  }

  /** The rows with the id that are active get the updates. */
  function UpdateActive(cases: seq<RecallCase>, id: string, u: CaseUpdates): (r: seq<RecallCase>)
    ensures |r| == |cases|
    ensures forall i | 0 <= i < |r| ::
      r[i] == if cases[i].id == id && IsActive(cases[i]) then ApplyUpdates(cases[i], u) else cases[i]
  {
    seq(|cases|, i requires 0 <= i < |cases| => if cases[i].id == id && IsActive(cases[i]) then ApplyUpdates(cases[i], u) else cases[i])
  }

  /** Updating never touches a soft-deleted row. */
  lemma UpdateSkipsDeleted(cases: seq<RecallCase>, id: string, u: CaseUpdates, i: nat)
    requires i < |cases| && !IsActive(cases[i])
    ensures UpdateActive(cases, id, u)[i] == cases[i]
  {
  }

  /** The three tables, changed in place by the write operations. */
  class RecallDatabase {
    var cases: seq<RecallCase>
    var logs: seq<RecallLog>
    var photos: seq<RecallPhoto>

    /** Every table keeps its ids unique. */
    predicate Valid()
      reads this
    {
      UniqueCaseIds(cases) && DistinctIds(logs) && UniquePhotoIds(photos)
    }

    constructor ()
      ensures Valid()
      ensures cases == [] && logs == [] && photos == []
    {
      cases, logs, photos := [], [], [];
    }

    /** `deleteCase`: stamps `deleted_at` with the current time. */
    method DeleteCase(id: string, now: Timestamp)
      requires Valid()
      modifies this
      ensures Valid()
      ensures cases == SetDeletedAt(old(cases), id, Some(now))
      ensures logs == old(logs) && photos == old(photos)
    {
      cases := SetDeletedAt(cases, id, Some(now));
    }

    /** `restoreCase`: clears `deleted_at`. */
    method RestoreCase(id: string)
      requires Valid()
      modifies this
      ensures Valid()
      ensures cases == SetDeletedAt(old(cases), id, None)
      ensures logs == old(logs) && photos == old(photos)
    {
      cases := SetDeletedAt(cases, id, None);
    }

    /** `updateCase`: the update filtered to the active row with the id;
      `.single()` refuses the result unless exactly one row was updated,
      which with unique ids means the case is missing or deleted. */
    method UpdateCase(id: string, u: CaseUpdates) returns (r: Result<RecallCase, RepoError>)
      requires Valid()
      modifies this
      ensures Valid()
      ensures r.Err? <==> ActiveWithId(old(cases), id) == []
      ensures cases == UpdateActive(old(cases), id, u)
      ensures logs == old(logs) && photos == old(photos)
      ensures r.Ok? <==> |ActiveWithId(old(cases), id)| == 1
      ensures r.Ok? ==> r.value == ApplyUpdates(ActiveWithId(old(cases), id)[0], u)
      ensures r.Err? ==> r.error == NoSingleRow
    {
      var matching := ActiveWithId(cases, id);
      AtMostOneWithId(cases, id);
      cases := UpdateActive(cases, id, u);
      if |matching| == 1 {
        r := Ok(ApplyUpdates(matching[0], u));
      } else {
        r := Err(NoSingleRow);
      }
    }

    /** `createCase`: refused without a signed-in user; otherwise a new
      active row owned by the user, stamped `now`. The generated id is a
      parameter; one already in the table is refused by the primary key. */
    method CreateCase(user: Option<string>, data: CreateCaseData, newId: string, now: Timestamp)
      returns (r: Result<RecallCase, RepoError>)
      requires Valid()
      modifies this
      ensures Valid()
      ensures user.None? ==> r == Err(NotAuthenticated) && cases == old(cases)
      ensures user.Some? && (exists c | c in old(cases) :: c.id == newId) ==> r == Err(DuplicateKey) && cases == old(cases)
      ensures user.Some? && (forall c | c in old(cases) :: c.id != newId) ==> r.Ok? && cases == old(cases) + [r.value]
      ensures r.Ok? ==> r.value == RecallCase(newId, user.value, data.title, data.client_name, data.location_text, now, now, None)
      ensures logs == old(logs) && photos == old(photos)
    {
      if user.None? {
        return Err(NotAuthenticated);
      }
      if exists c | c in cases :: c.id == newId {
        return Err(DuplicateKey);
      }
      var row := RecallCase(newId, user.value, data.title, data.client_name, data.location_text, now, now, None);
      cases := cases + [row];
      r := Ok(row);
    }

    /** `createLog`: refused without a signed-in user or for a taken id. */
    method CreateLog(user: Option<string>, caseId: string, logType: LogType, note: string, newId: string, now: Timestamp)
      returns (r: Result<RecallLog, RepoError>)
      requires Valid()
      modifies this
      ensures Valid()
      ensures user.None? ==> r == Err(NotAuthenticated) && logs == old(logs)
      ensures user.Some? && (exists l | l in old(logs) :: l.id == newId) ==> r == Err(DuplicateKey) && logs == old(logs)
      ensures user.Some? && (forall l | l in old(logs) :: l.id != newId) ==> r.Ok? && logs == old(logs) + [r.value]
      ensures r.Ok? ==> r.value == RecallLog(newId, caseId, user.value, logType, note, now, now)
      ensures cases == old(cases) && photos == old(photos)
    {
      if user.None? {
        return Err(NotAuthenticated);
      }
      if exists l | l in logs :: l.id == newId {
        return Err(DuplicateKey);
      }
      var row := RecallLog(newId, caseId, user.value, logType, note, now, now);
      logs := logs + [row];
      r := Ok(row);
    }

    /** `createPhoto`: refused without a signed-in user or for a taken id. */
    method CreatePhoto(user: Option<string>, logId: string, storagePath: string, filename: Option<string>, newId: string, now: Timestamp)
      returns (r: Result<RecallPhoto, RepoError>)
      requires Valid()
      modifies this
      ensures Valid()
      ensures user.None? ==> r == Err(NotAuthenticated) && photos == old(photos)
      ensures user.Some? && (exists p | p in old(photos) :: p.id == newId) ==> r == Err(DuplicateKey) && photos == old(photos)
      ensures user.Some? && (forall p | p in old(photos) :: p.id != newId) ==> r.Ok? && photos == old(photos) + [r.value]
      ensures r.Ok? ==> r.value == RecallPhoto(newId, logId, user.value, storagePath, filename, now)
      ensures cases == old(cases) && logs == old(logs)
    {
      if user.None? {
        return Err(NotAuthenticated);
      }
      if exists p | p in photos :: p.id == newId {
        return Err(DuplicateKey);
      }
      var row := RecallPhoto(newId, logId, user.value, storagePath, filename, now);
      photos := photos + [row];
      r := Ok(row);
    }

    /** `deleteLog`: removes the rows with the id. */
    method DeleteLog(id: string)
      requires Valid()
      modifies this
      ensures Valid()
      ensures logs == Filter(old(logs), (l: RecallLog) => l.id != id)
      ensures cases == old(cases) && photos == old(photos)
    {
      FilterKeepsUnique(logs, (l: RecallLog) => l.id != id, LogId);
      logs := Filter(logs, (l: RecallLog) => l.id != id);
    }

    /** `deletePhoto`: removes the rows with the id. */
    method DeletePhoto(id: string)
      requires Valid()
      modifies this
      ensures Valid()
      ensures photos == Filter(old(photos), (p: RecallPhoto) => p.id != id)
      ensures cases == old(cases) && logs == old(logs)
    {
      FilterKeepsUnique(photos, (p: RecallPhoto) => p.id != id, PhotoId);
      photos := Filter(photos, (p: RecallPhoto) => p.id != id);
    }
  }

  /** Soft delete followed by restore on the database leaves the case table
      as it was. */
  method DeleteRestoreRoundTrip(db: RecallDatabase, id: string, now: Timestamp)
    requires db.Valid()
    requires forall c | c in db.cases && c.id == id :: IsActive(c)
    modifies db
    ensures db.Valid()
    ensures db.cases == old(db.cases)
  {
    db.DeleteCase(id, now);
    db.RestoreCase(id);
    DeleteThenRestore(old(db.cases), id, now);
  }

  /** On a valid database every listed count is the row count. */
  lemma DatabaseCountsAreRowCounts(db: RecallDatabase, c: RecallCase)
    requires db.Valid()
    ensures WithCounts(c, db.logs, db.photos).log_count == |LogsOf(db.logs, c.id)|
    ensures WithCounts(c, db.logs, db.photos).photo_count == Some(|PhotosIn(db.photos, Ids(LogsOf(db.logs, c.id)))|)
  {
    TableCountsAreRowCounts(c, db.logs, db.photos);
  }
}
