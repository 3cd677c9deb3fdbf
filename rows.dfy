/** Job rows (utils.py): mk_row, the identity key the run loops build, and
    the projection of a row onto the nine CSV columns. */
module Rows {
  import opened Wrappers
  import opened Urls

  /** A row as mk_row builds it: the nine CSV columns. */
  datatype Row = Row(company: string, platform: string, title: string, location: string,
                     jobId: string, url: string, postedAtIso: string, detectedOnIso: string,
                     matchedOn: string)

  /** The nine columns of the CSV file. */
  datatype Column = Company | Platform | Title | Location | JobId | Url | PostedAtIso
                  | DetectedOnIso | MatchedOn

  /** The columns in CSV_HEADERS order. */
  const Columns: seq<Column> := [Company, Platform, Title, Location, JobId, Url, PostedAtIso,
    DetectedOnIso, MatchedOn]

  /** The header name of a column. */
  function HeaderName(c: Column): string {
    match c
    case Company => "company"
    case Platform => "platform"
    case Title => "title"
    case Location => "location"
    case JobId => "job_id"
    case Url => "url"
    case PostedAtIso => "posted_at_iso"
    case DetectedOnIso => "detected_on_iso"
    case MatchedOn => "matched_on"
  }

  /** CSV_HEADERS: the header record. */
  function CsvHeaders(): (hs: seq<string>)
    ensures |hs| == |Columns| && forall i :: 0 <= i < |Columns| ==> hs[i] == HeaderName(Columns[i])
  {
    seq(|Columns|, i requires 0 <= i < |Columns| => HeaderName(Columns[i]))
  }

  const DefaultMatchedOn: string := "title_or_description"

  /** Python truthiness of an optional string: None and "" are falsy. */
  predicate Truthy(v: Option<string>) { v.Some? && v.value != "" }

  /** `v or default` for an optional string. */
  function OrElse(v: Option<string>, default: string): (r: string)
    ensures Truthy(v) ==> r == v.value
    ensures !Truthy(v) ==> r == default
  {
    if Truthy(v) then v.value else default
  }

  /** mk_row. The clock reading normalized_now() is the parameter now. */
  function MkRow(company: string, platform: string, title: Option<string>, location: Option<string>,
                 jobId: Option<string>, url: Option<string>, postedAt: Option<string>,
                 matchedOn: Option<string>, now: string): (r: Row)
    ensures r.company == company && r.platform == platform && r.detectedOnIso == now
    ensures Truthy(title) ==> r.title == title.value
    ensures Truthy(location) ==> r.location == location.value
    ensures Truthy(jobId) ==> r.jobId == jobId.value
    ensures Truthy(postedAt) ==> r.postedAtIso == postedAt.value
    ensures !Truthy(title) ==> r.title == ""
    ensures !Truthy(location) ==> r.location == ""
    ensures !Truthy(jobId) ==> r.jobId == ""
    ensures !Truthy(postedAt) ==> r.postedAtIso == ""
    ensures r.matchedOn == (if Truthy(matchedOn) then matchedOn.value else DefaultMatchedOn)
    ensures r.matchedOn != ""
    ensures r.url == NormalizeUrl(OrElse(url, ""))
    ensures NormalizeUrl(r.url) == r.url
  {
    NormalizeIdempotent(OrElse(url, ""));
    Row(company, platform, OrElse(title, ""), OrElse(location, ""), OrElse(jobId, ""),
        NormalizeUrl(OrElse(url, "")), OrElse(postedAt, ""), now, OrElse(matchedOn, DefaultMatchedOn))
  }

  /** The identity key platform::company::job_id::url. */
  function Key(r: Row): string {
    Join([r.platform, r.company, r.jobId, r.url])
  }

  /** "::".join(parts). */
  function Join(parts: seq<string>): string {
    if parts == [] then "" else if |parts| == 1 then parts[0] else parts[0] + "::" + Join(parts[1..])
  }

  /** The set of keys of a sequence of rows. */
  function Keys(rows: seq<Row>): set<string> {
    if rows == [] then {} else Keys(rows[..|rows| - 1]) + {Key(rows[|rows| - 1])}
  }

  /** A key is in Keys(rows) exactly when some row of rows has it. */
  lemma {:induction false} KeysMembership(rows: seq<Row>, k: string)
    ensures k in Keys(rows) <==> exists i :: 0 <= i < |rows| && Key(rows[i]) == k
  {
    if rows != [] {
      var prefix := rows[..|rows| - 1];
      KeysMembership(prefix, k);
      if exists i :: 0 <= i < |prefix| && Key(prefix[i]) == k {
        var i :| 0 <= i < |prefix| && Key(prefix[i]) == k;
        assert rows[i] == prefix[i];
      }
      if exists i :: 0 <= i < |rows| && Key(rows[i]) == k {
        var i :| 0 <= i < |rows| && Key(rows[i]) == k;
        if i < |prefix| {
          assert prefix[i] == rows[i];
        }
      }
    }
  }

  lemma InKeys(rows: seq<Row>, r: Row)
    requires r in rows
    ensures Key(r) in Keys(rows)
  {
    var i :| 0 <= i < |rows| && rows[i] == r;
    KeysMembership(rows, Key(r));
  }

  lemma {:induction false} KeysOfAppend(a: seq<Row>, b: seq<Row>)
    ensures Keys(a + b) == Keys(a) + Keys(b)
    decreases |b|
  {
    if b == [] {
      assert a + b == a;
    } else {
      var bp := b[..|b| - 1];
      assert (a + b)[..|a + b| - 1] == a + bp;
      KeysOfAppend(a, bp);
    }
  }

  /** The value a row holds in a column. */
  function ColumnValue(r: Row, c: Column): string {
    match c
    case Company => r.company
    case Platform => r.platform
    case Title => r.title
    case Location => r.location
    case JobId => r.jobId
    case Url => r.url
    case PostedAtIso => r.postedAtIso
    case DetectedOnIso => r.detectedOnIso
    case MatchedOn => r.matchedOn
  }

  /** The row as the dict mk_row returns, keyed by column: every column is
      present and holds the row's value. */
  function AsDict(r: Row): (d: map<Column, string>)
    ensures forall c :: c in d && d[c] == ColumnValue(r, c)
  {
    ColumnsComplete();
    map c | c in Columns :: ColumnValue(r, c)
  }

  /** Columns lists every column. */
  lemma ColumnsComplete()
    ensures forall c: Column :: c in Columns
  {
    forall c: Column ensures c in Columns {
      var i := match c
        case Company => 0 case Platform => 1 case Title => 2 case Location => 3 case JobId => 4
        case Url => 5 case PostedAtIso => 6 case DetectedOnIso => 7 case MatchedOn => 8;
      assert Columns[i] == c;
    }
  }

  /** `d.get(column, "")`. */
  function Get(d: map<Column, string>, c: Column): string {
    if c in d then d[c] else ""
  }

  /** The field append_csv writes in a column: d.get(column, ""), with the
      url normalised. */
  function Field(d: map<Column, string>, c: Column): string {
    if c == Url then NormalizeUrl(Get(d, Url)) else Get(d, c)
  }

  /** The record append_csv writes for a dict: one field per column, in
      header order. */
  function Record(d: map<Column, string>): (rec: seq<string>)
    ensures |rec| == |Columns|
    ensures forall i :: 0 <= i < |Columns| ==> rec[i] == Field(d, Columns[i])
  {
    [Get(d, Company), Get(d, Platform), Get(d, Title), Get(d, Location), Get(d, JobId),
     NormalizeUrl(Get(d, Url)), Get(d, PostedAtIso), Get(d, DetectedOnIso), Get(d, MatchedOn)]
  }

  /** The record of a row built by mk_row holds its fields in column order;
      normalising its url again changes nothing. */
  lemma {:induction false} RecordOfRow(r: Row)
    requires NormalizeUrl(r.url) == r.url
    ensures Record(AsDict(r)) == [r.company, r.platform, r.title, r.location, r.jobId,
                                  r.url, r.postedAtIso, r.detectedOnIso, r.matchedOn]
  {
    RecordOfDict(r);
  }

  lemma {:induction false} RecordOfDict(r: Row)
    ensures Record(AsDict(r)) == [r.company, r.platform, r.title, r.location, r.jobId,
                                  NormalizeUrl(r.url), r.postedAtIso, r.detectedOnIso, r.matchedOn]
  {
    var d := AsDict(r);
    assert Get(d, Company) == r.company && Get(d, Platform) == r.platform;
    assert Get(d, Title) == r.title && Get(d, Location) == r.location;
    assert Get(d, JobId) == r.jobId && Get(d, Url) == r.url;
    assert Get(d, PostedAtIso) == r.postedAtIso && Get(d, DetectedOnIso) == r.detectedOnIso;
    assert Get(d, MatchedOn) == r.matchedOn;
  }

  /** The record of one row. */
  function RowRecord(r: Row): seq<string> {
    Record(AsDict(r))
  }

  /** f applied to each element of s, in order. */
  function MapSeq<T, U>(f: T -> U, s: seq<T>): (m: seq<U>)
    ensures |m| == |s|
  {
    if s == [] then [] else MapSeq(f, s[..|s| - 1]) + [f(s[|s| - 1])]
  }

  lemma {:induction false} MapSeqConcat<T, U>(f: T -> U, a: seq<T>, b: seq<T>)
    ensures MapSeq(f, a + b) == MapSeq(f, a) + MapSeq(f, b)
    decreases |b|
  {
    if b == [] {
      assert a + b == a;
    } else {
      var bp := b[..|b| - 1];
      var ab := a + b;
      assert ab[..|ab| - 1] == a + bp;
      MapSeqConcat(f, a, bp);
    }
  }

  lemma MapSeqOne<T, U>(f: T -> U, x: T)
    ensures MapSeq(f, [x]) == [f(x)]
  {
    assert [x][..0] == [];
  }

  /** The records of a sequence of rows, in order. */
  function Records(rows: seq<Row>): (recs: seq<seq<string>>)
    ensures |recs| == |rows|
  {
    MapSeq(RowRecord, rows)
  }

  lemma RecordsOfConcat(a: seq<Row>, b: seq<Row>)
    ensures Records(a + b) == Records(a) + Records(b)
  {
    MapSeqConcat(RowRecord, a, b);
  }

  lemma RecordsOfAppend(rows: seq<Row>, r: Row)
    ensures Records(rows + [r]) == Records(rows) + [Record(AsDict(r))]
  {
    var s := rows + [r];
    assert s[..|s| - 1] == rows;
    assert MapSeq(RowRecord, s) == MapSeq(RowRecord, rows) + [RowRecord(r)];
  }
}
