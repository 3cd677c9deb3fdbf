/** The two files the watcher keeps (utils.py): the CSV log of matches and
    the JSON list of seen keys. Both are modelled in memory: the CSV file as
    its sequence of records, the JSON file as what json.load finds in it. */
module Store {
  import opened Rows

  // ---------------------------------------------------------------------
  // Python's ordering of str values: code point by code point, a proper
  // prefix first.

  predicate Less(a: string, b: string) {
    if a == [] then b != []
    else if b == [] then false
    else if a[0] != b[0] then a[0] < b[0]
    else Less(a[1..], b[1..])
  }

  lemma {:induction false} LessIrreflexive(a: string)
    ensures !Less(a, a)
  {
    if a != [] {
      LessIrreflexive(a[1..]);
    }
  }

  lemma {:induction false} LessTransitive(a: string, b: string, c: string)
    requires Less(a, b) && Less(b, c)
    ensures Less(a, c)
  {
    if a != [] && b != [] && c != [] && a[0] == b[0] && b[0] == c[0] {
      LessTransitive(a[1..], b[1..], c[1..]);
    }
  }

  lemma {:induction false} LessTotal(a: string, b: string)
    requires a != b
    ensures Less(a, b) || Less(b, a)
  {
    if a != [] && b != [] && a[0] == b[0] {
      assert a == [a[0]] + a[1..] && b == [b[0]] + b[1..];
      LessTotal(a[1..], b[1..]);
    }
  }

  lemma {:induction false} LessAsymmetric(a: string, b: string)
    requires Less(a, b)
    ensures !Less(b, a)
  {
    if Less(b, a) {
      LessTransitive(a, b, a);
      LessIrreflexive(a);
    }
  }

  /** Strictly increasing: sorted and free of duplicates. */
  predicate StrictlySorted(s: seq<string>) {
    forall i, j :: 0 <= i < j < |s| ==> Less(s[i], s[j])
  }

  /** m is the least element of s. */
  predicate IsLeast(m: string, s: set<string>) {
    m in s && forall x :: x in s && x != m ==> Less(m, x)
  }

  lemma {:induction false} LeastExists(s: set<string>)
    requires s != {}
    ensures exists m :: IsLeast(m, s)
    decreases |s|
  {
    var x :| x in s;
    if s != {x} {
      LeastExists(s - {x});
      var m :| IsLeast(m, s - {x});
      LessTotal(x, m);
      if Less(x, m) {
        forall y | y in s && y != x ensures Less(x, y) {
          if y != m {
            LessTransitive(x, m, y);
          }
        }
        assert IsLeast(x, s);
      } else {
        assert IsLeast(m, s);
      }
    } else {
      assert IsLeast(x, s);
    }
  }

  lemma LeastUnique(s: set<string>)
    ensures forall a, b :: IsLeast(a, s) && IsLeast(b, s) ==> a == b
  {
    forall a, b | IsLeast(a, s) && IsLeast(b, s) ensures a == b {
      if a != b {
        LessAsymmetric(a, b);
      }
    }
  }

  /** The least element of a non-empty set. */
  function Least(s: set<string>): (m: string)
    requires s != {}
    ensures IsLeast(m, s)
  {
    LeastExists(s);
    LeastUnique(s);
    var m :| IsLeast(m, s);
    m
  }

  /** sorted(list(seen)). */
  function SortedList(s: set<string>): (list: seq<string>)
    ensures StrictlySorted(list)
    ensures forall x :: x in list <==> x in s
    ensures |list| == |s|
    decreases |s|
  {
    if s == {} then []
    else
      var m := Least(s);
      var rest := SortedList(s - {m});
      assert forall j :: 0 <= j < |rest| ==> rest[j] in s - {m} && Less(m, rest[j]);
      [m] + rest
  }

  /** The set of the elements of a sequence. */
  function Elements(list: seq<string>): (s: set<string>)
    ensures forall x :: x in s <==> x in list
  {
    set x | x in list
  }

  /** A strictly sorted list is determined by its elements. */
  lemma {:induction false} SortedUnique(a: seq<string>, b: seq<string>)
    requires StrictlySorted(a) && StrictlySorted(b)
    requires forall x :: x in a <==> x in b
    ensures a == b
    decreases |a|
  {
    SameEmptiness(a, b);
    if a != [] {
      HeadNotLess(a, b);
      HeadNotLess(b, a);
      if a[0] != b[0] {
        LessTotal(a[0], b[0]);
      }
      forall x ensures x in a[1..] <==> x in b[1..] {
        if x in a[1..] {
          InTail(a, b, x);
        }
        if x in b[1..] {
          InTail(b, a, x);
        }
      }
      SortedUnique(a[1..], b[1..]);
    }
  }

  lemma SameEmptiness(a: seq<string>, b: seq<string>)
    requires forall y :: y in a <==> y in b
    ensures a == [] <==> b == []
  {
    if a != [] {
      assert a[0] in b;
    }
    if b != [] {
      assert b[0] in a;
    }
  }

  lemma {:induction false} HeadNotLess(a: seq<string>, b: seq<string>)
    requires StrictlySorted(a) && StrictlySorted(b) && a != [] && b != []
    requires forall y :: y in a <==> y in b
    ensures !Less(a[0], b[0])
  {
    if Less(a[0], b[0]) {
      assert a[0] in b;
      var j :| 0 <= j < |b| && b[j] == a[0];
      if j == 0 {
        LessIrreflexive(a[0]);
      } else {
        LessAsymmetric(b[0], b[j]);
      }
    }
  }

  lemma {:induction false} InTail(a: seq<string>, b: seq<string>, x: string)
    requires StrictlySorted(a) && StrictlySorted(b) && a != [] && b != [] && a[0] == b[0]
    requires forall y :: y in a <==> y in b
    requires x in a[1..]
    ensures x in b[1..]
  {
    var i :| 1 <= i < |a| && a[i] == x;
    LessIrreflexive(x);
    assert Less(a[0], a[i]);
    assert x in a;
    var j :| 0 <= j < |b| && b[j] == x;
    assert j != 0;
    assert b[1..][j - 1] == x;
  }

  /** What json.load finds in the seen file. */
  datatype SeenFile = Missing | NotJson | NotAList | KeyList(keys: seq<string>)

  /** load_seen: the keys of the list, and the empty set when the file is
      missing, is not JSON or does not hold a list. */
  function LoadSeen(f: SeenFile): (seen: set<string>)
    ensures f.KeyList? ==> forall k :: k in seen <==> k in f.keys
    ensures !f.KeyList? ==> seen == {}
  {
    if f.KeyList? then Elements(f.keys) else {}
  }

  /** What save_seen writes: the keys as a sorted list. */
  function SeenContent(seen: set<string>): (f: SeenFile)
    ensures f.KeyList? && StrictlySorted(f.keys)
  {
    KeyList(SortedList(seen))
  }

  /** Loading what was saved gives back the set. */
  lemma {:induction false} LoadAfterSave(seen: set<string>)
    ensures LoadSeen(SeenContent(seen)) == seen
  {
  }

  /** Saving what was loaded from a saved file writes the same file again. */
  lemma {:induction false} SaveAfterLoad(f: SeenFile)
    requires f.KeyList? && StrictlySorted(f.keys)
    ensures SeenContent(LoadSeen(f)) == f
  {
    SortedUnique(SortedList(LoadSeen(f)), f.keys);
  }

  // ---------------------------------------------------------------------
  // The CSV log.

  /** ensure_csv on a log: the header is written when the file is empty. */
  function WithHeader(csv: seq<seq<string>>): (r: seq<seq<string>>)
    ensures r != [] && (csv == [] ==> r == [CsvHeaders()]) && (csv != [] ==> r == csv)
  {
    if csv == [] then [CsvHeaders()] else csv
  }

  /** The log after append_csv has written the records recs, one by one. */
  function Appended(csv: seq<seq<string>>, recs: seq<seq<string>>): seq<seq<string>> {
    if recs == [] then csv else WithHeader(csv) + recs
  }

  /** Appending in two batches is appending once. */
  lemma AppendedTwice(csv: seq<seq<string>>, a: seq<seq<string>>, b: seq<seq<string>>)
    ensures Appended(Appended(csv, a), b) == Appended(csv, a + b)
  {
    if a != [] && b != [] {
      assert WithHeader(csv) + a + b == WithHeader(csv) + (a + b);
    }
  }

  /** A log that starts with the header and then holds the records recs. */
  lemma AppendedToEmpty(recs: seq<seq<string>>)
    requires recs != []
    ensures Appended([], recs) == [CsvHeaders()] + recs
    ensures Appended([], recs)[0] == CsvHeaders()
  {
  }

  /** The files on disk. */
  class Files {
    /** The records of music_jobs.csv, header included; [] when missing or empty. */
    var csv: seq<seq<string>>
    /** The state of seen_music.json. */
    var seenFile: SeenFile

    constructor (csv: seq<seq<string>>, seenFile: SeenFile)
      ensures this.csv == csv && this.seenFile == seenFile
    {
      this.csv := csv;
      this.seenFile := seenFile;
    }

    /** load_seen. */
    method LoadSeenSet() returns (seen: set<string>)
      ensures seen == LoadSeen(seenFile)
    {
      seen := LoadSeen(seenFile);
    }

    /** save_seen: the file is overwritten with the sorted list of keys. */
    method SaveSeen(seen: set<string>)
      modifies this
      ensures seenFile == SeenContent(seen) && csv == old(csv)
    {
      seenFile := SeenContent(seen);
    }

    /** ensure_csv: write the header when the file is missing or empty. */
    method EnsureCsv()
      modifies this
      ensures csv == WithHeader(old(csv)) && seenFile == old(seenFile)
    {
      if csv == [] {
        csv := [CsvHeaders()];
      }
    }

    /** append_csv: ensure the header, then write one record: the columns
        of the row in header order, "" for absent ones, the url normalised.
        The caller's dict is a value here and cannot be altered. */
    method AppendCsv(row: map<Column, string>)
      modifies this
      ensures csv == WithHeader(old(csv)) + [Record(row)] && seenFile == old(seenFile)
      ensures csv == Appended(old(csv), [Record(row)])
    {
      EnsureCsv();
      csv := csv + [Record(row)];
    }
  }
}
