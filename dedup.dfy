/** The dedup loop both run functions share (scraper.py and
    music_scraper.py): for each fetched row, skip it when its key is
    already seen; otherwise add the key to seen, append the row to the CSV
    log and count it. */
module Dedup {
  import opened Rows
  import opened Store

  /** The rows of a batch the loop appends, in order, starting from the
      seen set seen. */
  function Accepted(seen: set<string>, rows: seq<Row>): (acc: seq<Row>)
    ensures |acc| <= |rows|
  {
    if rows == [] then []
    else
      var prefix := rows[..|rows| - 1];
      var last := rows[|rows| - 1];
      var acc := Accepted(seen, prefix);
      if Key(last) in seen + Keys(prefix) then acc else acc + [last]
  }

  /** Every accepted row comes from the batch, with a key that was not seen before. */
  lemma {:induction false} AcceptedAreNew(seen: set<string>, rows: seq<Row>)
    ensures forall r :: r in Accepted(seen, rows) ==> r in rows && Key(r) !in seen
  {
    if rows != [] {
      var prefix := rows[..|rows| - 1];
      AcceptedAreNew(seen, prefix);
      assert forall r :: r in prefix ==> r in rows;
    }
  }

  /** No two rows share a key. */
  predicate DistinctKeys(rows: seq<Row>) {
    forall i, j :: 0 <= i < j < |rows| ==> Key(rows[i]) != Key(rows[j])
  }

  /** The accepted rows have pairwise distinct keys: a key fetched twice is appended once. */
  lemma {:induction false} AcceptedDistinct(seen: set<string>, rows: seq<Row>)
    ensures DistinctKeys(Accepted(seen, rows))
  {
    if rows != [] {
      var prefix := rows[..|rows| - 1];
      var last := rows[|rows| - 1];
      AcceptedDistinct(seen, prefix);
      AcceptedAreNew(seen, prefix);
      var acc := Accepted(seen, prefix);
      if Key(last) !in seen + Keys(prefix) {
        forall i | 0 <= i < |acc| ensures Key(acc[i]) != Key(last) {
          assert acc[i] in acc;
          InKeys(prefix, acc[i]);
        }
        var acc' := acc + [last];
        forall i, j | 0 <= i < j < |acc'| ensures Key(acc'[i]) != Key(acc'[j]) {
          assert acc'[i] == acc[i];
          if j < |acc| {
            assert acc'[j] == acc[j];
          } else {
            assert acc'[j] == last;
          }
        }
        assert Accepted(seen, rows) == acc';
      }
    }
  }

  /** The keys of the accepted rows are exactly the batch's keys that were not seen before. */
  lemma {:induction false} AcceptedKeys(seen: set<string>, rows: seq<Row>)
    ensures Keys(Accepted(seen, rows)) == Keys(rows) - seen
  {
    if rows != [] {
      var prefix := rows[..|rows| - 1];
      var last := rows[|rows| - 1];
      AcceptedKeys(seen, prefix);
      var acc := Accepted(seen, prefix);
      if Key(last) !in seen + Keys(prefix) {
        assert (acc + [last])[..|acc|] == acc;
      }
    }
  }

  /** The seen set after the loop: every key of the batch has been added. */
  function SeenAfter(seen: set<string>, rows: seq<Row>): (after: set<string>)
    ensures seen <= after
  {
    seen + Keys(rows)
  }

  /** A row is appended iff its key is new, and afterwards its key is seen. */
  lemma {:induction false} AppendIffNew(seen: set<string>, rows: seq<Row>, r: Row)
    requires r in rows
    ensures Key(r) in SeenAfter(seen, rows)
    ensures Key(r) !in seen ==> exists a :: a in Accepted(seen, rows) && Key(a) == Key(r)
    ensures Key(r) in seen ==> r !in Accepted(seen, rows)
  {
    InKeys(rows, r);
    AcceptedKeys(seen, rows);
    AcceptedAreNew(seen, rows);
    var acc := Accepted(seen, rows);
    if Key(r) !in seen {
      KeysMembership(acc, Key(r));
      var i :| 0 <= i < |acc| && Key(acc[i]) == Key(r);
      assert acc[i] in acc;
    }
  }

  /** One more row: appended iff its key is neither seen nor earlier in the batch. */
  lemma AcceptedSnoc(seen: set<string>, rows: seq<Row>, r: Row)
    ensures Accepted(seen, rows + [r])
         == if Key(r) in seen + Keys(rows) then Accepted(seen, rows) else Accepted(seen, rows) + [r]
  {
    var rr := rows + [r];
    assert rr[..|rr| - 1] == rows;
  }

  /** Processing a second batch continues from where the first left off. */
  lemma {:induction false} AcceptedAppend(seen: set<string>, a: seq<Row>, b: seq<Row>)
    ensures Accepted(seen, a + b) == Accepted(seen, a) + Accepted(SeenAfter(seen, a), b)
    decreases |b|
  {
    if b == [] {
      assert a + b == a;
    } else {
      var bp := b[..|b| - 1];
      var last := b[|b| - 1];
      assert b == bp + [last];
      assert a + b == (a + bp) + [last];
      AcceptedAppend(seen, a, bp);
      KeysOfAppend(a, bp);
      var after := SeenAfter(seen, a);
      AcceptedSnoc(seen, a + bp, last);
      AcceptedSnoc(after, bp, last);
      var x, y := Accepted(seen, a), Accepted(after, bp);
      if Key(last) !in seen + Keys(a + bp) {
        assert x + y + [last] == x + (y + [last]);
      }
    }
  }

  /** Running the same batch again against the seen set it produced appends nothing. */
  lemma {:induction false} RerunAppendsNothing(seen: set<string>, rows: seq<Row>)
    ensures Accepted(SeenAfter(seen, rows), rows) == []
  {
    var acc := Accepted(SeenAfter(seen, rows), rows);
    AcceptedAreNew(SeenAfter(seen, rows), rows);
    if acc != [] {
      assert acc[0] in acc;
      InKeys(rows, acc[0]);
    }
  }

  /** One step of the loop: the row at position i is appended iff its key
      is not yet seen, and its key is seen afterwards. */
  lemma {:induction false} Step(seen: set<string>, jobs: seq<Row>, i: nat)
    requires i < |jobs|
    ensures SeenAfter(seen, jobs[..i + 1]) == SeenAfter(seen, jobs[..i]) + {Key(jobs[i])}
    ensures Accepted(seen, jobs[..i + 1]) ==
      if Key(jobs[i]) in SeenAfter(seen, jobs[..i]) then Accepted(seen, jobs[..i])
      else Accepted(seen, jobs[..i]) + [jobs[i]]
  {
    assert jobs[..i + 1][..i] == jobs[..i];
    assert jobs[..i + 1][i] == jobs[i];
  }

  /** Writing the record of one more accepted row to the CSV log: after
      the header, one record at the end. */
  lemma LogAppend(csv0: seq<seq<string>>, acc: seq<Row>, r: Row)
    ensures Appended(csv0, Records(acc + [r])) ==
      WithHeader(Appended(csv0, Records(acc))) + [Record(AsDict(r))]
  {
    RecordsOfAppend(acc, r);
    AppendedTwice(csv0, Records(acc), [Record(AsDict(r))]);
  }

  /** The body of the loop for one row: a row whose key is new is marked
      seen and appended to the CSV log; any other row changes nothing. */
  method Admit(files: Files, seen: set<string>, j: Row) returns (seen': set<string>, added: bool)
    modifies files
    ensures added <==> Key(j) !in seen
    ensures seen' == seen + {Key(j)}
    ensures files.csv == if added then WithHeader(old(files.csv)) + [Record(AsDict(j))] else old(files.csv)
    ensures files.seenFile == old(files.seenFile)
  {
    var key := Key(j);
    seen' := seen;
    added := false;
    if key !in seen {
      seen' := seen + {key};
      files.AppendCsv(AsDict(j));
      added := true;
    }
  }

  /** Where the loop stands after the first i rows of jobs: seenNow holds
      the keys seen so far, acc the rows appended so far, and csv is csv0
      with their records appended. */
  predicate Ingested(seen: set<string>, jobs: seq<Row>, i: nat, seenNow: set<string>,
                     acc: seq<Row>, csv0: seq<seq<string>>, csv: seq<seq<string>>) {
    && i <= |jobs|
    && seenNow == SeenAfter(seen, jobs[..i])
    && acc == Accepted(seen, jobs[..i])
    && csv == Appended(csv0, Records(acc))
  }

  /** One pass of the loop body keeps Ingested. */
  lemma IngestAdvance(seen: set<string>, jobs: seq<Row>, i: nat, seenNow: set<string>,
                      acc: seq<Row>, csv0: seq<seq<string>>, csv: seq<seq<string>>,
                      seenNext: set<string>, added: bool, csvNext: seq<seq<string>>)
    requires i < |jobs| && Ingested(seen, jobs, i, seenNow, acc, csv0, csv)
    requires added <==> Key(jobs[i]) !in seenNow
    requires seenNext == seenNow + {Key(jobs[i])}
    requires csvNext == if added then WithHeader(csv) + [Record(AsDict(jobs[i]))] else csv
    ensures Ingested(seen, jobs, i + 1, seenNext, if added then acc + [jobs[i]] else acc, csv0, csvNext)
  {
    Step(seen, jobs, i);
    if added {
      LogAppend(csv0, acc, jobs[i]);
    }
  }

  /** Before the first row nothing is seen or appended yet; after the last
      the loop has done what the whole batch calls for. */
  lemma IngestEnds(seen: set<string>, jobs: seq<Row>, seenNow: set<string>,
                   acc: seq<Row>, csv0: seq<seq<string>>, csv: seq<seq<string>>)
    ensures Ingested(seen, jobs, 0, seen, [], csv0, csv0)
    ensures Ingested(seen, jobs, |jobs|, seenNow, acc, csv0, csv) ==>
      seenNow == SeenAfter(seen, jobs) && acc == Accepted(seen, jobs) && csv == Appended(csv0, Records(acc))
  {
    assert jobs[..0] == [];
    assert jobs[..|jobs|] == jobs;
  }

  /** The loop over one fetched batch. It returns the new seen set and the
      number of rows appended. */
  method Ingest(files: Files, seen: set<string>, jobs: seq<Row>) returns (seen': set<string>, newCount: nat)
    modifies files
    ensures seen' == SeenAfter(seen, jobs)
    ensures newCount == |Accepted(seen, jobs)|
    ensures files.csv == Appended(old(files.csv), Records(Accepted(seen, jobs)))
    ensures files.seenFile == old(files.seenFile)
  {
    ghost var csv0 := files.csv;
    ghost var acc: seq<Row> := [];
    seen' := seen;
    newCount := 0;
    var i := 0;
    IngestEnds(seen, jobs, seen', acc, csv0, csv0);
    while i < |jobs|
      invariant Ingested(seen, jobs, i, seen', acc, csv0, files.csv)
      invariant newCount == |acc|
      invariant files.seenFile == old(files.seenFile)
    {
      ghost var seenNow, csvNow := seen', files.csv;
      var added;
      seen', added := Admit(files, seen', jobs[i]);
      IngestAdvance(seen, jobs, i, seenNow, acc, csv0, csvNow, seen', added, files.csv);
      if added {
        newCount := newCount + 1;
        acc := acc + [jobs[i]];
      }
      i := i + 1;
    }
    IngestEnds(seen, jobs, seen', acc, csv0, files.csv);
  }
}
