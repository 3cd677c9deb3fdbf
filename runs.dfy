/** What the two run functions (scraper.py and music_scraper.py) share:
    the shapes of companies.yaml they read, the outcome of one fetch, and
    the bookkeeping of a run over a sequence of fetch outcomes. */
module Runs {
  import opened Wrappers
  import opened Rows
  import opened Store
  import opened Dedup

  /** An element of a platform's list in companies.yaml: null, a string, a
      mapping (its string-valued fields, and its str() text), or anything
      else (shown is its str() text). */
  datatype Item = Null | Str(s: string) | Dict(fields: map<string, string>, shown: string) | Other(shown: string)

  /** A platform's value in companies.yaml: a list, or anything that is not one. */
  datatype Value = List(items: seq<Item>) | NotList

  /** A command-line filter is in force when it is given and not empty. */
  predicate Active(filter: Option<string>) { filter.Some? && filter.value != "" }

  /** What a run hands to a fetcher: a slug of a list-shaped platform, or
      an entry of a mapping-shaped one together with the company name the
      run shows for it. */
  datatype Target = Slug(platform: string, slug: string)
                  | Entry(platform: string, name: string, entry: map<string, string>)

  /** The targets of a list of configuration elements, in order: the target
      of each element that is taken. */
  function Pick<T>(items: seq<T>, taken: T -> bool, target: T -> Target): (ts: seq<Target>)
    ensures |ts| <= |items|
  {
    if items == [] then []
    else
      var last := items[|items| - 1];
      Pick(items[..|items| - 1], taken, target) + (if taken(last) then [target(last)] else [])
  }

  /** A target is picked exactly when some element is taken and stands for it. */
  lemma {:induction false} PickMembership<T>(items: seq<T>, taken: T -> bool, target: T -> Target, t: Target)
    ensures t in Pick(items, taken, target) <==> exists i :: 0 <= i < |items| && taken(items[i]) && t == target(items[i])
  {
    if items != [] {
      var prefix := items[..|items| - 1];
      PickMembership(prefix, taken, target, t);
      if exists i :: 0 <= i < |prefix| && taken(prefix[i]) && t == target(prefix[i]) {
        var i :| 0 <= i < |prefix| && taken(prefix[i]) && t == target(prefix[i]);
        assert items[i] == prefix[i];
      }
      if exists i :: 0 <= i < |items| && taken(items[i]) && t == target(items[i]) {
        var i :| 0 <= i < |items| && taken(items[i]) && t == target(items[i]);
        if i < |prefix| {
          assert prefix[i] == items[i];
        }
      }
    }
  }

  lemma PickStep<T>(items: seq<T>, taken: T -> bool, target: T -> Target, k: nat)
    requires k < |items|
    ensures Pick(items[..k + 1], taken, target) ==
      Pick(items[..k], taken, target) + (if taken(items[k]) then [target(items[k])] else [])
  {
    assert items[..k + 1][..k] == items[..k];
  }

  /** What calling a fetcher gives: it raised, or it returned rows. */
  datatype Fetched = Raised | Rows(rows: seq<Row>)

  /** The rows of all fetches that did not raise, in order. */
  function AllRows(outs: seq<Fetched>): seq<Row> {
    if outs == [] then []
    else
      var last := outs[|outs| - 1];
      AllRows(outs[..|outs| - 1]) + (if last.Rows? then last.rows else [])
  }

  lemma {:induction false} AllRowsOfAppend(a: seq<Fetched>, b: seq<Fetched>)
    ensures AllRows(a + b) == AllRows(a) + AllRows(b)
    decreases |b|
  {
    if b == [] {
      assert a + b == a;
    } else {
      var bp := b[..|b| - 1];
      var ab := a + b;
      assert ab[..|ab| - 1] == a + bp;
      AllRowsOfAppend(a, bp);
    }
  }

  /** A fetcher that raises contributes no rows: the run is the same as if
      that target had not been there. */
  lemma {:induction false} RaisedContributesNothing(a: seq<Fetched>, b: seq<Fetched>)
    ensures AllRows(a + [Raised] + b) == AllRows(a + b)
  {
    AllRowsOfAppend(a + [Raised], b);
    AllRowsOfAppend(a, [Raised]);
    AllRowsOfAppend(a, b);
    assert AllRows([Raised]) == [];
  }

  /** The per-target new counts a run reports: one for each fetch that did
      not raise, counting the rows appended for that target. */
  function Counts(seen0: set<string>, outs: seq<Fetched>): seq<nat> {
    if outs == [] then []
    else
      var prefix := outs[..|outs| - 1];
      var last := outs[|outs| - 1];
      Counts(seen0, prefix)
        + (if last.Rows? then [|Accepted(SeenAfter(seen0, AllRows(prefix)), last.rows)|] else [])
  }

  function Sum(ns: seq<nat>): nat {
    if ns == [] then 0 else Sum(ns[..|ns| - 1]) + ns[|ns| - 1]
  }

  lemma {:induction false} SumOfAppend(a: seq<nat>, b: seq<nat>)
    ensures Sum(a + b) == Sum(a) + Sum(b)
    decreases |b|
  {
    if b == [] {
      assert a + b == a;
    } else {
      var bp := b[..|b| - 1];
      var ab := a + b;
      assert ab[..|ab| - 1] == a + bp;
      SumOfAppend(a, bp);
    }
  }

  /** The per-target counts add up to the run's total of new rows. */
  lemma {:induction false} CountsAddUp(seen0: set<string>, outs: seq<Fetched>)
    ensures Sum(Counts(seen0, outs)) == |Accepted(seen0, AllRows(outs))|
  {
    if outs != [] {
      var prefix := outs[..|outs| - 1];
      var last := outs[|outs| - 1];
      CountsAddUp(seen0, prefix);
      var c := Counts(seen0, prefix);
      if last.Rows? {
        assert AllRows(outs) == AllRows(prefix) + last.rows;
        AcceptedAppend(seen0, AllRows(prefix), last.rows);
        var n := |Accepted(SeenAfter(seen0, AllRows(prefix)), last.rows)|;
        assert (c + [n])[..|c|] == c;
      } else {
        assert AllRows(outs) == AllRows(prefix);
        assert Counts(seen0, outs) == c;
      }
    }
  }

  /** The state of a run after the fetch outcomes outs, started from the seen
      set seen0 and the CSV log csv0: seen holds every key fetched, the log
      holds the accepted rows, total and counts count them. */
  predicate Progress(csv: seq<seq<string>>, seen: set<string>, total: nat, counts: seq<nat>,
                     seen0: set<string>, csv0: seq<seq<string>>, outs: seq<Fetched>) {
    var rows := AllRows(outs);
    && seen == SeenAfter(seen0, rows)
    && csv == Appended(csv0, Records(Accepted(seen0, rows)))
    && total == |Accepted(seen0, rows)|
    && counts == Counts(seen0, outs)
  }

  /** The outcomes of fetching more targets extend the outcomes so far. */
  lemma {:induction false} OutsAppend(outs: seq<Fetched>, fetch: Target -> Fetched, ts: seq<Target>, more: seq<Target>)
    ensures outs + MapSeq(fetch, ts + more) == outs + MapSeq(fetch, ts) + MapSeq(fetch, more)
  {
    MapSeqConcat(fetch, ts, more);
  }

  /** The state of a run that has finished and saved its seen set: the log
      holds the accepted rows, the seen file the sorted keys. */
  predicate Finished(csv: seq<seq<string>>, seenFile: SeenFile, total: nat, counts: seq<nat>,
                     seen0: set<string>, csv0: seq<seq<string>>, outs: seq<Fetched>) {
    var rows := AllRows(outs);
    && csv == Appended(csv0, Records(Accepted(seen0, rows)))
    && seenFile == SeenContent(SeenAfter(seen0, rows))
    && total == |Accepted(seen0, rows)|
    && counts == Counts(seen0, outs)
  }

  /** Saving the seen set at the end of a run finishes it. */
  lemma FinishedBySave(csv: seq<seq<string>>, seen: set<string>, total: nat, counts: seq<nat>,
                       seen0: set<string>, csv0: seq<seq<string>>, outs: seq<Fetched>)
    requires Progress(csv, seen, total, counts, seen0, csv0, outs)
    ensures Finished(csv, SeenContent(seen), total, counts, seen0, csv0, outs)
  {
  }

  /** A run starts with nothing fetched. */
  lemma ProgressStart(csv0: seq<seq<string>>, seen0: set<string>)
    ensures Progress(csv0, seen0, 0, [], seen0, csv0, [])
  {
    assert Keys([]) == {};
  }

  /** A target whose fetcher raised leaves the run's state as it was. */
  lemma {:induction false} ProgressRaised(csv: seq<seq<string>>, seen: set<string>, total: nat, counts: seq<nat>,
                                          seen0: set<string>, csv0: seq<seq<string>>, outs: seq<Fetched>)
    requires Progress(csv, seen, total, counts, seen0, csv0, outs)
    ensures Progress(csv, seen, total, counts, seen0, csv0, outs + [Raised])
  {
    var outs' := outs + [Raised];
    assert outs'[..|outs'| - 1] == outs;
    assert outs'[|outs'| - 1] == Raised;
    assert AllRows(outs') == AllRows(outs);
    assert Counts(seen0, outs') == Counts(seen0, outs);
  }

  /** A target whose fetcher returned rows: the dedup loop over them moves
      the run's state forward by that outcome. */
  lemma {:induction false} ProgressRows(csv: seq<seq<string>>, seen: set<string>, total: nat, counts: seq<nat>,
                                        seen0: set<string>, csv0: seq<seq<string>>, outs: seq<Fetched>, rows: seq<Row>)
    requires Progress(csv, seen, total, counts, seen0, csv0, outs)
    ensures var n := |Accepted(seen, rows)|;
      Progress(Appended(csv, Records(Accepted(seen, rows))), SeenAfter(seen, rows), total + n, counts + [n],
               seen0, csv0, outs + [Rows(rows)])
  {
    var outs' := outs + [Rows(rows)];
    var before := AllRows(outs);
    assert outs'[..|outs'| - 1] == outs;
    assert AllRows(outs') == before + rows;
    AcceptedAppend(seen0, before, rows);
    KeysOfAppend(before, rows);
    var a, b := Accepted(seen0, before), Accepted(seen, rows);
    RecordsOfConcat(a, b);
    AppendedTwice(csv0, Records(a), Records(b));
  }

  /** Loading the seen file a run saved and running on the same fetch
      outcomes again appends nothing and saves the same keys. */
  lemma {:induction false} RunAgainAppendsNothing(f: SeenFile, outs: seq<Fetched>)
    ensures var seen1 := SeenAfter(LoadSeen(f), AllRows(outs));
      && LoadSeen(SeenContent(seen1)) == seen1
      && Accepted(LoadSeen(SeenContent(seen1)), AllRows(outs)) == []
      && SeenAfter(LoadSeen(SeenContent(seen1)), AllRows(outs)) == seen1
  {
    var rows := AllRows(outs);
    var seen1 := SeenAfter(LoadSeen(f), rows);
    LoadAfterSave(seen1);
    RerunAppendsNothing(LoadSeen(f), rows);
  }

  /** One target of a run: the try/except around the fetcher call and the
      dedup loop over what it returned. out is what calling the fetcher gave. */
  method Visit(files: Files, out: Fetched, seen: set<string>, total: nat, counts: seq<nat>,
               ghost seen0: set<string>, ghost csv0: seq<seq<string>>, ghost outs: seq<Fetched>)
    returns (seen': set<string>, total': nat, counts': seq<nat>)
    modifies files
    requires Progress(files.csv, seen, total, counts, seen0, csv0, outs)
    ensures Progress(files.csv, seen', total', counts', seen0, csv0, outs + [out])
    ensures out.Raised? ==> seen' == seen && total' == total && counts' == counts
    ensures out.Rows? ==> var n := |Accepted(seen, out.rows)|; total' == total + n && counts' == counts + [n]
    ensures files.seenFile == old(files.seenFile)
  {
    match out
    case Raised =>
      ProgressRaised(files.csv, seen, total, counts, seen0, csv0, outs);
      seen', total', counts' := seen, total, counts;
    case Rows(rows) =>
      ghost var csv := files.csv;
      var n;
      seen', n := Ingest(files, seen, rows);
      ProgressRows(csv, seen, total, counts, seen0, csv0, outs, rows);
      total', counts' := total + n, counts + [n];
  }
}
