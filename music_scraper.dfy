/** run() of music_scraper.py: the music-only watcher for the two
    list-shaped platforms. It walks the top-level mapping of
    companies.yaml in order, slugifies every list element, fetches each
    slug that passes the filters, feeds the rows to the dedup loop and
    reports a per-platform summary of new rows. */
module MusicScraper {
  import opened Wrappers
  import opened Text
  import opened Rows
  import opened Store
  import opened Dedup
  import opened Runs

  /** The keys of FETCHERS. */
  const MusicPlatforms: seq<string> := ["greenhouse", "lever"]

  /** What yaml.safe_load gave when companies.yaml exists: a mapping (its
      items, in order) or something else. */
  datatype Config = NotAMapping | Mapping(pairs: seq<(string, Value)>)

  /** The items the run walks: none unless the configuration is a mapping. */
  function PairsOf(cfg: Config): seq<(string, Value)> {
    if cfg.Mapping? then cfg.pairs else []
  }

  /** str(v) of a list element that is not null. */
  function Shown(item: Item): string
    requires !item.Null?
  {
    if item.Str? then item.s else item.shown
  }

  /** _slugify: null gives nothing; otherwise the stripped text, unless it
      is empty or a comment starting with '#'. */
  function Slugify(item: Item): (slug: Option<string>)
    ensures item.Null? ==> slug.None?
    ensures slug.Some? ==> slug.value != "" && slug.value[0] != '#'
  {
    if item.Null? then None
    else
      var s := Strip(Shown(item));
      if s == "" || s[0] == '#' then None else Some(s)
  }

  /** A slug is neither blank nor padded nor a comment, and slugifying it again gives it back. */
  lemma SlugifyIsCanonical(item: Item)
    requires Slugify(item).Some?
    ensures var s := Slugify(item).value;
      && s == Strip(Shown(item)) && Strip(s) == s && Slugify(Str(s)) == Some(s)
  {
    StripIdempotent(Shown(item));
  }

  /** A list element is fetched: it has a slug and, under a company
      filter, the slug equals the filter. */
  predicate SlugTaken(item: Item, cf: Option<string>) {
    var slug := Slugify(item);
    slug.Some? && !(Active(cf) && slug.value != cf.value)
  }

  /** The target of a taken element: its slug. */
  function SlugTarget(plat: string, item: Item): Target {
    Slug(plat, Slugify(item).GetOr(""))
  }

  /** The targets of one platform's list, in order. */
  function SlugTargets(plat: string, items: seq<Item>, cf: Option<string>): seq<Target> {
    if items == [] then []
    else
      var last := items[|items| - 1];
      SlugTargets(plat, items[..|items| - 1], cf) + (if SlugTaken(last, cf) then [SlugTarget(plat, last)] else [])
  }

  lemma {:induction false} SlugTargetsArePicked(plat: string, items: seq<Item>, cf: Option<string>)
    ensures SlugTargets(plat, items, cf) == Pick(items, item => SlugTaken(item, cf), item => SlugTarget(plat, item))
  {
    if items != [] {
      SlugTargetsArePicked(plat, items[..|items| - 1], cf);
    }
  }

  /** Every slug fetched passes the company filter and is a canonical slug. */
  lemma SlugTargetsRespectFilter(plat: string, items: seq<Item>, cf: Option<string>, t: Target)
    requires t in SlugTargets(plat, items, cf)
    ensures t.Slug? && t.platform == plat && t.slug != "" && t.slug[0] != '#' && Strip(t.slug) == t.slug
    ensures Active(cf) ==> t.slug == cf.value
  {
    SlugTargetsArePicked(plat, items, cf);
    PickMembership(items, item => SlugTaken(item, cf), item => SlugTarget(plat, item), t);
    var i :| 0 <= i < |items| && SlugTaken(items[i], cf) && t == SlugTarget(plat, items[i]);
    SlugifyIsCanonical(items[i]);
  }

  /** A platform entry is walked: its key has a fetcher, it passes the
      platform filter and its value is a list. */
  predicate Selected(pair: (string, Value), pf: Option<string>) {
    pair.0 in MusicPlatforms && !(Active(pf) && pair.0 != pf.value) && pair.1.List?
  }

  function PlatformTargets(pair: (string, Value), pf: Option<string>, cf: Option<string>): seq<Target> {
    if Selected(pair, pf) then SlugTargets(pair.0, pair.1.items, cf) else []
  }

  /** Every target of a run, in order. */
  function PairsTargets(pairs: seq<(string, Value)>, pf: Option<string>, cf: Option<string>): seq<Target> {
    if pairs == [] then []
    else PairsTargets(pairs[..|pairs| - 1], pf, cf) + PlatformTargets(pairs[|pairs| - 1], pf, cf)
  }

  /** The summary a run reports: for each walked platform, in order, the
      number of rows it appended. */
  function Summary(seen0: set<string>, pairs: seq<(string, Value)>, pf: Option<string>, cf: Option<string>,
                   fetch: Target -> Fetched): seq<(string, nat)> {
    if pairs == [] then []
    else
      var prefix := pairs[..|pairs| - 1];
      var last := pairs[|pairs| - 1];
      var before := AllRows(MapSeq(fetch, PairsTargets(prefix, pf, cf)));
      var here := AllRows(MapSeq(fetch, PlatformTargets(last, pf, cf)));
      Summary(seen0, prefix, pf, cf, fetch)
        + (if Selected(last, pf) then [(last.0, |Accepted(SeenAfter(seen0, before), here)|)] else [])
  }

  function SummaryTotal(summary: seq<(string, nat)>): nat {
    if summary == [] then 0 else SummaryTotal(summary[..|summary| - 1]) + summary[|summary| - 1].1
  }

  /** The rows appended for one more platform are its share of the total. */
  lemma {:induction false} PlatformShare(seen0: set<string>, before: seq<Fetched>, here: seq<Fetched>)
    ensures |Accepted(seen0, AllRows(before + here))|
      == |Accepted(seen0, AllRows(before))| + |Accepted(SeenAfter(seen0, AllRows(before)), AllRows(here))|
  {
    AllRowsOfAppend(before, here);
    AcceptedAppend(seen0, AllRows(before), AllRows(here));
  }

  /** The summary adds up to the run's total of new rows. */
  lemma {:induction false} SummaryAddsUp(seen0: set<string>, pairs: seq<(string, Value)>, pf: Option<string>,
                                         cf: Option<string>, fetch: Target -> Fetched)
    ensures SummaryTotal(Summary(seen0, pairs, pf, cf, fetch))
      == |Accepted(seen0, AllRows(MapSeq(fetch, PairsTargets(pairs, pf, cf))))|
  {
    if pairs != [] {
      var prefix := pairs[..|pairs| - 1];
      var last := pairs[|pairs| - 1];
      var ts := PairsTargets(prefix, pf, cf);
      var hs := PlatformTargets(last, pf, cf);
      SummaryAddsUp(seen0, prefix, pf, cf, fetch);
      MapSeqConcat(fetch, ts, hs);
      PlatformShare(seen0, MapSeq(fetch, ts), MapSeq(fetch, hs));
      var s := Summary(seen0, prefix, pf, cf, fetch);
      if Selected(last, pf) {
        var e := (last.0, |Accepted(SeenAfter(seen0, AllRows(MapSeq(fetch, ts))), AllRows(MapSeq(fetch, hs)))|);
        assert (s + [e])[..|s|] == s;
      } else {
        assert hs == [];
        assert ts + hs == ts;
        assert Summary(seen0, pairs, pf, cf, fetch) == s;
      }
    }
  }

  /** The summary names the walked platforms, in order, each once per
      configuration entry, and no other. */
  predicate NamesSelected(s: seq<(string, nat)>, pairs: seq<(string, Value)>, pf: Option<string>) {
    forall e :: e in s ==> exists i :: 0 <= i < |pairs| && Selected(pairs[i], pf) && pairs[i].0 == e.0
  }

  lemma {:induction false} SummaryNamesSelected(seen0: set<string>, pairs: seq<(string, Value)>, pf: Option<string>,
                                                cf: Option<string>, fetch: Target -> Fetched)
    ensures NamesSelected(Summary(seen0, pairs, pf, cf, fetch), pairs, pf)
  {
    if pairs != [] {
      var prefix := pairs[..|pairs| - 1];
      SummaryNamesSelected(seen0, prefix, pf, cf, fetch);
      var s := Summary(seen0, prefix, pf, cf, fetch);
      forall e | e in Summary(seen0, pairs, pf, cf, fetch)
        ensures exists i :: 0 <= i < |pairs| && Selected(pairs[i], pf) && pairs[i].0 == e.0
      {
        if e in s {
          var i :| 0 <= i < |prefix| && Selected(prefix[i], pf) && prefix[i].0 == e.0;
          assert pairs[i] == prefix[i];
        } else {
          assert Selected(pairs[|pairs| - 1], pf);
        }
      }
    }
  }

  /** Under a platform filter only the filtered platform is summarised. */
  lemma SummaryRespectsFilter(seen0: set<string>, pairs: seq<(string, Value)>, pf: Option<string>,
                              cf: Option<string>, fetch: Target -> Fetched, e: (string, nat))
    requires e in Summary(seen0, pairs, pf, cf, fetch)
    ensures e.0 in MusicPlatforms
    ensures Active(pf) ==> e.0 == pf.value
  {
    SummaryNamesSelected(seen0, pairs, pf, cf, fetch);
  }

  lemma PairsStep(seen0: set<string>, pairs: seq<(string, Value)>, pf: Option<string>, cf: Option<string>,
                  fetch: Target -> Fetched, p: nat)
    requires p < |pairs|
    ensures PairsTargets(pairs[..p + 1], pf, cf) == PairsTargets(pairs[..p], pf, cf) + PlatformTargets(pairs[p], pf, cf)
    ensures Summary(seen0, pairs[..p + 1], pf, cf, fetch) == Summary(seen0, pairs[..p], pf, cf, fetch)
      + (if Selected(pairs[p], pf)
         then [(pairs[p].0, |Accepted(SeenAfter(seen0, AllRows(MapSeq(fetch, PairsTargets(pairs[..p], pf, cf)))),
                                      AllRows(MapSeq(fetch, PlatformTargets(pairs[p], pf, cf))))|)]
         else [])
  {
    assert pairs[..p + 1][..p] == pairs[..p];
  }

  /** One element of the loop over a platform's list that is not taken:
      the outcomes stay as they are. */
  lemma SlugSkipped(outs: seq<Fetched>, fetch: Target -> Fetched, plat: string, items: seq<Item>,
                    cf: Option<string>, k: nat)
    requires k < |items| && !SlugTaken(items[k], cf)
    ensures outs + MapSeq(fetch, SlugTargets(plat, items[..k + 1], cf)) ==
      outs + MapSeq(fetch, SlugTargets(plat, items[..k], cf))
  {
    var pre := items[..k + 1];
    assert pre[..|pre| - 1] == items[..k] && pre[|pre| - 1] == items[k];
    var done := SlugTargets(plat, items[..k], cf);
    assert SlugTargets(plat, pre, cf) == done + [];
    assert done + [] == done;
  }

  /** One element of the loop over a platform's list that is taken: the
      outcome of its target follows the outcomes so far. */
  lemma SlugFetched(outs: seq<Fetched>, fetch: Target -> Fetched, plat: string, items: seq<Item>,
                    cf: Option<string>, k: nat)
    requires k < |items| && SlugTaken(items[k], cf)
    ensures outs + MapSeq(fetch, SlugTargets(plat, items[..k + 1], cf)) ==
      outs + MapSeq(fetch, SlugTargets(plat, items[..k], cf)) + [fetch(SlugTarget(plat, items[k]))]
  {
    var t := SlugTarget(plat, items[k]);
    var pre := items[..k + 1];
    assert pre[..|pre| - 1] == items[..k] && pre[|pre| - 1] == items[k];
    assert SlugTargets(plat, pre, cf) == SlugTargets(plat, items[..k], cf) + [t];
    OutsAppend(outs, fetch, SlugTargets(plat, items[..k], cf), [t]);
    MapSeqOne(fetch, t);
  }

  /** The loop over one platform's list of companies. */
  method VisitSlugs(files: Files, plat: string, companies: seq<Item>, cf: Option<string>,
                    fetch: Target -> Fetched, seen: set<string>, total: nat, counts: seq<nat>,
                    ghost seen0: set<string>, ghost csv0: seq<seq<string>>, ghost outs: seq<Fetched>)
    returns (seen': set<string>, total': nat, counts': seq<nat>)
    modifies files
    requires Progress(files.csv, seen, total, counts, seen0, csv0, outs)
    ensures Progress(files.csv, seen', total', counts', seen0, csv0, outs + MapSeq(fetch, SlugTargets(plat, companies, cf)))
    ensures files.seenFile == old(files.seenFile)
  {
    seen', total', counts' := seen, total, counts;
    ghost var cur := outs;
    var k := 0;
    assert companies[..0] == [];
    assert outs + MapSeq(fetch, SlugTargets(plat, companies[..0], cf)) == outs;
    while k < |companies|
      invariant 0 <= k <= |companies|
      invariant cur == outs + MapSeq(fetch, SlugTargets(plat, companies[..k], cf))
      invariant Progress(files.csv, seen', total', counts', seen0, csv0, cur)
      invariant files.seenFile == old(files.seenFile)
    {
      var item := companies[k];
      if SlugTaken(item, cf) {
        var t := SlugTarget(plat, item);
        SlugFetched(outs, fetch, plat, companies, cf, k);
        seen', total', counts' := Visit(files, fetch(t), seen', total', counts', seen0, csv0, cur);
        cur := cur + [fetch(t)];
      } else {
        SlugSkipped(outs, fetch, plat, companies, cf, k);
      }
      k := k + 1;
    }
    assert companies[..|companies|] == companies;
  }

  /** One item of the configuration: skipped unless it is walked; the
      rows it appended are its summary count. */
  method VisitPair(files: Files, pair: (string, Value), pf: Option<string>, cf: Option<string>, fetch: Target -> Fetched,
                   seen: set<string>, total: nat, counts: seq<nat>,
                   ghost seen0: set<string>, ghost csv0: seq<seq<string>>, ghost outs: seq<Fetched>)
    returns (seen': set<string>, total': nat, counts': seq<nat>, perPlatform: nat)
    modifies files
    requires Progress(files.csv, seen, total, counts, seen0, csv0, outs)
    ensures Progress(files.csv, seen', total', counts', seen0, csv0, outs + MapSeq(fetch, PlatformTargets(pair, pf, cf)))
    ensures perPlatform == |Accepted(SeenAfter(seen0, AllRows(outs)), AllRows(MapSeq(fetch, PlatformTargets(pair, pf, cf))))|
    ensures files.seenFile == old(files.seenFile)
  {
    var platform, companies := pair.0, pair.1;
    var here := PlatformTargets(pair, pf, cf);
    PlatformShare(seen0, outs, MapSeq(fetch, here));
    if platform in MusicPlatforms && !(Active(pf) && platform != pf.value) && companies.List? {
      seen', total', counts' := VisitSlugs(files, platform, companies.items, cf, fetch, seen, total, counts,
                                           seen0, csv0, outs);
      perPlatform := total' - total;
    } else {
      assert outs + MapSeq(fetch, here) == outs;
      seen', total', counts', perPlatform := seen, total, counts, 0;
    }
  }

  /** run(platform_filter, company_filter). Without companies.yaml it
      returns 2 and touches nothing. Otherwise it fetches every target in
      order, appends the rows whose keys are new, saves the seen keys once
      at the end and returns 0 with the number of new rows, the per-company
      counts and the per-platform summary. */
  method Run(files: Files, cfg: Option<Config>, pf: Option<string>, cf: Option<string>, fetch: Target -> Fetched)
    returns (code: int, totalNew: nat, counts: seq<nat>, summary: seq<(string, nat)>)
    modifies files
    ensures cfg.None? ==> (code == 2 && totalNew == 0 && counts == [] && summary == []
                           && files.csv == old(files.csv) && files.seenFile == old(files.seenFile))
    ensures cfg.Some? ==> (code == 0 &&
                           Finished(files.csv, files.seenFile, totalNew, counts, LoadSeen(old(files.seenFile)),
                                    old(files.csv), MapSeq(fetch, PairsTargets(PairsOf(cfg.value), pf, cf))) &&
                           summary == Summary(LoadSeen(old(files.seenFile)), PairsOf(cfg.value), pf, cf, fetch))
  {
    if cfg.None? {
      return 2, 0, [], [];
    }
    var seen := files.LoadSeenSet();
    ghost var seen0 := seen;
    ghost var csv0 := files.csv;
    ProgressStart(csv0, seen0);
    var pairs := if cfg.value.Mapping? then cfg.value.pairs else [];
    totalNew, counts, summary := 0, [], [];
    ghost var cur: seq<Fetched> := [];
    var p := 0;
    assert pairs[..0] == [];
    assert PairsTargets(pairs[..0], pf, cf) == [];
    assert Summary(seen0, pairs[..0], pf, cf, fetch) == [];
    while p < |pairs|
      invariant 0 <= p <= |pairs|
      invariant cur == MapSeq(fetch, PairsTargets(pairs[..p], pf, cf))
      invariant Progress(files.csv, seen, totalNew, counts, seen0, csv0, cur)
      invariant summary == Summary(seen0, pairs[..p], pf, cf, fetch)
      invariant files.seenFile == old(files.seenFile)
    {
      PairsStep(seen0, pairs, pf, cf, fetch, p);
      MapSeqConcat(fetch, PairsTargets(pairs[..p], pf, cf), PlatformTargets(pairs[p], pf, cf));
      var perPlatform;
      seen, totalNew, counts, perPlatform := VisitPair(files, pairs[p], pf, cf, fetch, seen, totalNew, counts,
                                                       seen0, csv0, cur);
      if Selected(pairs[p], pf) {
        summary := summary + [(pairs[p].0, perPlatform)];
      }
      cur := cur + MapSeq(fetch, PlatformTargets(pairs[p], pf, cf));
      p := p + 1;
    }
    assert pairs[..|pairs|] == pairs;
    FinishedBySave(files.csv, seen, totalNew, counts, seen0, csv0, cur);
    files.SaveSeen(seen);
    code := 0;
  }
}
