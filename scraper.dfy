/** run() of scraper.py: the multi-platform watcher. It visits the
    list-shaped platforms (a list of slugs each), then the mapping-shaped
    ones (a list of entries each), calls the platform's fetcher on every
    target that passes the filters and feeds what it returns to the dedup
    loop. companies.yaml is the parameter cfg (None when the file is
    missing), and the fetchers are the function fetch. */
module Scraper {
  import opened Wrappers
  import opened Text
  import opened Rows
  import opened Store
  import opened Dedup
  import opened Runs

  /** The keys of FETCHERS, in order: one slug per list element. */
  const ListPlatforms: seq<string> := ["greenhouse", "lever"]

  /** The keys of DICT_FETCHERS, in order: one entry per list element. */
  const DictPlatforms: seq<string> :=
    ["workday", "workable", "icims", "teamtailor", "adp", "successfactors", "jobvite", "pereless"]

  /** entry.get(k). */
  function Lookup(entry: map<string, string>, k: string): Option<string> {
    if k in entry then Some(entry[k]) else None
  }

  /** The company name shown for an entry: its company, else its tenant,
      else its host (the first that is present and not empty), else "unknown". */
  function DisplayName(entry: map<string, string>): (name: string)
    ensures name != ""
    ensures Truthy(Lookup(entry, "company")) ==> name == entry["company"]
    ensures !Truthy(Lookup(entry, "company")) && Truthy(Lookup(entry, "tenant")) ==> name == entry["tenant"]
    ensures !Truthy(Lookup(entry, "company")) && !Truthy(Lookup(entry, "tenant")) && Truthy(Lookup(entry, "host"))
      ==> name == entry["host"]
    ensures name == "unknown" || name in entry.Values
  {
    OrElse(Lookup(entry, "company"), OrElse(Lookup(entry, "tenant"), OrElse(Lookup(entry, "host"), "unknown")))
  }

  /** A list element of a list-shaped platform is fetched: it is a string
      that is not blank and, under a company filter, equals the filter as
      written (the slug is stripped only for the fetcher call). */
  predicate SlugTaken(item: Item, cf: Option<string>) {
    item.Str? && Strip(item.s) != "" && (!Active(cf) || item.s == cf.value)
  }

  /** A list element of a mapping-shaped platform is fetched: it is a
      mapping and, under a company filter, the filter is its shown name,
      its host or its tenant. */
  predicate EntryTaken(item: Item, cf: Option<string>) {
    item.Dict? &&
    (!Active(cf) || cf.value == DisplayName(item.fields)
                 || Lookup(item.fields, "host") == Some(cf.value)
                 || Lookup(item.fields, "tenant") == Some(cf.value))
  }

  /** The target a taken element stands for. */
  function TargetOf(plat: string, item: Item): Target
    requires item.Str? || item.Dict?
  {
    if item.Str? then Slug(plat, Strip(item.s)) else Entry(plat, DisplayName(item.fields), item.fields)
  }

  predicate Taken(item: Item, cf: Option<string>, dictShaped: bool) {
    if dictShaped then EntryTaken(item, cf) else SlugTaken(item, cf)
  }

  /** The targets of one platform's list, in order. */
  function ItemTargets(plat: string, items: seq<Item>, cf: Option<string>, dictShaped: bool): seq<Target> {
    if items == [] then []
    else
      var last := items[|items| - 1];
      ItemTargets(plat, items[..|items| - 1], cf, dictShaped)
        + (if Taken(last, cf, dictShaped) then [TargetOf(plat, last)] else [])
  }

  /** TargetOf as a total function, for picking. */
  function TargetOfTaken(plat: string, item: Item): Target {
    if item.Str? || item.Dict? then TargetOf(plat, item) else Slug(plat, "")
  }

  lemma {:induction false} ItemTargetsArePicked(plat: string, items: seq<Item>, cf: Option<string>, dictShaped: bool)
    ensures ItemTargets(plat, items, cf, dictShaped)
      == Pick(items, item => Taken(item, cf, dictShaped), item => TargetOfTaken(plat, item))
  {
    if items != [] {
      ItemTargetsArePicked(plat, items[..|items| - 1], cf, dictShaped);
    }
  }

  /** A target comes from a list exactly when some element of the list is
      taken and stands for it. */
  lemma ItemTargetsMembership(plat: string, items: seq<Item>, cf: Option<string>, dictShaped: bool, t: Target)
    ensures t in ItemTargets(plat, items, cf, dictShaped) <==>
      exists i :: 0 <= i < |items| && Taken(items[i], cf, dictShaped) && t == TargetOfTaken(plat, items[i])
  {
    ItemTargetsArePicked(plat, items, cf, dictShaped);
    PickMembership(items, item => Taken(item, cf, dictShaped), item => TargetOfTaken(plat, item), t);
  }

  /** One element of the loop over a platform's list that is not taken:
      the outcomes stay as they are. */
  lemma ItemSkipped(outs: seq<Fetched>, fetch: Target -> Fetched, plat: string, items: seq<Item>,
                    cf: Option<string>, dictShaped: bool, k: nat)
    requires k < |items| && !Taken(items[k], cf, dictShaped)
    ensures outs + MapSeq(fetch, ItemTargets(plat, items[..k + 1], cf, dictShaped)) ==
      outs + MapSeq(fetch, ItemTargets(plat, items[..k], cf, dictShaped))
  {
    var pre := items[..k + 1];
    assert pre[..|pre| - 1] == items[..k] && pre[|pre| - 1] == items[k];
    var done := ItemTargets(plat, items[..k], cf, dictShaped);
    assert ItemTargets(plat, pre, cf, dictShaped) == done + [];
    assert done + [] == done;
  }

  /** One element of the loop over a platform's list that is taken: the
      outcome of its target follows the outcomes so far. */
  lemma ItemFetched(outs: seq<Fetched>, fetch: Target -> Fetched, plat: string, items: seq<Item>,
                    cf: Option<string>, dictShaped: bool, k: nat)
    requires k < |items| && Taken(items[k], cf, dictShaped)
    ensures outs + MapSeq(fetch, ItemTargets(plat, items[..k + 1], cf, dictShaped)) ==
      outs + MapSeq(fetch, ItemTargets(plat, items[..k], cf, dictShaped)) + [fetch(TargetOf(plat, items[k]))]
  {
    var t := TargetOf(plat, items[k]);
    var pre := items[..k + 1];
    assert pre[..|pre| - 1] == items[..k] && pre[|pre| - 1] == items[k];
    assert ItemTargets(plat, pre, cf, dictShaped) == ItemTargets(plat, items[..k], cf, dictShaped) + [t];
    OutsAppend(outs, fetch, ItemTargets(plat, items[..k], cf, dictShaped), [t]);
    MapSeqOne(fetch, t);
  }

  /** The platform is visited: it is a key of cfg and, under a platform
      filter, it is the filtered one. */
  predicate Visited(cfg: map<string, Value>, pf: Option<string>, plat: string) {
    plat in cfg && !(Active(pf) && pf.value != plat)
  }

  /** `cfg.get(plat) or []`: the list, or no elements. */
  function ItemsOf(v: Value): seq<Item> {
    if v.List? then v.items else []
  }

  function PlatformTargets(cfg: map<string, Value>, pf: Option<string>, cf: Option<string>,
                           plat: string, dictShaped: bool): seq<Target> {
    if Visited(cfg, pf, plat) then ItemTargets(plat, ItemsOf(cfg[plat]), cf, dictShaped) else []
  }

  /** The targets of the platforms plats, in order. */
  function PlatformsTargets(cfg: map<string, Value>, pf: Option<string>, cf: Option<string>,
                            plats: seq<string>, dictShaped: bool): seq<Target> {
    if plats == [] then []
    else
      PlatformsTargets(cfg, pf, cf, plats[..|plats| - 1], dictShaped)
        + PlatformTargets(cfg, pf, cf, plats[|plats| - 1], dictShaped)
  }

  lemma PlatformsTargetsStep(cfg: map<string, Value>, pf: Option<string>, cf: Option<string>,
                             plats: seq<string>, dictShaped: bool, p: nat)
    requires p < |plats|
    ensures PlatformsTargets(cfg, pf, cf, plats[..p + 1], dictShaped) ==
      PlatformsTargets(cfg, pf, cf, plats[..p], dictShaped) + PlatformTargets(cfg, pf, cf, plats[p], dictShaped)
  {
    assert plats[..p + 1][..p] == plats[..p];
  }

  /** One platform of the loop: its outcomes follow the outcomes so far. */
  lemma PlatformsOutsStep(outs: seq<Fetched>, fetch: Target -> Fetched, cfg: map<string, Value>,
                          pf: Option<string>, cf: Option<string>, plats: seq<string>, dictShaped: bool, p: nat)
    requires p < |plats|
    ensures outs + MapSeq(fetch, PlatformsTargets(cfg, pf, cf, plats[..p + 1], dictShaped)) ==
      outs + MapSeq(fetch, PlatformsTargets(cfg, pf, cf, plats[..p], dictShaped))
        + MapSeq(fetch, PlatformTargets(cfg, pf, cf, plats[p], dictShaped))
  {
    PlatformsTargetsStep(cfg, pf, cf, plats, dictShaped, p);
    OutsAppend(outs, fetch, PlatformsTargets(cfg, pf, cf, plats[..p], dictShaped),
               PlatformTargets(cfg, pf, cf, plats[p], dictShaped));
  }

  /** Every target of a run, in the order the run visits them. */
  function Targets(cfg: map<string, Value>, pf: Option<string>, cf: Option<string>): seq<Target> {
    PlatformsTargets(cfg, pf, cf, ListPlatforms, false) + PlatformsTargets(cfg, pf, cf, DictPlatforms, true)
  }

  /** A target of the platforms plats belongs to one of them that is visited,
      and comes from an element of its list that is taken. */
  lemma {:induction false} PlatformsTargetsSource(cfg: map<string, Value>, pf: Option<string>, cf: Option<string>,
                                                  plats: seq<string>, dictShaped: bool, t: Target)
    requires t in PlatformsTargets(cfg, pf, cf, plats, dictShaped)
    ensures t.platform in plats && Visited(cfg, pf, t.platform)
    ensures exists i :: (0 <= i < |ItemsOf(cfg[t.platform])| && Taken(ItemsOf(cfg[t.platform])[i], cf, dictShaped)
                         && t == TargetOf(t.platform, ItemsOf(cfg[t.platform])[i]))
  {
    var prefix := plats[..|plats| - 1];
    var plat := plats[|plats| - 1];
    if t in PlatformsTargets(cfg, pf, cf, prefix, dictShaped) {
      PlatformsTargetsSource(cfg, pf, cf, prefix, dictShaped, t);
    } else {
      assert t in PlatformTargets(cfg, pf, cf, plat, dictShaped);
      ItemTargetsMembership(plat, ItemsOf(cfg[plat]), cf, dictShaped, t);
      var i :| 0 <= i < |ItemsOf(cfg[plat])| && Taken(ItemsOf(cfg[plat])[i], cf, dictShaped)
        && t == TargetOf(plat, ItemsOf(cfg[plat])[i]);
      assert t.platform == plat;
    }
  }

  /** Every target a run fetches respects the filters: its platform is in
      the configuration and is the filtered one, a slug is not blank and is
      the stripped company filter, an entry is named by the company filter. */
  lemma TargetsRespectFilters(cfg: map<string, Value>, pf: Option<string>, cf: Option<string>, t: Target)
    requires t in Targets(cfg, pf, cf)
    ensures t.platform in cfg
    ensures Active(pf) ==> t.platform == pf.value
    ensures t.Slug? ==> t.platform in ListPlatforms && t.slug != ""
    ensures t.Slug? && Active(cf) ==> t.slug == Strip(cf.value)
    ensures t.Entry? ==> t.platform in DictPlatforms && t.name == DisplayName(t.entry)
    ensures t.Entry? && Active(cf) ==>
              (cf.value == t.name || Lookup(t.entry, "host") == Some(cf.value)
               || Lookup(t.entry, "tenant") == Some(cf.value))
  {
    if t in PlatformsTargets(cfg, pf, cf, ListPlatforms, false) {
      PlatformsTargetsSource(cfg, pf, cf, ListPlatforms, false, t);
    } else {
      PlatformsTargetsSource(cfg, pf, cf, DictPlatforms, true, t);
    }
  }

  /** A taken element of a visited platform's list is fetched. */
  lemma TakenIsFetched(cfg: map<string, Value>, pf: Option<string>, cf: Option<string>, p: nat, dictShaped: bool, i: nat)
    requires p < |(if dictShaped then DictPlatforms else ListPlatforms)|
    requires var plat := (if dictShaped then DictPlatforms else ListPlatforms)[p];
      Visited(cfg, pf, plat) && i < |ItemsOf(cfg[plat])| && Taken(ItemsOf(cfg[plat])[i], cf, dictShaped)
    ensures var plat := (if dictShaped then DictPlatforms else ListPlatforms)[p];
      TargetOf(plat, ItemsOf(cfg[plat])[i]) in Targets(cfg, pf, cf)
  {
    var plats := if dictShaped then DictPlatforms else ListPlatforms;
    var plat := plats[p];
    ItemTargetsMembership(plat, ItemsOf(cfg[plat]), cf, dictShaped, TargetOf(plat, ItemsOf(cfg[plat])[i]));
    PlatformsInTargets(cfg, pf, cf, plats, dictShaped, p);
  }

  lemma {:induction false} PlatformsInTargets(cfg: map<string, Value>, pf: Option<string>, cf: Option<string>,
                                              plats: seq<string>, dictShaped: bool, p: nat)
    requires p < |plats|
    ensures forall t :: t in PlatformTargets(cfg, pf, cf, plats[p], dictShaped) ==>
      t in PlatformsTargets(cfg, pf, cf, plats, dictShaped)
    decreases |plats|
  {
    var prefix := plats[..|plats| - 1];
    if p < |prefix| {
      assert prefix[p] == plats[p];
      PlatformsInTargets(cfg, pf, cf, prefix, dictShaped, p);
    }
  }

  /** The loop over one platform's list. */
  method VisitItems(files: Files, plat: string, items: seq<Item>, cf: Option<string>, dictShaped: bool,
                    fetch: Target -> Fetched, seen: set<string>, total: nat, counts: seq<nat>,
                    ghost seen0: set<string>, ghost csv0: seq<seq<string>>, ghost outs: seq<Fetched>)
    returns (seen': set<string>, total': nat, counts': seq<nat>)
    modifies files
    requires Progress(files.csv, seen, total, counts, seen0, csv0, outs)
    ensures Progress(files.csv, seen', total', counts', seen0, csv0,
                     outs + MapSeq(fetch, ItemTargets(plat, items, cf, dictShaped)))
    ensures files.seenFile == old(files.seenFile)
  {
    seen', total', counts' := seen, total, counts;
    ghost var cur := outs;
    var k := 0;
    assert items[..0] == [];
    assert outs + MapSeq(fetch, ItemTargets(plat, items[..0], cf, dictShaped)) == outs;
    while k < |items|
      invariant 0 <= k <= |items|
      invariant cur == outs + MapSeq(fetch, ItemTargets(plat, items[..k], cf, dictShaped))
      invariant Progress(files.csv, seen', total', counts', seen0, csv0, cur)
      invariant files.seenFile == old(files.seenFile)
    {
      var item := items[k];
      var taken := if dictShaped then EntryTaken(item, cf) else SlugTaken(item, cf);
      if taken {
        var t := TargetOf(plat, item);
        ItemFetched(outs, fetch, plat, items, cf, dictShaped, k);
        seen', total', counts' := Visit(files, fetch(t), seen', total', counts', seen0, csv0, cur);
        cur := cur + [fetch(t)];
      } else {
        ItemSkipped(outs, fetch, plat, items, cf, dictShaped, k);
      }
      k := k + 1;
    }
    assert items[..|items|] == items;
  }

  /** One platform of a run: skipped unless it is visited. */
  method VisitPlatform(files: Files, cfg: map<string, Value>, pf: Option<string>, cf: Option<string>,
                       plat: string, dictShaped: bool, fetch: Target -> Fetched,
                       seen: set<string>, total: nat, counts: seq<nat>,
                       ghost seen0: set<string>, ghost csv0: seq<seq<string>>, ghost outs: seq<Fetched>)
    returns (seen': set<string>, total': nat, counts': seq<nat>)
    modifies files
    requires Progress(files.csv, seen, total, counts, seen0, csv0, outs)
    ensures Progress(files.csv, seen', total', counts', seen0, csv0,
                     outs + MapSeq(fetch, PlatformTargets(cfg, pf, cf, plat, dictShaped)))
    ensures files.seenFile == old(files.seenFile)
  {
    if !(plat in cfg) || (Active(pf) && pf.value != plat) {
      assert outs + MapSeq(fetch, []) == outs;
      seen', total', counts' := seen, total, counts;
    } else {
      var items := if cfg[plat].List? then cfg[plat].items else [];
      seen', total', counts' := VisitItems(files, plat, items, cf, dictShaped, fetch, seen, total, counts, seen0, csv0, outs);
    }
  }

  /** The loop over a group of platforms. */
  method VisitPlatforms(files: Files, cfg: map<string, Value>, pf: Option<string>, cf: Option<string>,
                        plats: seq<string>, dictShaped: bool, fetch: Target -> Fetched,
                        seen: set<string>, total: nat, counts: seq<nat>,
                        ghost seen0: set<string>, ghost csv0: seq<seq<string>>, ghost outs: seq<Fetched>)
    returns (seen': set<string>, total': nat, counts': seq<nat>)
    modifies files
    requires Progress(files.csv, seen, total, counts, seen0, csv0, outs)
    ensures Progress(files.csv, seen', total', counts', seen0, csv0,
                     outs + MapSeq(fetch, PlatformsTargets(cfg, pf, cf, plats, dictShaped)))
    ensures files.seenFile == old(files.seenFile)
  {
    seen', total', counts' := seen, total, counts;
    ghost var cur := outs;
    assert plats[..0] == [];
    assert outs + MapSeq(fetch, PlatformsTargets(cfg, pf, cf, plats[..0], dictShaped)) == outs;
    var p := 0;
    while p < |plats|
      invariant 0 <= p <= |plats|
      invariant cur == outs + MapSeq(fetch, PlatformsTargets(cfg, pf, cf, plats[..p], dictShaped))
      invariant Progress(files.csv, seen', total', counts', seen0, csv0, cur)
      invariant files.seenFile == old(files.seenFile)
    {
      PlatformsOutsStep(outs, fetch, cfg, pf, cf, plats, dictShaped, p);
      seen', total', counts' := VisitPlatform(files, cfg, pf, cf, plats[p], dictShaped, fetch,
                                              seen', total', counts', seen0, csv0, cur);
      cur := cur + MapSeq(fetch, PlatformTargets(cfg, pf, cf, plats[p], dictShaped));
      p := p + 1;
    }
    assert plats[..|plats|] == plats;
  }

  /** run(platform_filter, company_filter). Without companies.yaml it
      returns 2 and touches nothing. Otherwise it fetches every target in
      order, appends the rows whose keys are new, saves the seen keys once
      at the end and returns 0 with the number of new rows and the per-target
      counts it reports. */
  method Run(files: Files, cfg: Option<map<string, Value>>, pf: Option<string>, cf: Option<string>,
             fetch: Target -> Fetched)
    returns (code: int, totalNew: nat, counts: seq<nat>)
    modifies files
    ensures cfg.None? ==> (code == 2 && totalNew == 0 && counts == []
                           && files.csv == old(files.csv) && files.seenFile == old(files.seenFile))
    ensures cfg.Some? ==> (code == 0 &&
                           Finished(files.csv, files.seenFile, totalNew, counts, LoadSeen(old(files.seenFile)),
                                    old(files.csv), MapSeq(fetch, Targets(cfg.value, pf, cf))))
  {
    if cfg.None? {
      return 2, 0, [];
    }
    var c := cfg.value;
    var seen := files.LoadSeenSet();
    ghost var seen0 := seen;
    ghost var csv0 := files.csv;
    ProgressStart(csv0, seen0);
    ghost var lists := PlatformsTargets(c, pf, cf, ListPlatforms, false);
    ghost var dicts := PlatformsTargets(c, pf, cf, DictPlatforms, true);
    ghost var outs1 := MapSeq(fetch, lists);
    ghost var outs := MapSeq(fetch, Targets(c, pf, cf));
    assert [] + outs1 == outs1;
    seen, totalNew, counts := VisitPlatforms(files, c, pf, cf, ListPlatforms, false, fetch, seen, 0, [], seen0, csv0, []);
    OutsAppend([], fetch, lists, dicts);
    assert outs1 + MapSeq(fetch, dicts) == outs;
    seen, totalNew, counts := VisitPlatforms(files, c, pf, cf, DictPlatforms, true, fetch, seen, totalNew, counts,
                                             seen0, csv0, outs1);
    FinishedBySave(files.csv, seen, totalNew, counts, seen0, csv0, outs);
    files.SaveSeen(seen);
    code := 0;
  }
}
