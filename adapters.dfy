/** The pure fragments of the platform adapters (adapters.py): the
    order-keeping dedupe, the Workday site discovery and site trial, the
    Workable account retry, the posted-timestamp fix-up and the iCIMS job
    id. Every HTTP exchange is a parameter: the answers the network gave, or
    an oracle function from a site or account token to what trying it gave. */
module Adapters {
  import opened Wrappers
  import opened Text
  import opened Rows
  import opened Runs

  // ---------------------------------------------------------------------
  // _dedupe_keep_order

  /** No element occurs twice. */
  predicate NoDuplicates(s: seq<string>) {
    forall i, j :: 0 <= i < j < |s| ==> s[i] != s[j]
  }

  /** The list _dedupe_keep_order returns: the items that are not empty, each
      the first time it occurs. */
  function Dedupe(items: seq<string>): (out: seq<string>)
    ensures |out| <= |items|
  {
    if items == [] then []
    else
      var d := Dedupe(items[..|items| - 1]);
      var x := items[|items| - 1];
      if x == "" || x in d then d else d + [x]
  }

  /** _dedupe_keep_order: the loop with its seen set. */
  method DedupeKeepOrder(items: seq<string>) returns (out: seq<string>)
    ensures out == Dedupe(items)
  {
    var seen: set<string> := {};
    out := [];
    var i := 0;
    while i < |items|
      invariant 0 <= i <= |items|
      invariant out == Dedupe(items[..i])
      invariant forall x :: x in seen <==> x in out
    {
      var x := items[i];
      assert items[..i + 1][..i] == items[..i];
      if x != "" && x !in seen {
        seen := seen + {x};
        out := out + [x];
      }
      i := i + 1;
    }
    assert items[..|items|] == items;
  }

  /** The output holds exactly the non-empty items. */
  lemma {:induction false} DedupeMembership(items: seq<string>, x: string)
    ensures x in Dedupe(items) <==> x in items && x != ""
  {
    if items != [] {
      var prefix := items[..|items| - 1];
      DedupeMembership(prefix, x);
      assert items == prefix + [items[|items| - 1]];
    }
  }

  /** The output has no duplicates and nothing empty. */
  lemma {:induction false} DedupeDistinct(items: seq<string>)
    ensures NoDuplicates(Dedupe(items))
    ensures "" !in Dedupe(items)
  {
    if items != [] {
      var prefix := items[..|items| - 1];
      DedupeDistinct(prefix);
      DedupeMembership(prefix, "");
    }
  }

  /** out lists its elements in the order of their first occurrences in items. */
  predicate InFirstOrder(out: seq<string>, items: seq<string>) {
    forall i, j :: 0 <= i < j < |out| ==> IndexOf(items, out[i]) < IndexOf(items, out[j])
  }

  /** The output keeps the input's order of first occurrences. */
  lemma {:induction false} DedupeOrder(items: seq<string>)
    ensures InFirstOrder(Dedupe(items), items)
  {
    if items != [] {
      var prefix := items[..|items| - 1];
      var x := items[|items| - 1];
      assert items == prefix + [x];
      var d := Dedupe(prefix);
      DedupeOrder(prefix);
      forall k | 0 <= k < |d| ensures IndexOf(items, d[k]) == IndexOf(prefix, d[k]) < |prefix| {
        DedupeMembership(prefix, d[k]);
        IndexOfPrefix(prefix, x, d[k]);
      }
      if x != "" && x !in d {
        DedupeMembership(prefix, x);
        IndexOfNew(prefix, x);
        var out := d + [x];
        assert Dedupe(items) == out;
        forall i, j | 0 <= i < j < |out| ensures IndexOf(items, out[i]) < IndexOf(items, out[j]) {
          assert out[i] == d[i];
          if j < |d| {
            assert out[j] == d[j];
          } else {
            assert out[j] == x;
          }
        }
      } else {
        assert Dedupe(items) == d;
        forall i, j | 0 <= i < j < |d| ensures IndexOf(items, d[i]) < IndexOf(items, d[j]) {
          assert IndexOf(prefix, d[i]) < IndexOf(prefix, d[j]);
        }
      }
    }
  }

  lemma {:induction false} IndexOfPrefix(prefix: seq<string>, x: string, y: string)
    requires y in prefix
    ensures IndexOf(prefix + [x], y) == IndexOf(prefix, y) < |prefix|
  {
    if prefix[0] != y {
      assert (prefix + [x])[1..] == prefix[1..] + [x];
      IndexOfPrefix(prefix[1..], x, y);
    }
  }

  lemma {:induction false} IndexOfNew(prefix: seq<string>, x: string)
    requires x !in prefix
    ensures IndexOf(prefix + [x], x) == |prefix|
  {
    if prefix != [] {
      assert (prefix + [x])[1..] == prefix[1..] + [x];
      IndexOfNew(prefix[1..], x);
    }
  }

  /** Deduping a longer list starts with the dedupe of its first part. */
  lemma {:induction false} DedupePrefix(a: seq<string>, b: seq<string>)
    ensures var d := Dedupe(a + b); |Dedupe(a)| <= |d| && d[..|Dedupe(a)|] == Dedupe(a)
    decreases |b|
  {
    if b == [] {
      assert a + b == a;
    } else {
      var bp := b[..|b| - 1];
      var ab := a + b;
      assert ab[..|ab| - 1] == a + bp;
      DedupePrefix(a, bp);
    }
  }

  // ---------------------------------------------------------------------
  // _wd_discover_sites

  /** The default site tokens, in the order they are tried. */
  const DefaultSites: seq<string> := ["Careers", "careers", "External", "external",
    "Career", "career", "Jobs", "jobs",
    "US", "usa", "NA", "na", "NorthAmerica", "northamerica",
    "Campus", "campus", "Students", "students", "EarlyCareers", "earlycareers"]

  /** At most this many candidate sites are returned. */
  const MaxSites: nat := 20

  /** A string of the tenant's branding config that looks like a site token. */
  predicate SiteLike(v: string) {
    2 <= |v| <= 40 && '/' !in v
  }

  /** The site-like strings of the branding config, in order. */
  function BrandingSites(values: seq<string>): (sites: seq<string>)
    ensures forall s :: s in sites ==> s in values && SiteLike(s)
  {
    if values == [] then []
    else
      var last := values[|values| - 1];
      BrandingSites(values[..|values| - 1]) + (if SiteLike(last) then [last] else [])
  }

  /** The spellings of the provided site with '_' and '-' swapped, when it has either. */
  function Variants(provided: string): seq<string> {
    if provided != "" && ('_' in provided || '-' in provided)
    then [ReplaceChar(provided, '_', '-'), ReplaceChar(provided, '-', '_')]
    else []
  }

  /** All seeds, in order: the provided site, the defaults, the branding
      sites, the scraped sites and the variants. */
  function Seeds(provided: string, branding: seq<string>, scraped: seq<string>): seq<string> {
    (if provided != "" then [provided] else []) + DefaultSites + BrandingSites(branding) + Dedupe(scraped)
      + Variants(provided)
  }

  /** The candidate sites _wd_discover_sites returns. */
  function DiscoveredSites(provided: string, branding: seq<string>, scraped: seq<string>): seq<string> {
    var d := Dedupe(Seeds(provided, branding, scraped));
    if |d| <= MaxSites then d else d[..MaxSites]
  }

  /** _wd_discover_sites. branding holds the string values found in the
      branding section of the tenant's config (none when that request failed),
      scraped the site tokens found on the public pages. */
  method DiscoverSites(provided: string, branding: seq<string>, scraped: seq<string>) returns (sites: seq<string>)
    ensures sites == DiscoveredSites(provided, branding, scraped)
  {
    var seeds := if provided != "" then [provided] else [];
    seeds := seeds + DefaultSites;
    var found: seq<string> := [];
    var i := 0;
    while i < |branding|
      invariant 0 <= i <= |branding|
      invariant found == BrandingSites(branding[..i])
    {
      assert branding[..i + 1][..i] == branding[..i];
      if 2 <= |branding[i]| <= 40 && '/' !in branding[i] {
        found := found + [branding[i]];
      }
      i := i + 1;
    }
    assert branding[..|branding|] == branding;
    seeds := seeds + found;
    var pages := DedupeKeepOrder(scraped);
    seeds := seeds + pages;
    if provided != "" && ('_' in provided || '-' in provided) {
      seeds := seeds + [ReplaceChar(provided, '_', '-'), ReplaceChar(provided, '-', '_')];
    }
    assert seeds == Seeds(provided, branding, scraped);
    var all := DedupeKeepOrder(seeds);
    sites := if |all| <= MaxSites then all else all[..MaxSites];
  }

  /** At most 20 candidates, none empty, none twice, the provided site first. */
  lemma DiscoveredSitesShape(provided: string, branding: seq<string>, scraped: seq<string>)
    ensures var sites := DiscoveredSites(provided, branding, scraped);
      && |sites| <= MaxSites
      && NoDuplicates(sites) && "" !in sites
      && (provided != "" ==> sites != [] && sites[0] == provided)
      && forall s :: s in sites ==> s in Seeds(provided, branding, scraped)
  {
    var seeds := Seeds(provided, branding, scraped);
    var d := Dedupe(seeds);
    DedupeDistinct(seeds);
    forall s | s in d ensures s in seeds {
      DedupeMembership(seeds, s);
    }
    if provided != "" {
      SeedsStartWithProvided(provided, branding, scraped);
      DedupeStartsWith(provided, seeds[1..]);
    }
  }

  lemma SeedsStartWithProvided(provided: string, branding: seq<string>, scraped: seq<string>)
    requires provided != ""
    ensures var seeds := Seeds(provided, branding, scraped); seeds != [] && seeds == [provided] + seeds[1..]
  {
  }

  /** A list that starts with a non-empty item dedupes to a list that starts with it. */
  lemma DedupeStartsWith(x: string, rest: seq<string>)
    requires x != ""
    ensures Dedupe([x] + rest) != [] && Dedupe([x] + rest)[0] == x
  {
    DedupePrefix([x], rest);
    assert [x][..0] == [];
  }

  // ---------------------------------------------------------------------
  // fetch_workday

  /** `(entry.get(k) or "").strip()`. */
  function EntryText(v: Option<string>): string {
    Strip(OrElse(v, ""))
  }

  /** fetch_workday's site trial. trySite is what try_site gave for a site
      token: Raised when the request raised (which propagates out of
      fetch_workday), otherwise the matching rows. branding and scraped are
      what the discovery requests found. tried lists the tokens tried, in
      order. */
  method FetchWorkday(host: Option<string>, tenant: Option<string>, site: Option<string>,
                      branding: seq<string>, scraped: seq<string>, trySite: string -> Fetched)
    returns (res: Fetched, tried: seq<string>)
    ensures EntryText(host) == "" || EntryText(tenant) == "" ==> res == Rows([]) && tried == []
    ensures EntryText(host) != "" && EntryText(tenant) != "" ==>
      SiteTrial(EntryText(site), DiscoveredSites(EntryText(site), branding, scraped), trySite, res, tried)
  {
    var h := EntryText(host);
    var t := EntryText(tenant);
    var hint := EntryText(site);
    if h == "" || t == "" {
      return Rows([]), [];
    }
    res, tried := TryHintThenSites(hint, branding, scraped, trySite);
  }

  /** What the site trial promises, for the site hint hint and the
      discovered sites: no token is tried twice; a non-empty hint is tried
      first, and when it gave rows (or raised) that is the result; otherwise
      the discovered sites are walked in order, skipping the tokens already
      tried, up to the first one that gave rows (or raised), or to the end. */
  predicate SiteTrial(hint: string, sites: seq<string>, trySite: string -> Fetched, res: Fetched, tried: seq<string>) {
    && NoDuplicates(tried)
    && (hint != "" ==> tried != [] && tried[0] == hint)
    && (forall i :: 0 <= i < |tried| - 1 ==> trySite(tried[i]) == Rows([]))
    && (res != Rows([]) ==> tried != [] && res == trySite(tried[|tried| - 1]))
    && if hint != "" && trySite(hint) != Rows([]) then res == trySite(hint) && tried == [hint]
       else exists n :: 0 <= n <= |sites| && StoppedAt(HintTried(hint), sites, n, trySite, res, tried)
  }

  /** The tokens tried before the discovered sites: the hint, when there is one. */
  function HintTried(hint: string): seq<string> {
    if hint != "" then [hint] else []
  }

  /** The tokens tried after walking cands without stopping, starting from
      the tokens tried0: each candidate not yet tried joins at the end. */
  function TriedAfter(tried0: seq<string>, cands: seq<string>): (t: seq<string>)
    ensures forall x :: x in t <==> x in tried0 || x in cands
  {
    if cands == [] then tried0
    else
      var t := TriedAfter(tried0, cands[..|cands| - 1]);
      var c := cands[|cands| - 1];
      assert cands == cands[..|cands| - 1] + [c];
      if c in t then t else t + [c]
  }

  /** The walk over sites, starting from the tokens tried0, stopped after
      the first n sites: the tokens tried are those of the walk, every site
      before the n-th gave no rows, a result with rows (or a raise) is what
      the n-th site gave, and an empty result means the walk reached the end
      with no site giving rows. */
  predicate StoppedAt(tried0: seq<string>, sites: seq<string>, n: nat, trySite: string -> Fetched,
                      res: Fetched, tried: seq<string>) {
    && n <= |sites|
    && tried == TriedAfter(tried0, sites[..n])
    && (forall k :: 0 <= k < n - 1 ==> trySite(sites[k]) == Rows([]))
    && (res != Rows([]) ==> 0 < n && res == trySite(sites[n - 1]))
    && (res == Rows([]) ==> n == |sites| && forall k :: 0 <= k < |sites| ==> trySite(sites[k]) == Rows([]))
  }

  /** The site trial has one outcome: the first site (hint first) that gave
      rows is the one taken, so no two results and no two lists of tried
      tokens both meet the contract. */
  lemma SiteTrialDeterministic(hint: string, sites: seq<string>, trySite: string -> Fetched,
                               res1: Fetched, tried1: seq<string>, res2: Fetched, tried2: seq<string>)
    requires SiteTrial(hint, sites, trySite, res1, tried1)
    requires SiteTrial(hint, sites, trySite, res2, tried2)
    ensures res1 == res2 && tried1 == tried2
  {
    if !(hint != "" && trySite(hint) != Rows([])) {
      var seed := HintTried(hint);
      var n1 :| StoppedAt(seed, sites, n1, trySite, res1, tried1);
      var n2 :| StoppedAt(seed, sites, n2, trySite, res2, tried2);
      StopsAtFirst(seed, sites, trySite, n1, res1, tried1, n2, res2, tried2);
      StopsAtFirst(seed, sites, trySite, n2, res2, tried2, n1, res1, tried1);
    }
  }

  lemma StopsAtFirst(seed: seq<string>, sites: seq<string>, trySite: string -> Fetched,
                     n1: nat, res1: Fetched, tried1: seq<string>, n2: nat, res2: Fetched, tried2: seq<string>)
    requires StoppedAt(seed, sites, n1, trySite, res1, tried1)
    requires StoppedAt(seed, sites, n2, trySite, res2, tried2)
    ensures n1 <= n2
    ensures n1 == n2 ==> res1 == res2 && tried1 == tried2
  {
  }

  /** fetch_workday past its host and tenant check: the site hint first,
      then the discovered sites not yet tried. */
  method TryHintThenSites(hint: string, branding: seq<string>, scraped: seq<string>, trySite: string -> Fetched)
    returns (res: Fetched, tried: seq<string>)
    ensures SiteTrial(hint, DiscoveredSites(hint, branding, scraped), trySite, res, tried)
  {
    tried := [];
    if hint != "" {
      tried := [hint];
      var r := trySite(hint);
      if r != Rows([]) {
        return r, tried;
      }
    }
    var sites := DiscoverSites(hint, branding, scraped);
    assert tried == HintTried(hint);
    ghost var stop;
    res, tried, stop := TrySites(hint, sites, tried, trySite);
    assert StoppedAt(HintTried(hint), sites, stop, trySite, res, tried);
  }

  /** No token of tried outside the hint and the candidates. */
  predicate Within(tried: seq<string>, hint: string, cands: seq<string>) {
    forall x :: x in tried ==> x == hint || x in cands
  }

  /** Trying one more candidate keeps tried free of duplicates and within
      the hint and the candidates so far. */
  lemma {:induction false} TriedStep(tried: seq<string>, hint: string, sites: seq<string>, i: nat)
    requires i < |sites| && sites[i] !in tried
    requires NoDuplicates(tried) && Within(tried, hint, sites[..i])
    ensures NoDuplicates(tried + [sites[i]])
    ensures Within(tried + [sites[i]], hint, sites[..i + 1])
  {
    var t := tried + [sites[i]];
    assert sites[..i + 1] == sites[..i] + [sites[i]];
    forall a, b | 0 <= a < b < |t| ensures t[a] != t[b] {
      if b == |tried| {
        assert t[a] == tried[a];
        assert tried[a] in tried;
      } else {
        assert t[a] == tried[a] && t[b] == tried[b];
      }
    }
    forall x | x in t ensures x == hint || x in sites[..i + 1] {
      if x != sites[i] {
        var k :| 0 <= k < |t| && t[k] == x;
        assert k < |tried| && tried[k] == x;
      }
    }
  }

  /** The loop of fetch_workday over the discovered sites, skipping the
      ones already tried and stopping at the first that gave rows. */
  method TrySites(hint: string, sites: seq<string>, tried0: seq<string>, trySite: string -> Fetched)
    returns (res: Fetched, tried: seq<string>, ghost stop: nat)
    requires NoDuplicates(tried0) && Within(tried0, hint, [])
    requires forall x :: x in tried0 ==> trySite(x) == Rows([])
    ensures |tried| >= |tried0| && tried[..|tried0|] == tried0
    ensures NoDuplicates(tried) && Within(tried, hint, sites)
    ensures forall k :: 0 <= k < |tried| - 1 ==> trySite(tried[k]) == Rows([])
    ensures res != Rows([]) ==> |tried| > |tried0| && res == trySite(tried[|tried| - 1])
    ensures res == Rows([]) ==> (forall x :: x in tried ==> trySite(x) == Rows([])) &&
                                 forall x :: x in sites ==> x in tried
    ensures StoppedAt(tried0, sites, stop, trySite, res, tried)
  {
    tried := tried0;
    var i := 0;
    while i < |sites|
      invariant 0 <= i <= |sites|
      invariant |tried| >= |tried0| && tried[..|tried0|] == tried0
      invariant NoDuplicates(tried) && Within(tried, hint, sites[..i])
      invariant forall x :: x in tried ==> trySite(x) == Rows([])
      invariant tried == TriedAfter(tried0, sites[..i])
    {
      var cand := sites[i];
      assert sites[..i + 1] == sites[..i] + [cand];
      assert sites[..i + 1][..i] == sites[..i];
      if cand !in tried {
        TriedStep(tried, hint, sites, i);
        BeforeStopEmpty(sites, i, tried, trySite);
        tried := tried + [cand];
        var r := trySite(cand);
        if r != Rows([]) {
          assert sites[..i + 1] + sites[i + 1..] == sites;
          return r, tried, i + 1;
        }
      }
      i := i + 1;
    }
    assert sites[..|sites|] == sites;
    BeforeStopEmpty(sites, |sites|, tried, trySite);
    res := Rows([]);
    stop := |sites|;
  }

  /** Every site of the walk so far was tried and gave no rows. */
  lemma BeforeStopEmpty(sites: seq<string>, n: nat, tried: seq<string>, trySite: string -> Fetched)
    requires n <= |sites|
    requires forall x :: x in sites[..n] ==> x in tried
    requires forall x :: x in tried ==> trySite(x) == Rows([])
    ensures forall k :: 0 <= k < n ==> trySite(sites[k]) == Rows([])
  {
    forall k | 0 <= k < n ensures trySite(sites[k]) == Rows([]) {
      assert sites[..n][k] == sites[k];
    }
  }

  // ---------------------------------------------------------------------
  // fetch_workable

  /** fetch_workable's account retry. tryAccount is what try_account gave for
      an account. The result is the outcome and the accounts tried, in order. */
  function WorkableAttempts(account: Option<string>, tryAccount: string -> Fetched): (r: (Fetched, seq<string>))
    ensures var acc := EntryText(account);
      && (acc == "" ==> r == (Rows([]), []))
      && (acc != "" ==> 1 <= |r.1| <= 2 && r.1[0] == acc && r.0 == tryAccount(r.1[|r.1| - 1]))
      && (|r.1| == 2 <==> acc != "" && tryAccount(acc) == Rows([]) && '-' in acc)
      && (|r.1| == 2 ==> r.1[1] == RemoveChar(acc, '-') && '-' !in r.1[1] && r.1[1] != acc)
  {
    var acc := EntryText(account);
    if acc == "" then (Rows([]), [])
    else
      var first := tryAccount(acc);
      if first == Rows([]) && '-' in acc then
        var second := RemoveChar(acc, '-');
        (tryAccount(second), [acc, second])
      else (first, [acc])
  }

  // ---------------------------------------------------------------------
  // The posted timestamp

  /** The posted-at fix-up: spaces become 'T' and a 'Z' is appended when the
      text is not empty and does not already end in 'Z'. */
  function FixPosted(s: string): (r: string)
    ensures ' ' !in r
    ensures r == "" <==> s == ""
    ensures r != "" ==> r[|r| - 1] == 'Z'
    ensures |r| == |s| || |r| == |s| + 1
    ensures forall k :: 0 <= k < |s| ==> r[k] == (if s[k] == ' ' then 'T' else s[k])
    ensures |r| == |s| + 1 <==> s != "" && s[|s| - 1] != 'Z'
  {
    var p := ReplaceChar(s, ' ', 'T');
    if p != "" && p[|p| - 1] != 'Z' then p + "Z" else p
  }

  /** Fixing a fixed timestamp changes nothing. */
  lemma FixPostedIdempotent(s: string)
    ensures FixPosted(FixPosted(s)) == FixPosted(s)
  {
    var r := FixPosted(s);
    assert ReplaceChar(r, ' ', 'T') == r;
  }

  // ---------------------------------------------------------------------
  // The iCIMS job id

  const JobsMarker: string := "/jobs/"

  /** "/jobs/" followed by a digit starts at position i. */
  predicate JobsAt(url: string, i: int) {
    0 <= i && i + |JobsMarker| < |url| && url[i..i + |JobsMarker|] == JobsMarker && IsDigit(url[i + |JobsMarker|])
  }

  /** The leading run of digits of s. */
  function Digits(s: string): (d: string)
    ensures |d| <= |s| && d == s[..|d|]
    ensures forall k :: 0 <= k < |d| ==> IsDigit(d[k])
    ensures |d| < |s| ==> !IsDigit(s[|d|])
  {
    if s != [] && IsDigit(s[0]) then [s[0]] + Digits(s[1..]) else []
  }

  /** The leftmost position from i on where the pattern matches. */
  function FindJobs(url: string, i: nat): (r: Option<nat>)
    ensures r.Some? ==> i <= r.value && JobsAt(url, r.value) && forall k :: i <= k < r.value ==> !JobsAt(url, k)
    ensures r.None? ==> forall k :: i <= k ==> !JobsAt(url, k)
    decreases |url| - i
  {
    if i + |JobsMarker| >= |url| then None
    else if JobsAt(url, i) then Some(i)
    else FindJobs(url, i + 1)
  }

  /** The iCIMS job id: re.search(r"/jobs/(\d+)", url) gives the digit run
      of the leftmost match; without a match the id is the url. */
  function IcimsJobId(url: string): (id: string)
    ensures (forall k :: !JobsAt(url, k)) ==> id == url
    ensures (exists k :: JobsAt(url, k)) ==>
      id != "" && (forall k :: 0 <= k < |id| ==> IsDigit(id[k]))
      && exists k :: JobsAt(url, k) && (forall j :: 0 <= j < k ==> !JobsAt(url, j))
                     && id == Digits(url[k + |JobsMarker|..])
  {
    match FindJobs(url, 0)
    case None => url
    case Some(k) => Digits(url[k + |JobsMarker|..])
  }
}
