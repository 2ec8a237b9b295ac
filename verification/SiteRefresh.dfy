/** Passes over every allowed organisation, and the periodic refresh of the installed map. */
module SiteRefresh {
  import opened Wrappers
  import opened SiteDiscovery

  /** What every organisation would list during one pass. */
  type Listings = string -> Listing

  /** The organisations whose pass failed or was cut short are `incomplete`. */
  datatype Discovery = Discovery(sites: Sites, incomplete: set<string>)

  function DiscoverFrom(listings: Listings, orgs: seq<string>, found: Discovery): Discovery
    decreases |orgs|
  {
    if orgs == [] then found
    else
      var pass := PassOver(listings(orgs[0]), found.sites, orgs[0]);
      DiscoverFrom(listings, orgs[1..], After(found, pass, orgs[0]))
  }

  /** What is found once `org` has been asked as well. */
  function After(found: Discovery, pass: OrgPass, org: string): Discovery {
    Discovery(pass.sites, if pass.outcome.Complete? then found.incomplete else found.incomplete + {org})
  }

  method DiscoverSites(listings: Listings, allowedOrgs: seq<string>) returns (found: Discovery)
    ensures found == DiscoverFrom(listings, allowedOrgs, Discovery(map[], {}))
  {
    var sites: Sites, incomplete: set<string> := map[], {};
    for k := 0 to |allowedOrgs|
      invariant DiscoverFrom(listings, allowedOrgs, Discovery(map[], {})) ==
                DiscoverFrom(listings, allowedOrgs[k..], Discovery(sites, incomplete))
    {
      var org := allowedOrgs[k];
      assert allowedOrgs[k..][1..] == allowedOrgs[k + 1..];
      var outcome;
      sites, outcome := DiscoverOrgSites(listings(org), org, sites);
      if !outcome.Complete? { incomplete := incomplete + {org}; }
    }
    found := Discovery(sites, incomplete);
  }

  /** `sites` holds a site for an organisation only if that organisation listed it. */
  ghost predicate OnlyListed(listings: Listings, sites: Sites) {
    forall id | id in sites :: id in Seen(listings(sites[id]))
  }

  /** Whatever the organisations answer: the cap holds, and every entry names an organisation
      asked and was listed by it. */
  lemma {:induction false} DiscoveryIsListed(listings: Listings, orgs: seq<string>, found: Discovery)
    requires |found.sites| <= MAX_TOTAL_SITES && OnlyListed(listings, found.sites)
    ensures
      var end := DiscoverFrom(listings, orgs, found);
      && |end.sites| <= MAX_TOTAL_SITES && OnlyListed(listings, end.sites)
      && found.sites.Keys <= end.sites.Keys
      && found.incomplete <= end.incomplete
      && (forall id | id in end.sites ::
            end.sites[id] in orgs || (id in found.sites && found.sites[id] == end.sites[id]))
      && (forall org | org in end.incomplete :: org in orgs || org in found.incomplete)
    decreases |orgs|
  {
    hide PassOver;
    hide Seen;
    if orgs != [] {
      PassOverExact(listings(orgs[0]), found.sites, orgs[0]);
      var pass := PassOver(listings(orgs[0]), found.sites, orgs[0]);
      DiscoveryIsListed(listings, orgs[1..], After(found, pass, orgs[0]));
    }
  }

  /** Nothing an organisation lists is missing once its pass completes, and it keeps what no
      organisation asked after it lists as well. */
  lemma {:induction false} CompleteOrgIsFound(listings: Listings, orgs: seq<string>, found: Discovery, org: string,
                                              id: string)
    requires |found.sites| <= MAX_TOTAL_SITES && OnlyListed(listings, found.sites)
    requires org in orgs && org !in DiscoverFrom(listings, orgs, found).incomplete && id in Seen(listings(org))
    ensures
      var end := DiscoverFrom(listings, orgs, found);
      && id in end.sites
      && ((forall other | other in orgs && other != org :: id !in Seen(listings(other))) ==> end.sites[id] == org)
    decreases |orgs|
  {
    hide PassOver;
    hide Seen;
    PassOverExact(listings(orgs[0]), found.sites, orgs[0]);
    var pass := PassOver(listings(orgs[0]), found.sites, orgs[0]);
    var next := After(found, pass, orgs[0]);
    assert OnlyListed(listings, next.sites);
    DiscoveryIsListed(listings, orgs[1..], next);
    if org in orgs[1..] {
      CompleteOrgIsFound(listings, orgs[1..], next, org, id);
    } else {
      assert org == orgs[0] && id in next.sites;
      var end := DiscoverFrom(listings, orgs[1..], next);
      assert end.sites[id] != org ==> end.sites[id] in orgs[1..] && id in Seen(listings(end.sites[id]));
    }
  }

  /** The pass over `orgs[k]`, on top of what was found before it, was made over `org` and not complete. */
  predicate FallsShort(listings: Listings, orgs: seq<string>, found: Discovery, org: string, k: int) {
    && 0 <= k < |orgs| && orgs[k] == org
    && PassOver(listings(org), DiscoverFrom(listings, orgs[..k], found).sites, org).outcome != Complete
  }

  /** An organisation is incomplete exactly when some pass over it was. */
  lemma {:induction false} IncompleteIff(listings: Listings, orgs: seq<string>, found: Discovery, org: string)
    ensures org in DiscoverFrom(listings, orgs, found).incomplete <==>
            org in found.incomplete || exists k :: FallsShort(listings, orgs, found, org, k)
    decreases |orgs|
  {
    if orgs != [] {
      var next := After(found, PassOver(listings(orgs[0]), found.sites, orgs[0]), orgs[0]);
      IncompleteIff(listings, orgs[1..], next, org);
      FirstFallsShort(listings, orgs, found, next, org);
      assert DiscoverFrom(listings, orgs, found) == DiscoverFrom(listings, orgs[1..], next);
      forall k ensures FallsShort(listings, orgs[1..], next, org, k) ==> FallsShort(listings, orgs, found, org, k + 1) {
        if 0 <= k < |orgs| - 1 { FallsShortLater(listings, orgs, found, next, org, k); }
      }
      forall k | k > 0
        ensures FallsShort(listings, orgs, found, org, k) ==> FallsShort(listings, orgs[1..], next, org, k - 1)
      {
        if k < |orgs| { FallsShortLater(listings, orgs, found, next, org, k - 1); }
      }
      hide *;
      ShiftedIff(listings, orgs, found, next, org);
    }
  }

  lemma ShiftedIff(listings: Listings, orgs: seq<string>, found: Discovery, next: Discovery, org: string)
    requires orgs != []
    requires forall k ::
               FallsShort(listings, orgs[1..], next, org, k) ==> FallsShort(listings, orgs, found, org, k + 1)
    requires forall k | k > 0 ::
               FallsShort(listings, orgs, found, org, k) ==> FallsShort(listings, orgs[1..], next, org, k - 1)
    requires org in next.incomplete <==> org in found.incomplete || FallsShort(listings, orgs, found, org, 0)
    ensures (org in next.incomplete || exists k :: FallsShort(listings, orgs[1..], next, org, k)) <==>
            (org in found.incomplete || exists k :: FallsShort(listings, orgs, found, org, k))
  {
    if k :| FallsShort(listings, orgs, found, org, k) { assert k >= 0; }
    hide FallsShort;
  }

  lemma FirstFallsShort(listings: Listings, orgs: seq<string>, found: Discovery, next: Discovery, org: string)
    requires orgs != [] && next == After(found, PassOver(listings(orgs[0]), found.sites, orgs[0]), orgs[0])
    ensures org in next.incomplete <==> org in found.incomplete || FallsShort(listings, orgs, found, org, 0)
  {
    hide PassOver;
    assert orgs[..0] == [];
  }

  lemma FallsShortLater(listings: Listings, orgs: seq<string>, found: Discovery, next: Discovery, org: string, k: nat)
    requires k + 1 < |orgs| && next == After(found, PassOver(listings(orgs[0]), found.sites, orgs[0]), orgs[0])
    ensures FallsShort(listings, orgs[1..], next, org, k) <==> FallsShort(listings, orgs, found, org, k + 1)
  {
    hide PassOver;
    assert orgs[..k + 1][0] == orgs[0] && orgs[..k + 1][1..] == orgs[1..][..k];
  }

  // ----- merging a pass into what was known -----

  predicate Kept(found: Discovery, previous: Sites, id: string) {
    id in previous && previous[id] in found.incomplete
  }

  predicate Fresh(found: Discovery, id: string) {
    id in found.sites && found.sites[id] !in found.incomplete
  }

  /** An incomplete organisation's previous entries win over whatever the pass found. */
  function Refresh(found: Discovery, previous: Sites): Sites {
    map id | id in previous.Keys + found.sites.Keys && (Kept(found, previous, id) || Fresh(found, id)) ::
      if Kept(found, previous, id) then previous[id] else found.sites[id]
  }

  method MergeRefresh(found: Discovery, previous: Sites) returns (sites: Sites)
    ensures sites == Refresh(found, previous)
  {
    sites := found.sites;
    if found.incomplete != {} {
      sites := map id | id in sites && sites[id] !in found.incomplete :: sites[id];
      var rest := previous.Keys;
      while rest != {}
        invariant rest <= previous.Keys
        invariant forall id :: id in sites <==> Fresh(found, id) || (Kept(found, previous, id) && id !in rest)
        invariant forall id | id in sites ::
                    sites[id] == if Kept(found, previous, id) && id !in rest then previous[id] else found.sites[id]
        decreases rest
      {
        var id :| id in rest;
        if previous[id] in found.incomplete { sites := sites[id := previous[id]]; }
        rest := rest - {id};
      }
    }
  }

  /** For each incomplete organisation the merge keeps exactly the previous entries; for the
      others it has exactly what the pass found, less what an incomplete one still holds. */
  lemma RefreshExact(found: Discovery, previous: Sites, org: string, id: string)
    ensures
      var merged := Refresh(found, previous);
      if org in found.incomplete then
        (id in merged && merged[id] == org <==> id in previous && previous[id] == org)
      else
        (id in merged && merged[id] == org <==>
           id in found.sites && found.sites[id] == org && !Kept(found, previous, id))
  {
  }

  // ----- the installed map -----

  predicate ValidSites(sites: Sites, allowedOrgs: seq<string>) {
    && |sites| <= MAX_TOTAL_SITES
    && forall id | id in sites :: CanonicalUuid(id) && CanonicalUuid(sites[id]) && sites[id] in allowedOrgs
  }

  /** The map after one refresh: all of the merged map, or nothing of it. */
  function Refreshed(allowedOrgs: seq<string>, sites: Sites, listings: Listings): Sites {
    var merged := Refresh(DiscoverFrom(listings, allowedOrgs, Discovery(map[], {})), sites);
    if ValidSites(merged, allowedOrgs) then merged else sites
  }

  function RefreshRun(allowedOrgs: seq<string>, sites: Sites, passes: seq<Listings>): Sites
    decreases |passes|
  {
    if passes == [] then sites
    else RefreshRun(allowedOrgs, Refreshed(allowedOrgs, sites, passes[0]), passes[1..])
  }

  /** The part of the handler that holds the site map. */
  class SiteTable {
    const allowedOrgs: seq<string>
    var sites: Sites

    constructor (allowedOrgs: seq<string>)
      ensures this.allowedOrgs == allowedOrgs && sites == map[]
    {
      this.allowedOrgs := allowedOrgs;
      sites := map[];
    }

    method ReplaceSites(next: Sites) returns (ok: bool)
      modifies this
      ensures ok <==>
                && |next| <= 4096
                && forall id | id in next :: CanonicalUuid(id) && CanonicalUuid(next[id]) && next[id] in allowedOrgs
      ensures sites == if ok then next else old(sites)
    {
      ok := ValidSites(next, allowedOrgs);
      if ok { sites := next; }
    }

    method SitesSnapshot() returns (current: Sites)
      ensures current == sites
    {
      current := sites;
    }

    /** One turn of the refresh loop. */
    method RefreshOnce(listings: Listings)
      modifies this
      ensures sites == Refreshed(allowedOrgs, old(sites), listings)
    {
      var previous := SitesSnapshot();
      var discovered := DiscoverSites(listings, allowedOrgs);
      var merged := MergeRefresh(discovered, previous);
      var ok := ReplaceSites(merged);
    }

    /** The refresh loop, for as long as it has run. */
    method RefreshLoop(passes: seq<Listings>)
      modifies this
      ensures sites == RefreshRun(allowedOrgs, old(sites), passes)
    {
      ghost var before := sites;
      for k := 0 to |passes|
        invariant RefreshRun(allowedOrgs, before, passes) == RefreshRun(allowedOrgs, sites, passes[k..])
      {
        assert passes[k..][1..] == passes[k + 1..];
        RefreshOnce(passes[k]);
      }
    }
  }

  // ----- every sequence of passes -----

  ghost predicate CanonicalOrgs(allowedOrgs: seq<string>) {
    forall org | org in allowedOrgs :: CanonicalUuid(org)
  }

  /** An install is refused exactly when the merged map is over the cap. */
  lemma RefusedIffTooMany(allowedOrgs: seq<string>, sites: Sites, listings: Listings)
    requires CanonicalOrgs(allowedOrgs) && ValidSites(sites, allowedOrgs)
    ensures
      var merged := Refresh(DiscoverFrom(listings, allowedOrgs, Discovery(map[], {})), sites);
      !ValidSites(merged, allowedOrgs) <==> |merged| > MAX_TOTAL_SITES
  {
    FoundEntriesAreValid(listings, allowedOrgs);
    hide DiscoverFrom;
    hide CanonicalUuid;
  }

  lemma FoundEntriesAreValid(listings: Listings, allowedOrgs: seq<string>)
    ensures
      var found := DiscoverFrom(listings, allowedOrgs, Discovery(map[], {}));
      forall id | id in found.sites :: CanonicalUuid(id) && found.sites[id] in allowedOrgs
  {
    hide CanonicalUuid;
    var found := DiscoverFrom(listings, allowedOrgs, Discovery(map[], {}));
    DiscoveryIsListed(listings, allowedOrgs, Discovery(map[], {}));
    hide DiscoverFrom;
    hide Seen;
    forall id | id in found.sites ensures CanonicalUuid(id) {
      SeenAreCanonical(listings(found.sites[id]), id);
    }
  }

  lemma SeenAreCanonical(listing: Listing, id: string)
    requires id in Seen(listing)
    ensures CanonicalUuid(id)
  {
    PassIsWhole(listing, map[], "");
    var last := LastPage(listing, 1);
    hide LastPage;
    OnPagesAreCanonical(listing, 1, last, id);
  }

  lemma {:induction false} OnPagesAreCanonical(listing: Listing, page: nat, last: nat, id: string)
    requires id in IdsOn(listing, page, last)
    ensures CanonicalUuid(id)
    decreases last + 1 - page
  {
    hide CanonicalUuid;
    if id !in Ids(listing(page).entries) { OnPagesAreCanonical(listing, page + 1, last, id); }
  }

  /** Every map the loop installs passes the handler's own validation: it is under the cap, and each of its
      entries gives a canonical site, in lower case and not all zeros, to an allowed organisation. */
  lemma {:induction false} RunStaysValid(allowedOrgs: seq<string>, sites: Sites, passes: seq<Listings>)
    requires ValidSites(sites, allowedOrgs)
    ensures ValidSites(RefreshRun(allowedOrgs, sites, passes), allowedOrgs)
    ensures
      var end := RefreshRun(allowedOrgs, sites, passes);
      && |end| <= 4096
      && forall id | id in end ::
           && end[id] in allowedOrgs && |id| == 36
           && (forall i | 0 <= i < 36 :: id[i] == '-' || '0' <= id[i] <= '9' || 'a' <= id[i] <= 'f')
           && (forall i | 0 <= i < 36 :: id[i] == '-' <==> i in {8, 13, 18, 23})
           && exists i | 0 <= i < 36 :: id[i] != '-' && id[i] != '0'
    decreases |passes|
  {
    hide ValidSites;
    hide Refresh;
    hide DiscoverFrom;
    if passes != [] {
      RunStaysValid(allowedOrgs, Refreshed(allowedOrgs, sites, passes[0]), passes[1..]);
    } else {
      ValidEntries(sites, allowedOrgs);
    }
  }

  lemma ValidEntries(sites: Sites, allowedOrgs: seq<string>)
    requires ValidSites(sites, allowedOrgs)
    ensures |sites| <= 4096
    ensures forall id | id in sites ::
              && sites[id] in allowedOrgs && |id| == 36
              && (forall i | 0 <= i < 36 :: id[i] == '-' || '0' <= id[i] <= '9' || 'a' <= id[i] <= 'f')
              && (forall i | 0 <= i < 36 :: id[i] == '-' <==> i in {8, 13, 18, 23})
              && exists i | 0 <= i < 36 :: id[i] != '-' && id[i] != '0'
  {
    forall id | id in sites
      ensures
        && |id| == 36
        && (forall i | 0 <= i < 36 :: id[i] == '-' || '0' <= id[i] <= '9' || 'a' <= id[i] <= 'f')
        && (forall i | 0 <= i < 36 :: id[i] == '-' <==> i in {8, 13, 18, 23})
        && exists i | 0 <= i < 36 :: id[i] != '-' && id[i] != '0'
    {
      CanonicalIff(id);
    }
    hide CanonicalUuid;
  }

  /** A canonical identifier is 36 characters, hyphens at four places and lower-case hexadecimal digits
      elsewhere, not all of them zero. */
  lemma CanonicalIff(id: string)
    ensures CanonicalUuid(id) <==>
            && |id| == 36
            && (forall i | 0 <= i < 36 :: id[i] == '-' || '0' <= id[i] <= '9' || 'a' <= id[i] <= 'f')
            && (forall i | 0 <= i < 36 :: id[i] == '-' <==> i in {8, 13, 18, 23})
            && exists i | 0 <= i < 36 :: id[i] != '-' && id[i] != '0'
  {
    if CanonicalUuid(id) {
      var i :| 0 <= i < 36 && i !in {8, 13, 18, 23} && id[i] != '0';
      assert id[i] != '-';
    }
  }

  lemma RefreshedIsValid(allowedOrgs: seq<string>, sites: Sites, listings: Listings)
    requires ValidSites(sites, allowedOrgs)
    ensures ValidSites(Refreshed(allowedOrgs, sites, listings), allowedOrgs)
  {
    hide ValidSites;
    hide Refresh;
    hide DiscoverFrom;
  }

  /** A pass that completed for `org` and fitted under the cap. */
  ghost predicate CompletedFor(allowedOrgs: seq<string>, sites: Sites, listings: Listings, org: string) {
    var found := DiscoverFrom(listings, allowedOrgs, Discovery(map[], {}));
    org !in found.incomplete && |Refresh(found, sites)| <= MAX_TOTAL_SITES
  }

  /** If a run of the loop drops a site or gives it to another organisation, some pass of it did
      so to a map in which `org` still held the site, and that pass completed for `org`. */
  lemma {:induction false} DroppedOnlyByCompletePass(allowedOrgs: seq<string>, sites: Sites, passes: seq<Listings>,
                                                    id: string, org: string) returns (k: nat)
    requires CanonicalOrgs(allowedOrgs) && ValidSites(sites, allowedOrgs)
    requires id in sites && sites[id] == org
    requires
      var end := RefreshRun(allowedOrgs, sites, passes);
      !(id in end && end[id] == org)
    ensures k < |passes|
    ensures
      var held := RefreshRun(allowedOrgs, sites, passes[..k]);
      id in held && held[id] == org && CompletedFor(allowedOrgs, held, passes[k], org)
    decreases |passes|
  {
    hide ValidSites;
    hide CanonicalUuid;
    hide CanonicalOrgs;
    hide CompletedFor;
    hide Refreshed;
    var next := Refreshed(allowedOrgs, sites, passes[0]);
    if id in next && next[id] == org {
      RefreshedIsValid(allowedOrgs, sites, passes[0]);
      var j := DroppedOnlyByCompletePass(allowedOrgs, next, passes[1..], id, org);
      k := j + 1;
      assert passes[..k][0] == passes[0] && passes[..k][1..] == passes[1..][..j];
    } else {
      k := 0;
      assert passes[..0] == [];
      DroppedAtOnce(allowedOrgs, sites, passes[0], id, org);
    }
  }

  lemma DroppedAtOnce(allowedOrgs: seq<string>, sites: Sites, listings: Listings, id: string, org: string)
    requires CanonicalOrgs(allowedOrgs) && ValidSites(sites, allowedOrgs) && id in sites && sites[id] == org
    requires
      var next := Refreshed(allowedOrgs, sites, listings);
      !(id in next && next[id] == org)
    ensures CompletedFor(allowedOrgs, sites, listings, org)
  {
    RefusedIffTooMany(allowedOrgs, sites, listings);
    hide ValidSites;
    RefreshExact(DiscoverFrom(listings, allowedOrgs, Discovery(map[], {})), sites, org, id);
    hide Refresh;
    hide DiscoverFrom;
  }

  // ----- a refused install -----

  function HexDigit(d: nat): char
    requires d < 16
  {
    if d < 10 then '0' + d as char else 'a' + (d - 10) as char
  }

  function UuidChar(n: nat, i: nat): char {
    if i == 8 || i == 13 || i == 18 || i == 23 then '-'
    else if i == 35 then HexDigit(n % 16)
    else if i == 34 then HexDigit(n / 16 % 16)
    else if i == 33 then HexDigit(n / 16 / 16 % 16)
    else if i == 32 then HexDigit(n / 16 / 16 / 16 % 16)
    else '1'
  }

  /** A canonical identifier for each number below 65536. */
  function Uuid(n: nat): string {
    seq(36, i requires 0 <= i < 36 => UuidChar(n, i))
  }

  lemma UuidsAreDistinct(m: nat, n: nat)
    requires m < 0x1_0000 && n < 0x1_0000 && Uuid(m) == Uuid(n)
    ensures m == n
  {
    forall i | 32 <= i < 36 ensures UuidChar(m, i) == UuidChar(n, i) {
      assert Uuid(m)[i] == Uuid(n)[i];
    }
    hide Uuid;
    assert UuidChar(m, 32) == UuidChar(n, 32) && UuidChar(m, 33) == UuidChar(n, 33);
    assert UuidChar(m, 34) == UuidChar(n, 34) && UuidChar(m, 35) == UuidChar(n, 35);
    HexDigitsDiffer(m % 16, n % 16);
    HexDigitsDiffer(m / 16 % 16, n / 16 % 16);
    HexDigitsDiffer(m / 16 / 16 % 16, n / 16 / 16 % 16);
    HexDigitsDiffer(m / 16 / 16 / 16 % 16, n / 16 / 16 / 16 % 16);
    hide *;
    DigitsDetermine(m, n);
  }

  lemma DigitsDetermine(m: nat, n: nat)
    requires m < 0x1_0000 && n < 0x1_0000
    requires m % 16 == n % 16 && m / 16 % 16 == n / 16 % 16 && m / 16 / 16 % 16 == n / 16 / 16 % 16
    requires m / 16 / 16 / 16 % 16 == n / 16 / 16 / 16 % 16
    ensures m == n
  {
    SameDigit(m / 16 / 16 / 16, n / 16 / 16 / 16, 0);
    SameDigit(m / 16 / 16, n / 16 / 16, m / 16 / 16 / 16);
    SameDigit(m / 16, n / 16, m / 16 / 16);
    SameDigit(m, n, m / 16);
  }

  lemma SameDigit(m: nat, n: nat, high: nat)
    requires m / 16 == n / 16 == high && m % 16 == n % 16
    ensures m == n
  {
  }

  lemma HexDigitsDiffer(a: nat, b: nat)
    requires a < 16 && b < 16 && HexDigit(a) == HexDigit(b)
    ensures a == b
  {
  }

  lemma UuidIsCanonical(n: nat)
    ensures CanonicalUuid(Uuid(n))
  {
    forall i | 0 <= i < 36
      ensures if i in {8, 13, 18, 23} then Uuid(n)[i] == '-' else '0' <= Uuid(n)[i] <= '9' || 'a' <= Uuid(n)[i] <= 'f'
    {
      assert Uuid(n)[i] == UuidChar(n, i);
    }
    assert Uuid(n)[0] == UuidChar(n, 0) == '1';
  }

  /** The first `n` of them, all held by `org`. */
  function FirstSites(n: nat, org: string): Sites {
    if n == 0 then map[] else FirstSites(n - 1, org)[Uuid(n - 1) := org]
  }

  lemma {:induction false} FirstSitesCount(n: nat, org: string)
    requires n < 0x1_0000
    ensures |FirstSites(n, org)| == n
    ensures forall id | id in FirstSites(n, org) :: CanonicalUuid(id) && FirstSites(n, org)[id] == org
    ensures forall k: nat | n <= k < 0x1_0000 :: Uuid(k) !in FirstSites(n, org)
  {
    if n > 0 {
      FirstSitesCount(n - 1, org);
      UuidIsCanonical(n - 1);
      forall k: nat | n <= k < 0x1_0000 ensures Uuid(k) != Uuid(n - 1) {
        if Uuid(k) == Uuid(n - 1) { UuidsAreDistinct(k, n - 1); }
      }
      hide CanonicalUuid;
      hide Uuid;
    }
  }

  const LARGE_PAGES := 41

  /** The numbers of the sites on a page of a listing of as many sites as the cap allows. */
  function PageStart(page: nat): nat {
    if page == 0 then 0 else PAGE_LIMIT * (page - 1)
  }

  function PageSize(page: nat): nat {
    if PageStart(page) + PAGE_LIMIT <= MAX_TOTAL_SITES then PAGE_LIMIT
    else if PageStart(page) <= MAX_TOTAL_SITES then MAX_TOTAL_SITES - PageStart(page)
    else 0
  }

  function PageOf(page: nat): seq<Option<string>> {
    seq(PageSize(page), i requires 0 <= i < PageSize(page) => Some(Uuid(PageStart(page) + i)))
  }

  function LargeListing(): Listing {
    (page: nat) => Listed(PageOf(page))
  }

  function UuidsFrom(first: nat): set<string> {
    set k | first <= k < MAX_TOTAL_SITES :: Uuid(k)
  }

  lemma PageIds(page: nat)
    requires 1 <= page <= LARGE_PAGES
    ensures Ids(PageOf(page)) + UuidsFrom(PageStart(page + 1)) == UuidsFrom(PageStart(page))
  {
    var entries, start := PageOf(page), PageStart(page);
    forall i | 0 <= i < |entries| ensures entries[i] == Some(Uuid(start + i)) && CanonicalUuid(Uuid(start + i)) {
      UuidIsCanonical(start + i);
    }
    hide CanonicalUuid;
    hide Uuid;
    forall k | start <= k < start + |entries| ensures Uuid(k) in Ids(entries) {
      assert entries[k - start] == Some(Uuid(k));
    }
  }

  lemma {:induction false} LargeLast(page: nat)
    requires 1 <= page <= LARGE_PAGES
    ensures LastPage(LargeListing(), page) == LARGE_PAGES
    decreases LARGE_PAGES - page
  {
    hide Uuid;
    if page < LARGE_PAGES { LargeLast(page + 1); }
  }

  lemma {:induction false} LargeIds(page: nat)
    requires 1 <= page <= LARGE_PAGES + 1
    ensures IdsOn(LargeListing(), page, LARGE_PAGES) == UuidsFrom(PageStart(page))
    decreases LARGE_PAGES + 1 - page
  {
    hide PageOf;
    hide Ids;
    if page <= LARGE_PAGES {
      PageIds(page);
      LargeIds(page + 1);
      hide UuidsFrom;
    } else {
      assert UuidsFrom(PageStart(page)) == {};
    }
  }

  lemma {:induction false} FirstSitesKeys(n: nat, org: string)
    ensures FirstSites(n, org).Keys == set k | 0 <= k < n :: Uuid(k)
  {
    hide Uuid;
    if n > 0 { FirstSitesKeys(n - 1, org); }
  }

  /** A pass over the large listing fills the map exactly to the cap, and is complete. */
  lemma LargePass(org: string, full: Sites)
    requires full == FirstSites(MAX_TOTAL_SITES, org)
    ensures PassOver(LargeListing(), map[], org) == OrgPass(full, Complete)
  {
    hide *;
    var listing := LargeListing();
    TheCap(MAX_TOTAL_SITES);
    FirstSitesCount(MAX_TOTAL_SITES, org);
    FirstSitesKeys(MAX_TOTAL_SITES, org);
    FirstPage();
    AllUuids();
    LargeLast(1);
    LargeIds(1);
    LargeListingAnswers(LARGE_PAGES);
    KeysOfNone(map[], full.Keys);
    assert |full.Keys| == |full|;
    CompleteIff(listing, map[], org, 1, full.Keys);
    CompletePassExact(listing, map[], org, 1);
    PassIsWhole(listing, map[], org);
    AssignedFrom(full, org);
  }

  lemma AllUuids()
    ensures UuidsFrom(PageStart(1)) == set k | 0 <= k < MAX_TOTAL_SITES :: Uuid(k)
    ensures 1 <= LARGE_PAGES
  {
    hide Uuid;
  }

  lemma KeysOfNone(none: Sites, keys: set<string>)
    requires none == map[]
    ensures none.Keys + keys == keys && |none| == 0 <= MAX_TOTAL_SITES
  {
  }

  lemma AssignedFrom(full: Sites, org: string)
    requires forall id | id in full :: full[id] == org
    ensures Assigned(map[], full.Keys, org) == full
  {
  }

  lemma LargeListingAnswers(page: nat)
    ensures LargeListing()(page).Listed?
  {
  }

  /** One organisation fails; the other lists as many sites as the cap allows. */
  function OneFails(complete: string): Listings {
    (org: string) => if org == complete then LargeListing() else (page: nat) => Failed
  }

  lemma FailedPass(listing: Listing, sites: Sites, org: string)
    requires forall page :: listing(page) == Failed
    ensures PassOver(listing, sites, org) == OrgPass(sites, Error)
  {
  }

  lemma OneFailsDiscovery(complete: string, incomplete: string, full: Sites)
    requires complete != incomplete && full == FirstSites(MAX_TOTAL_SITES, complete)
    ensures DiscoverFrom(OneFails(complete), [complete, incomplete], Discovery(map[], {})) ==
            Discovery(full, {incomplete})
  {
    LargePass(complete, full);
    FailedPass(OneFails(complete)(incomplete), full, incomplete);
    hide PassOver;
    hide FirstSites;
    hide LargeListing;
    var listings, orgs := OneFails(complete), [complete, incomplete];
    assert orgs[1..] == [incomplete] && orgs[1..][1..] == [];
    assert DiscoverFrom(listings, [], Discovery(full, {incomplete})) == Discovery(full, {incomplete});
    assert DiscoverFrom(listings, [incomplete], Discovery(full, {})) == Discovery(full, {} + {incomplete});
  }

  /** The cap on a pass does not keep a refresh from being refused as too large. One organisation
      lists, on 41 pages, as many sites as the cap allows; the other fails, and keeps one site. The
      merged map is one too many: nothing is installed, though the pass stayed under the cap. */
  lemma RefreshMayBeRefused(complete: string, incomplete: string) returns (listings: Listings, previous: Sites)
    requires CanonicalUuid(complete) && CanonicalUuid(incomplete) && complete != incomplete
    ensures ValidSites(previous, [complete, incomplete])
    ensures
      var found := DiscoverFrom(listings, [complete, incomplete], Discovery(map[], {}));
      && |found.sites| == MAX_TOTAL_SITES && found.incomplete == {incomplete}
      && |Refresh(found, previous)| == MAX_TOTAL_SITES + 1
      && Refreshed([complete, incomplete], previous, listings) == previous != Refresh(found, previous)
  {
    hide *;
    var n := MAX_TOTAL_SITES;
    TheCap(n);
    var extra, full := Uuid(n), FirstSites(n, complete);
    FirstSitesCount(n, complete);
    UuidIsCanonical(n);
    listings, previous := OneFails(complete), map[extra := incomplete];
    OneFailsDiscovery(complete, incomplete, full);
    OneTooMany(listings, previous, full, extra, complete, incomplete);
  }

  lemma TheCap(n: int)
    requires n == MAX_TOTAL_SITES
    ensures 0 <= n < 0x1_0000
  {
  }

  lemma OneTooMany(listings: Listings, previous: Sites, full: Sites, extra: string, complete: string,
                   incomplete: string)
    requires CanonicalUuid(extra) && CanonicalUuid(incomplete) && complete != incomplete
    requires |full| == MAX_TOTAL_SITES && extra !in full && forall id | id in full :: full[id] == complete
    requires DiscoverFrom(listings, [complete, incomplete], Discovery(map[], {})) == Discovery(full, {incomplete})
    requires previous == map[extra := incomplete]
    ensures ValidSites(previous, [complete, incomplete])
    ensures |Refresh(Discovery(full, {incomplete}), previous)| == MAX_TOTAL_SITES + 1
    ensures Refreshed([complete, incomplete], previous, listings) == previous
    ensures previous != Refresh(Discovery(full, {incomplete}), previous)
  {
    hide CanonicalUuid;
    hide DiscoverFrom;
    MergedWithExtra(full, extra, complete, incomplete);
    hide Refresh;
  }

  lemma MergedWithExtra(full: Sites, extra: string, complete: string, incomplete: string)
    requires complete != incomplete && extra !in full && forall id | id in full :: full[id] == complete
    ensures Refresh(Discovery(full, {incomplete}), map[extra := incomplete]) == full[extra := incomplete]
    ensures |full[extra := incomplete]| == |full| + 1
  {
  }
}
