/** Discovery of the site-to-organisation map, page by page, and its periodic refresh. */
module SiteDiscovery {
  import opened Wrappers

  const PAGE_LIMIT := 100
  const MAX_PAGES_PER_ORG := 64
  const MAX_TOTAL_SITES := 4096

  /** Site identifier to the organisation that holds it. */
  type Sites = map<string, string>

  /** What one page request brings back: a listed entry may have no string identifier. */
  datatype PageReply = Failed | Listed(entries: seq<Option<string>>)

  /** An organisation's listing: the reply to the request for each page number. */
  type Listing = nat -> PageReply

  datatype OrgOutcome = Complete | Truncated | Error

  predicate CanonicalUuid(id: string) {
    && |id| == 36
    && (forall i | 0 <= i < 36 ::
          if i in {8, 13, 18, 23} then id[i] == '-' else '0' <= id[i] <= '9' || 'a' <= id[i] <= 'f')
    && exists i | 0 <= i < 36 :: i !in {8, 13, 18, 23} && id[i] != '0'
  }

  // ----- one organisation -----

  datatype Fill = Fill(sites: Sites, full: bool)

  /** A page's entries, one by one, until the cap stops a new one. */
  function FillFrom(sites: Sites, entries: seq<Option<string>>, org: string): Fill
    decreases |entries|
  {
    if entries == [] then Fill(sites, false)
    else if entries[0].None? || !CanonicalUuid(entries[0].value) then FillFrom(sites, entries[1..], org)
    else if |sites| >= MAX_TOTAL_SITES && entries[0].value !in sites then Fill(sites, true)
    else FillFrom(sites[entries[0].value := org], entries[1..], org)
  }

  datatype OrgPass = OrgPass(sites: Sites, outcome: OrgOutcome)

  /** An organisation's pass from page `page` on. */
  function PassFrom(listing: Listing, sites: Sites, org: string, page: nat): OrgPass
    decreases MAX_PAGES_PER_ORG + 1 - page
  {
    if page > MAX_PAGES_PER_ORG then OrgPass(sites, Complete)
    else match listing(page)
      case Failed => OrgPass(sites, Error)
      case Listed(entries) =>
        var fill := FillFrom(sites, entries, org);
        if fill.full then OrgPass(fill.sites, Truncated)
        else if |entries| < PAGE_LIMIT then OrgPass(fill.sites, Complete)
        else PassFrom(listing, fill.sites, org, page + 1)
  }

  /** A whole pass over one organisation. */
  function PassOver(listing: Listing, sites: Sites, org: string): OrgPass {
    PassFrom(listing, sites, org, 1)
  }

  method DiscoverOrgSites(listing: Listing, org: string, before: Sites) returns (sites: Sites, outcome: OrgOutcome)
    ensures OrgPass(sites, outcome) == PassOver(listing, before, org)
  {
    sites := before;
    var page := 1;
    while page <= MAX_PAGES_PER_ORG
      invariant 1 <= page <= MAX_PAGES_PER_ORG + 1
      invariant PassFrom(listing, before, org, 1) == PassFrom(listing, sites, org, page)
      decreases MAX_PAGES_PER_ORG + 1 - page
    {
      var reply := listing(page);
      if reply.Failed? { return sites, Error; }
      var entries, k := reply.entries, 0;
      ghost var first := sites;
      while k < |entries|
        invariant k <= |entries|
        invariant FillFrom(first, entries, org) == FillFrom(sites, entries[k..], org)
      {
        var entry := entries[k];
        k := k + 1;
        assert entries[k - 1..][1..] == entries[k..];
        if entry.None? || !CanonicalUuid(entry.value) { continue; }
        if |sites| >= MAX_TOTAL_SITES && entry.value !in sites { return sites, Truncated; }
        sites := sites[entry.value := org];
      }
      if |entries| < PAGE_LIMIT { return sites, Complete; }
      page := page + 1;
    }
    outcome := Complete;
  }

  /** The canonical identifiers among a page's entries. */
  function Ids(entries: seq<Option<string>>): set<string> {
    set k | 0 <= k < |entries| && entries[k].Some? && CanonicalUuid(entries[k].value) :: entries[k].value
  }

  /** `sites` with every one of `ids` assigned to `org`. */
  function Assigned(sites: Sites, ids: set<string>, org: string): Sites {
    map id | id in sites.Keys + ids :: if id in ids then org else sites[id]
  }

  /** `sites'` differs from `sites` only in having some of `ids` assigned to `org`. */
  predicate Within(sites: Sites, sites': Sites, ids: set<string>, org: string) {
    && sites.Keys <= sites'.Keys
    && forall id | id in sites' :: (id in ids && sites'[id] == org) || (id in sites && sites'[id] == sites[id])
  }

  lemma WithinTwice(a: Sites, b: Sites, d: Sites, ids: set<string>, more: set<string>, all: set<string>, org: string)
    requires Within(a, b, ids, org) && Within(b, d, more, org) && ids <= all && more <= all
    ensures Within(a, d, all, org)
  {
  }

  lemma AssignedTwice(sites: Sites, ids: set<string>, more: set<string>, org: string)
    ensures Assigned(Assigned(sites, ids, org), more, org) == Assigned(sites, ids + more, org)
  {
  }

  lemma AssignedOne(sites: Sites, id: string, org: string)
    ensures sites[id := org] == Assigned(sites, {id}, org)
  {
  }

  lemma AssignedNone(sites: Sites, org: string)
    ensures Assigned(sites, {}, org) == sites
  {
  }

  /** A page is filled in, one canonical entry at a time, until one more would pass the cap. */
  lemma {:induction false} FillExact(sites: Sites, entries: seq<Option<string>>, org: string)
    requires |sites| <= MAX_TOTAL_SITES
    ensures |FillFrom(sites, entries, org).sites| <= MAX_TOTAL_SITES
    ensures Within(sites, FillFrom(sites, entries, org).sites, Ids(entries), org)
    ensures !FillFrom(sites, entries, org).full ==>
              FillFrom(sites, entries, org).sites == Assigned(sites, Ids(entries), org)
    decreases |entries|
  {
    hide Ids;
    hide CanonicalUuid;
    hide Within;
    hide Assigned;
    if entries == [] {
      IdsOfNone();
      AssignedNone(sites, org);
      WithinNothing(sites, Ids(entries), org);
    } else {
      var rest := entries[1..];
      IdsSplit(entries);
      if entries[0].None? || !CanonicalUuid(entries[0].value) {
        FillExact(sites, rest, org);
        assert Ids(entries) == Ids(rest);
      } else if |sites| >= MAX_TOTAL_SITES && entries[0].value !in sites {
        WithinNothing(sites, Ids(entries), org);
      } else {
        var id := entries[0].value;
        var next := sites[id := org];
        assert id in sites ==> next.Keys == sites.Keys;
        assert id !in sites ==> next.Keys == sites.Keys + {id};
        FillExact(next, rest, org);
        AssignedOne(sites, id, org);
        AssignedTwice(sites, {id}, Ids(rest), org);
        assert {id} + Ids(rest) == Ids(entries);
        WithinOne(sites, id, org);
        WithinTwice(sites, next, FillFrom(next, rest, org).sites, {id}, Ids(rest), Ids(entries), org);
      }
    }
  }

  /** The cap stops a page exactly when the page's canonical entries do not all fit under it. */
  lemma {:induction false} FillFullIff(sites: Sites, entries: seq<Option<string>>, org: string, all: set<string>)
    requires |sites| <= MAX_TOTAL_SITES && all == sites.Keys + Ids(entries)
    ensures FillFrom(sites, entries, org).full <==> |all| > MAX_TOTAL_SITES
    decreases |entries|
  {
    if entries == [] {
      IdsOfNone();
      assert all == sites.Keys;
    } else {
      IdsSplit(entries);
      hide Ids;
      hide CanonicalUuid;
      var rest := entries[1..];
      if entries[0].None? || !CanonicalUuid(entries[0].value) {
        assert all == sites.Keys + Ids(rest);
        FillFullIff(sites, rest, org, all);
      } else {
        var id := entries[0].value;
        InsertedKeys(sites, id, org);
        if |sites| >= MAX_TOTAL_SITES && id !in sites {
          OverCap(sites.Keys, id, all);
        } else {
          UnionMoved(sites.Keys, id, Ids(rest), sites[id := org].Keys, Ids(entries));
          FillFullIff(sites[id := org], rest, org, all);
        }
      }
    }
  }

  lemma UnionMoved(keys: set<string>, id: string, rest: set<string>, more: set<string>, ids: set<string>)
    requires more == keys + {id} && ids == rest + {id}
    ensures keys + ids == more + rest
  {
  }

  lemma OverCap(keys: set<string>, id: string, ids: set<string>)
    requires |keys| >= MAX_TOTAL_SITES && id !in keys && id in ids && keys <= ids
    ensures |ids| > MAX_TOTAL_SITES
  {
    CardinalityGrows(keys + {id}, ids);
  }

  lemma InsertedKeys(sites: Sites, id: string, org: string)
    ensures sites[id := org].Keys == sites.Keys + {id}
    ensures |sites[id := org]| == if id in sites then |sites| else |sites| + 1
  {
    assert sites[id := org].Keys == sites.Keys + {id};
    assert |sites[id := org]| == |sites[id := org].Keys| && |sites| == |sites.Keys|;
    if id in sites { assert sites.Keys + {id} == sites.Keys; }
  }

  lemma IdsOfNone()
    ensures Ids([]) == {}
  {
  }

  lemma WithinNothing(sites: Sites, ids: set<string>, org: string)
    ensures Within(sites, sites, ids, org)
  {
  }

  lemma WithinOne(sites: Sites, id: string, org: string)
    ensures Within(sites, sites[id := org], {id}, org)
  {
  }

  lemma IdsSplit(entries: seq<Option<string>>)
    requires entries != []
    ensures Ids(entries) == Ids(entries[1..]) +
              if entries[0].Some? && CanonicalUuid(entries[0].value) then {entries[0].value} else {}
  {
    hide CanonicalUuid;
    var rest := entries[1..];
    forall id | id in Ids(entries) ensures id in Ids(rest) || (entries[0] == Some(id) && CanonicalUuid(id)) {
      var k :| 0 <= k < |entries| && entries[k] == Some(id) && CanonicalUuid(id);
      if k > 0 { assert rest[k - 1] == Some(id); }
    }
    forall id | id in Ids(rest) ensures id in Ids(entries) {
      var k :| 0 <= k < |rest| && rest[k] == Some(id) && CanonicalUuid(id);
      assert entries[k + 1] == rest[k];
    }
  }

  lemma CardinalityGrows(a: set<string>, b: set<string>)
    requires a <= b
    ensures |a| <= |b|
  {
    assert b == a + (b - a);
  }

  // ----- what a pass over one organisation found -----

  /** The pages a pass asks for before it finds a short one or runs out of pages. */
  function LastPage(listing: Listing, page: nat): nat
    decreases MAX_PAGES_PER_ORG + 1 - page
  {
    if page >= MAX_PAGES_PER_ORG || listing(page).Failed? || |listing(page).entries| < PAGE_LIMIT then page
    else LastPage(listing, page + 1)
  }

  /** The canonical identifiers on pages `page` to `last`. */
  function IdsOn(listing: Listing, page: nat, last: nat): set<string>
    decreases last + 1 - page
  {
    if page > last || listing(page).Failed? then {}
    else Ids(listing(page).entries) + IdsOn(listing, page + 1, last)
  }

  /** The last page was short, so it ended the listing. */
  predicate ShortPage(reply: PageReply) {
    reply.Listed? && |reply.entries| < PAGE_LIMIT
  }

  // How one page contributes to a pass: not at all, up to the cap, as the last, or as one of several.

  lemma FailedHere(listing: Listing, sites: Sites, org: string, page: nat)
    requires page <= MAX_PAGES_PER_ORG && listing(page).Failed?
    ensures LastPage(listing, page) == page && PassFrom(listing, sites, org, page) == OrgPass(sites, Error)
  {
  }

  lemma FullPage(listing: Listing, sites: Sites, org: string, page: nat)
    requires page <= MAX_PAGES_PER_ORG && listing(page).Listed? && FillFrom(sites, listing(page).entries, org).full
    ensures PassFrom(listing, sites, org, page) == OrgPass(FillFrom(sites, listing(page).entries, org).sites, Truncated)
    ensures
      var last := LastPage(listing, page);
      IdsOn(listing, page, last) == Ids(listing(page).entries) + IdsOn(listing, page + 1, last)
  {
    LastIsLater(listing, page);
    hide Ids;
    hide FillFrom;
  }

  lemma FinalPage(listing: Listing, sites: Sites, org: string, page: nat)
    requires page <= MAX_PAGES_PER_ORG && listing(page).Listed? && LastPage(listing, page) == page
    requires !FillFrom(sites, listing(page).entries, org).full
    ensures PassFrom(listing, sites, org, page) == OrgPass(FillFrom(sites, listing(page).entries, org).sites, Complete)
    ensures IdsOn(listing, page, page) == Ids(listing(page).entries)
  {
    hide Ids;
    hide FillFrom;
    if page < MAX_PAGES_PER_ORG && |listing(page).entries| >= PAGE_LIMIT { LastIsLater(listing, page + 1); }
    assert IdsOn(listing, page + 1, page) == {};
  }

  lemma InnerPage(listing: Listing, sites: Sites, org: string, page: nat)
    requires page <= MAX_PAGES_PER_ORG && listing(page).Listed? && LastPage(listing, page) != page
    requires !FillFrom(sites, listing(page).entries, org).full
    ensures page < MAX_PAGES_PER_ORG && LastPage(listing, page) == LastPage(listing, page + 1)
    ensures PassFrom(listing, sites, org, page) ==
            PassFrom(listing, FillFrom(sites, listing(page).entries, org).sites, org, page + 1)
    ensures
      var last := LastPage(listing, page);
      IdsOn(listing, page, last) == Ids(listing(page).entries) + IdsOn(listing, page + 1, last)
  {
    LastIsLater(listing, page);
    hide Ids;
    hide FillFrom;
  }

  /** Whatever Mist answers, the cap holds, and the map changes only by assigning listed
      canonical sites to this organisation. */
  lemma {:induction false} PassWithin(listing: Listing, sites: Sites, org: string, page: nat)
    requires page <= MAX_PAGES_PER_ORG && |sites| <= MAX_TOTAL_SITES
    ensures |PassFrom(listing, sites, org, page).sites| <= MAX_TOTAL_SITES
    ensures Within(sites, PassFrom(listing, sites, org, page).sites, IdsOn(listing, page, LastPage(listing, page)), org)
    decreases MAX_PAGES_PER_ORG + 1 - page
  {
    hide *;
    var all := IdsOn(listing, page, LastPage(listing, page));
    if listing(page).Failed? {
      FailedHere(listing, sites, org, page);
      WithinNothing(sites, all, org);
    } else {
      var ids := Ids(listing(page).entries);
      var fill := FillFrom(sites, listing(page).entries, org);
      FillExact(sites, listing(page).entries, org);
      WithinNothing(fill.sites, ids, org);
      if fill.full {
        FullPage(listing, sites, org, page);
        WithinTwice(sites, fill.sites, fill.sites, ids, ids, all, org);
      } else if LastPage(listing, page) == page {
        FinalPage(listing, sites, org, page);
      } else {
        InnerPage(listing, sites, org, page);
        PassWithin(listing, fill.sites, org, page + 1);
        WithinTwice(sites, fill.sites, PassFrom(listing, fill.sites, org, page + 1).sites, ids,
                    IdsOn(listing, page + 1, LastPage(listing, page)), all, org);
      }
    }
  }

  lemma {:induction false} LastIsLater(listing: Listing, page: nat)
    ensures LastPage(listing, page) >= page
    ensures page <= MAX_PAGES_PER_ORG ==> LastPage(listing, page) <= MAX_PAGES_PER_ORG
    ensures forall p | page <= p < LastPage(listing, page) :: listing(p).Listed? && |listing(p).entries| >= PAGE_LIMIT
    decreases MAX_PAGES_PER_ORG + 1 - page
  {
    if !(page >= MAX_PAGES_PER_ORG || listing(page).Failed? || |listing(page).entries| < PAGE_LIMIT) {
      LastIsLater(listing, page + 1);
    }
  }

  /** A complete pass got every page up to the last it asked for, which was short or the 64th,
      and assigned every canonical site on them to the organisation. */
  lemma {:induction false} CompletePassExact(listing: Listing, sites: Sites, org: string, page: nat)
    requires page <= MAX_PAGES_PER_ORG && |sites| <= MAX_TOTAL_SITES
    requires PassFrom(listing, sites, org, page).outcome == Complete
    ensures
      var last := LastPage(listing, page);
      && PassFrom(listing, sites, org, page).sites == Assigned(sites, IdsOn(listing, page, last), org)
      && page <= last <= MAX_PAGES_PER_ORG
      && (forall p | page <= p <= last :: listing(p).Listed?)
      && (ShortPage(listing(last)) || last == MAX_PAGES_PER_ORG)
    decreases MAX_PAGES_PER_ORG + 1 - page
  {
    hide Ids;
    hide FillFrom;
    hide Assigned;
    hide Within;
    var last, entries := LastPage(listing, page), listing(page).entries;
    var fill := FillFrom(sites, entries, org);
    FillExact(sites, entries, org);
    if |entries| < PAGE_LIMIT || page == MAX_PAGES_PER_ORG {
      assert IdsOn(listing, page + 1, last) == {};
      assert IdsOn(listing, page, last) == Ids(entries);
    } else {
      CompletePassExact(listing, fill.sites, org, page + 1);
      AssignedTwice(sites, Ids(entries), IdsOn(listing, page + 1, last), org);
      LastIsLater(listing, page);
    }
  }

  /** A pass is complete exactly when the page it stopped at was answered and everything listed
      up to there fits under the cap together with what was already known. */
  lemma {:induction false} CompleteIff(listing: Listing, sites: Sites, org: string, page: nat, all: set<string>)
    requires page <= MAX_PAGES_PER_ORG && |sites| <= MAX_TOTAL_SITES
    requires all == sites.Keys + IdsOn(listing, page, LastPage(listing, page))
    ensures PassFrom(listing, sites, org, page).outcome == Complete <==>
            listing(LastPage(listing, page)).Listed? && |all| <= MAX_TOTAL_SITES
    decreases MAX_PAGES_PER_ORG + 1 - page
  {
    hide *;
    if listing(page).Failed? {
      FailedHere(listing, sites, org, page);
    } else if FillFrom(sites, listing(page).entries, org).full {
      TruncatedHere(listing, sites, org, page, all);
    } else if LastPage(listing, page) == page {
      CompleteHere(listing, sites, org, page, all);
    } else {
      var next := NextPage(listing, sites, org, page, all);
      CompleteIff(listing, next, org, page + 1, all);
    }
  }

  lemma TruncatedHere(listing: Listing, sites: Sites, org: string, page: nat, all: set<string>)
    requires page <= MAX_PAGES_PER_ORG && |sites| <= MAX_TOTAL_SITES
    requires all == sites.Keys + IdsOn(listing, page, LastPage(listing, page))
    requires listing(page).Listed? && FillFrom(sites, listing(page).entries, org).full
    ensures PassFrom(listing, sites, org, page).outcome == Truncated && |all| > MAX_TOTAL_SITES
  {
    var entries, last := listing(page).entries, LastPage(listing, page);
    FullPage(listing, sites, org, page);
    hide IdsOn;
    hide LastPage;
    hide PassFrom;
    hide Ids;
    UnionSplit(sites.Keys, Ids(entries), IdsOn(listing, page + 1, last), IdsOn(listing, page, last));
    FillFullIff(sites, entries, org, sites.Keys + Ids(entries));
    hide FillFrom;
    CardinalityGrows(sites.Keys + Ids(entries), all);
  }

  lemma CompleteHere(listing: Listing, sites: Sites, org: string, page: nat, all: set<string>)
    requires page <= MAX_PAGES_PER_ORG && |sites| <= MAX_TOTAL_SITES && LastPage(listing, page) == page
    requires all == sites.Keys + IdsOn(listing, page, page)
    requires listing(page).Listed? && !FillFrom(sites, listing(page).entries, org).full
    ensures PassFrom(listing, sites, org, page).outcome == Complete && |all| <= MAX_TOTAL_SITES
  {
    FinalPage(listing, sites, org, page);
    hide IdsOn;
    hide LastPage;
    hide PassFrom;
    hide Ids;
    FillFullIff(sites, listing(page).entries, org, all);
  }

  lemma NextPage(listing: Listing, sites: Sites, org: string, page: nat, all: set<string>) returns (next: Sites)
    requires page <= MAX_PAGES_PER_ORG && |sites| <= MAX_TOTAL_SITES && LastPage(listing, page) != page
    requires all == sites.Keys + IdsOn(listing, page, LastPage(listing, page))
    requires listing(page).Listed? && !FillFrom(sites, listing(page).entries, org).full
    ensures page < MAX_PAGES_PER_ORG && LastPage(listing, page + 1) == LastPage(listing, page)
    ensures |next| <= MAX_TOTAL_SITES
    ensures PassFrom(listing, sites, org, page) == PassFrom(listing, next, org, page + 1)
    ensures all == next.Keys + IdsOn(listing, page + 1, LastPage(listing, page + 1))
    ensures MAX_PAGES_PER_ORG + 1 - page > MAX_PAGES_PER_ORG + 1 - (page + 1)
  {
    var entries, last := listing(page).entries, LastPage(listing, page);
    next := FillFrom(sites, entries, org).sites;
    InnerPage(listing, sites, org, page);
    hide IdsOn;
    hide LastPage;
    hide PassFrom;
    hide Ids;
    FillExact(sites, entries, org);
    hide FillFrom;
    hide Within;
    AssignedKeys(sites, Ids(entries), org);
    hide Assigned;
    UnionSplit(sites.Keys, Ids(entries), IdsOn(listing, page + 1, last), IdsOn(listing, page, last));
  }

  lemma UnionSplit(keys: set<string>, ids: set<string>, rest: set<string>, all: set<string>)
    requires all == ids + rest
    ensures keys + all == (keys + ids) + rest
    ensures rest == {} ==> keys + all == keys + ids
  {
  }

  lemma AssignedKeys(sites: Sites, ids: set<string>, org: string)
    ensures Assigned(sites, ids, org).Keys == sites.Keys + ids
  {
  }

  /** The canonical identifiers a pass over the listing gets to see. */
  function Seen(listing: Listing): set<string> {
    IdsOn(listing, 1, LastPage(listing, 1))
  }

  /** A pass in one statement: the cap, what it may assign, and what a complete one did assign. */
  lemma PassOverExact(listing: Listing, sites: Sites, org: string)
    requires |sites| <= MAX_TOTAL_SITES
    ensures |PassOver(listing, sites, org).sites| <= MAX_TOTAL_SITES
    ensures Within(sites, PassOver(listing, sites, org).sites, Seen(listing), org)
    ensures PassOver(listing, sites, org).outcome == Complete ==>
              PassOver(listing, sites, org).sites == Assigned(sites, Seen(listing), org)
  {
    PassIsWhole(listing, sites, org);
    hide *;
    FirstPage();
    PassWithin(listing, sites, org, 1);
    if PassOver(listing, sites, org).outcome == Complete {
      CompletePassExact(listing, sites, org, 1);
    }
  }

  lemma PassIsWhole(listing: Listing, sites: Sites, org: string)
    ensures PassOver(listing, sites, org) == PassFrom(listing, sites, org, 1)
    ensures Seen(listing) == IdsOn(listing, 1, LastPage(listing, 1))
  {
    hide PassFrom;
    hide IdsOn;
    hide LastPage;
  }

  // ----- when a complete pass has seen everything -----

  /** Every listed identifier is canonical, and none is listed twice. */
  ghost predicate CleanListing(listing: Listing) {
    && (forall p: nat, i: nat | listing(p).Listed? && i < |listing(p).entries| ::
          listing(p).entries[i].Some? && CanonicalUuid(listing(p).entries[i].value))
    && (forall p: nat, i: nat, q: nat, j: nat
          | listing(p).Listed? && listing(q).Listed? && i < |listing(p).entries| && j < |listing(q).entries| ::
          listing(p).entries[i] == listing(q).entries[j] ==> p == q && i == j)
  }

  lemma {:induction false} DistinctIds(entries: seq<Option<string>>)
    requires forall i | 0 <= i < |entries| :: entries[i].Some? && CanonicalUuid(entries[i].value)
    requires forall i, j | 0 <= i < j < |entries| :: entries[i] != entries[j]
    ensures |Ids(entries)| == |entries|
    decreases |entries|
  {
    hide CanonicalUuid;
    if entries == [] {
      IdsOfNone();
    } else {
      IdsSplit(entries);
      DistinctIds(entries[1..]);
    }
  }

  /** Full pages of distinct sites add up. */
  lemma {:induction false} FullPagesAddUp(listing: Listing, page: nat, last: nat)
    requires CleanListing(listing) && page <= last + 1
    requires forall p | page <= p <= last :: listing(p).Listed? && |listing(p).entries| >= PAGE_LIMIT
    ensures |IdsOn(listing, page, last)| >= PAGE_LIMIT * (last + 1 - page)
    decreases last + 1 - page
  {
    if page <= last {
      hide CanonicalUuid;
      var entries := listing(page).entries;
      FullPagesAddUp(listing, page + 1, last);
      PageIdsAreDistinct(listing, page);
      PagesAreDisjoint(listing, page, page + 1, last);
      assert IdsOn(listing, page, last) == Ids(entries) + IdsOn(listing, page + 1, last);
      hide *;
      DisjointAddUp(Ids(entries), IdsOn(listing, page + 1, last));
      OneMorePage(page, last, |Ids(entries)|, |IdsOn(listing, page + 1, last)|);
    }
  }

  lemma DisjointAddUp(a: set<string>, b: set<string>)
    requires a !! b
    ensures |a + b| == |a| + |b|
  {
  }

  lemma OneMorePage(page: nat, last: nat, here: nat, rest: nat)
    requires page <= last && here >= PAGE_LIMIT && rest >= PAGE_LIMIT * (last + 1 - (page + 1))
    ensures here + rest >= PAGE_LIMIT * (last + 1 - page)
  {
  }

  lemma PageIdsAreDistinct(listing: Listing, page: nat)
    requires CleanListing(listing) && listing(page).Listed?
    ensures |Ids(listing(page).entries)| == |listing(page).entries|
  {
    hide Ids;
    hide CanonicalUuid;
    DistinctIds(listing(page).entries);
  }

  lemma {:induction false} PagesAreDisjoint(listing: Listing, page: nat, from: nat, last: nat)
    requires CleanListing(listing) && page < from && listing(page).Listed?
    ensures Ids(listing(page).entries) !! IdsOn(listing, from, last)
    decreases last + 1 - from
  {
    hide CanonicalUuid;
    if from <= last && listing(from).Listed? {
      PagesAreDisjoint(listing, page, from + 1, last);
      assert Ids(listing(page).entries) !! Ids(listing(from).entries);
    }
  }

  /** With clean listings, complete means complete: a page shorter than the limit was reached,
      and the organisation now holds exactly what it listed up to there, on top of what was
      known before. 64 full pages cannot hide a 65th, as they would not fit under the cap. */
  lemma CompleteMeansAll(listing: Listing, sites: Sites, org: string)
    requires CleanListing(listing) && |sites| <= MAX_TOTAL_SITES
    requires PassOver(listing, sites, org).outcome == Complete
    ensures
      var last := LastPage(listing, 1);
      && ShortPage(listing(last))
      && (forall p | 1 <= p < last :: listing(p).Listed? && |listing(p).entries| >= PAGE_LIMIT)
      && PassOver(listing, sites, org).sites == Assigned(sites, IdsOn(listing, 1, last), org)
  {
    PassIsWhole(listing, sites, org);
    hide *;
    var last := LastPage(listing, 1);
    FirstPage();
    CompletePassExact(listing, sites, org, 1);
    LastIsLater(listing, 1);
    if !ShortPage(listing(last)) {
      NoEndOverflows(listing, sites.Keys, last);
      CompleteIff(listing, sites, org, 1, sites.Keys + IdsOn(listing, 1, last));
      assert false;
    }
  }

  lemma FirstPage()
    ensures 1 <= MAX_PAGES_PER_ORG
  {
  }

  lemma NoEndOverflows(listing: Listing, keys: set<string>, last: nat)
    requires CleanListing(listing) && last == MAX_PAGES_PER_ORG
    requires forall p | 1 <= p < last :: listing(p).Listed? && |listing(p).entries| >= PAGE_LIMIT
    requires listing(last).Listed? && !ShortPage(listing(last))
    ensures |keys + IdsOn(listing, 1, last)| > MAX_TOTAL_SITES
  {
    hide CanonicalUuid;
    hide CleanListing;
    hide IdsOn;
    FullPagesAddUp(listing, 1, last);
    CardinalityGrows(IdsOn(listing, 1, last), keys + IdsOn(listing, 1, last));
  }

  /** Without that hypothesis a complete pass may have seen no short page at all. */
  lemma CompleteWithoutEnd() returns (listing: Listing)
    ensures PassOver(listing, map[], "org") == OrgPass(map[], Complete)
    ensures forall p :: !ShortPage(listing(p))
  {
    listing := (p: nat) => Listed(seq(PAGE_LIMIT, i => None));
    var last := LastPage(listing, 1);
    NothingListed(listing, 1, last);
    CompleteIff(listing, map[], "org", 1, {});
    CompletePassExact(listing, map[], "org", 1);
    AssignedNone(map[], "org");
  }

  lemma {:induction false} NothingListed(listing: Listing, page: nat, last: nat)
    requires forall p :: listing(p) == Listed(seq(PAGE_LIMIT, i => None))
    ensures IdsOn(listing, page, last) == {}
    decreases last + 1 - page
  {
    if page <= last {
      NothingListed(listing, page + 1, last);
      assert Ids(listing(page).entries) == {};
    }
  }
}
