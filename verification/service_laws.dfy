/** Laws that relate the service operations to one another: every write keeps
    the store well formed, a created row can be read back, owner-only
    operations turn away other advertisers, repeated writes change nothing
    more, and listings are newest first and reach every matching row. */
module ServiceLaws {
  import opened Envelope
  import opened Seqs
  import opened Records
  import opened Schema
  import opened Paging
  import opened Service

  // ---------------------------------------------------------------------
  // Well-formedness is an invariant of every write
  // ---------------------------------------------------------------------

  /** A write that keeps every row's id and creation stamp in place, adds no
      row and leaves the clock alone keeps the store well formed. */
  lemma SameKeysKeepWf(s: Store, t: Store)
    requires Wf(s)
    requires |t.campaigns| == |s.campaigns| && |t.applications| == |s.applications| && t.clock == s.clock
    requires forall i :: 0 <= i < |s.campaigns| ==>
      t.campaigns[i].id == s.campaigns[i].id && t.campaigns[i].createdAt == s.campaigns[i].createdAt
    requires forall i :: 0 <= i < |s.applications| ==>
      t.applications[i].id == s.applications[i].id && t.applications[i].createdAt == s.applications[i].createdAt
    ensures Wf(t)
  {
  }

  lemma CreateCampaignKeepsWf(s: Store, advertiserId: Id, input: CampaignInput, newId: Id, rejected: bool)
    requires Wf(s) && ValidCampaignInput(input)
    ensures Wf(CreateCampaign(s, advertiserId, input, newId, rejected).store)
  {
    var r := CreateCampaign(s, advertiserId, input, newId, rejected);
    if r.result.Success? {
      var c := r.result.value;
      var cs := r.store.campaigns;
      forall i | 0 <= i < |s.campaigns| ensures cs[i].id != c.id {
        assert cs[i] == s.campaigns[i];
      }
    }
  }

  lemma CreateApplicationKeepsWf(s: Store, influencerId: Id, q: ApplicationRequest, newId: Id, rejected: bool)
    requires Wf(s) && ValidApplicationFields(q.message, q.visitDate)
    ensures Wf(CreateApplication(s, influencerId, q, newId, rejected).store)
  {
    var r := CreateApplication(s, influencerId, q, newId, rejected);
    if r.result.Success? {
      var a := r.result.value;
      var xs := r.store.applications;
      forall i | 0 <= i < |s.applications| ensures xs[i].id != a.id {
        assert xs[i] == s.applications[i];
      }
    }
  }

  lemma UpdateCampaignStatusKeepsWf(s: Store, campaignId: Id, advertiserId: Id, status: CampaignStatus, fault: bool)
    requires Wf(s)
    ensures Wf(UpdateCampaignStatus(s, campaignId, advertiserId, status, fault).store)
  {
    SameKeysKeepWf(s, UpdateCampaignStatus(s, campaignId, advertiserId, status, fault).store);
  }

  lemma SelectApplicantsKeepsWf(s: Store, campaignId: Id, advertiserId: Id, applicationIds: seq<Id>,
                                lookupFault: bool, updateFault: bool, campaignWriteFault: bool)
    requires Wf(s) && |applicationIds| >= 1
    ensures Wf(SelectApplicants(s, campaignId, advertiserId, applicationIds, lookupFault, updateFault, campaignWriteFault).store)
  {
    var t := SelectApplicants(s, campaignId, advertiserId, applicationIds, lookupFault, updateFault, campaignWriteFault).store;
    forall i | 0 <= i < |s.applications|
      ensures t.applications[i].id == s.applications[i].id && t.applications[i].createdAt == s.applications[i].createdAt
    {
      var a, b := s.applications[i], t.applications[i];
      assert b == a.(status := b.status);
    }
    SameKeysKeepWf(s, t);
  }

  // ---------------------------------------------------------------------
  // Reading back what was written
  // ---------------------------------------------------------------------

  /** A campaign just created is found by its id, with no applications yet
      when none named that id before. */
  lemma CreatedCampaignIsFound(s: Store, advertiserId: Id, input: CampaignInput, newId: Id, caller: Option<Id>)
    requires Wf(s) && ValidCampaignInput(input)
    requires CreateCampaign(s, advertiserId, input, newId, false).result.Success?
    ensures var r := CreateCampaign(s, advertiserId, input, newId, false);
      var g := GetCampaignById(r.store, newId, caller, false);
      && g.Success?
      && g.value.campaign == r.result.value
      && g.value.applicationCount == Count(s.applications, ApplicationOf(newId))
  {
    var r := CreateCampaign(s, advertiserId, input, newId, false);
    CreateCampaignKeepsWf(s, advertiserId, input, newId, false);
    var c := r.result.value;
    assert c == r.store.campaigns[|s.campaigns|];
    assert CampaignIdUsed(r.store, newId);
    var d := GetCampaignById(r.store, newId, caller, false).value.campaign;
    var k :| 0 <= k < |r.store.campaigns| && r.store.campaigns[k] == d;
    assert k == |s.campaigns|;
  }

  /** A campaign just created comes first on the first page of the
      unfiltered listing and of the recruiting listing. */
  lemma CreatedCampaignLeadsListing(s: Store, advertiserId: Id, input: CampaignInput, newId: Id,
                                    status: Option<CampaignStatus>, limit: int)
    requires ValidCampaignInput(input) && 1 <= limit <= MaxLimit
    requires status.None? || status == Some(InitialCampaignStatus)
    requires CreateCampaign(s, advertiserId, input, newId, false).result.Success?
    ensures var r := CreateCampaign(s, advertiserId, input, newId, false);
      var l := ListCampaigns(r.store, ListQuery(status, 1, limit), false);
      |l.value.campaigns| > 0 && l.value.campaigns[0] == r.result.value
  {
    var r := CreateCampaign(s, advertiserId, input, newId, false);
    var c := r.result.value;
    var p := CampaignStatusIs(status);
    var matching := Filter(r.store.campaigns, p);
    assert p(c);
    assert matching == Filter(s.campaigns, p) + [c] by { FilterAppend(s.campaigns, c, p); }
    var ordered := NewestFirst(matching);
    assert ordered[0] == c;
    var page := Page(ordered, 1, limit);
    assert page == Range(ordered, 0, limit - 1);
  }

  /** Filtering a table with one more row at the end adds that row at the
      end when it matches. */
  lemma {:induction false} FilterAppend<T>(s: seq<T>, x: T, p: T -> bool)
    ensures Filter(s + [x], p) == Filter(s, p) + (if p(x) then [x] else [])
  {
    if |s| > 0 {
      assert (s + [x])[1..] == s[1..] + [x];
      FilterAppend(s[1..], x, p);
    } else {
      assert s + [x] == [x];
    }
  }

  /** Applying adds exactly one to the application count of the campaign
      applied to and leaves every other campaign's count alone. */
  lemma ApplyingCountsOnce(s: Store, influencerId: Id, q: ApplicationRequest, newId: Id, campaignId: Id, caller: Option<Id>)
    requires ValidApplicationFields(q.message, q.visitDate)
    requires CreateApplication(s, influencerId, q, newId, false).result.Success?
    ensures var t := CreateApplication(s, influencerId, q, newId, false).store;
      var before, after := GetCampaignById(s, campaignId, caller, false), GetCampaignById(t, campaignId, caller, false);
      && (before.Success? <==> after.Success?)
      && (after.Success? ==>
            after.value.campaign == before.value.campaign
            && after.value.applicationCount == before.value.applicationCount + (if campaignId == q.campaignId then 1 else 0))
  {
    var r := CreateApplication(s, influencerId, q, newId, false);
    CountAppend(s.applications, r.result.value, ApplicationOf(campaignId));
  }

  /** After an influencer's first application to a campaign, the campaign's
      detail shows that application to them. */
  lemma FirstApplicationIsShown(s: Store, influencerId: Id, q: ApplicationRequest, newId: Id)
    requires ValidApplicationFields(q.message, q.visitDate) && influencerId != ""
    requires CampaignIdUsed(s, q.campaignId) && Wf(s)
    requires Count(s.applications, CallerApplication(q.campaignId, influencerId)) == 0
    requires CreateApplication(s, influencerId, q, newId, false).result.Success?
    ensures var r := CreateApplication(s, influencerId, q, newId, false);
      var g := GetCampaignById(r.store, q.campaignId, Some(influencerId), false);
      g.Success? && g.value.userApplication == Some(r.result.value)
  {
    var r := CreateApplication(s, influencerId, q, newId, false);
    var p := CallerApplication(q.campaignId, influencerId);
    CreateApplicationKeepsWf(s, influencerId, q, newId, false);
    FilterAppend(s.applications, r.result.value, p);
    CountIsFilterLength(s.applications, p);
    assert Filter(r.store.applications, p) == [r.result.value];
  }

  /** Nothing stops an influencer from applying twice to one campaign, and
      once they have two applications there the detail shows neither. */
  lemma SecondApplicationHidesOwn(s: Store, influencerId: Id, q: ApplicationRequest, newId: Id)
    requires ValidApplicationFields(q.message, q.visitDate) && influencerId != ""
    requires CampaignIdUsed(s, q.campaignId) && Wf(s)
    requires Count(s.applications, CallerApplication(q.campaignId, influencerId)) == 1
    requires !ApplicationIdUsed(s, newId)
    ensures var r := CreateApplication(s, influencerId, q, newId, false);
      var g := GetCampaignById(r.store, q.campaignId, Some(influencerId), false);
      r.result.Success? && g.Success? && g.value.userApplication.None?
  {
    var r := CreateApplication(s, influencerId, q, newId, false);
    CreateApplicationKeepsWf(s, influencerId, q, newId, false);
    CountAppend(s.applications, r.result.value, CallerApplication(q.campaignId, influencerId));
  }

  /** The owner's list of a campaign's applications is as long as the
      application count the campaign's detail reports. */
  lemma OwnerListMatchesCount(s: Store, campaignId: Id, advertiserId: Id, caller: Option<Id>)
    requires Wf(s) && Owns(s, campaignId, advertiserId)
    ensures var l, g := ListCampaignApplications(s, campaignId, advertiserId, false, false), GetCampaignById(s, campaignId, caller, false);
      l.Success? && g.Success? && |l.value| == g.value.applicationCount
  {
    OwnerCheckIsOwnership(s, campaignId, advertiserId);
  }

  // ---------------------------------------------------------------------
  // Owner-only operations
  // ---------------------------------------------------------------------

  /** Another advertiser's campaign can be neither updated, nor have its
      applications listed, nor have applicants selected, and the store is
      left as it was. */
  lemma NonOwnerIsTurnedAway(s: Store, c: Campaign, advertiserId: Id, status: CampaignStatus,
                             applicationIds: seq<Id>, lookupFault: bool, fault: bool, campaignWriteFault: bool)
    requires Wf(s) && c in s.campaigns && c.advertiserId != advertiserId && |applicationIds| >= 1
    ensures UpdateCampaignStatus(s, c.id, advertiserId, status, fault) == Step(s, Failure(BadRequest, UpdateFailed))
    ensures ListCampaignApplications(s, c.id, advertiserId, lookupFault, fault) == Failure(Forbidden, Unauthorized)
    ensures SelectApplicants(s, c.id, advertiserId, applicationIds, lookupFault, fault, campaignWriteFault)
      == Step(s, Failure(Forbidden, Unauthorized))
  {
  }

  /** The owner check depends only on each campaign's id and advertiser,
      so a write that keeps both keeps its verdict. */
  lemma OwnerCheckKept(s: Store, t: Store, campaignId: Id, advertiserId: Id)
    requires |t.campaigns| == |s.campaigns|
    requires forall i :: 0 <= i < |s.campaigns| ==>
      t.campaigns[i].id == s.campaigns[i].id && t.campaigns[i].advertiserId == s.campaigns[i].advertiserId
    ensures OwnerCheck(t, campaignId, advertiserId) == OwnerCheck(s, campaignId, advertiserId)
  {
    CountPointwise(s.campaigns, OwnedCampaign(campaignId, advertiserId),
                   t.campaigns, OwnedCampaign(campaignId, advertiserId));
  }

  // ---------------------------------------------------------------------
  // Repeating a write
  // ---------------------------------------------------------------------

  /** Writing the same status twice leaves the store as writing it once. */
  lemma UpdateCampaignStatusIdempotent(s: Store, campaignId: Id, advertiserId: Id, status: CampaignStatus)
    requires UpdateCampaignStatus(s, campaignId, advertiserId, status, false).result.Success?
    ensures var once := UpdateCampaignStatus(s, campaignId, advertiserId, status, false);
      var twice := UpdateCampaignStatus(once.store, campaignId, advertiserId, status, false);
      twice.result.Success? && twice.store == once.store && twice.result == once.result
  {
    var once := UpdateCampaignStatus(s, campaignId, advertiserId, status, false);
    OwnerCheckKept(s, once.store, campaignId, advertiserId);
    SecondUpdateKeepsRows(s, campaignId, advertiserId, status);
    var twice := UpdateCampaignStatus(once.store, campaignId, advertiserId, status, false);
    UniqueOwnedRow(once.store.campaigns, campaignId, advertiserId, once.result.value, twice.result.value);
  }

  /** The rows a status update wrote already carry that status, so writing
      it again changes none of them. */
  lemma SecondUpdateKeepsRows(s: Store, campaignId: Id, advertiserId: Id, status: CampaignStatus)
    requires UpdateCampaignStatus(s, campaignId, advertiserId, status, false).result.Success?
    requires OwnerCheck(UpdateCampaignStatus(s, campaignId, advertiserId, status, false).store, campaignId, advertiserId)
    ensures var once := UpdateCampaignStatus(s, campaignId, advertiserId, status, false).store;
      UpdateCampaignStatus(once, campaignId, advertiserId, status, false).store == once
  {
    var p := OwnedCampaign(campaignId, advertiserId);
    var once := UpdateCampaignStatus(s, campaignId, advertiserId, status, false).store;
    assert once == Store(SetCampaignStatus(s.campaigns, p, status), s.applications, s.clock);
    SetStatusTwice(s.campaigns, campaignId, advertiserId, status);
  }

  /** Writing a status to the rows an owner filter selects, twice over,
      leaves the table as writing it once: the filter does not look at the
      status. */
  lemma SetStatusTwice(cs: seq<Campaign>, campaignId: Id, advertiserId: Id, status: CampaignStatus)
    ensures var p := OwnedCampaign(campaignId, advertiserId);
      var once := SetCampaignStatus(cs, p, status);
      SetCampaignStatus(once, p, status) == once
  {
    var p := OwnedCampaign(campaignId, advertiserId);
    var once := SetCampaignStatus(cs, p, status);
    var twice := SetCampaignStatus(once, p, status);
    forall i | 0 <= i < |cs| ensures twice[i] == once[i] {
      assert p(once[i]) == p(cs[i]);
    }
  }

  /** When the owner check passes, the owned row is the only row that
      answers to that id and advertiser. */
  lemma UniqueOwnedRow(cs: seq<Campaign>, campaignId: Id, advertiserId: Id, x: Campaign, y: Campaign)
    requires Count(cs, OwnedCampaign(campaignId, advertiserId)) == 1
    requires x in cs && y in cs && OwnedCampaign(campaignId, advertiserId)(x) && OwnedCampaign(campaignId, advertiserId)(y)
    ensures x == y
  {
    var p := OwnedCampaign(campaignId, advertiserId);
    CountIsFilterLength(cs, p);
    var f := Filter(cs, p);
    var i :| 0 <= i < |cs| && cs[i] == x;
    var j :| 0 <= j < |cs| && cs[j] == y;
    assert x in f && y in f;
  }

  /** Selecting the same applicants twice leaves the store as selecting
      them once, and the second call succeeds too. */
  lemma SelectApplicantsIdempotent(s: Store, campaignId: Id, advertiserId: Id, applicationIds: seq<Id>,
                                   campaignWriteFault: bool)
    requires |applicationIds| >= 1
    requires SelectApplicants(s, campaignId, advertiserId, applicationIds, false, false, campaignWriteFault).result.Success?
    ensures var once := SelectApplicants(s, campaignId, advertiserId, applicationIds, false, false, campaignWriteFault);
      var twice := SelectApplicants(once.store, campaignId, advertiserId, applicationIds, false, false, campaignWriteFault);
      twice.result == once.result && twice.store == once.store
  {
    var once := SelectApplicants(s, campaignId, advertiserId, applicationIds, false, false, campaignWriteFault);
    OwnerCheckKept(s, once.store, campaignId, advertiserId);
    var twice := SelectApplicants(once.store, campaignId, advertiserId, applicationIds, false, false, campaignWriteFault);
    forall i | 0 <= i < |s.applications| ensures twice.store.applications[i] == once.store.applications[i] {
      var a, b := s.applications[i], once.store.applications[i];
      assert b == a.(status := b.status);
    }
    assert twice.store.applications == once.store.applications;
    assert twice.store.campaigns == once.store.campaigns;
  }

  /** Selecting applicants changes no campaign's application count. */
  lemma SelectionKeepsCounts(s: Store, campaignId: Id, advertiserId: Id, applicationIds: seq<Id>,
                             lookupFault: bool, updateFault: bool, campaignWriteFault: bool, x: Id)
    requires |applicationIds| >= 1
    ensures var t := SelectApplicants(s, campaignId, advertiserId, applicationIds, lookupFault, updateFault, campaignWriteFault).store;
      Count(t.applications, ApplicationOf(x)) == Count(s.applications, ApplicationOf(x))
  {
    var t := SelectApplicants(s, campaignId, advertiserId, applicationIds, lookupFault, updateFault, campaignWriteFault).store;
    forall i | 0 <= i < |s.applications| ensures t.applications[i].campaignId == s.applications[i].campaignId {
      var a, b := s.applications[i], t.applications[i];
      assert b == a.(status := b.status);
    }
    CountPointwise(s.applications, ApplicationOf(x), t.applications, ApplicationOf(x));
  }

  // ---------------------------------------------------------------------
  // Listings
  // ---------------------------------------------------------------------

  /** In a well-formed store every listing is newest first. */
  lemma ListingsNewestFirst(s: Store, q: ListQuery<CampaignStatus>, influencerId: Id, m: ListQuery<ApplicationStatus>,
                            campaignId: Id, advertiserId: Id)
    requires Wf(s) && ValidPaging(q.page, q.limit) && ValidPaging(m.page, m.limit)
    ensures Descending(ListCampaigns(s, q, false).value.campaigns, CampaignKey)
    ensures Descending(ListMyApplications(s, influencerId, m, false).value.applications, ApplicationKey)
    ensures var l := ListCampaignApplications(s, campaignId, advertiserId, false, false);
      l.Success? ==> Descending(l.value, ApplicationKey)
  {
    var pc := CampaignStatusIs(q.status);
    FilterKeepsAscending(s.campaigns, pc, CampaignKey);
    ReverseOfAscending(Filter(s.campaigns, pc), CampaignKey);
    PageKeepsOrder(NewestFirst(Filter(s.campaigns, pc)), q.page, q.limit, CampaignKey);
    var pm := MyApplication(influencerId, m.status);
    FilterKeepsAscending(s.applications, pm, ApplicationKey);
    ReverseOfAscending(Filter(s.applications, pm), ApplicationKey);
    PageKeepsOrder(NewestFirst(Filter(s.applications, pm)), m.page, m.limit, ApplicationKey);
    var pa := ApplicationOf(campaignId);
    FilterKeepsAscending(s.applications, pa, ApplicationKey);
    ReverseOfAscending(Filter(s.applications, pa), ApplicationKey);
  }

  /** Every campaign that matches the status filter is listed on one of the
      pages the listing announces. */
  lemma EveryCampaignIsListed(s: Store, c: Campaign, status: Option<CampaignStatus>, limit: int)
    requires c in s.campaigns && (status.None? || c.status == status.value) && 1 <= limit <= MaxLimit
    ensures exists page :: (ValidPaging(page, limit)
      && page <= ListCampaigns(s, ListQuery(status, page, limit), false).value.totalPages
      && c in ListCampaigns(s, ListQuery(status, page, limit), false).value.campaigns)
  {
    var p := CampaignStatusIs(status);
    var matching := Filter(s.campaigns, p);
    var ordered := NewestFirst(matching);
    var k :| 0 <= k < |s.campaigns| && s.campaigns[k] == c;
    assert c in matching;
    ReverseSameElements(matching);
    var i :| 0 <= i < |ordered| && ordered[i] == c;
    RowOnItsPage(ordered, i, limit);
    var page := i / limit + 1;
    CountIsFilterLength(s.campaigns, p);
    var l := ListCampaigns(s, ListQuery(status, page, limit), false);
    assert l.value.campaigns == Page(ordered, page, limit);
    assert l.value.campaigns[i % limit] == c;
  }

  /** Every application of an influencer that matches the status filter is
      listed on one of the pages the listing announces. */
  lemma EveryApplicationIsListed(s: Store, influencerId: Id, a: Application, status: Option<ApplicationStatus>, limit: int)
    requires a in s.applications && a.influencerId == influencerId && (status.None? || a.status == status.value)
    requires 1 <= limit <= MaxLimit
    ensures exists page :: (ValidPaging(page, limit)
      && page <= ListMyApplications(s, influencerId, ListQuery(status, page, limit), false).value.totalPages
      && a in ListMyApplications(s, influencerId, ListQuery(status, page, limit), false).value.applications)
  {
    var p := MyApplication(influencerId, status);
    var mine := Filter(s.applications, p);
    var ordered := NewestFirst(mine);
    var k :| 0 <= k < |s.applications| && s.applications[k] == a;
    assert a in mine;
    ReverseSameElements(mine);
    var i :| 0 <= i < |ordered| && ordered[i] == a;
    RowOnItsPage(ordered, i, limit);
    var page := i / limit + 1;
    CountIsFilterLength(s.applications, p);
    var l := ListMyApplications(s, influencerId, ListQuery(status, page, limit), false);
    assert l.value.applications == Page(ordered, page, limit);
    assert l.value.applications[i % limit] == a;
  }

  /** The rows of pages `1 .. n` of the campaign listing, one page after
      the other, as a client paging through it reads them. */
  function CampaignPages(s: Store, status: Option<CampaignStatus>, limit: int, n: nat): seq<Campaign>
    requires 1 <= limit <= MaxLimit
  {
    if n == 0 then []
    else CampaignPages(s, status, limit, n - 1) + ListCampaigns(s, ListQuery(status, n, limit), false).value.campaigns
  }

  lemma {:induction false} CampaignPagesArePages(s: Store, status: Option<CampaignStatus>, limit: int, n: nat)
    requires 1 <= limit <= MaxLimit
    ensures CampaignPages(s, status, limit, n) == Pages(NewestFirst(Filter(s.campaigns, CampaignStatusIs(status))), limit, n)
  {
    if n > 0 {
      CampaignPagesArePages(s, status, limit, n - 1);
    }
  }

  /** Reading the campaign listing from page 1 to the page count it
      announces gives every campaign in the requested status exactly once,
      newest first: pages neither overlap nor leave gaps. */
  lemma CampaignPagesCoverListing(s: Store, status: Option<CampaignStatus>, limit: int)
    requires 1 <= limit <= MaxLimit
    ensures var n := ListCampaigns(s, ListQuery(status, 1, limit), false).value.totalPages;
      CampaignPages(s, status, limit, n) == NewestFirst(Filter(s.campaigns, CampaignStatusIs(status)))
  {
    var ordered := NewestFirst(Filter(s.campaigns, CampaignStatusIs(status)));
    CountIsFilterLength(s.campaigns, CampaignStatusIs(status));
    CampaignPagesArePages(s, status, limit, TotalPages(|ordered|, limit));
    AllPagesCoverListing(ordered, limit);
  }

  /** The rows of pages `1 .. n` of an influencer's application listing. */
  function ApplicationPages(s: Store, influencerId: Id, status: Option<ApplicationStatus>, limit: int, n: nat): seq<Application>
    requires 1 <= limit <= MaxLimit
  {
    if n == 0 then []
    else ApplicationPages(s, influencerId, status, limit, n - 1)
         + ListMyApplications(s, influencerId, ListQuery(status, n, limit), false).value.applications
  }

  lemma {:induction false} ApplicationPagesArePages(s: Store, influencerId: Id, status: Option<ApplicationStatus>,
                                                    limit: int, n: nat)
    requires 1 <= limit <= MaxLimit
    ensures ApplicationPages(s, influencerId, status, limit, n)
      == Pages(NewestFirst(Filter(s.applications, MyApplication(influencerId, status))), limit, n)
  {
    if n > 0 {
      ApplicationPagesArePages(s, influencerId, status, limit, n - 1);
    }
  }

  /** Reading an influencer's application listing from page 1 to the page
      count it announces gives every one of their applications in the
      requested status exactly once, newest first. */
  lemma ApplicationPagesCoverListing(s: Store, influencerId: Id, status: Option<ApplicationStatus>, limit: int)
    requires 1 <= limit <= MaxLimit
    ensures var n := ListMyApplications(s, influencerId, ListQuery(status, 1, limit), false).value.totalPages;
      ApplicationPages(s, influencerId, status, limit, n)
        == NewestFirst(Filter(s.applications, MyApplication(influencerId, status)))
  {
    var ordered := NewestFirst(Filter(s.applications, MyApplication(influencerId, status)));
    CountIsFilterLength(s.applications, MyApplication(influencerId, status));
    ApplicationPagesArePages(s, influencerId, status, limit, TotalPages(|ordered|, limit));
    AllPagesCoverListing(ordered, limit);
  }
}
