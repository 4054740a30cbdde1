/** The campaign and application operations of the platform service, each a
    pure function from the store (and the call's arguments) to the response
    and, for writes, the store afterwards.

    The data store is abstract: a query is a row predicate handed to
    `Filter`, a count is `Count`, `order by created_at desc` reads the
    filtered table newest first, and `.single()` yields a row only when
    exactly one row matches. Whether the store rejects a statement (a
    constraint violation, a failed read) is not decided here: it arrives as
    a boolean argument. */
module Service {
  import opened Envelope
  import opened Seqs
  import opened Records
  import opened Schema
  import opened Paging

  /** The store after a call, and the call's response. */
  datatype Step<T> = Step(store: Store, result: Result<T>)

  datatype CampaignPage = CampaignPage(
    campaigns: seq<Campaign>, total: nat, page: int, limit: int, totalPages: nat)

  datatype ApplicationPage = ApplicationPage(
    applications: seq<Application>, total: nat, page: int, limit: int, totalPages: nat)

  /** A campaign with its live application count and, for a signed-in
      caller, the caller's own application. */
  datatype CampaignDetail = CampaignDetail(
    campaign: Campaign, applicationCount: nat, userApplication: Option<Application>)

  // ---------------------------------------------------------------------
  // Row predicates handed to the store
  // ---------------------------------------------------------------------

  function CampaignStatusIs(status: Option<CampaignStatus>): Campaign -> bool
  {
    (c: Campaign) => status.None? || c.status == status.value
  }

  function CampaignIdIs(campaignId: Id): Campaign -> bool
  {
    (c: Campaign) => c.id == campaignId
  }

  function OwnedCampaign(campaignId: Id, advertiserId: Id): Campaign -> bool
  {
    (c: Campaign) => c.id == campaignId && c.advertiserId == advertiserId
  }

  function ApplicationOf(campaignId: Id): Application -> bool
  {
    (a: Application) => a.campaignId == campaignId
  }

  function CallerApplication(campaignId: Id, influencerId: Id): Application -> bool
  {
    (a: Application) => a.campaignId == campaignId && a.influencerId == influencerId
  }

  function MyApplication(influencerId: Id, status: Option<ApplicationStatus>): Application -> bool
  {
    (a: Application) => a.influencerId == influencerId && (status.None? || a.status == status.value)
  }

  function ChosenApplication(campaignId: Id, applicationIds: seq<Id>): Application -> bool
  {
    (a: Application) => a.id in applicationIds && a.campaignId == campaignId
  }

  /** `.single()`: the matching row when there is exactly one. */
  function Single<T>(rows: seq<T>): (r: Option<T>)
    ensures r.Some? <==> |rows| == 1
    ensures r.Some? ==> r.value in rows
  {
    if |rows| == 1 then Some(rows[0]) else None
  }

  /** `order by created_at desc` over rows kept in creation order. */
  function NewestFirst<T>(rows: seq<T>): seq<T> { Reverse(rows) }

  /** The owner check that guards owner-only operations: exactly one
      campaign has this id and this advertiser. */
  predicate OwnerCheck(s: Store, campaignId: Id, advertiserId: Id)
  {
    Count(s.campaigns, OwnedCampaign(campaignId, advertiserId)) == 1
  }

  /** An update statement: every row `p` selects gets `status`. */
  function SetCampaignStatus(cs: seq<Campaign>, p: Campaign -> bool, status: CampaignStatus): (r: seq<Campaign>)
    ensures |r| == |cs|
    ensures forall i :: 0 <= i < |cs| ==> r[i] == if p(cs[i]) then cs[i].(status := status) else cs[i]
  {
    seq(|cs|, i requires 0 <= i < |cs| => if p(cs[i]) then cs[i].(status := status) else cs[i])
  }

  function SetApplicationStatus(apps: seq<Application>, p: Application -> bool, status: ApplicationStatus): (r: seq<Application>)
    ensures |r| == |apps|
    ensures forall i :: 0 <= i < |apps| ==> r[i] == if p(apps[i]) then apps[i].(status := status) else apps[i]
  {
    seq(|apps|, i requires 0 <= i < |apps| => if p(apps[i]) then apps[i].(status := status) else apps[i])
  }

  // ---------------------------------------------------------------------
  // Campaigns
  // ---------------------------------------------------------------------

  /** One page of campaigns, newest first, optionally only those in one
      status, with the total count and the page count. */
  function ListCampaigns(s: Store, q: ListQuery<CampaignStatus>, fault: bool): (r: Result<CampaignPage>)
    requires ValidPaging(q.page, q.limit)
    ensures r.Failure? <==> fault
    ensures r.Failure? ==> r.status == ServerError && r.code == FetchFailed
    ensures r.Success? ==> r.value.page == q.page && r.value.limit == q.limit
    ensures r.Success? ==> |r.value.campaigns| <= q.limit
    ensures r.Success? ==> forall i :: 0 <= i < |r.value.campaigns| ==>
      r.value.campaigns[i] in s.campaigns
      && (q.status.Some? ==> r.value.campaigns[i].status == q.status.value)
    ensures r.Success? ==> r.value.total == Count(s.campaigns, CampaignStatusIs(q.status))
    ensures r.Success? && q.status.None? ==> r.value.total == |s.campaigns|
    ensures r.Success? ==> r.value.totalPages == TotalPages(r.value.total, q.limit)
    ensures r.Success? ==> (|r.value.campaigns| > 0 <==> q.page <= r.value.totalPages)
  {
    if fault then Failure(ServerError, FetchFailed)
    else
      var matching := Filter(s.campaigns, CampaignStatusIs(q.status));
      CountIsFilterLength(s.campaigns, CampaignStatusIs(q.status));
      CountAll(s.campaigns, CampaignStatusIs(q.status));
      var rows := Page(NewestFirst(matching), q.page, q.limit);
      ListedRowsMatch(s.campaigns, CampaignStatusIs(q.status), q.page, q.limit);
      PageCount(NewestFirst(matching), q.page, q.limit);
      var total := |matching|;
      Success(CampaignPage(rows, total, q.page, q.limit, TotalPages(total, q.limit)))
  }

  /** A campaign with its application count and the caller's application. */
  function GetCampaignById(s: Store, campaignId: Id, caller: Option<Id>, fault: bool): (r: Result<CampaignDetail>)
    ensures r.Failure? ==> r.status == NotFound && r.code == CampaignNotFound
    ensures fault || !CampaignIdUsed(s, campaignId) ==> r.Failure?
    ensures Wf(s) && !fault && CampaignIdUsed(s, campaignId) ==> r.Success?
    ensures r.Success? ==> r.value.campaign in s.campaigns && r.value.campaign.id == campaignId
    ensures r.Success? ==> r.value.applicationCount == Count(s.applications, ApplicationOf(campaignId))
    ensures r.Success? && r.value.userApplication.Some? ==>
      var a := r.value.userApplication.value;
      caller.Some? && a in s.applications && a.campaignId == campaignId && a.influencerId == caller.value
    ensures r.Success? && caller.Some? && caller.value != "" ==>
      (r.value.userApplication.Some? <==> Count(s.applications, CallerApplication(campaignId, caller.value)) == 1)
    ensures r.Success? && (caller.None? || caller.value == "") ==> r.value.userApplication.None?
  {
    var found := Single(Filter(s.campaigns, CampaignIdIs(campaignId)));
    CampaignIdCount(s, campaignId);
    CountIsFilterLength(s.campaigns, CampaignIdIs(campaignId));
    if fault || found.None? then Failure(NotFound, CampaignNotFound)
    else
      var count := Count(s.applications, ApplicationOf(campaignId));
      var own :=
        if caller.Some? && caller.value != "" then
          CountIsFilterLength(s.applications, CallerApplication(campaignId, caller.value));
          Single(Filter(s.applications, CallerApplication(campaignId, caller.value)))
        else None;
      Success(CampaignDetail(found.value, count, own))
  }

  /** Creates a campaign owned by the caller, in the initial status. */
  function CreateCampaign(s: Store, advertiserId: Id, input: CampaignInput, newId: Id, rejected: bool): (r: Step<Campaign>)
    requires ValidCampaignInput(input)
    ensures r.result.Failure? <==> rejected || CampaignIdUsed(s, newId)
    ensures r.result.Failure? ==> r.store == s && r.result.status == BadRequest && r.result.code == CreateFailed
    ensures r.result.Success? ==>
      var c := r.result.value;
      && r.store.campaigns == s.campaigns + [c]
      && r.store.applications == s.applications
      && c.id == newId && c.advertiserId == advertiserId && c.status == InitialCampaignStatus
      && c.title == input.title && c.recruitmentCount == input.recruitmentCount
      && c.recruitmentStartDate == input.recruitmentStartDate
      && c.recruitmentEndDate == input.recruitmentEndDate
      && c.benefits == input.benefits && c.storeInfo == input.storeInfo && c.mission == input.mission
      && r.store.clock > c.createdAt >= s.clock
  {
    if rejected || CampaignIdUsed(s, newId) then Step(s, Failure(BadRequest, CreateFailed))
    else
      var c := Campaign(newId, advertiserId, input.title, input.recruitmentStartDate,
                        input.recruitmentEndDate, input.recruitmentCount, input.benefits,
                        input.storeInfo, input.mission, InitialCampaignStatus, s.clock);
      Step(Store(s.campaigns + [c], s.applications, s.clock + 1), Success(c))
  }

  /** Writes a new status to the caller's own campaign. */
  function UpdateCampaignStatus(s: Store, campaignId: Id, advertiserId: Id, status: CampaignStatus, fault: bool): (r: Step<Campaign>)
    ensures r.result.Failure? <==> fault || !OwnerCheck(s, campaignId, advertiserId)
    ensures Wf(s) ==> (r.result.Failure? <==> fault || !Owns(s, campaignId, advertiserId))
    ensures r.result.Failure? ==> r.store == s && r.result.status == BadRequest && r.result.code == UpdateFailed
    ensures r.store.applications == s.applications && r.store.clock == s.clock
    ensures |r.store.campaigns| == |s.campaigns|
    ensures forall i :: 0 <= i < |s.campaigns| ==>
      r.store.campaigns[i] ==
        if r.result.Success? && s.campaigns[i].id == campaignId && s.campaigns[i].advertiserId == advertiserId
        then s.campaigns[i].(status := status) else s.campaigns[i]
    ensures r.result.Success? ==>
      var c := r.result.value;
      c in r.store.campaigns && c.id == campaignId && c.advertiserId == advertiserId && c.status == status
  {
    OwnerCheckIsOwnership(s, campaignId, advertiserId);
    if fault || !OwnerCheck(s, campaignId, advertiserId) then Step(s, Failure(BadRequest, UpdateFailed))
    else
      var p := OwnedCampaign(campaignId, advertiserId);
      var cs := SetCampaignStatus(s.campaigns, p, status);
      CountIsFilterLength(s.campaigns, p);
      var row := Filter(s.campaigns, p)[0];
      UpdatedRowPresent(s.campaigns, p, status, row);
      Step(Store(cs, s.applications, s.clock), Success(row.(status := status)))
  }

  // ---------------------------------------------------------------------
  // Applications
  // ---------------------------------------------------------------------

  /** Files the caller's application to a campaign, pending. */
  function CreateApplication(s: Store, influencerId: Id, q: ApplicationRequest, newId: Id, rejected: bool): (r: Step<Application>)
    requires ValidApplicationFields(q.message, q.visitDate)
    ensures r.result.Failure? <==> rejected || ApplicationIdUsed(s, newId)
    ensures r.result.Failure? ==> r.store == s && r.result.status == BadRequest && r.result.code == ApplicationFailed
    ensures r.result.Success? ==>
      var a := r.result.value;
      && r.store.applications == s.applications + [a]
      && r.store.campaigns == s.campaigns
      && a.id == newId && a.influencerId == influencerId && a.campaignId == q.campaignId
      && a.message == q.message && a.visitDate == q.visitDate && a.status == InitialApplicationStatus
      && r.store.clock > a.createdAt >= s.clock
  {
    if rejected || ApplicationIdUsed(s, newId) then Step(s, Failure(BadRequest, ApplicationFailed))
    else
      var a := Application(newId, q.campaignId, influencerId, q.message, q.visitDate,
                           InitialApplicationStatus, s.clock);
      Step(Store(s.campaigns, s.applications + [a], s.clock + 1), Success(a))
  }

  /** One page of the caller's own applications, newest first, optionally
      only those in one status. */
  function ListMyApplications(s: Store, influencerId: Id, q: ListQuery<ApplicationStatus>, fault: bool): (r: Result<ApplicationPage>)
    requires ValidPaging(q.page, q.limit)
    ensures r.Failure? <==> fault
    ensures r.Failure? ==> r.status == ServerError && r.code == FetchFailed
    ensures r.Success? ==> r.value.page == q.page && r.value.limit == q.limit
    ensures r.Success? ==> |r.value.applications| <= q.limit
    ensures r.Success? ==> forall i :: 0 <= i < |r.value.applications| ==>
      r.value.applications[i] in s.applications
      && r.value.applications[i].influencerId == influencerId
      && (q.status.Some? ==> r.value.applications[i].status == q.status.value)
    ensures r.Success? ==> r.value.total == Count(s.applications, MyApplication(influencerId, q.status))
    ensures r.Success? ==> r.value.totalPages == TotalPages(r.value.total, q.limit)
    ensures r.Success? ==> (|r.value.applications| > 0 <==> q.page <= r.value.totalPages)
  {
    if fault then Failure(ServerError, FetchFailed)
    else
      var mine := Filter(s.applications, MyApplication(influencerId, q.status));
      CountIsFilterLength(s.applications, MyApplication(influencerId, q.status));
      var rows := Page(NewestFirst(mine), q.page, q.limit);
      ListedRowsMatch(s.applications, MyApplication(influencerId, q.status), q.page, q.limit);
      PageCount(NewestFirst(mine), q.page, q.limit);
      var total := |mine|;
      Success(ApplicationPage(rows, total, q.page, q.limit, TotalPages(total, q.limit)))
  }

  /** Every application to the caller's own campaign, newest first. A
      failed ownership lookup (`lookupFault`) is answered like a campaign
      the caller does not own. */
  function ListCampaignApplications(s: Store, campaignId: Id, advertiserId: Id,
                                    lookupFault: bool, fault: bool): (r: Result<seq<Application>>)
    ensures lookupFault || !OwnerCheck(s, campaignId, advertiserId) ==> r == Failure(Forbidden, Unauthorized)
    ensures Wf(s) && !Owns(s, campaignId, advertiserId) ==> r == Failure(Forbidden, Unauthorized)
    ensures !lookupFault && OwnerCheck(s, campaignId, advertiserId) && fault ==> r == Failure(ServerError, FetchFailed)
    ensures r.Success? <==> !lookupFault && OwnerCheck(s, campaignId, advertiserId) && !fault
    ensures r.Success? ==> |r.value| == Count(s.applications, ApplicationOf(campaignId))
    ensures r.Success? ==> forall a :: a in r.value <==> a in s.applications && a.campaignId == campaignId
  {
    OwnerCheckIsOwnership(s, campaignId, advertiserId);
    if lookupFault || !OwnerCheck(s, campaignId, advertiserId) then Failure(Forbidden, Unauthorized)
    else if fault then Failure(ServerError, FetchFailed)
    else
      var rows := Filter(s.applications, ApplicationOf(campaignId));
      CountIsFilterLength(s.applications, ApplicationOf(campaignId));
      ReverseSameElements(rows);
      Success(NewestFirst(rows))
  }

  /** Marks the listed applications of the caller's own campaign as
      selected, then marks the campaign itself selected. The second write
      is best effort: when the store rejects it the call still succeeds.
      A failed ownership lookup (`lookupFault`) is answered like a campaign
      the caller does not own. The answer is the number of ids submitted. */
  function SelectApplicants(s: Store, campaignId: Id, advertiserId: Id, applicationIds: seq<Id>,
                            lookupFault: bool, updateFault: bool, campaignWriteFault: bool): (r: Step<nat>)
    requires |applicationIds| >= 1
    ensures lookupFault || !OwnerCheck(s, campaignId, advertiserId) ==> r == Step(s, Failure(Forbidden, Unauthorized))
    ensures Wf(s) && !Owns(s, campaignId, advertiserId) ==> r == Step(s, Failure(Forbidden, Unauthorized))
    ensures !lookupFault && OwnerCheck(s, campaignId, advertiserId) && updateFault ==>
      r == Step(s, Failure(BadRequest, UpdateFailed))
    ensures r.result.Success? <==> !lookupFault && OwnerCheck(s, campaignId, advertiserId) && !updateFault
    ensures r.result.Success? ==> r.result.value == |applicationIds|
    ensures r.store.clock == s.clock
    ensures |r.store.applications| == |s.applications|
    ensures forall i :: 0 <= i < |s.applications| ==>
      var a, b := s.applications[i], r.store.applications[i];
      && b == a.(status := b.status)
      && (b.status == ApplicationStatus.Selected <==>
            a.status == ApplicationStatus.Selected
            || (r.result.Success? && a.id in applicationIds && a.campaignId == campaignId))
      && (!(r.result.Success? && a.id in applicationIds && a.campaignId == campaignId) ==> b == a)
    ensures |r.store.campaigns| == |s.campaigns|
    ensures forall i :: 0 <= i < |s.campaigns| ==>
      r.store.campaigns[i] ==
        if r.result.Success? && !campaignWriteFault && s.campaigns[i].id == campaignId
        then s.campaigns[i].(status := CampaignStatus.Selected) else s.campaigns[i]
  {
    OwnerCheckIsOwnership(s, campaignId, advertiserId);
    if lookupFault || !OwnerCheck(s, campaignId, advertiserId) then Step(s, Failure(Forbidden, Unauthorized))
    else if updateFault then Step(s, Failure(BadRequest, UpdateFailed))
    else
      var apps := SetApplicationStatus(s.applications, ChosenApplication(campaignId, applicationIds),
                                       ApplicationStatus.Selected);
      var cs := if campaignWriteFault then s.campaigns
                else SetCampaignStatus(s.campaigns, CampaignIdIs(campaignId), CampaignStatus.Selected);
      Step(Store(cs, apps, s.clock), Success(|applicationIds|))
  }

  // ---------------------------------------------------------------------
  // Facts about the store's queries that the operations rely on
  // ---------------------------------------------------------------------

  /** Every row on a page of a filtered listing is a stored row that
      meets the filter. */
  lemma ListedRowsMatch<T>(rows: seq<T>, p: T -> bool, page: int, limit: int)
    requires ValidPaging(page, limit)
    ensures var listed := Page(NewestFirst(Filter(rows, p)), page, limit);
      forall i :: 0 <= i < |listed| ==> listed[i] in rows && p(listed[i])
  {
    var matching := Filter(rows, p);
    var ordered := NewestFirst(matching);
    var listed := Page(ordered, page, limit);
    assert ordered == Reverse(matching);
    var off := (page - 1) * limit;
    assert off >= 0 by { MulMono(0, page - 1, limit); }
    assert listed == Range(ordered, off, off + limit - 1);
    forall i | 0 <= i < |listed| ensures listed[i] in rows && p(listed[i]) {
      var j := off + i;
      assert 0 <= j < |ordered| && listed[i] == ordered[j];
      var m := |matching| - 1 - j;
      assert ordered[j] == matching[m];
      assert matching[m] in rows && p(matching[m]);
    }
  }

  lemma UpdatedRowPresent(cs: seq<Campaign>, p: Campaign -> bool, status: CampaignStatus, row: Campaign)
    requires row in cs && p(row)
    ensures row.(status := status) in SetCampaignStatus(cs, p, status)
  {
    var k :| 0 <= k < |cs| && cs[k] == row;
    assert SetCampaignStatus(cs, p, status)[k] == row.(status := status);
  }

  /** With unique campaign ids, at most one campaign answers to an id. */
  lemma CampaignIdCount(s: Store, campaignId: Id)
    ensures Wf(s) ==> Count(s.campaigns, CampaignIdIs(campaignId)) == (if CampaignIdUsed(s, campaignId) then 1 else 0)
    ensures Count(s.campaigns, CampaignIdIs(campaignId)) > 0 <==> CampaignIdUsed(s, campaignId)
  {
    UniqueKeyCount(s.campaigns, CampaignIdIs(campaignId));
    CountPositive(s.campaigns, CampaignIdIs(campaignId));
  }

  /** With unique campaign ids, the owner check holds exactly when the
      campaign exists and belongs to the advertiser. */
  lemma OwnerCheckIsOwnership(s: Store, campaignId: Id, advertiserId: Id)
    ensures Wf(s) ==> (OwnerCheck(s, campaignId, advertiserId) <==> Owns(s, campaignId, advertiserId))
    ensures OwnerCheck(s, campaignId, advertiserId) ==> Owns(s, campaignId, advertiserId)
  {
    var p := OwnedCampaign(campaignId, advertiserId);
    UniqueKeyCount(s.campaigns, p);
    CountPositive(s.campaigns, p);
  }

  /** A row predicate that only one row of a table with unique ids can meet
      matches at most one row. */
  lemma {:induction false} UniqueKeyCount(cs: seq<Campaign>, p: Campaign -> bool)
    requires forall x, y :: x in cs && y in cs && p(x) && p(y) ==> x.id == y.id
    ensures (forall i, j :: 0 <= i < j < |cs| ==> cs[i].id != cs[j].id) ==>
      Count(cs, p) == (if exists c :: c in cs && p(c) then 1 else 0)
  {
    if |cs| > 0 && forall i, j :: 0 <= i < j < |cs| ==> cs[i].id != cs[j].id {
      var tail := cs[1..];
      assert forall i, j :: 0 <= i < j < |tail| ==> tail[i].id != tail[j].id by {
        forall i, j | 0 <= i < j < |tail| ensures tail[i].id != tail[j].id {
          assert tail[i] == cs[i + 1] && tail[j] == cs[j + 1];
        }
      }
      UniqueKeyCount(tail, p);
      if p(cs[0]) {
        forall c | c in tail ensures !p(c) {
          var m :| 0 <= m < |tail| && tail[m] == c;
          assert cs[m + 1] == c;
        }
      } else {
        assert (exists c :: c in cs && p(c)) <==> (exists c :: c in tail && p(c)) by {
          if exists c :: c in cs && p(c) {
            var c :| c in cs && p(c);
            assert c != cs[0];
            assert c in tail;
          }
        }
      }
    }
  }

  /** A table has a matching row exactly when its count is positive. */
  lemma {:induction false} CountPositive<T>(s: seq<T>, p: T -> bool)
    ensures Count(s, p) > 0 <==> exists x :: x in s && p(x)
  {
    if |s| > 0 {
      CountPositive(s[1..], p);
      if exists x :: x in s && p(x) {
        var x :| x in s && p(x);
        if x != s[0] {
          assert x in s[1..];
        }
      }
      assert forall x :: x in s[1..] ==> x in s;
    }
  }
}
