/** The campaign and application records of the platform, and the data store
    that holds them, as immutable values. */
module Records {
  import opened Seqs

  /** Row identifiers (UUIDs in the store). */
  type Id = string

  datatype CampaignStatus = Recruiting | Closed | Selected | Completed

  datatype ApplicationStatus = Pending | Selected | Rejected

  /** The status a fresh row receives from the store's column default. */
  const InitialCampaignStatus := Recruiting
  const InitialApplicationStatus := Pending

  /** A campaign row. `createdAt` is an abstract ordering key standing for
      the row's creation timestamp. */
  datatype Campaign = Campaign(
    id: Id,
    advertiserId: Id,
    title: string,
    recruitmentStartDate: string,
    recruitmentEndDate: string,
    recruitmentCount: int,
    benefits: string,
    storeInfo: string,
    mission: string,
    status: CampaignStatus,
    createdAt: nat)

  /** An application row: one influencer's request to join one campaign. */
  datatype Application = Application(
    id: Id,
    campaignId: Id,
    influencerId: Id,
    message: string,
    visitDate: string,
    status: ApplicationStatus,
    createdAt: nat)

  /** The two tables in insertion order, and the clock the store stamps new
      rows with. */
  datatype Store = Store(campaigns: seq<Campaign>, applications: seq<Application>, clock: nat)

  function CampaignKey(c: Campaign): int { c.createdAt }
  function ApplicationKey(a: Application): int { a.createdAt }

  /** Well-formed store: primary keys are unique, and creation stamps grow
      with insertion order and lie before the clock. */
  ghost predicate Wf(s: Store)
  {
    && (forall i, j :: 0 <= i < j < |s.campaigns| ==> s.campaigns[i].id != s.campaigns[j].id)
    && (forall i, j :: 0 <= i < j < |s.applications| ==> s.applications[i].id != s.applications[j].id)
    && Ascending(s.campaigns, CampaignKey)
    && Ascending(s.applications, ApplicationKey)
    && (forall i :: 0 <= i < |s.campaigns| ==> s.campaigns[i].createdAt < s.clock)
    && (forall i :: 0 <= i < |s.applications| ==> s.applications[i].createdAt < s.clock)
  }

  predicate CampaignIdUsed(s: Store, id: Id) { exists c :: c in s.campaigns && c.id == id }
  /** The campaign `campaignId` exists and belongs to `advertiserId`. */
  predicate Owns(s: Store, campaignId: Id, advertiserId: Id)
  {
    exists c :: c in s.campaigns && c.id == campaignId && c.advertiserId == advertiserId
  }

  predicate ApplicationIdUsed(s: Store, id: Id) { exists a :: a in s.applications && a.id == id }
}
