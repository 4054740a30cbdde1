# Campaign platform service — a Dafny model

This project models the back end of a campaign ("체험단") platform. Advertisers publish
campaigns, influencers apply to them, and the advertiser then selects applicants. Two parts of
the back end are modelled:

- **The request schemas** (`schema.ts`). These validators guard every service call: signup and
  onboarding payloads, campaign creation, campaign status, applications, applicant selection,
  and the two list queries. Each schema is a predicate. Where a schema converts its input or
  fills in defaults, it is a parser into the typed request the service receives. Lengths are
  counted the way JavaScript counts them, in UTF-16 code units. `\d` means the ten ASCII
  digits. Each regular expression is a fixed-shape template, or a union of templates.
- **The platform service** (`service.ts`). Each operation is a pure function. It takes the
  store and the call's arguments, and returns the response. A write also returns the store
  afterwards. The data store is abstract:
  - it holds the campaign and application tables in insertion order, plus a clock that stamps
    new rows;
  - a query is a row predicate;
  - `count: 'exact'` is the number of matching rows;
  - `order by created_at desc` reads the filtered table newest first;
  - `.range(a, b)` is the inclusive row range;
  - `.single()` yields a row only when exactly one row matches.

  Whether the store refuses a statement is not decided by the model. A constraint violation or
  a failed read arrives as a boolean argument (`fault`, `rejected`, `lookupFault`,
  `updateFault`, `campaignWriteFault`).

Modules:

| module | contents |
|---|---|
| `Envelope` | `Result` (success or failure with an HTTP status and an error code), `Option` |
| `Seqs` | the store's query vocabulary: filter, count, reverse, inclusive range, ordering |
| `Text` | digits, JavaScript string length, fixed-shape character templates |
| `Records` | campaign and application rows, the store, well-formedness (unique ids, creation order) |
| `Paging` | page offset, inclusive page range, page count |
| `Schema` | the request schemas |
| `Service` | the eight service operations |
| `ServiceLaws` | laws that relate the operations: invariants, read-back, idempotence, ownership, listing order and coverage |

Behaviour of the code that the model keeps:

- The status update checks ownership only: any of the four statuses may be written, whatever
  the campaign's current status (service.ts:262-270).
- Nothing stops an influencer from applying twice to the same campaign: the insert carries no
  check of its own (service.ts:284-293). Once they have two applications there, the
  `.single()` lookup of the caller's application finds neither, so the campaign detail shows
  them no application (service.ts:217-226; `ServiceLaws.SecondApplicationHidesOwn`).
- An application can target a campaign in any status: the insert does not read the campaign
  (service.ts:284-293). Only the store's own constraints, folded into `rejected`, can refuse it.
- Applicant selection marks the campaign `selected` in a second write, filtered by the campaign
  id alone. A failure of that write is only logged, and the call still succeeds
  (service.ts:398-407).

## Model

| member | source | states |
|---|---|---|
| Schema.IsPhone | src/features/platform/backend/schema.ts:10 | an accepted mobile number has 10 to 13 characters and starts with `01` |
| Schema.PhoneReaderSound | src/features/platform/backend/schema.ts:10 | every number the reader accepts is spelled by one of the pattern's eight spellings |
| Schema.PhoneReaderComplete | src/features/platform/backend/schema.ts:10 | every spelling of the pattern (optional dashes, 3- or 4-digit middle group) is accepted |
| Schema.PhoneReaderMatchesPattern | src/features/platform/backend/schema.ts:10 | the phone check accepts exactly the strings `01`, digit, optional dash, 3–4 digits, optional dash, 4 digits |
| Schema.PhoneExamples | src/features/platform/backend/schema.ts:10 | `010-1234-5678`, `01012345678` and `011-123-4567` pass; `02-1234-5678` fails |
| Schema.IsRegistrationNumber | src/features/platform/backend/schema.ts:18 | accepted iff 12 characters with dashes at positions 3 and 6 and digits everywhere else |
| Schema.IsDateShape | src/features/platform/backend/schema.ts:22 | accepted iff 10 characters with dashes at positions 4 and 7 and digits everywhere else |
| Schema.DateShapeIgnoresCalendar | src/features/platform/backend/schema.ts:48-49 | `2024-13-45` and `0000-00-00` pass and `2024-1-01` fails: the check is about shape alone, with no calendar check |
| Schema.ParseCampaignStatus | src/features/platform/backend/schema.ts:57 | exactly `recruiting`, `closed`, `selected` and `completed` are accepted, each as the status of that name |
| Schema.ParseApplicationStatus | src/features/platform/backend/schema.ts:80 | exactly `pending`, `selected` and `rejected` are accepted, each as the status of that name |
| Schema.StatusNamesRoundTrip | src/features/platform/backend/schema.ts:57 | reading back the name of any status gives that status |
| Schema.SignupBaseBounds | src/features/platform/backend/schema.ts:6-12 | for ordinary text: password of 8 or more characters, name of 2 or more, a valid phone, terms agreed, and an e-mail address |
| Schema.AdvertiserOnboardingBounds | src/features/platform/backend/schema.ts:14-19 | for ordinary text: business name and location of 2 or more characters, a category of at least 1, and a registration number of the form `ddd-dd-ddddd` |
| Schema.SignupPathsExclusive | src/features/platform/backend/schema.ts:33-41 | the role literal ties a payload to one signup path: no role passes both |
| Schema.NoChannelRequired | src/features/platform/backend/schema.ts:21-31 | influencer onboarding needs only a well-shaped birth date; every social channel is optional |
| Schema.ParseCreateCampaign | src/features/platform/backend/schema.ts:46-54 | a request is accepted exactly when its headcount is a whole number and the request meets the campaign bounds; an accepted request keeps every field and the headcount, and a headcount that is fractional or below 1 is refused |
| Schema.CampaignInputBounds | src/features/platform/backend/schema.ts:47-53 | for ordinary text: title of 5 or more characters, benefits, store information and mission of 10 or more, headcount of at least 1, both dates well shaped |
| Schema.RecruitmentWindowUnordered | src/features/platform/backend/schema.ts:48-49 | a recruitment window that ends before it starts is accepted |
| Schema.ExampleTextLengths | src/features/platform/backend/schema.ts:47-51 | a 10-character text meets the 10-character minimum and a 9-character one does not; a 5-character title meets its minimum |
| Schema.ApplicationAndSelectionBounds | src/features/platform/backend/schema.ts:69-77 | an empty selection is refused and one id suffices; an application needs a UUID, a message of 10 or more characters and a well-shaped visit date |
| Schema.ParsePage | src/features/platform/backend/schema.ts:62 | page is a whole number of at least 1, 1 when absent, otherwise the number given |
| Schema.ParseLimit | src/features/platform/backend/schema.ts:63 | limit is a whole number from 1 to 100, 20 when absent, otherwise the number given |
| Schema.ParseCampaignQuery | src/features/platform/backend/schema.ts:60-64 | an accepted campaign query carries the page and limit as read and the named status, and meets the paging bounds; it is refused exactly when page, limit or status is |
| Schema.ParseApplicationQuery | src/features/platform/backend/schema.ts:79-83 | the same as for campaigns, with the application statuses: page, limit and status are carried as read, and the query is refused exactly when one of them is |
| Schema.ListQueryDefaults | src/features/platform/backend/schema.ts:62-63 | an empty query reads as page 1 of 20 rows, for both listings |
| Text.MinLengthInclusive | src/features/platform/backend/schema.ts:47-53 | a minimum length is inclusive: on text without surrogate pairs it accepts exactly the strings that long or longer |
| Paging.TotalPages | src/features/platform/backend/service.ts:187 | the least number of pages of `limit` rows that hold `total` rows; zero exactly when there are no rows |
| Paging.Page | src/features/platform/backend/service.ts:163-175 | a page holds at most `limit` rows, taken in order from offset `(page - 1) * limit`; it is empty exactly when the offset is past the last row, and full when the next page's offset is still within the table |
| Paging.PageCount | src/features/platform/backend/service.ts:175-187 | pages 1 up to `ceil(total / limit)` are exactly the non-empty ones, and every page before the last is full |
| Paging.PageKeepsOrder | src/features/platform/backend/service.ts:174-175 | a page of a newest-first listing is newest first |
| Paging.RowOnItsPage | src/features/platform/backend/service.ts:163-175 | row `i` of a listing is entry `i mod limit` of page `i div limit + 1`, and that page is within the page count |
| Paging.AllPagesCoverListing | src/features/platform/backend/service.ts:163-187 | reading pages 1 to the page count in order gives back the whole listing, with nothing skipped or repeated |
| Service.Single | src/features/platform/backend/service.ts:197-201 | `.single()` yields a row exactly when one row matches, and that row is a matching row |
| Service.ListedRowsMatch | src/features/platform/backend/service.ts:169-175 | every row on a page of a filtered listing is a stored row that meets the filter |
| Service.OwnerCheckIsOwnership | src/features/platform/backend/service.ts:345-354 | with unique campaign ids, the owner lookup succeeds exactly when the campaign exists and belongs to the caller |
| Service.ListCampaigns | src/features/platform/backend/service.ts:160-193 | 500 on a read failure; otherwise at most `limit` stored campaigns of the requested status, the matching count as total, page and limit echoed, and the page count from the total |
| Service.GetCampaignById | src/features/platform/backend/service.ts:195-237 | 404 for a missing id; otherwise the campaign, its number of applications, and the caller's application exactly when the caller has one there; none for an anonymous caller |
| Service.CreateCampaign | src/features/platform/backend/service.ts:239-260 | 400 with the store unchanged when the insert is refused; otherwise one new campaign, owned by the caller, with the request's fields and the initial status, appended with a fresh stamp |
| Service.UpdateCampaignStatus | src/features/platform/backend/service.ts:262-282 | 400 with the store unchanged unless the caller owns the campaign; otherwise that one campaign takes the new status, and no other row changes |
| Service.CreateApplication | src/features/platform/backend/service.ts:284-305 | 400 with the store unchanged when the insert is refused; otherwise one new pending application by the caller, with the request's fields, appended with a fresh stamp |
| Service.ListMyApplications | src/features/platform/backend/service.ts:307-341 | as for campaigns, and every listed application belongs to the caller |
| Service.ListCampaignApplications | src/features/platform/backend/service.ts:343-372 | 403 to anyone but the owner, and 403 too when the ownership lookup fails; 500 when the owner's read fails; otherwise the owner gets every application of that campaign and none of any other |
| Service.SelectApplicants | src/features/platform/backend/service.ts:374-412 | 403 with the store unchanged for a non-owner or a failed ownership lookup; 400 with the store unchanged on a failed update; otherwise exactly the listed applications of this campaign become selected, nothing else changes but the campaign's status, and the count returned is the number of ids sent |
| ServiceLaws.CreateCampaignKeepsWf | src/features/platform/backend/service.ts:239-248 | creating a campaign keeps ids unique and creation stamps in order |
| ServiceLaws.CreateApplicationKeepsWf | src/features/platform/backend/service.ts:284-293 | applying keeps ids unique and creation stamps in order |
| ServiceLaws.UpdateCampaignStatusKeepsWf | src/features/platform/backend/service.ts:262-270 | a status update keeps the store well formed |
| ServiceLaws.SelectApplicantsKeepsWf | src/features/platform/backend/service.ts:387-401 | selection keeps the store well formed |
| ServiceLaws.CreatedCampaignIsFound | src/features/platform/backend/service.ts:239-255 | a campaign just created is found by its id and is the row the creation returned |
| ServiceLaws.CreatedCampaignLeadsListing | src/features/platform/backend/service.ts:165-175 | a campaign just created heads the first page of the full listing and of the recruiting listing |
| ServiceLaws.ApplyingCountsOnce | src/features/platform/backend/service.ts:210-215 | applying adds one to the application count of that campaign and to no other |
| ServiceLaws.FirstApplicationIsShown | src/features/platform/backend/service.ts:217-226 | after an influencer's first application to a campaign, the campaign detail shows it to them |
| ServiceLaws.SecondApplicationHidesOwn | src/features/platform/backend/service.ts:217-226 | a second application by the same influencer is accepted, and the detail then shows them none |
| ServiceLaws.OwnerListMatchesCount | src/features/platform/backend/service.ts:356-360 | the owner's list of applications is as long as the count on the campaign detail |
| ServiceLaws.NonOwnerIsTurnedAway | src/features/platform/backend/service.ts:376-385 | another advertiser's campaign can be neither updated (400) nor listed (403) nor selected on (403), whatever the store's read faults, and the store stays as it was |
| ServiceLaws.UpdateCampaignStatusIdempotent | src/features/platform/backend/service.ts:262-277 | writing the same status twice answers and stores the same as writing it once |
| ServiceLaws.SelectApplicantsIdempotent | src/features/platform/backend/service.ts:387-401 | selecting the same applicants twice answers and stores the same as selecting them once |
| ServiceLaws.SelectionKeepsCounts | src/features/platform/backend/service.ts:387-391 | selection changes no campaign's application count |
| ServiceLaws.ListingsNewestFirst | src/features/platform/backend/service.ts:173-175 | in a well-formed store the campaign list, the caller's applications and a campaign's applications are all newest first |
| ServiceLaws.EveryCampaignIsListed | src/features/platform/backend/service.ts:160-188 | every campaign of the requested status appears on some page within the announced page count |
| ServiceLaws.EveryApplicationIsListed | src/features/platform/backend/service.ts:307-336 | every matching application of the caller appears on some page within the announced page count |
| ServiceLaws.CampaignPagesArePages | src/features/platform/backend/service.ts:163-175 | each page the campaign listing answers is that page of the newest-first matching campaigns |
| ServiceLaws.CampaignPagesCoverListing | src/features/platform/backend/service.ts:160-188 | reading the campaign listing from page 1 to its announced page count gives every campaign of the requested status exactly once, newest first |
| ServiceLaws.ApplicationPagesArePages | src/features/platform/backend/service.ts:307-331 | each page of the caller's application listing is that page of their newest-first matching applications |
| ServiceLaws.ApplicationPagesCoverListing | src/features/platform/backend/service.ts:307-336 | reading the caller's application listing from page 1 to its announced page count gives each of their applications of the requested status exactly once, newest first |

## Left out

- Signup and profile reads (`signupAdvertiser`, `signupInfluencer`, `getUserProfile`) are calls into the identity provider and profile tables, which are not part of this model. Only their request schemas are modelled.
- E-mail, URL and UUID format checks belong to the validation library. They are uninterpreted predicates in `Schema.Formats`.
- The response schemas and exported types (`schema.ts` lines 88-146) describe payload shapes and promise nothing checkable. They are not modelled.
- Embedded joins are not modelled: advertiser names and influencer profiles are display data.
- `updated_at` is not modelled.
- Real timestamps are replaced by an abstract creation stamp taken from the store's clock.
- The initial statuses `recruiting` and `pending` are store column defaults. They are constants here.
- Logging and the `catch` branches that answer 500 `INTERNAL_ERROR` are not modelled. They respond to exceptions thrown by the client library, which are not part of this model.
- Service.GetCampaignById: a failed application-count read (count shown as 0) is not modelled, and neither is a failed own-application read (shown as none). Both are treated as successful reads.
- Service.ListCampaigns: a missing row list or count (`data || []`, `count || 0`) is not modelled. The store always answers both on success.
- A row range that starts beyond the last row is modelled as an empty page rather than a store error.
- Service.CreateApplication: the foreign-key check on the campaign id, and any uniqueness constraint the store may carry, are folded into the `rejected` argument rather than decided from the store.
- Coercion of `page` and `limit` from query-string text to numbers is not modelled. `Schema.ListRequest` receives the coerced number.
- JavaScript numbers are modelled as unbounded reals and integers, without double-precision rounding.
- Interleaving of concurrent calls, including between the two writes of applicant selection, is not modelled. Each call is atomic.
- Routing, authentication and the 401 answers of the route layer are not modelled. They are HTTP plumbing around the calls. The route layer applies each schema before its service call, which is why the service operations take validated requests as preconditions.
- The React pages, hooks and API client are user interface and I/O, and are not modelled.
