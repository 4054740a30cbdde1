/** The request schemas that gate every platform call: signup and onboarding
    payloads, campaign creation, status changes, applications, applicant
    selection and list queries. Each schema is a predicate over the request
    (or, where the schema converts or fills in defaults, a parser into the
    typed request the service receives). */
module Schema {
  import opened Envelope
  import opened Text
  import opened Records
  import Paging

  /** Format checks delegated to the validation library (e-mail addresses,
      URLs, UUIDs), left uninterpreted. */
  datatype Formats = Formats(isEmail: string -> bool, isUrl: string -> bool, isUuid: string -> bool)

  // ---------------------------------------------------------------------
  // Phone numbers: /^01[0-9]-?[0-9]{3,4}-?[0-9]{4}$/
  // ---------------------------------------------------------------------

  function SkipLeadingDash(s: string): string
  {
    if |s| > 0 && s[0] == '-' then s[1..] else s
  }

  function DropTrailingDash(s: string): string
  {
    if |s| > 0 && s[|s| - 1] == '-' then s[..|s| - 1] else s
  }

  /** Reads a mobile number left to right: `01`, a digit, an optional dash,
      then from the right four digits, an optional dash, and three or four
      digits in between. */
  function IsPhone(s: string): (ok: bool)
    ensures ok ==> 10 <= |s| <= 13 && s[0] == '0' && s[1] == '1'
  {
    && |s| >= 3 && s[0] == '0' && s[1] == '1' && IsDigit(s[2])
    && var r := SkipLeadingDash(s[3..]);
       && |r| >= 4 && AllDigits(r[|r| - 4..])
       && var m := DropTrailingDash(r[..|r| - 4]);
          3 <= |m| <= 4 && AllDigits(m)
  }

  /** One spelling of the phone pattern: whether each optional dash is
      present and how many digits the middle group has. */
  function PhoneShape(dash1: bool, middle: nat, dash2: bool): seq<CharClass>
  {
    [Lit('0'), Lit('1'), Digit] + OptDash(dash1) + Digits(middle) + OptDash(dash2) + Digits(4)
  }

  /** The phone pattern's language: the union of its eight spellings. */
  ghost predicate PhonePattern(s: string)
  {
    exists dash1: bool, middle: nat, dash2: bool ::
      3 <= middle <= 4 && Matches(s, PhoneShape(dash1, middle, dash2))
  }

  /** One spelling of the phone pattern, stated position by position. */
  ghost predicate PhoneLayout(s: string, dash1: bool, middle: nat, dash2: bool)
  {
    var a := if dash1 then 4 else 3;
    var e := a + middle + (if dash2 then 1 else 0);
    && |s| == e + 4
    && s[0] == '0' && s[1] == '1' && IsDigit(s[2])
    && (dash1 ==> s[3] == '-')
    && (forall i :: a <= i < a + middle ==> IsDigit(s[i]))
    && (dash2 ==> s[a + middle] == '-')
    && (forall i :: e <= i < e + 4 ==> IsDigit(s[i]))
  }

  /** Where each class sits in one spelling of the phone pattern. */
  lemma PhoneShapeAt(dash1: bool, middle: nat, dash2: bool)
    ensures var t := PhoneShape(dash1, middle, dash2);
      var a := if dash1 then 4 else 3;
      var e := a + middle + (if dash2 then 1 else 0);
      && |t| == e + 4
      && t[0] == Lit('0') && t[1] == Lit('1') && t[2] == Digit
      && (dash1 ==> t[3] == Dash)
      && (forall i :: a <= i < a + middle ==> t[i] == Digit)
      && (dash2 ==> t[a + middle] == Dash)
      && (forall i :: e <= i < e + 4 ==> t[i] == Digit)
  {
  }

  /** A string has one spelling's layout exactly when it matches that
      spelling's template. */
  lemma LayoutIsSpelling(s: string, dash1: bool, middle: nat, dash2: bool)
    ensures PhoneLayout(s, dash1, middle, dash2) <==> Matches(s, PhoneShape(dash1, middle, dash2))
  {
    var t := PhoneShape(dash1, middle, dash2);
    PhoneShapeAt(dash1, middle, dash2);
    var a := if dash1 then 4 else 3;
    var e := a + middle + (if dash2 then 1 else 0);
    if PhoneLayout(s, dash1, middle, dash2) {
      forall i | 0 <= i < |s| ensures Fits(s[i], t[i]) {
        if i < 3 {
        } else if i < a {
          assert dash1 && i == 3;
        } else if i < a + middle {
        } else if i < e {
          assert dash2 && i == a + middle;
        }
      }
    }
    if Matches(s, t) {
      assert Fits(s[0], t[0]) && Fits(s[1], t[1]) && Fits(s[2], t[2]);
      assert dash1 ==> Fits(s[3], t[3]);
      assert dash2 ==> Fits(s[a + middle], t[a + middle]);
      assert forall i :: a <= i < a + middle ==> Fits(s[i], t[i]);
      assert forall i :: e <= i < e + 4 ==> Fits(s[i], t[i]);
    }
  }

  /** The reader accepts a string only when one of the spellings matches it. */
  lemma PhoneReaderSound(s: string)
    requires IsPhone(s)
    ensures PhonePattern(s)
  {
    var dash1 := s[3] == '-';
    var a := if dash1 then 4 else 3;
    var r := SkipLeadingDash(s[3..]);
    assert r == s[a..];
    var front := r[..|r| - 4];
    var m := DropTrailingDash(front);
    var dash2 := |front| > 0 && front[|front| - 1] == '-';
    var k := |m|;
    ReaderLayout(s, dash1, a, r, front, m, dash2);
    LayoutIsSpelling(s, dash1, k, dash2);
  }

  /** What the reader's pieces say about the positions of the string. */
  lemma ReaderLayout(s: string, dash1: bool, a: nat, r: string, front: string, m: string, dash2: bool)
    requires IsPhone(s) && dash1 == (s[3] == '-') && a == (if dash1 then 4 else 3)
    requires r == SkipLeadingDash(s[3..]) && r == s[a..] && front == r[..|r| - 4]
    requires m == DropTrailingDash(front) && dash2 == (|front| > 0 && front[|front| - 1] == '-')
    ensures PhoneLayout(s, dash1, |m|, dash2)
  {
    var e := |s| - 4;
    LastGroupDigits(s, a, r);
    MiddleGroupDigits(s, a, e, m, dash2);
  }

  /** The reader's last group is the string's last four positions. */
  lemma LastGroupDigits(s: string, a: nat, r: string)
    requires a <= |s| && r == s[a..] && |r| >= 4 && AllDigits(r[|r| - 4..])
    ensures forall i :: |s| - 4 <= i < |s| ==> IsDigit(s[i])
    ensures r[..|r| - 4] == s[a..|s| - 4]
  {
    forall i | |s| - 4 <= i < |s| ensures IsDigit(s[i]) {
      assert r[|r| - 4..][i - (|s| - 4)] == s[i];
    }
  }

  /** The reader's middle group, with its optional trailing dash, fills the
      positions between `a` and `e`. */
  lemma MiddleGroupDigits(s: string, a: nat, e: nat, m: string, dash2: bool)
    requires a <= e <= |s|
    requires dash2 == (e > a && s[e - 1] == '-')
    requires m == DropTrailingDash(s[a..e]) && AllDigits(m)
    ensures a + |m| + (if dash2 then 1 else 0) == e
    ensures forall i :: a <= i < a + |m| ==> IsDigit(s[i])
    ensures dash2 ==> s[a + |m|] == '-'
  {
    var front := s[a..e];
    assert |front| > 0 ==> front[|front| - 1] == s[e - 1];
    assert m == s[a..a + |m|];
    forall i | a <= i < a + |m| ensures IsDigit(s[i]) {
      assert m[i - a] == s[i];
    }
  }

  /** Every spelling of the pattern is accepted by the reader. */
  lemma PhoneReaderComplete(s: string, dash1: bool, middle: nat, dash2: bool)
    requires 3 <= middle <= 4 && Matches(s, PhoneShape(dash1, middle, dash2))
    ensures IsPhone(s)
  {
    LayoutIsSpelling(s, dash1, middle, dash2);
    LayoutIsRead(s, dash1, middle, dash2);
  }

  /** The reader accepts every string laid out as one spelling. */
  lemma LayoutIsRead(s: string, dash1: bool, middle: nat, dash2: bool)
    requires 3 <= middle <= 4 && PhoneLayout(s, dash1, middle, dash2)
    ensures IsPhone(s)
  {
    var a := if dash1 then 4 else 3;
    var b := a + middle;
    var e := b + (if dash2 then 1 else 0);
    assert s[3] == '-' <==> dash1;
    var r := SkipLeadingDash(s[3..]);
    assert r == s[a..];
    LastGroupRead(s, a, e);
    var front := r[..|r| - 4];
    assert front == s[a..e];
    MiddleGroupRead(s, a, b, e, dash2);
  }

  /** The four digits after position `e` are the reader's last group. */
  lemma LastGroupRead(s: string, a: nat, e: nat)
    requires a <= e && |s| == e + 4 && forall i :: e <= i < e + 4 ==> IsDigit(s[i])
    ensures var r := s[a..]; |r| >= 4 && AllDigits(r[|r| - 4..]) && r[..|r| - 4] == s[a..e]
  {
    var r := s[a..];
    assert r[|r| - 4..] == s[e..];
    forall i | 0 <= i < 4 ensures IsDigit(s[e..][i]) {
      assert s[e..][i] == s[e + i];
    }
  }

  /** The text between the optional dashes is the reader's middle group. */
  lemma MiddleGroupRead(s: string, a: nat, b: nat, e: nat, dash2: bool)
    requires a <= b <= e <= |s| && e == b + (if dash2 then 1 else 0)
    requires forall i :: a <= i < b ==> IsDigit(s[i])
    requires dash2 ==> s[b] == '-'
    requires a < b
    ensures DropTrailingDash(s[a..e]) == s[a..b] && AllDigits(s[a..b])
  {
    var front := s[a..e];
    assert front[|front| - 1] == s[e - 1];
    assert s[e - 1] == '-' <==> dash2;
    forall i | 0 <= i < b - a ensures IsDigit(s[a..b][i]) {
      assert s[a..b][i] == s[a + i];
    }
  }

  /** The reader accepts exactly the language of the phone pattern. */
  lemma PhoneReaderMatchesPattern(s: string)
    ensures IsPhone(s) <==> PhonePattern(s)
  {
    if IsPhone(s) {
      PhoneReaderSound(s);
    }
    if PhonePattern(s) {
      var dash1: bool, middle: nat, dash2: bool :|
        3 <= middle <= 4 && Matches(s, PhoneShape(dash1, middle, dash2));
      PhoneReaderComplete(s, dash1, middle, dash2);
    }
  }

  /** Both the dashed and the undashed spelling of a number are valid, a
      three-digit middle group is accepted, and a landline prefix is not. */
  lemma PhoneExamples()
    ensures IsPhone("010-1234-5678")
    ensures IsPhone("01012345678")
    ensures IsPhone("011-123-4567")
    ensures !IsPhone("02-1234-5678")
  {
    DashedExample();
    UndashedExample();
    ShortMiddleExample();
    LandlineExample();
  }

  lemma LandlineExample() ensures !IsPhone("02-1234-5678")
  {
    assert "02-1234-5678"[1] == '2';
  }

  lemma DashedExample() ensures IsPhone("010-1234-5678")
  {
    var s := "010-1234-5678";
    assert forall i :: 4 <= i < 8 ==> IsDigit(s[i]);
    assert forall i :: 9 <= i < 13 ==> IsDigit(s[i]);
    LayoutIsRead(s, true, 4, true);
  }

  lemma UndashedExample() ensures IsPhone("01012345678")
  {
    var s := "01012345678";
    assert forall i :: 3 <= i < 7 ==> IsDigit(s[i]);
    assert forall i :: 7 <= i < 11 ==> IsDigit(s[i]);
    LayoutIsRead(s, false, 4, false);
  }

  lemma ShortMiddleExample() ensures IsPhone("011-123-4567")
  {
    var s := "011-123-4567";
    assert forall i :: 4 <= i < 7 ==> IsDigit(s[i]);
    assert forall i :: 8 <= i < 12 ==> IsDigit(s[i]);
    LayoutIsRead(s, true, 3, true);
  }

  // ---------------------------------------------------------------------
  // Fixed-shape fields: registration numbers and dates
  // ---------------------------------------------------------------------

  /** /^\d{3}-\d{2}-\d{5}$/ */
  const RegistrationShape: seq<CharClass> := Digits(3) + [Dash] + Digits(2) + [Dash] + Digits(5)

  /** A business registration number `NNN-NN-NNNNN`. */
  function IsRegistrationNumber(s: string): (ok: bool)
    ensures ok <==> |s| == 12 && s[3] == '-' && s[6] == '-'
                    && forall i :: 0 <= i < 12 && i != 3 && i != 6 ==> IsDigit(s[i])
  {
    var t := RegistrationShape;
    assert |t| == 12 && t[3] == Dash && t[6] == Dash;
    assert forall i :: 0 <= i < 12 && i != 3 && i != 6 ==> t[i] == Digit;
    Matches(s, t)
  }

  /** /^\d{4}-\d{2}-\d{2}$/ */
  const DateShape: seq<CharClass> := Digits(4) + [Dash] + Digits(2) + [Dash] + Digits(2)

  /** A date written `YYYY-MM-DD`; only the shape is checked. */
  function IsDateShape(s: string): (ok: bool)
    ensures ok <==> |s| == 10 && s[4] == '-' && s[7] == '-'
                    && forall i :: 0 <= i < 10 && i != 4 && i != 7 ==> IsDigit(s[i])
  {
    var t := DateShape;
    assert |t| == 10 && t[4] == Dash && t[7] == Dash;
    assert forall i :: 0 <= i < 10 && i != 4 && i != 7 ==> t[i] == Digit;
    Matches(s, t)
  }

  /** The date check is about shape alone: a month 13 and a day 45 pass. */
  lemma DateShapeIgnoresCalendar()
    ensures IsDateShape("2024-13-45")
    ensures IsDateShape("0000-00-00")
    ensures !IsDateShape("2024-1-01")
  {
  }

  // ---------------------------------------------------------------------
  // Status enumerations
  // ---------------------------------------------------------------------

  function CampaignStatusName(st: CampaignStatus): string
  {
    match st
    case Recruiting => "recruiting"
    case Closed => "closed"
    case Selected => "selected"
    case Completed => "completed"
  }

  function ApplicationStatusName(st: ApplicationStatus): string
  {
    match st
    case Pending => "pending"
    case Selected => "selected"
    case Rejected => "rejected"
  }

  /** The campaign status enumeration: accepts exactly the four status
      names, each denoting its own status. */
  function ParseCampaignStatus(s: string): (r: Option<CampaignStatus>)
    ensures r.Some? ==> CampaignStatusName(r.value) == s
    ensures r.None? <==> forall st: CampaignStatus :: CampaignStatusName(st) != s
  {
    if s == "recruiting" then Some(Recruiting)
    else if s == "closed" then Some(Closed)
    else if s == "selected" then Some(CampaignStatus.Selected)
    else if s == "completed" then Some(Completed)
    else None
  }

  /** The application status filter: accepts exactly the three status
      names, each denoting its own status. */
  function ParseApplicationStatus(s: string): (r: Option<ApplicationStatus>)
    ensures r.Some? ==> ApplicationStatusName(r.value) == s
    ensures r.None? <==> forall st: ApplicationStatus :: ApplicationStatusName(st) != s
  {
    if s == "pending" then Some(Pending)
    else if s == "selected" then Some(ApplicationStatus.Selected)
    else if s == "rejected" then Some(Rejected)
    else None
  }

  /** Every status survives a trip through its name. */
  lemma StatusNamesRoundTrip(c: CampaignStatus, a: ApplicationStatus)
    ensures ParseCampaignStatus(CampaignStatusName(c)) == Some(c)
    ensures ParseApplicationStatus(ApplicationStatusName(a)) == Some(a)
  {
  }

  // ---------------------------------------------------------------------
  // Signup and onboarding
  // ---------------------------------------------------------------------

  datatype SignupBase = SignupBase(email: string, password: string, name: string, phone: string, termsAgreed: bool)

  predicate ValidSignupBase(f: Formats, b: SignupBase)
  {
    && f.isEmail(b.email)
    && MinLength(b.password, 8)
    && MinLength(b.name, 2)
    && IsPhone(b.phone)
    && b.termsAgreed
  }

  datatype AdvertiserOnboarding = AdvertiserOnboarding(
    businessName: string, location: string, category: string, registrationNumber: string)

  predicate ValidAdvertiserOnboarding(o: AdvertiserOnboarding)
  {
    && MinLength(o.businessName, 2)
    && MinLength(o.location, 2)
    && MinLength(o.category, 1)
    && IsRegistrationNumber(o.registrationNumber)
  }

  /** A social channel: optional display name and optional URL. */
  datatype Channel = Channel(name: Option<string>, url: Option<string>)

  datatype InfluencerOnboarding = InfluencerOnboarding(
    birthDate: string, naverBlog: Channel, youtube: Channel, instagram: Channel, threads: Channel)

  /** An optional URL field also admits the empty string. */
  predicate OptionalUrl(f: Formats, u: Option<string>)
  {
    u.None? || u.value == "" || f.isUrl(u.value)
  }

  predicate ValidInfluencerOnboarding(f: Formats, o: InfluencerOnboarding)
  {
    && IsDateShape(o.birthDate)
    && OptionalUrl(f, o.naverBlog.url)
    && OptionalUrl(f, o.youtube.url)
    && OptionalUrl(f, o.instagram.url)
    && OptionalUrl(f, o.threads.url)
  }

  datatype AdvertiserSignup = AdvertiserSignup(base: SignupBase, role: string, profile: AdvertiserOnboarding)
  datatype InfluencerSignup = InfluencerSignup(base: SignupBase, role: string, profile: InfluencerOnboarding)

  predicate ValidAdvertiserSignup(f: Formats, x: AdvertiserSignup)
  {
    ValidSignupBase(f, x.base) && x.role == "advertiser" && ValidAdvertiserOnboarding(x.profile)
  }

  predicate ValidInfluencerSignup(f: Formats, x: InfluencerSignup)
  {
    ValidSignupBase(f, x.base) && x.role == "influencer" && ValidInfluencerOnboarding(f, x.profile)
  }

  /** For text without surrogate pairs, the signup bounds are plain
      character counts, inclusive at the bound, and the terms must be
      agreed to. */
  lemma SignupBaseBounds(f: Formats, b: SignupBase)
    requires InBmp(b.password) && InBmp(b.name)
    ensures ValidSignupBase(f, b) <==>
      f.isEmail(b.email) && |b.password| >= 8 && |b.name| >= 2 && IsPhone(b.phone) && b.termsAgreed
  {
    BmpLength(b.password);
    BmpLength(b.name);
  }

  /** For text without surrogate pairs, the advertiser onboarding bounds
      are plain character counts, inclusive at the bound, and the
      registration number must have the 3-2-5 digit shape. */
  lemma AdvertiserOnboardingBounds(o: AdvertiserOnboarding)
    requires InBmp(o.businessName) && InBmp(o.location) && InBmp(o.category)
    ensures ValidAdvertiserOnboarding(o) <==>
      && |o.businessName| >= 2 && |o.location| >= 2 && |o.category| >= 1
      && IsRegistrationNumber(o.registrationNumber)
  {
    BmpLength(o.businessName);
    BmpLength(o.location);
    BmpLength(o.category);
  }

  /** A payload names the signup path it is for: none passes both. */
  lemma SignupPathsExclusive(f: Formats, a: AdvertiserSignup, i: InfluencerSignup)
    requires a.role == i.role
    ensures !(ValidAdvertiserSignup(f, a) && ValidInfluencerSignup(f, i))
  {
  }

  /** Influencer onboarding accepts a payload with no social channel at all. */
  lemma NoChannelRequired(f: Formats, birthDate: string)
    requires IsDateShape(birthDate)
    ensures ValidInfluencerOnboarding(f, InfluencerOnboarding(birthDate,
      Channel(None, None), Channel(None, None), Channel(None, None), Channel(None, None)))
  {
  }

  // ---------------------------------------------------------------------
  // Campaigns
  // ---------------------------------------------------------------------

  /** A campaign creation request as received: the headcount is a
      JavaScript number. */
  datatype CampaignRequest = CampaignRequest(
    title: string, recruitmentStartDate: string, recruitmentEndDate: string,
    recruitmentCount: real, benefits: string, storeInfo: string, mission: string)

  /** A validated campaign creation request. */
  datatype CampaignInput = CampaignInput(
    title: string, recruitmentStartDate: string, recruitmentEndDate: string,
    recruitmentCount: int, benefits: string, storeInfo: string, mission: string)

  predicate IsInteger(x: real) { x == x.Floor as real }

  /** The campaign schema's bounds on a typed request. */
  predicate ValidCampaignInput(c: CampaignInput)
  {
    && MinLength(c.title, 5)
    && IsDateShape(c.recruitmentStartDate)
    && IsDateShape(c.recruitmentEndDate)
    && c.recruitmentCount >= 1
    && MinLength(c.benefits, 10)
    && MinLength(c.storeInfo, 10)
    && MinLength(c.mission, 10)
  }

  /** Validates a creation request; the headcount must be a whole number. */
  function ParseCreateCampaign(q: CampaignRequest): (r: Option<CampaignInput>)
    ensures r.Some? ==> ValidCampaignInput(r.value)
    ensures r.Some? ==> r.value.recruitmentCount as real == q.recruitmentCount
    ensures r.Some? ==> (r.value.title == q.title && r.value.benefits == q.benefits
      && r.value.storeInfo == q.storeInfo && r.value.mission == q.mission
      && r.value.recruitmentStartDate == q.recruitmentStartDate
      && r.value.recruitmentEndDate == q.recruitmentEndDate)
    ensures !IsInteger(q.recruitmentCount) || q.recruitmentCount < 1.0 ==> r.None?
    ensures IsInteger(q.recruitmentCount)
      && ValidCampaignInput(CampaignInput(q.title, q.recruitmentStartDate, q.recruitmentEndDate,
                                          q.recruitmentCount.Floor, q.benefits, q.storeInfo, q.mission))
      ==> r.Some?
  {
    var c := CampaignInput(q.title, q.recruitmentStartDate, q.recruitmentEndDate,
                           q.recruitmentCount.Floor, q.benefits, q.storeInfo, q.mission);
    if IsInteger(q.recruitmentCount) && ValidCampaignInput(c) then Some(c) else None
  }

  /** For text without surrogate pairs, each text bound is an inclusive
      character count: a 10-character benefits text passes, 9 does not. */
  lemma CampaignInputBounds(c: CampaignInput)
    requires InBmp(c.title) && InBmp(c.benefits) && InBmp(c.storeInfo) && InBmp(c.mission)
    ensures ValidCampaignInput(c) <==>
      && |c.title| >= 5 && |c.benefits| >= 10 && |c.storeInfo| >= 10 && |c.mission| >= 10
      && c.recruitmentCount >= 1
      && IsDateShape(c.recruitmentStartDate) && IsDateShape(c.recruitmentEndDate)
  {
    BmpLength(c.title);
    BmpLength(c.benefits);
    BmpLength(c.storeInfo);
    BmpLength(c.mission);
  }

  /** Nothing orders the recruitment window: an end date before the start
      date is accepted. */
  lemma RecruitmentWindowUnordered()
    ensures ValidCampaignInput(CampaignInput("Title", "2025-12-31", "2025-01-01", 1,
                                             "0123456789", "0123456789", "0123456789"))
  {
    ExampleTextLengths();
    ExampleDates();
  }

  lemma ExampleDates() ensures IsDateShape("2025-12-31") && IsDateShape("2025-01-01")
  {
  }

  lemma ExampleTextLengths()
    ensures MinLength("0123456789", 10) && !MinLength("012345678", 10) && MinLength("Title", 5)
  {
    TenCharacters();
    NineCharacters();
    FiveCharacters();
  }

  lemma TenCharacters() ensures Utf16Length("0123456789") == 10
  {
    assert InBmp("0123456789");
    BmpLength("0123456789");
  }

  lemma NineCharacters() ensures Utf16Length("012345678") == 9
  {
    assert InBmp("012345678");
    BmpLength("012345678");
  }

  lemma FiveCharacters() ensures Utf16Length("Title") == 5
  {
    assert InBmp("Title");
    BmpLength("Title");
  }

  // ---------------------------------------------------------------------
  // Applications and selection
  // ---------------------------------------------------------------------

  datatype ApplicationRequest = ApplicationRequest(campaignId: string, message: string, visitDate: string)

  /** The application schema's bounds that the stored row keeps. */
  predicate ValidApplicationFields(message: string, visitDate: string)
  {
    MinLength(message, 10) && IsDateShape(visitDate)
  }

  predicate ValidApplicationRequest(f: Formats, q: ApplicationRequest)
  {
    f.isUuid(q.campaignId) && ValidApplicationFields(q.message, q.visitDate)
  }

  /** The selection schema: at least one id, each a UUID. */
  predicate ValidSelection(f: Formats, ids: seq<string>)
  {
    |ids| >= 1 && forall i :: 0 <= i < |ids| ==> f.isUuid(ids[i])
  }

  /** An empty selection is refused and a single well-formed id suffices;
      for text without surrogate pairs the message bound is an inclusive
      count of ten characters. */
  lemma ApplicationAndSelectionBounds(f: Formats, q: ApplicationRequest, id: string)
    requires InBmp(q.message)
    ensures !ValidSelection(f, []) && (f.isUuid(id) ==> ValidSelection(f, [id]))
    ensures ValidApplicationRequest(f, q) <==>
      f.isUuid(q.campaignId) && |q.message| >= 10 && IsDateShape(q.visitDate)
  {
    BmpLength(q.message);
  }

  // ---------------------------------------------------------------------
  // List queries
  // ---------------------------------------------------------------------

  /** A list query as received; absent fields are `None`, present numbers
      are already coerced from the query string. */
  datatype ListRequest = ListRequest(status: Option<string>, page: Option<real>, limit: Option<real>)

  /** A validated list query. */
  datatype ListQuery<S> = ListQuery(status: Option<S>, page: int, limit: int)

  /** `page`: a whole number of at least 1, 1 when absent. */
  function ParsePage(p: Option<real>): (r: Option<int>)
    ensures p.None? ==> r == Some(Paging.DefaultPage)
    ensures r.Some? ==> r.value >= 1 && (p.Some? ==> r.value as real == p.value)
    ensures p.Some? && IsInteger(p.value) && p.value >= 1.0 ==> r.Some?
  {
    match p
    case None => Some(Paging.DefaultPage)
    case Some(x) => if IsInteger(x) && x >= 1.0 then Some(x.Floor) else None
  }

  /** `limit`: a whole number from 1 to 100, 20 when absent. */
  function ParseLimit(p: Option<real>): (r: Option<int>)
    ensures p.None? ==> r == Some(Paging.DefaultLimit)
    ensures r.Some? ==> 1 <= r.value <= Paging.MaxLimit && (p.Some? ==> r.value as real == p.value)
    ensures p.Some? && IsInteger(p.value) && 1.0 <= p.value <= 100.0 ==> r.Some?
  {
    match p
    case None => Some(Paging.DefaultLimit)
    case Some(x) => if IsInteger(x) && 1.0 <= x <= 100.0 then Some(x.Floor) else None
  }

  /** The campaign list query; its result always meets the paging bounds
      the listing needs. */
  function ParseCampaignQuery(q: ListRequest): (r: Option<ListQuery<CampaignStatus>>)
    ensures r.Some? ==> Paging.ValidPaging(r.value.page, r.value.limit)
    ensures r.Some? ==> (r.value.status.None? <==> q.status.None?)
    ensures r.Some? && q.status.Some? ==> CampaignStatusName(r.value.status.value) == q.status.value
    ensures r.None? <==> ParsePage(q.page).None? || ParseLimit(q.limit).None?
                         || (q.status.Some? && ParseCampaignStatus(q.status.value).None?)
    ensures r.Some? ==> ParsePage(q.page) == Some(r.value.page) && ParseLimit(q.limit) == Some(r.value.limit)
  {
    match (ParsePage(q.page), ParseLimit(q.limit))
    case (Some(page), Some(limit)) =>
      (match q.status
       case None => Some(ListQuery(None, page, limit))
       case Some(s) =>
         match ParseCampaignStatus(s)
         case Some(st) => Some(ListQuery(Some(st), page, limit))
         case None => None)
    case _ => None
  }

  /** The application list query: the same paging rules, the application
      status enumeration. */
  function ParseApplicationQuery(q: ListRequest): (r: Option<ListQuery<ApplicationStatus>>)
    ensures r.Some? ==> Paging.ValidPaging(r.value.page, r.value.limit)
    ensures r.Some? ==> (r.value.status.None? <==> q.status.None?)
    ensures r.Some? && q.status.Some? ==> ApplicationStatusName(r.value.status.value) == q.status.value
    ensures r.None? <==> ParsePage(q.page).None? || ParseLimit(q.limit).None?
                         || (q.status.Some? && ParseApplicationStatus(q.status.value).None?)
    ensures r.Some? ==> ParsePage(q.page) == Some(r.value.page) && ParseLimit(q.limit) == Some(r.value.limit)
  {
    match (ParsePage(q.page), ParseLimit(q.limit))
    case (Some(page), Some(limit)) =>
      (match q.status
       case None => Some(ListQuery(None, page, limit))
       case Some(s) =>
         match ParseApplicationStatus(s)
         case Some(st) => Some(ListQuery(Some(st), page, limit))
         case None => None)
    case _ => None
  }

  /** With nothing given, both list queries default to page 1 of 20. */
  lemma ListQueryDefaults()
    ensures ParseCampaignQuery(ListRequest(None, None, None)) == Some(ListQuery(None, 1, 20))
    ensures ParseApplicationQuery(ListRequest(None, None, None)) == Some(ListQuery(None, 1, 20))
  {
  }
}
