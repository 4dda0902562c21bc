/** The records of `src/lib/types.ts` that the modelled code reads, with the enumerations
    spelled as datatypes and their wire names (the strings stored in the database and sent
    in JSON) as functions. */
module Types {

  datatype Option<+T> = None | Some(value: T)
  {
    /** The value, or `d` when there is none. */
    function GetOr(d: T): T
    {
      if Some? then value else d
    }
  }

  /** `Lead['preferred_contact_time']` */
  datatype ContactTime = Morning | Afternoon | Evening | Anytime

  /** `Lead['interest']` */
  datatype Interest = OngoingProject | CompletedProject | Investment | General

  /** `Lead['heard_from']` without its `null` */
  datatype HeardFrom =
    | GoogleSearch | SocialMedia | FriendFamily | NewspaperMagazine
    | HoardingBanner | SiteVisit | ExistingCustomer | Other

  /** `Lead['status']` */
  datatype LeadStatus = New | Contacted | Qualified | Closed

  /** `Project['status']` */
  datatype ProjectStatus = Completed | Ongoing

  /** `ProjectImage['category']` without its `null` */
  datatype ImageCategory = Exterior | Interior | CommonAreas | Location

  /** A row of the `leads` table. `sourceIp` is a column the table has and the TypeScript
      interface omits; `createdAt` is a timestamp in milliseconds. */
  datatype Lead = Lead(
    id: string,
    name: string,
    email: string,
    phone: string,
    preferredContactTime: ContactTime,
    interest: Interest,
    heardFrom: Option<HeardFrom>,
    message: Option<string>,
    status: LeadStatus,
    sourceIp: Option<string>,
    createdAt: int)

  /** The fields of `Project` that the project list and the router read. */
  datatype Project = Project(slug: string, name: string, status: ProjectStatus)

  /** The fields of `ProjectImage` that the project page reads. */
  datatype ProjectImage = ProjectImage(imageUrl: string, category: Option<ImageCategory>)

  const ContactTimeNames: seq<string> := ["morning", "afternoon", "evening", "anytime"]
  const InterestNames: seq<string> := ["ongoing_project", "completed_project", "investment", "general"]
  const HeardFromNames: seq<string> := [
    "google_search", "social_media", "friend_family", "newspaper_magazine",
    "hoarding_banner", "site_visit", "existing_customer", "other"]
  const StatusNames: seq<string> := ["new", "contacted", "qualified", "closed"]

  function ContactTimeName(t: ContactTime): (s: string)
    ensures s in ContactTimeNames
  {
    match t
    case Morning => "morning"
    case Afternoon => "afternoon"
    case Evening => "evening"
    case Anytime => "anytime"
  }

  /** The value a wire name denotes; defined exactly on the four names. */
  function ParseContactTime(s: string): (r: Option<ContactTime>)
    ensures r.Some? <==> s in ContactTimeNames
    ensures r.Some? ==> ContactTimeName(r.value) == s
  {
    if s == "morning" then Some(Morning)
    else if s == "afternoon" then Some(Afternoon)
    else if s == "evening" then Some(Evening)
    else if s == "anytime" then Some(Anytime)
    else None
  }

  function InterestName(i: Interest): (s: string)
    ensures s in InterestNames
  {
    match i
    case OngoingProject => "ongoing_project"
    case CompletedProject => "completed_project"
    case Investment => "investment"
    case General => "general"
  }

  function ParseInterest(s: string): (r: Option<Interest>)
    ensures r.Some? <==> s in InterestNames
    ensures r.Some? ==> InterestName(r.value) == s
  {
    if s == "ongoing_project" then Some(OngoingProject)
    else if s == "completed_project" then Some(CompletedProject)
    else if s == "investment" then Some(Investment)
    else if s == "general" then Some(General)
    else None
  }

  function HeardFromName(h: HeardFrom): (s: string)
    ensures s in HeardFromNames
  {
    match h
    case GoogleSearch => "google_search"
    case SocialMedia => "social_media"
    case FriendFamily => "friend_family"
    case NewspaperMagazine => "newspaper_magazine"
    case HoardingBanner => "hoarding_banner"
    case SiteVisit => "site_visit"
    case ExistingCustomer => "existing_customer"
    case Other => "other"
  }

  function ParseHeardFrom(s: string): (r: Option<HeardFrom>)
    ensures r.Some? <==> s in HeardFromNames
    ensures r.Some? ==> HeardFromName(r.value) == s
  {
    if s == "google_search" then Some(GoogleSearch)
    else if s == "social_media" then Some(SocialMedia)
    else if s == "friend_family" then Some(FriendFamily)
    else if s == "newspaper_magazine" then Some(NewspaperMagazine)
    else if s == "hoarding_banner" then Some(HoardingBanner)
    else if s == "site_visit" then Some(SiteVisit)
    else if s == "existing_customer" then Some(ExistingCustomer)
    else if s == "other" then Some(Other)
    else None
  }

  function StatusName(st: LeadStatus): (s: string)
    ensures s in StatusNames
    ensures s != ""
  {
    match st
    case New => "new"
    case Contacted => "contacted"
    case Qualified => "qualified"
    case Closed => "closed"
  }

  /** Each enumeration value is recovered from its wire name. */
  lemma WireNamesRoundTrip(t: ContactTime, i: Interest, h: HeardFrom)
    ensures ParseContactTime(ContactTimeName(t)) == Some(t)
    ensures ParseInterest(InterestName(i)) == Some(i)
    ensures ParseHeardFrom(HeardFromName(h)) == Some(h)
  {
  }

  /** Distinct statuses have distinct wire names. */
  lemma StatusNameInjective(a: LeadStatus, b: LeadStatus)
    ensures StatusName(a) == StatusName(b) ==> a == b
  {
  }
}
