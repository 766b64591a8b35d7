/**
 * The complaint record, the file reference returned by the media host, the
 * closed enumerations whose names the record stores as strings, and the
 * integer arithmetic that combines the incident date and time of day.
 */
module ComplaintData {
  import opened Common

  datatype ComplaintCategory =
    | Poaching | InjuredAnimal | IllegalLogging | HabitatDestruction
    | IllegalFishing | Pollution | Encroachment | Other

  datatype SeverityLevel = Low | Medium | High | Critical

  datatype ContactPreference = Email | Phone | Anonymous

  datatype FileType = Image | Video | Document | Raw

  /** The enumerations in declaration order, as `values()` lists them. */
  const AllCategories: seq<ComplaintCategory> :=
    [Poaching, InjuredAnimal, IllegalLogging, HabitatDestruction,
     IllegalFishing, Pollution, Encroachment, Other]
  const AllSeverities: seq<SeverityLevel> := [Low, Medium, High, Critical]
  const AllContactPreferences: seq<ContactPreference> := [Email, Phone, Anonymous]
  const AllFileTypes: seq<FileType> := [Image, Video, Document, Raw]

  /** The `.name` of each constant, the text the record stores. */
  function CategoryName(c: ComplaintCategory): string {
    match c
    case Poaching => "POACHING"
    case InjuredAnimal => "INJURED_ANIMAL"
    case IllegalLogging => "ILLEGAL_LOGGING"
    case HabitatDestruction => "HABITAT_DESTRUCTION"
    case IllegalFishing => "ILLEGAL_FISHING"
    case Pollution => "POLLUTION"
    case Encroachment => "ENCROACHMENT"
    case Other => "OTHER"
  }

  function SeverityName(s: SeverityLevel): string {
    match s
    case Low => "LOW"
    case Medium => "MEDIUM"
    case High => "HIGH"
    case Critical => "CRITICAL"
  }

  function ContactPreferenceName(p: ContactPreference): string {
    match p
    case Email => "EMAIL"
    case Phone => "PHONE"
    case Anonymous => "ANONYMOUS"
  }

  function FileTypeName(t: FileType): string {
    match t
    case Image => "IMAGE"
    case Video => "VIDEO"
    case Document => "DOCUMENT"
    case Raw => "RAW"
  }

  /** `CloudinaryFileType.valueOf(name)`, with the exception as None. */
  function FileTypeValueOf(name: string): (r: Option<FileType>)
    ensures r.Some? ==> FileTypeName(r.value) == name
    ensures forall t :: FileTypeName(t) == name ==> r == Some(t)
  {
    if name == "IMAGE" then Some(Image)
    else if name == "VIDEO" then Some(Video)
    else if name == "DOCUMENT" then Some(Document)
    else if name == "RAW" then Some(Raw)
    else None
  }

  /** The enumerations are closed: these lists hold every constant, under distinct names. */
  lemma EnumerationsClosed()
    ensures |AllCategories| == 8 && forall c: ComplaintCategory :: c in AllCategories
    ensures |AllSeverities| == 4 && forall s: SeverityLevel :: s in AllSeverities
    ensures |AllContactPreferences| == 3 && forall p: ContactPreference :: p in AllContactPreferences
    ensures |AllFileTypes| == 4 && forall t: FileType :: t in AllFileTypes
    ensures forall i, j :: 0 <= i < j < |AllCategories| ==>
      CategoryName(AllCategories[i]) != CategoryName(AllCategories[j])
    ensures forall i, j :: 0 <= i < j < |AllSeverities| ==>
      SeverityName(AllSeverities[i]) != SeverityName(AllSeverities[j])
    ensures forall i, j :: 0 <= i < j < |AllContactPreferences| ==>
      ContactPreferenceName(AllContactPreferences[i]) != ContactPreferenceName(AllContactPreferences[j])
    ensures forall i, j :: 0 <= i < j < |AllFileTypes| ==>
      FileTypeName(AllFileTypes[i]) != FileTypeName(AllFileTypes[j])
  {
    forall c: ComplaintCategory ensures c in AllCategories {
      match c
      case Poaching => assert AllCategories[0] == c;
      case InjuredAnimal => assert AllCategories[1] == c;
      case IllegalLogging => assert AllCategories[2] == c;
      case HabitatDestruction => assert AllCategories[3] == c;
      case IllegalFishing => assert AllCategories[4] == c;
      case Pollution => assert AllCategories[5] == c;
      case Encroachment => assert AllCategories[6] == c;
      case Other => assert AllCategories[7] == c;
    }
    forall s: SeverityLevel ensures s in AllSeverities {
      match s
      case Low => assert AllSeverities[0] == s;
      case Medium => assert AllSeverities[1] == s;
      case High => assert AllSeverities[2] == s;
      case Critical => assert AllSeverities[3] == s;
    }
    forall p: ContactPreference ensures p in AllContactPreferences {
      match p
      case Email => assert AllContactPreferences[0] == p;
      case Phone => assert AllContactPreferences[1] == p;
      case Anonymous => assert AllContactPreferences[2] == p;
    }
    forall t: FileType ensures t in AllFileTypes {
      match t
      case Image => assert AllFileTypes[0] == t;
      case Video => assert AllFileTypes[1] == t;
      case Document => assert AllFileTypes[2] == t;
      case Raw => assert AllFileTypes[3] == t;
    }
  }

  /** Metadata of one uploaded file (`CloudinaryFileReference`). */
  datatype FileReference = FileReference(
    publicId: string,
    version: Option<string>,
    signature: Option<string>,
    resourceType: string,
    secureUrl: string,
    originalFilename: string,
    format: string,
    bytes: int,
    fileType: string)

  /** The no-argument constructor used when the document store deserialises a reference. */
  function DefaultFileReference(): (r: FileReference)
    ensures r.fileType == FileTypeName(Raw) && r.resourceType == "auto"
    ensures r.bytes == 0 && r.version.None? && r.signature.None?
    ensures r.publicId == "" && r.secureUrl == "" && r.originalFilename == "" && r.format == ""
  {
    FileReference("", None, None, "auto", "", "", "", 0, FileTypeName(Raw))
  }

  /** Latitude and longitude are opaque values here: nothing computes with them. */
  type Coordinate = real

  /**
   * `ComplaintData`. Dates are milliseconds since the epoch; the two
   * server-assigned timestamps are the store's `Date`s in milliseconds.
   */
  datatype Complaint = Complaint(
    id: string,
    userId: string,
    title: string,
    description: string,
    incidentDate: Option<int>,
    incidentTime: Option<int>,
    latitude: Option<Coordinate>,
    longitude: Option<Coordinate>,
    landmark: string,
    category: Option<string>,
    speciesInvolved: string,
    severity: Option<string>,
    attachedMediaUris: seq<string>,
    attachedDocumentUris: seq<string>,
    attachedFiles: seq<FileReference>,
    witnessName: string,
    witnessContact: string,
    contactPreference: string,
    additionalNotes: string,
    status: string,
    adminRemarks: string,
    lastUpdatedByAdminUid: Option<string>,
    lastStatusUpdateTimestamp: Option<int>,
    submissionTimestamp: Option<int>,
    clientSubmissionTimestamp: int)

  const PendingStatus := "Pending"

  /**
   * `ComplaintData()`: the no-argument secondary constructor, which Kotlin
   * prefers over the all-defaults primary one, so the client timestamp is 0.
   */
  function DefaultComplaint(): (c: Complaint)
    ensures c.status == PendingStatus && c.adminRemarks == ""
    ensures c.contactPreference == ContactPreferenceName(Anonymous)
    ensures c.attachedMediaUris == [] && c.attachedDocumentUris == [] && c.attachedFiles == []
    ensures c.category.None? && c.severity.None?
    ensures c.lastUpdatedByAdminUid.None? && c.lastStatusUpdateTimestamp.None? && c.submissionTimestamp.None?
    ensures c.incidentDate.None? && c.incidentTime.None? && c.latitude.None? && c.longitude.None?
    ensures c.id == "" && c.userId == "" && c.title == "" && c.description == ""
    ensures c.clientSubmissionTimestamp == 0
  {
    Complaint("", "", "", "", None, None, None, None, "", None, "", None, [], [], [],
              "", "", ContactPreferenceName(Anonymous), "", PendingStatus, "", None, None, None, 0)
  }

  /**
   * What the document store keeps of a record: the two local URI lists are
   * excluded from (de)serialisation and come back as their defaults.
   */
  function Persisted(c: Complaint): (p: Complaint)
    ensures p.attachedMediaUris == [] && p.attachedDocumentUris == []
    ensures p.attachedFiles == c.attachedFiles
    ensures p.(attachedMediaUris := c.attachedMediaUris, attachedDocumentUris := c.attachedDocumentUris) == c
  {
    c.(attachedMediaUris := [], attachedDocumentUris := [])
  }

  /** Storing a record and reading it back loses nothing exactly when its URI lists are empty. */
  lemma PersistedKeepsRecordIff(c: Complaint)
    ensures Persisted(c) == c <==> c.attachedMediaUris == [] && c.attachedDocumentUris == []
    ensures Persisted(Persisted(c)) == Persisted(c)
  {
  }

  // ---- Incident date and time arithmetic (UTC, milliseconds) ----

  const MinuteMillis: int := 60000
  const HourMillis: int := 3600000
  const DayMillis: int := 86400000

  /** The UTC calendar with hour, minute, second and millisecond set to 0. */
  function DayStart(t: int): int {
    t - t % DayMillis
  }

  /** `get(Calendar.HOUR_OF_DAY)` of a UTC calendar. */
  function HourOfDay(t: int): int {
    (t % DayMillis) / HourMillis
  }

  /** `get(Calendar.MINUTE)` of a UTC calendar. */
  function MinuteOfHour(t: int): int {
    (t % HourMillis) / MinuteMillis
  }

  /**
   * The instant `getFormattedIncidentDateTime` formats: the date's UTC
   * midnight with the UTC hour and minute of the time offset, if there is one.
   */
  function IncidentInstant(date: int, time: Option<int>): int {
    match time
    case None => DayStart(date)
    case Some(t) => DayStart(date) + HourOfDay(t) * HourMillis + MinuteOfHour(t) * MinuteMillis
  }

  datatype IncidentText = DateNotSet | FormattedAt(instant: int)

  /**
   * `getFormattedIncidentDateTime`, up to the locale-dependent formatting of
   * the instant: "Date Not Set" exactly when there is no date.
   */
  function FormattedIncidentDateTime(c: Complaint): (r: IncidentText)
    ensures r.DateNotSet? <==> c.incidentDate.None?
    ensures r.FormattedAt? ==> r.instant == IncidentInstant(c.incidentDate.value, c.incidentTime)
  {
    match c.incidentDate
    case None => DateNotSet
    case Some(d) => FormattedAt(IncidentInstant(d, c.incidentTime))
  }

  lemma DayStartBounds(t: int)
    ensures DayStart(t) <= t < DayStart(t) + DayMillis
    ensures DayStart(t) % DayMillis == 0
  {
  }

  lemma HourMinuteBounds(t: int)
    ensures 0 <= HourOfDay(t) < 24
    ensures 0 <= MinuteOfHour(t) < 60
  {
  }

  /** A non-zero multiple of a positive number is at least that number away from 0. */
  lemma NonZeroMultipleBounds(a: int, d: int)
    requires 0 < d
    ensures a >= 1 ==> a * d >= d
    ensures a <= -1 ==> a * d <= -d
  {
    if a >= 1 {
      assert (a - 1) * d >= 0;
    } else if a <= -1 {
      assert (-a - 1) * d >= 0;
    }
  }

  /** x == q * d + r with 0 <= r < d fixes quotient and remainder. */
  lemma DivModUnique(x: int, d: int, q: int, r: int)
    requires 0 < d && 0 <= r < d && x == q * d + r
    ensures x / d == q && x % d == r
  {
    var q', r' := x / d, x % d;
    assert x == q' * d + r';
    assert (q - q') * d == r' - r;
    NonZeroMultipleBounds(q - q', d);
  }

  /** Adding whole days to an instant does not change its hour or minute. */
  lemma {:induction false} TimeOfDayOfShiftedDay(base: int, t: int)
    requires base % DayMillis == 0 && 0 <= t < DayMillis
    ensures (base + t) % DayMillis == t
    ensures DayStart(base + t) == base
  {
    DivModUnique(base + t, DayMillis, base / DayMillis, t);
  }

  /**
   * The combined instant lies in the same UTC day as the incident date, and
   * with no time it is that day's midnight.
   */
  lemma {:induction false} IncidentInstantSameDay(date: int, time: Option<int>)
    ensures DayStart(date) <= IncidentInstant(date, time) < DayStart(date) + DayMillis
    ensures DayStart(IncidentInstant(date, time)) == DayStart(date)
    ensures time.None? ==> IncidentInstant(date, time) == DayStart(date)
  {
    DayStartBounds(date);
    var offset := IncidentInstant(date, time) - DayStart(date);
    match time
    case None =>
      TimeOfDayOfShiftedDay(DayStart(date), 0);
    case Some(t) =>
      HourMinuteBounds(t);
      assert offset == HourOfDay(t) * HourMillis + MinuteOfHour(t) * MinuteMillis;
      assert 0 <= offset <= 23 * HourMillis + 59 * MinuteMillis;
      TimeOfDayOfShiftedDay(DayStart(date), offset);
  }

  /** Seconds and milliseconds of the time offset play no part in the result. */
  lemma {:induction false} IncidentInstantIgnoresSeconds(date: int, t: int)
    ensures IncidentInstant(date, Some(t)) == IncidentInstant(date, Some(t - t % MinuteMillis))
  {
    var m := t - t % MinuteMillis;
    var tq := t / MinuteMillis;
    assert m == tq * MinuteMillis;
    // The day, hour and minute all depend on t only through t / MinuteMillis.
    var mins := tq % 1440;
    DivModUnique(tq, 1440, tq / 1440, mins);
    DivModUnique(t, DayMillis, tq / 1440, mins * MinuteMillis + t % MinuteMillis);
    DivModUnique(m, DayMillis, tq / 1440, mins * MinuteMillis);
    var h := mins / 60;
    var mm := mins % 60;
    DivModUnique(mins, 60, h, mm);
    DivModUnique(t % DayMillis, HourMillis, h, mm * MinuteMillis + t % MinuteMillis);
    DivModUnique(m % DayMillis, HourMillis, h, mm * MinuteMillis);
    DivModUnique(t, HourMillis, t / HourMillis, mm * MinuteMillis + t % MinuteMillis);
    DivModUnique(m, HourMillis, t / HourMillis, mm * MinuteMillis);
    DivModUnique(t % HourMillis, MinuteMillis, mm, t % MinuteMillis);
    DivModUnique(m % HourMillis, MinuteMillis, mm, 0);
  }
}
