/**
 * The scan history page: a list of past scans, each with a status icon
 * and badge, its age, a five-segment severity bar, the threats found and a
 * quarantine button for malicious files. The list is fixed demonstration
 * data; the current time is a parameter (milliseconds, like `Date`).
 */
module History {
  import opened Wrappers
  import opened Text
  import opened Tones

  // ---------------------------------------------------------------------
  // Status icon and badge
  // ---------------------------------------------------------------------

  datatype Icon = CheckCircle | AlertTriangle | XCircle | FileText

  /** An icon and the colour it is drawn in; the fallback icon has none. */
  datatype IconView = IconView(icon: Icon, tone: Option<Tone>)

  /** A badge's caption and colour; the fallback badge has none. */
  datatype BadgeView = BadgeView(caption: string, tone: Option<Tone>)

  predicate KnownStatus(status: string)
  {
    status == "clean" || status == "suspicious" || status == "malicious"
  }

  function StatusIcon(status: string): IconView
  {
    if status == "clean" then IconView(CheckCircle, Some(Primary))
    else if status == "suspicious" then IconView(AlertTriangle, Some(Amber))
    else if status == "malicious" then IconView(XCircle, Some(Destructive))
    else IconView(FileText, None)
  }

  function StatusBadge(status: string): BadgeView
  {
    if status == "clean" then BadgeView("Clean", Some(Primary))
    else if status == "suspicious" then BadgeView("Suspicious", Some(Amber))
    else if status == "malicious" then BadgeView("Malicious", Some(Destructive))
    else BadgeView("Unknown", None)
  }

  /** Icon and badge always share a colour; only the three known statuses
      get one, and exactly the others read "Unknown" with the plain icon. */
  lemma StatusViewsAgree(status: string)
    ensures StatusIcon(status).tone == StatusBadge(status).tone
    ensures StatusBadge(status).tone.Some? <==> KnownStatus(status)
    ensures StatusBadge(status).caption == "Unknown" <==> !KnownStatus(status)
    ensures StatusIcon(status).icon == FileText <==> !KnownStatus(status)
  {
  }

  /** The three known statuses get three different badges and icons. */
  lemma KnownStatusesDistinct(s: string, t: string)
    requires KnownStatus(s) && KnownStatus(t) && s != t
    ensures StatusBadge(s) != StatusBadge(t) && StatusIcon(s) != StatusIcon(t)
  {
  }

  // ---------------------------------------------------------------------
  // Age of a scan
  // ---------------------------------------------------------------------

  /** How long ago a scan ran, in the one unit the page shows. */
  datatype Age = Minutes(count: int) | Hours(count: int) | Days(count: int)

  const MinuteMs: int := 60000
  const HourMs: int := 3600000
  const DayMs: int := 86400000

  function UnitMs(a: Age): int
  {
    match a
    case Minutes(_) => MinuteMs
    case Hours(_) => HourMs
    case Days(_) => DayMs
  }

  /** The age of a scan `diff` milliseconds old: whole minutes below an
      hour, whole hours below a day, whole days beyond; every count is
      rounded down, also for a negative `diff`. */
  function AgeOf(diff: int): (a: Age)
    ensures a.Minutes? <==> diff < HourMs
    ensures a.Hours? <==> HourMs <= diff < DayMs
    ensures a.count * UnitMs(a) <= diff < (a.count + 1) * UnitMs(a)
  {
    var minutes := diff / MinuteMs;
    var hours := diff / HourMs;
    var days := diff / DayMs;
    if minutes < 60 then Minutes(minutes)
    else if hours < 24 then Hours(hours)
    else Days(days)
  }

  function UnitSuffix(a: Age): string
  {
    match a
    case Minutes(_) => "m ago"
    case Hours(_) => "h ago"
    case Days(_) => "d ago"
  }

  function AgeLabel(a: Age): string
  {
    IntToDecimal(a.count) + UnitSuffix(a)
  }

  /** The age label of a scan stamped `at`, read at `now`. */
  function FormatTimestamp(now: int, at: int): string
  {
    AgeLabel(AgeOf(now - at))
  }

  /** The label determines the age: different ages print differently. */
  lemma AgeLabelInjective(a: Age, b: Age)
    requires AgeLabel(a) == AgeLabel(b)
    ensures a == b
  {
    var da, db := IntToDecimal(a.count), IntToDecimal(b.count);
    assert |da| == |db|;
    assert da == AgeLabel(a)[..|da|];
    assert db == AgeLabel(b)[..|db|];
    IntToDecimalInjective(a.count, b.count);
    assert UnitSuffix(a)[0] == AgeLabel(a)[|da|] == AgeLabel(b)[|db|] == UnitSuffix(b)[0];
  }

  /** Two scans read at the same moment get the same label exactly when
      their elapsed times fall into the same minute, hour or day bucket. */
  lemma SameLabelSameAge(now: int, at1: int, at2: int)
    ensures FormatTimestamp(now, at1) == FormatTimestamp(now, at2)
            <==> AgeOf(now - at1) == AgeOf(now - at2)
  {
    if FormatTimestamp(now, at1) == FormatTimestamp(now, at2) {
      AgeLabelInjective(AgeOf(now - at1), AgeOf(now - at2));
    }
  }

  // ---------------------------------------------------------------------
  // Severity bar
  // ---------------------------------------------------------------------

  /** The colour of the lit segments. */
  function SegmentTone(severity: int): Tone
  {
    if severity >= 4 then Destructive else if severity >= 2 then Amber else Primary
  }

  /** The five segments, always drawn: segment `i` is lit iff `i` is below
      the severity, all lit ones in the severity's colour. */
  function SeveritySegments(severity: int): (r: seq<Tone>)
    ensures |r| == 5
    ensures forall i :: 0 <= i < 5 ==>
      (r[i] != Muted <==> i < severity) && (r[i] != Muted ==> r[i] == SegmentTone(severity))
  {
    var segments := seq(5, i requires 0 <= i < 5 => if i < severity then SegmentTone(severity) else Muted);
    assert forall i :: 0 <= i < 5 ==> segments[i] == if i < severity then SegmentTone(severity) else Muted;
    segments
  }

  // ---------------------------------------------------------------------
  // Items
  // ---------------------------------------------------------------------

  datatype ScanHistoryItem = ScanHistoryItem(
    id: string, filename: string, timestamp: int, status: string,
    severity: int, threats: Option<seq<string>>)

  /** The threats box is shown iff the item lists at least one threat. */
  predicate ShowThreats(item: ScanHistoryItem)
  {
    item.threats.Some? && |item.threats.value| > 0
  }

  /** Only malicious items offer quarantine. */
  predicate ShowQuarantine(item: ScanHistoryItem)
  {
    item.status == "malicious"
  }

  /** The "No Scan History" panel is shown iff the list is empty. */
  predicate ShowEmptyState(items: seq<ScanHistoryItem>)
  {
    |items| == 0
  }

  /** What one history card shows. */
  datatype ItemView = ItemView(
    icon: IconView, badge: BadgeView, age: string, segments: seq<Tone>,
    threats: seq<string>, quarantine: bool)

  function ViewItem(now: int, item: ScanHistoryItem): (v: ItemView)
    ensures v.icon == StatusIcon(item.status) && v.badge == StatusBadge(item.status)
    ensures v.threats != [] <==> ShowThreats(item)
    ensures v.quarantine <==> item.status == "malicious"
    ensures v.age == FormatTimestamp(now, item.timestamp)
    ensures v.segments == SeveritySegments(item.severity)
    ensures ShowThreats(item) ==> v.threats == item.threats.value
    ensures v.quarantine ==> v.icon.icon == XCircle && v.badge.tone == Some(Destructive)
  {
    ItemView(
      StatusIcon(item.status),
      StatusBadge(item.status),
      FormatTimestamp(now, item.timestamp),
      SeveritySegments(item.severity),
      if ShowThreats(item) then item.threats.value else [],
      ShowQuarantine(item))
  }

  /** The demonstration list, stamped relative to `now`. */
  function MockHistory(now: int): seq<ScanHistoryItem>
  {
    [ ScanHistoryItem("0xA4F2E1", "document.pdf", now - 15 * MinuteMs, "clean", 0, None),
      ScanHistoryItem("0xB7C3D2", "suspicious_script.js", now - 2 * HourMs, "suspicious", 3,
                      Some(["Obfuscated code patterns", "Network calls to unknown domains"])),
      ScanHistoryItem("0xE8F1A5", "malware_sample.exe", now - 5 * HourMs, "malicious", 5,
                      Some(["Trojan.Generic", "Keylogger signature detected", "Registry modification attempts"])),
      ScanHistoryItem("0xC9D4B3", "report.docx", now - DayMs, "clean", 0, None),
      ScanHistoryItem("0xF5A2E7", "update.bat", now - 2 * DayMs, "suspicious", 2,
                      Some(["Batch script with system commands"])) ]
  }

  /** Read at the moment it was stamped, the list shows ages 15m, 2h, 5h,
      1d and 2d, offers quarantine only for the malicious sample, shows
      threats for the three flagged files and never the empty state. */
  lemma MockHistoryShown(now: int)
    ensures var items := MockHistory(now);
      && !ShowEmptyState(items)
      && AgeOf(now - items[0].timestamp) == Minutes(15)
      && AgeOf(now - items[1].timestamp) == Hours(2)
      && AgeOf(now - items[2].timestamp) == Hours(5)
      && AgeOf(now - items[3].timestamp) == Days(1)
      && AgeOf(now - items[4].timestamp) == Days(2)
      && (forall k :: 0 <= k < 5 ==> (ShowQuarantine(items[k]) <==> k == 2))
      && (forall k :: 0 <= k < 5 ==> (ShowThreats(items[k]) <==> k in {1, 2, 4}))
  {
  }

  /** The printed ages of the first two cards. */
  lemma MockAgesPrinted(now: int)
    ensures FormatTimestamp(now, MockHistory(now)[0].timestamp) == "15m ago"
    ensures FormatTimestamp(now, MockHistory(now)[1].timestamp) == "2h ago"
  {
    MockHistoryShown(now);
    assert NatToDecimal(15) == NatToDecimal(1) + [DigitChar(5)];
    assert IntToDecimal(15) == "15";
    assert IntToDecimal(2) == "2";
  }
}
