/** frontend/src/components/ShareButton.js, `generateShareMessage`: the
    text shared by WhatsApp, e-mail or the clipboard. It is built with
    `+=`: a header, the water meter section, up to three alerts and a
    footer. The local time string and `window.location.origin` are
    parameters. */
module ShareMessage {
  import opened Common

  /** `sensorData.currentReading`; numbers are in tenths, `None` is a missing field. */
  datatype Reading = Reading(pH: Option<int>, turbidity: Option<int>, contamination: Option<int>,
                             location: Option<string>)

  /** The `sensorData` prop, when given. */
  datatype SensorView = SensorView(connected: bool, currentReading: Option<Reading>)

  /** One entry of the `alerts` prop; a missing message or location is `None`. */
  datatype AlertView = AlertView(severity: string, message: Option<string>, location: Option<string>)

  const ProjectName := "Smart Health Monitor by AquaRakshak"
  /** At most this many alerts are written out. */
  const ListedAlerts := 3

  const ConnectedLine := "\U{1F4A7} Water Meter: Connected \U{2705}\n"
  const NotConnectedLine := "\U{26A0}\U{FE0F} Water Meter: Not Connected \U{274C}\n"
  const NoAlertsLine := "\U{2705}" + " No active alerts - System monitoring normally"
  const Hashtags := "\n\n#WaterQuality #HealthMonitoring #AquaRakshak"

  function Header(currentTime: string): string {
    "\U{1F3E5} " + ProjectName + "\n\U{1F4C5} " + currentTime + "\n\n"
  }

  function Footer(origin: string): string {
    "\n\n\U{1F310} Access Dashboard: " + origin + Hashtags
  }

  /** `x?.toFixed(1)` inside a template: the number, or "undefined". */
  function ShowTenths(x: Option<int>): string {
    match x
    case Some(t) => Fixed1(t)
    case None => "undefined"
  }

  /** A string field inside a template: itself, or "undefined" when missing. */
  function ShowText(x: Option<string>): string {
    match x
    case Some(s) => s
    case None => "undefined"
  }

  /** The water meter section: nothing without sensor data, the readings
      when connected with a reading, otherwise the not-connected notice. */
  function SensorSection(sensor: Option<SensorView>): (s: string)
    ensures sensor.None? ==> s == ""
    ensures sensor.Some? && sensor.value.connected && sensor.value.currentReading.Some? ==>
              |s| > |ConnectedLine| && s[..|ConnectedLine|] == ConnectedLine
    ensures sensor.Some? && !(sensor.value.connected && sensor.value.currentReading.Some?) ==>
              s == NotConnectedLine + "\U{1F527} Please check sensor connection\n\n"
  {
    match sensor
    case None => ""
    case Some(v) =>
      if v.connected && v.currentReading.Some? then
        ConnectedLine + ReadingLines(v.currentReading.value)
      else
        NotConnectedLine + "\U{1F527} Please check sensor connection\n\n"
  }

  /** The readings written under "Connected". */
  function ReadingLines(r: Reading): (lines: string)
    ensures |lines| > 0
  {
    "\U{1F4CA} Current Readings:\n"
    + "\U{2022} pH: " + ShowTenths(r.pH) + "\n"
    + "\U{2022} Turbidity: " + ShowTenths(r.turbidity) + " NTU\n"
    + "\U{2022} Contamination: " + ShowTenths(r.contamination) + " ppm\n"
    + "\U{1F4CD} Location: " + ShowText(r.location) + "\n\n"
  }

  /** The severity icon. */
  function Icon(severity: string): (icon: string)
    ensures icon == "\U{1F534}" <==> severity == "critical"
    ensures icon == "\U{1F7E0}" <==> severity == "high"
    ensures icon == "\U{1F7E1}" <==> severity == "medium"
    ensures icon == "\U{1F7E2}" <==> severity !in {"critical", "high", "medium"}
  {
    if severity == "critical" then "\U{1F534}"
    else if severity == "high" then "\U{1F7E0}"
    else if severity == "medium" then "\U{1F7E1}"
    else "\U{1F7E2}"
  }

  /** The two lines written for one alert. */
  function AlertBlock(a: AlertView): string {
    Icon(a.severity) + " " + ShowText(a.message) + "\n\U{1F4CD} " + ShowText(a.location) + "\n"
  }

  /** The alerts that are written out: the first three. */
  function Listed(alerts: seq<AlertView>): (shown: seq<AlertView>)
    ensures |shown| == Min(|alerts|, ListedAlerts) && shown == alerts[..|shown|]
  {
    if |alerts| <= ListedAlerts then alerts else alerts[..ListedAlerts]
  }

  /** The blocks of `shown`, one newline between neighbours and none after
      the last. */
  function Listing(shown: seq<AlertView>): string
    decreases |shown|
  {
    if |shown| == 0 then ""
    else if |shown| == 1 then AlertBlock(shown[0])
    else Listing(shown[..|shown| - 1]) + "\n" + AlertBlock(shown[|shown| - 1])
  }

  function AlertsHeading(total: nat): string {
    "\U{1F6A8} Active Alerts (" + NatToString(total) + "):\n"
  }

  function MoreAlerts(extra: nat): string {
    "\n... and " + NatToString(extra) + " more alerts"
  }

  /** The alert section: the all-clear line exactly when there are no
      alerts, otherwise the heading, the listing and the overflow line. */
  function AlertsSection(alerts: seq<AlertView>): (s: string)
    ensures s == NoAlertsLine <==> |alerts| == 0
  {
    if |alerts| == 0 then NoAlertsLine
    else
      var heading := AlertsHeading(|alerts|);
      var s := heading + Listing(Listed(alerts))
               + (if |alerts| > ListedAlerts then MoreAlerts(|alerts| - ListedAlerts) else "");
      assert NoAlertsLine[0] == '\U{2705}';
      assert heading[0] == '\U{1F6A8}';
      assert s[0] == heading[0];
      s
  }

  /** The whole message. */
  function Message(currentTime: string, origin: string, sensor: Option<SensorView>,
                   alerts: seq<AlertView>): string
  {
    Header(currentTime) + SensorSection(sensor) + AlertsSection(alerts) + Footer(origin)
  }

  /** The `forEach` over the listed alerts: each block, then a newline
      unless it was the last one. */
  method WriteListing(shown: seq<AlertView>) returns (text: string)
    ensures text == Listing(shown)
  {
    text := "";
    var count := |shown|;
    var index := 0;
    while index < count
      invariant 0 <= index <= count
      invariant text == Listing(shown[..index]) + (if 0 < index < count then "\n" else "")
    {
      assert shown[..index + 1][..index] == shown[..index];
      text := text + AlertBlock(shown[index]);
      if index < count - 1 {
        text := text + "\n";
      }
      index := index + 1;
    }
    assert shown[..index] == shown;
  }

  /** The alert part of `generateShareMessage`: the heading, the listing
      and the overflow line, or the all-clear line. */
  method WriteAlertsSection(alerts: seq<AlertView>) returns (text: string)
    ensures text == AlertsSection(alerts)
  {
    if |alerts| > 0 {
      text := AlertsHeading(|alerts|);
      var listing := WriteListing(Listed(alerts));
      text := text + listing;
      if |alerts| > ListedAlerts {
        text := text + MoreAlerts(|alerts| - ListedAlerts);
      }
    } else {
      text := NoAlertsLine;
    }
  }

  /** `generateShareMessage` as written: `+=` on one string. */
  method GenerateShareMessage(currentTime: string, origin: string, sensor: Option<SensorView>,
                              alerts: seq<AlertView>) returns (message: string)
    ensures message == Message(currentTime, origin, sensor, alerts)
  {
    message := Header(currentTime);
    message := message + SensorSection(sensor);
    var section := WriteAlertsSection(alerts);
    message := message + section;
    message := message + Footer(origin);
  }

  // ---------------------------------------------------------------------
  // What the message promises.
  // ---------------------------------------------------------------------

  /** Exactly one newline separates neighbouring alert blocks: the listing
      is as long as its blocks plus one character per gap. */
  lemma {:induction false} ListingLength(shown: seq<AlertView>)
    requires |shown| > 0
    ensures |Listing(shown)| == BlocksLength(shown) + |shown| - 1
    decreases |shown|
  {
    if |shown| > 1 {
      ListingLength(shown[..|shown| - 1]);
      assert shown[..|shown| - 1][..|shown| - 2] == shown[..|shown| - 2];
    }
  }

  function BlocksLength(shown: seq<AlertView>): nat
    decreases |shown|
  {
    if |shown| == 0 then 0 else BlocksLength(shown[..|shown| - 1]) + |AlertBlock(shown[|shown| - 1])|
  }

  /** The listing ends with the last block: no separator follows the last alert. */
  lemma ListingEndsWithLastBlock(shown: seq<AlertView>)
    requires |shown| > 0
    ensures var l := Listing(shown); var b := AlertBlock(shown[|shown| - 1]);
            |l| >= |b| && l[|l| - |b|..] == b
  {
  }

  /** The heading counts every alert, listed or not: its number reads back as the total. */
  lemma HeadingCountsAll(alerts: seq<AlertView>)
    requires |alerts| > 0
    ensures var s := AlertsSection(alerts); var digits := NatToString(|alerts|);
            var open := "\U{1F6A8} Active Alerts (";
            s[..|open| + |digits|] == open + digits && DigitsValue(digits) == |alerts|
  {
    var s := AlertsSection(alerts);
    var digits := NatToString(|alerts|);
    var open := "\U{1F6A8} Active Alerts (";
    assert s == open + digits + ("):\n" + Listing(Listed(alerts))
      + (if |alerts| > ListedAlerts then MoreAlerts(|alerts| - ListedAlerts) else ""));
    NatToStringRoundTrip(|alerts|);
  }

  /** More than three alerts: the section ends with the count of the ones
      left out. Three or fewer: it ends with the last listed alert. */
  lemma MoreAlertsLineExactlyWhenOverThree(alerts: seq<AlertView>)
    requires |alerts| > 0
    ensures var s := AlertsSection(alerts);
            if |alerts| > ListedAlerts then
              var m := MoreAlerts(|alerts| - 3);
              |s| >= |m| && s[|s| - |m|..] == m
            else
              s[|s| - 1] == '\n' && s == AlertsHeading(|alerts|) + Listing(alerts)
  {
    var s := AlertsSection(alerts);
    if |alerts| <= ListedAlerts {
      ListingEndsWithLastBlock(alerts);
      var b := AlertBlock(alerts[|alerts| - 1]);
      assert b[|b| - 1] == '\n';
    }
  }

  /** Whatever the inputs, the message opens with the project header and
      closes with the dashboard link and the hashtags. */
  lemma MessageFrame(currentTime: string, origin: string, sensor: Option<SensorView>, alerts: seq<AlertView>)
    ensures var m := Message(currentTime, origin, sensor, alerts);
            var h := Header(currentTime); var f := Footer(origin);
            |m| >= |h| + |f| && m[..|h|] == h && m[|m| - |f|..] == f
  {
    var h := Header(currentTime);
    var body := SensorSection(sensor) + AlertsSection(alerts);
    assert Message(currentTime, origin, sensor, alerts) == h + body + Footer(origin);
  }
}
