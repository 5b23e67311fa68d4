/**
 * The decision logic of the connection settings dialog: how the form is
 * filled, how "Test connection" validates it before any attempt, which
 * toast reports the outcome, and how the time since the last successful
 * connection is described. The elapsed time, which the dialog reads from
 * the clock, is a parameter.
 */
module ConnectionDialog {
  import opened Common
  import opened JsStrings
  import opened ConnectionSettings

  /** The three form fields; the port is kept as the text typed. */
  datatype Form = Form(host: string, port: string, autoReconnect: bool)

  datatype Toast = Toast(title: string, description: string, destructive: bool)

  /**
   * What a press of "Test connection" leads to: a validation toast and no
   * attempt, or a call of `updateConnection` with the cleaned host and the
   * parsed port.
   */
  datatype TestAction = Rejected(toast: Toast) | Attempt(host: string, port: int)

  const ValidationTitle: string := "Validation Error"
  const HostEmptyMessage: string := "Host cannot be empty"
  const PortRangeMessage: string := "Port must be a number between 1 and 65535"
  const FallbackFailureMessage: string :=
    "Could not connect to Resolume Arena. Make sure it's running and the REST API is enabled."
  const MinPort: int := 1
  const MaxPort: int := 65535

  /** Opening the dialog copies the current settings into the form, the port as a text that reads back as the port. */
  function FormFromSettings(s: Settings): (f: Form)
    ensures f.host == s.host && f.autoReconnect == s.autoReconnect
    ensures f.port == IntToString(s.port) && ParseInt(f.port) == Some(s.port)
  {
    ParseIntOfIntToString(s.port);
    Form(s.host, IntToString(s.port), s.autoReconnect)
  }

  /** "Reset to defaults" fills the form with the default settings. */
  function ResetDefaults(): (f: Form)
    ensures f == FormFromSettings(DefaultSettings)
  {
    assert NatToString(8080) == "8080" by {
      assert NatToString(80) == "80" by { assert NatToString(8) == "8"; }
      assert NatToString(808) == NatToString(80) + "8";
    }
    Form("localhost", "8080", true)
  }

  predicate IsValidPort(n: Option<int>) {
    n.Some? && MinPort <= n.value <= MaxPort
  }

  /**
   * The checks of `handleTestConnection`: a host that trims to nothing is
   * refused first, whatever the port; then a port that does not parse to an
   * integer in 1..65535; otherwise the attempt goes ahead with the trimmed
   * host. The auto-reconnect box plays no part.
   */
  function Validate(f: Form): (a: TestAction)
    ensures a.Rejected? <==> Trim(f.host) == "" || !IsValidPort(ParseInt(f.port))
    ensures Trim(f.host) == "" ==> a == Rejected(Toast(ValidationTitle, HostEmptyMessage, true))
    ensures Trim(f.host) != "" && !IsValidPort(ParseInt(f.port))
      ==> a == Rejected(Toast(ValidationTitle, PortRangeMessage, true))
    ensures a.Attempt? ==> (a.host == Trim(f.host) && ParseInt(f.port) == Some(a.port)
      && MinPort <= a.port <= MaxPort)
  {
    var portNum := ParseInt(f.port);
    if Trim(f.host) == "" then Rejected(Toast(ValidationTitle, HostEmptyMessage, true))
    else if portNum.None? || portNum.value < 1 || portNum.value > 65535 then
      Rejected(Toast(ValidationTitle, PortRangeMessage, true))
    else Attempt(Trim(f.host), portNum.value)
  }

  /**
   * The toast after the attempt settles. Success names the host and port
   * as typed (untrimmed); failure shows the error message of the render in
   * which the button was pressed, or a fixed hint when that was empty.
   */
  function ResultToast(success: bool, f: Form, renderErrorMessage: Option<string>): (t: Toast)
    ensures success ==> (!t.destructive && t.title == "Connected"
      && t.description == "Successfully connected to Resolume Arena at " + f.host + ":" + f.port)
    ensures !success ==> t.destructive && t.title == "Connection Failed"
    ensures !success && renderErrorMessage.Some? && renderErrorMessage.value != ""
      ==> t.description == renderErrorMessage.value
    ensures !success && (renderErrorMessage.None? || renderErrorMessage.value == "")
      ==> t.description == FallbackFailureMessage
  {
    if success then Toast("Connected", "Successfully connected to Resolume Arena at " + f.host + ":" + f.port, false)
    else
      var shown := if renderErrorMessage.Some? && renderErrorMessage.value != "" then renderErrorMessage.value
        else FallbackFailureMessage;
      Toast("Connection Failed", shown, true)
  }

  const MsPerMinute: nat := 60000
  const MsPerHour: nat := 3600000
  const MsPerDay: nat := 86400000

  /** `${n} unit${n > 1 ? 's' : ''} ago`. */
  function Ago(n: nat, unit: string): string {
    NatToString(n) + " " + unit + (if n > 1 then "s" else "") + " ago"
  }

  /**
   * `formatLastConnected`. `elapsedMs` is the clock minus the parsed
   * timestamp, `None` when the timestamp does not parse (NaN, which fails
   * every comparison and so reaches the day branch). Counts are the floor
   * of the elapsed time over a minute, an hour and a day; Dafny's division
   * by a positive constant is that floor, also for a timestamp in the
   * future.
   */
  function FormatLastConnected(lastConnected: Option<string>, elapsedMs: Option<int>): (r: string)
    ensures lastConnected.None? || lastConnected.value == "" ==> r == "Never"
    ensures lastConnected.Some? && lastConnected.value != "" && elapsedMs.None? ==> r == "NaN day ago"
    ensures lastConnected.Some? && lastConnected.value != "" && elapsedMs.Some? ==>
      var e := elapsedMs.value;
      && (e < MsPerMinute ==> r == "Just now")
      && (MsPerMinute <= e < MsPerHour ==> 1 <= e / MsPerMinute < 60 && r == Ago(e / MsPerMinute, "minute"))
      && (MsPerHour <= e < MsPerDay ==> 1 <= e / MsPerHour < 24 && r == Ago(e / MsPerHour, "hour"))
      && (MsPerDay <= e ==> 1 <= e / MsPerDay && r == Ago(e / MsPerDay, "day"))
  {
    if lastConnected.None? || lastConnected.value == "" then "Never"
    else if elapsedMs.None? then "NaN day ago"
    else
      var diffMs := elapsedMs.value;
      var diffMins := diffMs / 60000;
      var diffHours := diffMs / 3600000;
      var diffDays := diffMs / 86400000;
      if diffMins < 1 then "Just now"
      else if diffMins < 60 then Ago(diffMins, "minute")
      else if diffHours < 24 then Ago(diffHours, "hour")
      else Ago(diffDays, "day")
  }

  // ---------------------------------------------------------------------
  // Properties
  // ---------------------------------------------------------------------

  /** A host made only of whitespace is refused with the host message, whatever the port text. */
  lemma BlankHostRejectedFirst(f: Form)
    requires forall i :: 0 <= i < |f.host| ==> IsJsWhitespace(f.host[i])
    ensures Validate(f) == Rejected(Toast(ValidationTitle, HostEmptyMessage, true))
  {
  }

  /** A form opened on settings with a clean host and an in-range port validates to exactly those settings. */
  lemma OpenedFormValidates(s: Settings)
    requires s.host != "" && Trim(s.host) == s.host
    requires MinPort <= s.port <= MaxPort
    ensures Validate(FormFromSettings(s)) == Attempt(s.host, s.port)
  {
    ParseIntOfIntToString(s.port);
  }

  /** The reset form validates to an attempt on localhost:8080. */
  lemma ResetFormValidates()
    ensures Validate(ResetDefaults()) == Attempt("localhost", 8080)
  {
    TrimOfTrimmed("localhost");
    OpenedFormValidates(DefaultSettings);
  }

  /** Port text naming 0 or anything above 65535 is refused once the host is present. */
  lemma OutOfRangePortRejected(f: Form, n: int)
    requires Trim(f.host) != ""
    requires f.port == IntToString(n) && (n < MinPort || n > MaxPort)
    ensures Validate(f) == Rejected(Toast(ValidationTitle, PortRangeMessage, true))
  {
    ParseIntOfIntToString(n);
  }

  /** The count at the head of a relative time reads back, through `parseInt`, as the count. */
  lemma AgoShowsCount(n: nat, unit: string)
    ensures ParseInt(Ago(n, unit)) == Some(n)
  {
    var rest := " " + unit + (if n > 1 then "s" else "") + " ago";
    assert Ago(n, unit) == NatToString(n) + rest;
    ParseIntOfNumeral(n, rest);
  }

  // The three boundary lemmas below are worked examples at the edges of the buckets.

  /** The minute bucket starts a minute after the stamp: one millisecond earlier it is still "Just now". */
  lemma MinuteBoundary(stamp: string)
    requires stamp != ""
    ensures FormatLastConnected(Some(stamp), Some(MsPerMinute - 1)) == "Just now"
    ensures FormatLastConnected(Some(stamp), Some(MsPerMinute)) == "1 minute ago"
  {
    assert Ago(1, "minute") == "1 minute ago";
  }

  /** The hour bucket starts where the minutes reach 60: one millisecond earlier it reads "59 minutes ago". */
  lemma HourBoundary(stamp: string)
    requires stamp != ""
    ensures FormatLastConnected(Some(stamp), Some(MsPerHour - 1)) == "59 minutes ago"
    ensures FormatLastConnected(Some(stamp), Some(MsPerHour)) == "1 hour ago"
  {
    assert (MsPerHour - 1) / MsPerMinute == 59;
    assert NatToString(59) == "59" by { assert NatToString(5) == "5"; }
    assert Ago(59, "minute") == "59 minutes ago";
    assert Ago(1, "hour") == "1 hour ago";
  }

  /** The day bucket starts where the hours reach 24: one millisecond earlier it reads "23 hours ago". */
  lemma DayBoundary(stamp: string)
    requires stamp != ""
    ensures FormatLastConnected(Some(stamp), Some(MsPerDay - 1)) == "23 hours ago"
    ensures FormatLastConnected(Some(stamp), Some(MsPerDay)) == "1 day ago"
  {
    assert (MsPerDay - 1) / MsPerHour == 23;
    assert NatToString(23) == "23" by { assert NatToString(2) == "2"; }
    assert Ago(23, "hour") == "23 hours ago";
    assert Ago(1, "day") == "1 day ago";
  }
}
