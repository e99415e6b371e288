/**
 * Running-application resolution of `MacosSDK` (core.py): the osascript and ps listing
 * parsers of `list_running_applications`, and the lookups `find_running_app_pid` and
 * `get_pid_by_bundle_id` over a listing. The processes themselves are inputs.
 */
module RunningApps {
  import opened Wrappers
  import opened PyText
  import opened Lists

  /** One `{'pid': ..., 'bundle_id': ..., 'name': ...}` dictionary of the listing. */
  datatype RunningApp = RunningApp(pid: int, bundleId: string, name: string)

  // ---------------------------------------------------------- osascript

  /** The name field of a comma split with at least three fields: every field before the
      last two, rejoined with commas (core.py:267). */
  function NameField(parts: seq<string>): string
    requires |parts| >= 3
  {
    if |parts| > 3 then Join(parts[..|parts| - 2], ",") else parts[0]
  }

  /** The app described by the comma fields of one entry, if the pid field is an int. */
  function AppFromFields(parts: seq<string>): Option<RunningApp> {
    if |parts| >= 3 then
      match ParseInt(parts[|parts| - 2])
      case Some(pid) => Some(RunningApp(pid, parts[|parts| - 1], NameField(parts)))
      case None => None
    else
      None
  }

  /** One "Name,PID,BundleID" entry: at least three comma fields and an int before the last. */
  function OsascriptEntryApp(entry: string): Option<RunningApp> {
    AppFromFields(Split(entry, ","))
  }

  /** Rejoining the fields puts the name, the pid field and the bundle id back in place. */
  lemma FieldsRejoin(parts: seq<string>)
    requires |parts| >= 3
    ensures Join(parts, ",") == NameField(parts) + "," + parts[|parts| - 2] + "," + parts[|parts| - 1]
  {
    JoinLastTwo(parts, ",");
    if |parts| == 3 {
      assert parts[..1] == [parts[0]];
    }
  }

  /** What an accepted entry consists of: the name (commas allowed), a comma-free pid field
      that `int` reads as the pid, and a comma-free bundle id, joined by commas. */
  lemma OsascriptEntryFields(entry: string, app: RunningApp) returns (pidField: string)
    requires OsascriptEntryApp(entry) == Some(app)
    ensures entry == app.name + "," + pidField + "," + app.bundleId
    ensures ParseInt(pidField) == Some(app.pid)
    ensures !Contains(pidField, ",") && !Contains(app.bundleId, ",")
  {
    var parts := Split(entry, ",");
    var m := |parts|;
    SplitJoin(entry, ",");
    SplitPiecesFree(entry, ",");
    FieldsRejoin(parts);
    pidField := parts[m - 2];
    assert !Contains(parts[m - 1], ",");
  }

  /** Conversely, every such entry is accepted and yields exactly those fields. */
  lemma OsascriptEntryOfFields(name: string, pidField: string, bundleId: string, pid: int)
    requires !Contains(pidField, ",") && !Contains(bundleId, ",")
    requires ParseInt(pidField) == Some(pid)
    ensures OsascriptEntryApp(name + "," + pidField + "," + bundleId) == Some(RunningApp(pid, bundleId, name))
  {
    var entry := name + "," + pidField + "," + bundleId;
    var front := Split(name, ",");
    var parts := Split(entry, ",");
    SplitTwoFields(name, ',', pidField, bundleId);
    assert NameField(parts) == name by {
      assert parts[..|parts| - 2] == front;
      SplitJoin(name, ",");
      if |parts| == 3 {
        assert front == [parts[0]];
      }
    }
    assert parts[|parts| - 2] == pidField && parts[|parts| - 1] == bundleId;
  }

  /** The entries of an osascript listing: its stripped stdout cut at ", ". */
  function OsascriptEntries(stdout: string): seq<string> {
    Split(Strip(stdout), ", ")
  }

  /** The loop of core.py:262-278: append the app of every accepted entry, in order. */
  method ParseOsascriptListing(stdout: string) returns (apps: seq<RunningApp>)
    ensures apps == FilterMap(OsascriptEntries(stdout), OsascriptEntryApp)
  {
    apps := CollectResults(Split(Strip(stdout), ", "), OsascriptEntryApp);
  }

  /** Every app of an osascript listing comes from one of its entries, and every entry
      of the right shape contributes its app. */
  lemma OsascriptListingMembers(stdout: string, app: RunningApp)
    ensures app in FilterMap(OsascriptEntries(stdout), OsascriptEntryApp) <==>
            exists e :: e in OsascriptEntries(stdout) && OsascriptEntryApp(e) == Some(app)
  {
    FilterMapMembers(OsascriptEntries(stdout), OsascriptEntryApp, app);
  }

  // ----------------------------------------------------------------- ps

  const AppBundleMarker := ".app/Contents/MacOS/"

  /** `t.split(None, 1)` when it yields two parts: the first word and the rest after the
      whitespace run that ends it. `t` is already stripped. */
  function SplitFirstWord(t: string): Option<(string, string)> {
    match FindFirst(t, IsSpace)
    case None => None
    case Some(i) => Some((t[..i], TrimStart(t[i..])))
  }

  /** The app for a process whose command is `comm`, when the command lies inside an
      app bundle: the bundle's base name, and "unknown." followed by it lower-cased. */
  function AppFromCommand(pid: int, comm: string): Option<RunningApp> {
    if Contains(comm, AppBundleMarker) then
      var appName := AfterLast(comm[..IndexOf(comm, AppBundleMarker).value], "/");
      Some(RunningApp(pid, "unknown." + Lower(appName), appName))
    else
      None
  }

  /** One "PID COMMAND" line of `ps -eo pid,comm` (core.py:291-305): kept only when the pid
      field is an int and the command lies inside an app bundle. */
  function PsLineApp(line: string): Option<RunningApp> {
    match SplitFirstWord(Strip(line))
    case None => None
    case Some((pidField, comm)) =>
      match ParseInt(pidField)
      case None => None
      case Some(pid) => AppFromCommand(pid, comm)
  }

  lemma AppFromCommandShape(pid: int, comm: string, app: RunningApp)
    requires AppFromCommand(pid, comm) == Some(app)
    ensures Contains(comm, AppBundleMarker)
    ensures !Contains(app.name, "/")
    ensures app.bundleId == "unknown." + Lower(app.name) && app.pid == pid
  {
    var prefix := comm[..IndexOf(comm, AppBundleMarker).value];
    AfterLastIsTail(prefix, "/");
  }

  /** A command inside an app bundle always yields its app. Its name is the text between the
      last '/' and the first ".app/Contents/MacOS/", or all the text before the marker when
      that holds no '/'. */
  lemma AppFromCommandOf(pid: int, comm: string)
    ensures AppFromCommand(pid, comm).Some? <==> Contains(comm, AppBundleMarker)
    ensures Contains(comm, AppBundleMarker) ==>
              var i := IndexOf(comm, AppBundleMarker).value;
              var name := AppFromCommand(pid, comm).value.name;
              && |name| <= i && name == comm[i - |name|..i]
              && (|name| < i ==> comm[i - |name| - 1] == '/')
              && !Contains(name, "/")
              && AppFromCommand(pid, comm).value == RunningApp(pid, "unknown." + Lower(name), name)
  {
    if Contains(comm, AppBundleMarker) {
      var i := IndexOf(comm, AppBundleMarker).value;
      var prefix := comm[..i];
      var name := AfterLast(prefix, "/");
      AfterLastIsTail(prefix, "/");
      assert name == prefix[i - |name|..] == comm[i - |name|..i];
      if |name| < i {
        assert OccursAt(prefix, "/", i - |name| - 1);
        assert prefix[i - |name| - 1] == comm[i - |name| - 1];
      }
    }
  }

  /** `str(pid)` holds no whitespace. */
  lemma IntToStringNoSpace(pid: int)
    ensures forall j :: 0 <= j < |IntToString(pid)| ==> !IsSpace(IntToString(pid)[j])
  {
    var w := IntToString(pid);
    forall j | 0 <= j < |w| ensures !IsSpace(w[j]) {
      if pid < 0 && j > 0 {
        assert w[j] == NatToString(-pid)[j - 1];
      }
    }
  }

  /** A word free of whitespace, one space and a text that starts with a non-space split
      into that word and that text. */
  lemma SplitFirstWordOf(w: string, comm: string)
    requires w != [] && forall j :: 0 <= j < |w| ==> !IsSpace(w[j])
    requires comm != [] && !IsSpace(comm[0])
    ensures SplitFirstWord(w + " " + comm) == Some((w, comm))
  {
    var line := w + " " + comm;
    var r := FindFirst(line, IsSpace);
    assert IsSpace(line[|w|]);
    assert forall j :: 0 <= j < |w| ==> line[j] == w[j];
    assert r.Some? && r.value == |w|;
    assert line[..|w|] == w;
    var rest := line[|w|..];
    assert rest == " " + comm;
    assert rest[1..] == comm;
    assert TrimStart(rest) == comm;
  }

  /** Conversely, the line ps prints for a process, its pid and then its command, is read
      back as that pid and command. */
  lemma PsLineOf(pid: int, comm: string)
    requires comm != [] && !IsSpace(comm[0]) && !IsSpace(comm[|comm| - 1])
    ensures PsLineApp(IntToString(pid) + " " + comm) == AppFromCommand(pid, comm)
  {
    var w := IntToString(pid);
    var line := w + " " + comm;
    IntToStringNoSpace(pid);
    assert line[0] == w[0] && line[|line| - 1] == comm[|comm| - 1];
    StripUnchanged(line);
    SplitFirstWordOf(w, comm);
    ParseIntRoundTrip(pid);
  }

  /** The command part of a two-part split is a suffix of the split line. */
  lemma SplitFirstWordSuffix(t: string, word: string, rest: string) returns (k: nat)
    requires SplitFirstWord(t) == Some((word, rest))
    ensures k <= |t| && rest == t[k..]
  {
    var i := FindFirst(t, IsSpace).value;
    var tail := t[i..];
    assert rest == TrimStart(tail);
    var m := |tail| - |rest|;
    k := i + m;
    assert rest == tail[m..];
    assert tail[m..] == t[k..];
  }

  /** Containment in a suffix implies containment in the whole string. */
  lemma ContainsInTail(s: string, k: nat, pat: string)
    requires k <= |s| && Contains(s[k..], pat)
    ensures Contains(s, pat)
  {
    assert s[k..] == s[k..|s|];
    ContainsInSlice(s, k, |s|, pat);
  }

  /** Every app read from a ps line names an app bundle from that line, has a name free
      of '/', and carries the synthetic bundle id. */
  lemma PsLineAppShape(line: string)
    ensures PsLineApp(line).Some? ==>
              && Contains(line, AppBundleMarker)
              && !Contains(PsLineApp(line).value.name, "/")
              && PsLineApp(line).value.bundleId == "unknown." + Lower(PsLineApp(line).value.name)
  {
    if PsLineApp(line).Some? {
      var app := PsLineApp(line).value;
      var t := Strip(line);
      var (word, comm) := SplitFirstWord(t).value;
      var pid := ParseInt(word).value;
      assert AppFromCommand(pid, comm) == Some(app);
      AppFromCommandShape(pid, comm, app);
      assert Contains(t, AppBundleMarker) by {
        var k := SplitFirstWordSuffix(t, word, comm);
        ContainsInTail(t, k, AppBundleMarker);
      }
      ContainsInStrip(line, AppBundleMarker);
    }
  }

  /** The lines of a ps listing after its header. */
  function PsLines(stdout: string): seq<string> {
    Split(Strip(stdout), "\n")[1..]
  }

  /** The loop of core.py:289-305 over the lines after the header. */
  method ParsePsListing(stdout: string) returns (apps: seq<RunningApp>)
    ensures apps == FilterMap(PsLines(stdout), PsLineApp)
  {
    apps := CollectResults(Split(Strip(stdout), "\n")[1..], PsLineApp);
  }

  // ------------------------------------------------------------ listing

  /** How the osascript call ended: it raised, or it completed with a return code and stdout. */
  datatype OsascriptRun = OsascriptRaised | OsascriptCompleted(returncode: int, stdout: string)

  /** How `ps -eo pid,comm` (run with check=True) ended. */
  datatype PsRun = PsRaised | PsCompleted(stdout: string)

  /** `list_running_applications`: the osascript listing when that call completes (empty
      unless it exited 0 with output); the ps listing only when the osascript call raised;
      nothing when ps raised as well. */
  method ListRunningApplications(osascript: OsascriptRun, ps: PsRun) returns (apps: seq<RunningApp>)
    ensures osascript.OsascriptCompleted? && osascript.returncode == 0 && Strip(osascript.stdout) != "" ==>
              apps == FilterMap(OsascriptEntries(osascript.stdout), OsascriptEntryApp)
    ensures osascript.OsascriptCompleted? && (osascript.returncode != 0 || Strip(osascript.stdout) == "") ==>
              apps == []
    ensures osascript.OsascriptRaised? && ps.PsCompleted? ==> apps == FilterMap(PsLines(ps.stdout), PsLineApp)
    ensures osascript.OsascriptRaised? && ps.PsRaised? ==> apps == []
  {
    apps := [];
    match osascript
    case OsascriptCompleted(returncode, stdout) =>
      if returncode == 0 && Strip(stdout) != "" {
        apps := ParseOsascriptListing(stdout);
      }
    case OsascriptRaised =>
      match ps
      case PsCompleted(stdout) =>
        apps := ParsePsListing(stdout);
      case PsRaised =>
  }

  // ------------------------------------------------------------ lookups

  /** The three matching rules of `find_running_app_pid`, in the order they are tried. */
  datatype Tier = BundleIdTier | ExactNameTier | PartialNameTier

  predicate TierMatch(t: Tier, app: RunningApp, identifier: string) {
    match t
    case BundleIdTier => app.bundleId == identifier
    case ExactNameTier => Lower(app.name) == Lower(identifier)
    case PartialNameTier => Contains(Lower(app.name), Lower(identifier))
  }

  /** `apps[i]` is the first app in list order that matches at tier `t`. */
  predicate IsFirstAt(apps: seq<RunningApp>, t: Tier, identifier: string, i: int) {
    && 0 <= i < |apps|
    && TierMatch(t, apps[i], identifier)
    && forall j :: 0 <= j < i ==> !TierMatch(t, apps[j], identifier)
  }

  predicate NoMatchAt(apps: seq<RunningApp>, t: Tier, identifier: string) {
    forall i :: 0 <= i < |apps| ==> !TierMatch(t, apps[i], identifier)
  }

  /** One `for app in apps: if ...: return app['pid']` loop. */
  function FirstPidAt(apps: seq<RunningApp>, t: Tier, identifier: string): (r: Option<int>)
    ensures forall i :: IsFirstAt(apps, t, identifier, i) ==> r == Some(apps[i].pid)
    ensures r.None? <==> NoMatchAt(apps, t, identifier)
  {
    var m := (a: RunningApp) => TierMatch(t, a, identifier);
    match FindFirst(apps, m)
    case Some(i) =>
      assert IsFirstAt(apps, t, identifier, i) by {
        forall j | 0 <= j < i ensures !TierMatch(t, apps[j], identifier) {
          assert !m(apps[j]);
        }
      }
      assert forall k :: IsFirstAt(apps, t, identifier, k) ==> k == i;
      Some(apps[i].pid)
    case None =>
      assert NoMatchAt(apps, t, identifier) by {
        forall j | 0 <= j < |apps| ensures !TierMatch(t, apps[j], identifier) {
          assert !m(apps[j]);
        }
      }
      None
  }

  /** `find_running_app_pid`: the first exact bundle-id match, else the first name equal
      ignoring case, else the first name containing the identifier ignoring case. */
  function FindRunningAppPid(apps: seq<RunningApp>, identifier: string): (r: Option<int>)
    ensures forall i :: IsFirstAt(apps, BundleIdTier, identifier, i) ==> r == Some(apps[i].pid)
    ensures NoMatchAt(apps, BundleIdTier, identifier) ==>
              forall i :: IsFirstAt(apps, ExactNameTier, identifier, i) ==> r == Some(apps[i].pid)
    ensures NoMatchAt(apps, BundleIdTier, identifier) && NoMatchAt(apps, ExactNameTier, identifier) ==>
              forall i :: IsFirstAt(apps, PartialNameTier, identifier, i) ==> r == Some(apps[i].pid)
    ensures r.None? <==>
              NoMatchAt(apps, BundleIdTier, identifier) && NoMatchAt(apps, ExactNameTier, identifier) &&
              NoMatchAt(apps, PartialNameTier, identifier)
    ensures r.Some? ==> exists i :: 0 <= i < |apps| && apps[i].pid == r.value
  {
    var byBundle := FirstPidAt(apps, BundleIdTier, identifier);
    if byBundle.Some? then byBundle
    else
      var byName := FirstPidAt(apps, ExactNameTier, identifier);
      if byName.Some? then byName
      else FirstPidAt(apps, PartialNameTier, identifier)
  }

  /** `get_pid_by_bundle_id`: the pid of the first app whose bundle id is exactly `bundleId`. */
  function GetPidByBundleId(apps: seq<RunningApp>, bundleId: string): (r: Option<int>)
    ensures forall i :: IsFirstAt(apps, BundleIdTier, bundleId, i) ==> r == Some(apps[i].pid)
    ensures r.None? <==> NoMatchAt(apps, BundleIdTier, bundleId)
  {
    FirstPidAt(apps, BundleIdTier, bundleId)
  }

  /** Whenever the bundle-id lookup succeeds, the general lookup agrees with it. */
  lemma FindAgreesWithBundleLookup(apps: seq<RunningApp>, identifier: string)
    requires GetPidByBundleId(apps, identifier).Some?
    ensures FindRunningAppPid(apps, identifier) == GetPidByBundleId(apps, identifier)
  {
  }
}
