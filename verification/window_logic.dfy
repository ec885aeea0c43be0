/**
 * The decisions the f3 main window takes, lifted out of its widget code:
 * how a report is prepared for display, how progress and capacity values are
 * bounded, which statuses count as a check in progress, how the path typed
 * by the user is read and screened, and which launcher options a click on
 * the Check button selects.
 */
module WindowLogic {
  import opened F3Launcher

  /** The placeholder shown for a measurement the report does not carry. */
  const NotAvailable: string := "(N/A)"

  /** The reported-free text by which the launcher marks a completed fix. */
  const FixedMarker: string := "(Fixed)"

  /** The top of the progress scale: hundredths of a percent. */
  const MaxProgress: int := 10000

  /** The prefix every device path must carry. */
  const DevicePrefix: string := "/dev/"

  /** Index of the tab that tests a whole device; tab 0 tests a directory. */
  const DeviceTab: int := 1

  /** Index of the (normally hidden) result tab. */
  const ResultTab: int := 3

  /**
   * One launcher option as the window chooses it. The launcher receives it as
   * a key and a value, see OptionKey and OptionText.
   */
  datatype RunOption =
    | ModeOption(quick: bool)
    | CacheOption(write: bool)
    | MemoryOption(minimum: bool)
    | DestructiveOption(yes: bool)

  /** What the window asks of the launcher, or of its own mount helper. */
  datatype Command =
    | SetOption(option: RunOption)
    | StartCheck(path: string)
    | StopCheck
    | StartFix
    | Unmount(mountPoint: string)

  // ---------------------------------------------------------------------
  // Report normalisation
  // ---------------------------------------------------------------------

  /** A measurement text after normalisation: the placeholder if it was empty, unchanged otherwise. */
  predicate FilledIn(before: string, after: string)
  {
    (before == [] ==> after == NotAvailable) && (before != [] ==> after == before)
  }

  /** The report as the window displays it. */
  function Normalized(report: Report): (r: Report)
    ensures FilledIn(report.reportedFree, r.reportedFree)
    ensures FilledIn(report.actualFree, r.actualFree)
    ensures FilledIn(report.readingSpeed, r.readingSpeed)
    ensures FilledIn(report.writingSpeed, r.writingSpeed)
    ensures report.availability < 0 ==> r.availability == -1
    ensures report.availability >= 0 ==> r.availability == report.availability
    ensures r.success == report.success && r.lostSpace == report.lostSpace
    ensures r.moduleSize == report.moduleSize && r.blockSize == report.blockSize
  {
    report.(
      reportedFree := if report.reportedFree == [] then NotAvailable else report.reportedFree,
      actualFree := if report.actualFree == [] then NotAvailable else report.actualFree,
      availability := if report.availability < 0 then -1 else report.availability,
      readingSpeed := if report.readingSpeed == [] then NotAvailable else report.readingSpeed,
      writingSpeed := if report.writingSpeed == [] then NotAvailable else report.writingSpeed)
  }

  /** Fills in a report field by field, in the order the window does it. */
  method FillReport(report: Report) returns (filled: Report)
    ensures filled == Normalized(report)
  {
    filled := report;
    if filled.reportedFree == [] {
      filled := filled.(reportedFree := NotAvailable);
    }
    if filled.actualFree == [] {
      filled := filled.(actualFree := NotAvailable);
    }
    if filled.availability < 0 {
      filled := filled.(availability := -1);
    }
    if filled.readingSpeed == [] {
      filled := filled.(readingSpeed := NotAvailable);
    }
    if filled.writingSpeed == [] {
      filled := filled.(writingSpeed := NotAvailable);
    }
  }

  /**
   * After normalisation no measurement text is empty and the availability is
   * either a percentage or exactly -1; a text reads "(N/A)" exactly when it was
   * empty or already read "(N/A)".
   */
  lemma NormalizedIsComplete(report: Report)
    ensures var r := Normalized(report);
      && r.reportedFree != [] && r.actualFree != []
      && r.readingSpeed != [] && r.writingSpeed != []
      && (r.availability == -1 || r.availability >= 0)
      && (r.reportedFree == NotAvailable <==> report.reportedFree in {[], NotAvailable})
      && (r.actualFree == NotAvailable <==> report.actualFree in {[], NotAvailable})
      && (r.readingSpeed == NotAvailable <==> report.readingSpeed in {[], NotAvailable})
      && (r.writingSpeed == NotAvailable <==> report.writingSpeed in {[], NotAvailable})
  {
  }

  /** Normalising twice gives the same report as normalising once. */
  lemma NormalizedIdempotent(report: Report)
    ensures Normalized(Normalized(report)) == Normalized(report)
  {
  }

  // ---------------------------------------------------------------------
  // Bounds on displayed values
  // ---------------------------------------------------------------------

  function Min(a: int, b: int): int { if a <= b then a else b }

  function Max(a: int, b: int): int { if a <= b then b else a }

  /** Qt's qBound(lo, x, hi): the larger of lo and the smaller of x and hi. */
  function Bound(lo: int, x: int, hi: int): (r: int)
    ensures lo <= hi ==> lo <= r <= hi
    ensures lo <= x <= hi ==> r == x
    ensures lo <= hi && x < lo ==> r == lo
    ensures lo <= hi && hi < x ==> r == hi
  {
    Max(lo, Min(hi, x))
  }

  /** The target the capacity bar climbs to when asked to show `value` percent. */
  function CapacityTarget(value: int): (target: int)
    ensures 0 <= target <= 100
  {
    var v := if value > 100 then 100 else value;
    if v >= 0 then v else 0
  }

  /** The capacity target is the requested value bounded to 0..100. */
  lemma CapacityTargetIsBound(value: int)
    ensures CapacityTarget(value) == Bound(0, value, 100)
    ensures value > 100 ==> CapacityTarget(value) == 100
    ensures value < 0 ==> CapacityTarget(value) == 0
  {
  }

  /**
   * The interval in milliseconds between two steps of the capacity bar for a
   * positive value: 1000/value bounded to 10..1000. For the values the bar
   * is ever given (at most 100) the bound never has to cut.
   */
  function TimerInterval(value: int): (ms: int)
    requires value > 0
    ensures 10 <= ms <= 1000
    ensures value <= 100 ==> ms == 1000 / value
  {
    Bound(10, 1000 / value, 1000)
  }

  // ---------------------------------------------------------------------
  // Run state
  // ---------------------------------------------------------------------

  /** A status during which a check is in progress and the Check button stops it. */
  predicate IsActive(status: F3Status)
  {
    status == Running || status == Staged || status == Progressed
  }

  /** The active statuses are exactly those with codes 1, 4 and 5. */
  lemma ActiveStatusCodes(status: F3Status)
    ensures IsActive(status) <==> StatusCode(status) in {1, 4, 5}
    ensures !IsActive(status) <==> StatusCode(status) in {0, 2, 3}
  {
  }

  /** The Check button's caption while a check is or is not in progress. */
  function CheckButtonLabel(checking: bool): (caption: string)
    ensures caption == "Stop" <==> checking
    ensures caption == "Check!" <==> !checking
  {
    if checking then "Stop" else "Check!"
  }

  // ---------------------------------------------------------------------
  // Reading and screening the path
  // ---------------------------------------------------------------------

  /** The white-space characters QString::trimmed removes (ASCII range). */
  predicate IsSpace(c: char)
  {
    c == ' ' || c == '\t' || c == '\n' || c == '\r' || c == '\U{000B}' || c == '\U{000C}'
  }

  /** `s` without its leading white space. */
  function TrimStart(s: string): (r: string)
    ensures |r| <= |s| && r == s[|s| - |r|..]
    ensures forall i :: 0 <= i < |s| - |r| ==> IsSpace(s[i])
    ensures r == [] || !IsSpace(r[0])
  {
    if s != [] && IsSpace(s[0]) then TrimStart(s[1..]) else s
  }

  /** `s` without its trailing white space. */
  function TrimEnd(s: string): (r: string)
    ensures |r| <= |s| && r == s[..|r|]
    ensures forall i :: |r| <= i < |s| ==> IsSpace(s[i])
    ensures r == [] || !IsSpace(r[|r| - 1])
  {
    if s != [] && IsSpace(s[|s| - 1]) then TrimEnd(s[..|s| - 1]) else s
  }

  /** QString::trimmed: `s` without white space at either end. */
  function Trim(s: string): string
  {
    TrimEnd(TrimStart(s))
  }

  /**
   * Trimming keeps a middle part of the text that neither starts nor ends
   * with white space; it is empty exactly when the text is all white space.
   */
  lemma TrimIsTrimmed(s: string)
    ensures var r := Trim(s);
      && |r| <= |s| && r <= s[|s| - |TrimStart(s)|..]
      && (r == [] || (!IsSpace(r[0]) && !IsSpace(r[|r| - 1])))
      && (r == [] <==> forall i :: 0 <= i < |s| ==> IsSpace(s[i]))
  {
    var t := TrimStart(s);
    var r := TrimEnd(t);
    assert t != [] ==> r != [] && r[0] == t[0];
  }

  /** A string with no white space at either end is its own trimming. */
  lemma TrimKeepsTrimmed(s: string)
    requires s == [] || (!IsSpace(s[0]) && !IsSpace(s[|s| - 1]))
    ensures Trim(s) == s
  {
  }

  /** Trimming twice gives the same text as trimming once. */
  lemma TrimIdempotent(s: string)
    ensures Trim(Trim(s)) == Trim(s)
  {
    TrimIsTrimmed(s);
    TrimKeepsTrimmed(Trim(s));
  }

  /** The text of the path box that belongs to the current tab, trimmed. */
  function SelectedPath(tab: int, dirText: string, devText: string): (path: string)
    ensures var text := if tab == DeviceTab then devText else dirText;
      && |path| <= |text|
      && (path == [] <==> forall i :: 0 <= i < |text| ==> IsSpace(text[i]))
      && (path != [] ==> !IsSpace(path[0]) && !IsSpace(path[|path| - 1]))
  {
    var text := if tab == DeviceTab then devText else dirText;
    TrimIsTrimmed(text);
    Trim(text)
  }

  /**
   * The path read for a click is the box's text with the white space at its
   * two ends cut off and nothing else changed: a slice of the text starting
   * after the leading white space, with only white space around it.
   */
  lemma SelectedPathIsTrimmedText(tab: int, dirText: string, devText: string)
    ensures var text := if tab == DeviceTab then devText else dirText;
      var path := SelectedPath(tab, dirText, devText);
      var a := |text| - |TrimStart(text)|;
      && 0 <= a && a + |path| <= |text|
      && path == text[a..a + |path|]
      && forall i :: 0 <= i < a || a + |path| <= i < |text| ==> IsSpace(text[i])
  {
    var text := if tab == DeviceTab then devText else dirText;
    var start := TrimStart(text);
    var a := |text| - |start|;
    forall i | a + |TrimEnd(start)| <= i < |text|
      ensures IsSpace(text[i])
    {
      assert text[i] == start[i - a];
    }
  }

  /**
   * The string checks of the path validation: a path must not be empty, and a
   * device path must lie under /dev/. (The checks against the file system
   * come on top of these.)
   */
  function PathTextAcceptable(path: string, isDevice: bool): (ok: bool)
    ensures !isDevice ==> (ok <==> path != [])
    ensures isDevice ==> (ok <==> |path| >= 5 && path[..5] == DevicePrefix)
    ensures ok ==> path != []
  {
    path != [] && (!isDevice || DevicePrefix <= path)
  }

  // ---------------------------------------------------------------------
  // Run options chosen by the Check button
  // ---------------------------------------------------------------------

  /** The checked state of the four option boxes of the device tab. */
  datatype Checkboxes = Checkboxes(quickTest: bool, useCache: bool, lessMem: bool, destructive: bool)

  /** The option keys and values the launcher understands. */
  predicate KnownOption(key: string, value: string)
  {
    || (key == "mode" && value in {"legacy", "quick"})
    || (key == "cache" && value in {"none", "write"})
    || (key == "memory" && value in {"minimum", "full"})
    || (key == "destructive" && value in {"yes", "no"})
  }

  /** The key under which the launcher receives an option. */
  function OptionKey(opt: RunOption): (key: string)
  {
    match opt
    case ModeOption(_) => "mode"
    case CacheOption(_) => "cache"
    case MemoryOption(_) => "memory"
    case DestructiveOption(_) => "destructive"
  }

  /** The value text the launcher receives for an option. */
  function OptionText(opt: RunOption): (value: string)
  {
    match opt
    case ModeOption(quick) => if quick then "quick" else "legacy"
    case CacheOption(write) => if write then "write" else "none"
    case MemoryOption(minimum) => if minimum then "minimum" else "full"
    case DestructiveOption(yes) => if yes then "yes" else "no"
  }

  /** The option a key and a value text name, if the launcher knows it. */
  function ParseOption(key: string, value: string): (opt: Option<RunOption>)
    ensures opt.Some? <==> KnownOption(key, value)
  {
    if key == "mode" && value in {"legacy", "quick"} then Some(ModeOption(value == "quick"))
    else if key == "cache" && value in {"none", "write"} then Some(CacheOption(value == "write"))
    else if key == "memory" && value in {"minimum", "full"} then Some(MemoryOption(value == "minimum"))
    else if key == "destructive" && value in {"yes", "no"} then Some(DestructiveOption(value == "yes"))
    else None
  }

  /** Every option the window chooses reaches the launcher as a known key and value, and reads back unchanged. */
  lemma OptionRoundTrip(opt: RunOption)
    ensures KnownOption(OptionKey(opt), OptionText(opt))
    ensures ParseOption(OptionKey(opt), OptionText(opt)) == Some(opt)
  {
  }

  /** Every known key and value is the text of exactly the option it parses to. */
  lemma ParseOptionRoundTrip(key: string, value: string)
    ensures ParseOption(key, value).Some? ==>
      OptionKey(ParseOption(key, value).value) == key && OptionText(ParseOption(key, value).value) == value
  {
  }

  /** The options a check is started with, in the order they are set. */
  function RunOptions(tab: int, boxes: Checkboxes): (opts: seq<RunOption>)
    ensures forall i, j :: 0 <= i < j < |opts| ==> OptionKey(opts[i]) != OptionKey(opts[j])
  {
    if tab == 0 then
      [ModeOption(false), CacheOption(false)]
    else
      [ModeOption(boxes.quickTest), CacheOption(boxes.useCache), MemoryOption(boxes.lessMem),
       DestructiveOption(boxes.destructive)]
  }

  /** Setting `i` is the last in `opts` that gives `key` a value. */
  ghost predicate LastSetting(opts: seq<RunOption>, key: string, i: int)
  {
    && 0 <= i < |opts| && OptionKey(opts[i]) == key
    && forall j :: i < j < |opts| ==> OptionKey(opts[j]) != key
  }

  /** The value text last given to `key` in a sequence of option settings. */
  function OptionValue(opts: seq<RunOption>, key: string): (v: Option<string>)
    ensures v.Some? <==> exists i :: 0 <= i < |opts| && OptionKey(opts[i]) == key
  {
    if opts == [] then None
    else if OptionKey(opts[|opts| - 1]) == key then Some(OptionText(opts[|opts| - 1]))
    else OptionValue(opts[..|opts| - 1], key)
  }

  /** A key's value is the text of the last setting of that key: later settings override earlier ones. */
  lemma {:induction false} OptionValueIsLast(opts: seq<RunOption>, key: string)
    ensures var v := OptionValue(opts, key);
      v.Some? ==> exists i :: LastSetting(opts, key, i) && v.value == OptionText(opts[i])
  {
    if opts == [] {
    } else if OptionKey(opts[|opts| - 1]) == key {
      assert LastSetting(opts, key, |opts| - 1);
    } else {
      var prefix := opts[..|opts| - 1];
      assert OptionValue(opts, key) == OptionValue(prefix, key);
      OptionValueIsLast(prefix, key);
      if OptionValue(prefix, key).Some? {
        var i :| LastSetting(prefix, key, i) && OptionValue(prefix, key).value == OptionText(prefix[i]);
        LastSettingExtends(prefix, opts, key, i);
      }
    }
  }

  /** The last setting of a key stays the last when a setting of another key is appended. */
  lemma LastSettingExtends(prefix: seq<RunOption>, opts: seq<RunOption>, key: string, i: int)
    requires |opts| == |prefix| + 1 && opts[..|prefix|] == prefix
    requires OptionKey(opts[|prefix|]) != key
    requires LastSetting(prefix, key, i)
    ensures LastSetting(opts, key, i) && opts[i] == prefix[i]
  {
    forall j | i < j < |opts|
      ensures OptionKey(opts[j]) != key
    {
      if j < |prefix| {
        assert opts[j] == prefix[j];
      }
    }
  }

  /**
   * On the directory tab a check always runs in legacy mode without cache and
   * sets neither memory nor destructive; on any other tab each option follows
   * its check box.
   */
  lemma {:induction false} RunOptionsFollowBoxes(tab: int, boxes: Checkboxes)
    ensures var opts := RunOptions(tab, boxes);
      && (OptionValue(opts, "mode") == Some("quick") <==> tab != 0 && boxes.quickTest)
      && (OptionValue(opts, "mode") == Some("legacy") <==> tab == 0 || !boxes.quickTest)
      && (OptionValue(opts, "cache") == Some("write") <==> tab != 0 && boxes.useCache)
      && (OptionValue(opts, "cache") == Some("none") <==> tab == 0 || !boxes.useCache)
      && (OptionValue(opts, "memory") == Some("minimum") <==> tab != 0 && boxes.lessMem)
      && (OptionValue(opts, "memory") == Some("full") <==> tab != 0 && !boxes.lessMem)
      && (OptionValue(opts, "destructive") == Some("yes") <==> tab != 0 && boxes.destructive)
      && (OptionValue(opts, "destructive") == Some("no") <==> tab != 0 && !boxes.destructive)
  {
    RunOptionValues(tab, boxes);
  }

  /** The value each key receives from the options a check is started with. */
  lemma RunOptionValues(tab: int, boxes: Checkboxes)
    ensures var opts := RunOptions(tab, boxes);
      && OptionValue(opts, "mode") == Some(OptionText(ModeOption(tab != 0 && boxes.quickTest)))
      && OptionValue(opts, "cache") == Some(OptionText(CacheOption(tab != 0 && boxes.useCache)))
      && OptionValue(opts, "memory") == (if tab == 0 then None else Some(OptionText(MemoryOption(boxes.lessMem))))
      && OptionValue(opts, "destructive") ==
           (if tab == 0 then None else Some(OptionText(DestructiveOption(boxes.destructive))))
  {
    var opts := RunOptions(tab, boxes);
    OptionValueOfDistinct(opts, 0);
    OptionValueOfDistinct(opts, 1);
    if tab != 0 {
      OptionValueOfDistinct(opts, 2);
      OptionValueOfDistinct(opts, 3);
    }
  }

  /** Where no two settings share a key, each key's value is the text of its only setting. */
  lemma OptionValueOfDistinct(opts: seq<RunOption>, i: int)
    requires forall j, k :: 0 <= j < k < |opts| ==> OptionKey(opts[j]) != OptionKey(opts[k])
    requires 0 <= i < |opts|
    ensures OptionValue(opts, OptionKey(opts[i])) == Some(OptionText(opts[i]))
  {
    var v := OptionValue(opts, OptionKey(opts[i]));
    OptionValueIsLast(opts, OptionKey(opts[i]));
    var last :| LastSetting(opts, OptionKey(opts[i]), last) && v.value == OptionText(opts[last]);
    assert last == i;
  }

  /** The commands that set the given options, in order. */
  function SetOptions(opts: seq<RunOption>): (cmds: seq<Command>)
    ensures |cmds| == |opts|
    ensures forall i :: 0 <= i < |opts| ==> cmds[i] == SetOption(opts[i])
  {
    if opts == [] then [] else [SetOption(opts[0])] + SetOptions(opts[1..])
  }

  /**
   * The answers of everything outside the window that a click on the Check
   * button depends on.
   */
  datatype Answers = Answers(
    pathChecksPass: bool,        // the file-system and permission checks of the path validation
    deviceOpens: bool,           // quick test: the device opens for writing, possibly after the sudo retry
    mountResult: string,         // the mount point of a plain mount, empty when it failed
    sudoMountResult: string,     // the mount point of the sudo retry, empty when it failed
    destructiveConfirmed: bool)  // the user's answer to the destructive-test question

  /** Where the device ends up mounted: the plain mount, else the sudo retry. */
  function MountedAt(answers: Answers): (mountPoint: string)
    ensures answers.mountResult != [] ==> mountPoint == answers.mountResult
    ensures mountPoint == [] <==> answers.mountResult == [] && answers.sudoMountResult == []
    ensures mountPoint != [] ==> mountPoint in {answers.mountResult, answers.sudoMountResult}
  {
    if answers.mountResult != [] then answers.mountResult else answers.sudoMountResult
  }

  /** A command sequence that ends by starting a check. */
  predicate Launches(cmds: seq<Command>)
  {
    cmds != [] && cmds[|cmds| - 1].StartCheck?
  }

  /**
   * What a click on the Check button asks for, given whether a check is in
   * progress, the current tab, the trimmed path, the option boxes and the
   * outside answers.
   */
  function CheckClicked(checking: bool, tab: int, path: string, boxes: Checkboxes, answers: Answers): (cmds: seq<Command>)
    ensures StopCheck in cmds <==> checking
    ensures !checking ==> forall i :: 0 <= i < |cmds| ==> cmds[i].SetOption? || cmds[i].StartCheck?
  {
    if checking then [StopCheck]
    else if !PathTextAcceptable(path, tab == DeviceTab) || !answers.pathChecksPass then []
    else if tab == 0 then [SetOption(ModeOption(false)), SetOption(CacheOption(false)), StartCheck(path)]
    else DeviceClick(path, boxes, answers)
  }

  /** The part of a click that sets the options of a device-tab check and starts it. */
  function DeviceClick(path: string, boxes: Checkboxes, answers: Answers): (cmds: seq<Command>)
    ensures Launches(cmds) <==> DeviceReady(boxes, answers)
    ensures forall i :: 0 <= i < |cmds| - 1 ==> cmds[i].SetOption?
    ensures cmds != [] ==> cmds[0] == SetOption(ModeOption(boxes.quickTest))
  {
    var chosen := [SetOption(ModeOption(boxes.quickTest)), SetOption(CacheOption(boxes.useCache)),
                   SetOption(MemoryOption(boxes.lessMem))];
    if boxes.quickTest && !answers.deviceOpens then [SetOption(ModeOption(true))]
    else if !boxes.quickTest && MountedAt(answers) == [] then []
    else if boxes.destructive && !answers.destructiveConfirmed then chosen
    else chosen + [SetOption(DestructiveOption(boxes.destructive)),
                   StartCheck(if boxes.quickTest then path else MountedAt(answers))]
  }

  /** While a check is in progress a click only stops it. */
  lemma ClickWhileCheckingStops(tab: int, path: string, boxes: Checkboxes, answers: Answers)
    ensures CheckClicked(true, tab, path, boxes, answers) == [StopCheck]
  {
  }

  /** A path that fails the string checks is rejected before any option is set. */
  lemma ClickRejectsBadPath(tab: int, path: string, boxes: Checkboxes, answers: Answers)
    requires path == [] || (tab == DeviceTab && !(DevicePrefix <= path))
    ensures CheckClicked(false, tab, path, boxes, answers) == []
  {
  }

  /**
   * The device side of starting a check: the device could be opened (quick
   * test) or mounted (legacy test), and a destructive test was confirmed.
   */
  predicate DeviceReady(boxes: Checkboxes, answers: Answers)
  {
    && (boxes.quickTest ==> answers.deviceOpens)
    && (!boxes.quickTest ==> MountedAt(answers) != [])
    && (boxes.destructive ==> answers.destructiveConfirmed)
  }

  /**
   * When a click on the Check button starts a check: no check is running, the
   * path passes every check and, on any tab but the directory tab, the device
   * is ready.
   */
  predicate ClickStarts(checking: bool, tab: int, path: string, boxes: Checkboxes, answers: Answers)
  {
    && !checking
    && PathTextAcceptable(path, tab == DeviceTab)
    && answers.pathChecksPass
    && (tab != 0 ==> DeviceReady(boxes, answers))
  }

  /**
   * A click ends by starting a check exactly when ClickStarts holds. It then
   * first sets the run options and starts the check last, on the path itself
   * or on the mount point; every command before the last sets an option.
   */
  lemma ClickLaunches(checking: bool, tab: int, path: string, boxes: Checkboxes, answers: Answers)
    ensures var cmds := CheckClicked(checking, tab, path, boxes, answers);
      && (Launches(cmds) <==> ClickStarts(checking, tab, path, boxes, answers))
      && (Launches(cmds) ==>
            cmds == SetOptions(RunOptions(tab, boxes))
                    + [StartCheck(if tab == 0 || boxes.quickTest then path else MountedAt(answers))])
      && (forall i :: 0 <= i < |cmds| - 1 ==> cmds[i].SetOption?)
  {
  }

  /** Every option a click sets reaches the launcher as a key and value it understands. */
  lemma ClickSetsKnownOptions(checking: bool, tab: int, path: string, boxes: Checkboxes, answers: Answers)
    ensures var cmds := CheckClicked(checking, tab, path, boxes, answers);
      forall i :: 0 <= i < |cmds| && cmds[i].SetOption? ==>
        KnownOption(OptionKey(cmds[i].option), OptionText(cmds[i].option))
  {
    var cmds := CheckClicked(checking, tab, path, boxes, answers);
    forall i | 0 <= i < |cmds| && cmds[i].SetOption?
      ensures KnownOption(OptionKey(cmds[i].option), OptionText(cmds[i].option))
    {
      OptionRoundTrip(cmds[i].option);
    }
  }

  // ---------------------------------------------------------------------
  // The capacity bar animation
  // ---------------------------------------------------------------------

  /** The capacity bar after one timer tick: one step up while below its target. */
  function NextBarValue(value: int, target: int): (next: int)
    ensures next == value <==> value >= target
    ensures value <= target ==> value <= next <= target
  {
    if value < target then value + 1 else value
  }

  /** The capacity bar after `n` timer ticks. */
  function BarAfterTicks(value: int, target: int, n: nat): (bar: int)
    ensures value <= bar <= Max(value, target)
    ensures value >= target ==> bar == value
    decreases n
  {
    if n == 0 then value else BarAfterTicks(NextBarValue(value, target), target, n - 1)
  }

  /** From a value at or below its target, the bar climbs one step per tick and stops at the target. */
  lemma {:induction false} BarClimbsToTarget(value: int, target: int, n: nat)
    requires value <= target
    ensures BarAfterTicks(value, target, n) == Min(value + n, target)
    decreases n
  {
    if n > 0 {
      BarClimbsToTarget(NextBarValue(value, target), target, n - 1);
    }
  }

  /**
   * Started from 0, the bar never passes its target, and the tick that finds
   * it at the target (and so stops the timer) is tick number target + 1: the
   * bar is below the target after exactly the first `target` ticks.
   */
  lemma CapacityAnimation(target: int, n: nat)
    requires 0 <= target
    ensures 0 <= BarAfterTicks(0, target, n) <= target
    ensures BarAfterTicks(0, target, n) < target <==> n < target
  {
    BarClimbsToTarget(0, target, n);
  }
}
