/**
 * The state the f3 main window keeps and updates in place, without its
 * widgets: the status line and progress bar, the capacity bar with the timer
 * that animates it, whether a check is in progress, the option boxes of the
 * device tab, and the list of requests the window has sent to the launcher
 * (and to its mount helper).
 */
module Window {
  import opened F3Launcher
  import opened WindowLogic

  /**
   * The text of the status line. A progress value is kept as the number the
   * window formats as a two-decimal percentage.
   */
  datatype StatusText = Message(text: string) | StageText(stage: int) | Processing(progress10K: int)

  class MainWindow {
    // status line and progress bar
    var statusText: StatusText
    var progressVisible: bool
    var progressMin: int
    var progressMax: int
    var progressValue: int
    var progressFormat: string

    // result labels and tabs
    var spaceLabel: string
    var speedLabel: string
    var currentTab: int
    var resultTabVisible: bool

    // capacity bar and the timer that animates it
    var capacityValue: int
    var capacityFormat: string
    var timerTarget: int
    var timerActive: bool
    var timerInterval: int

    // run state and path inputs (pathInputsEnabled: the path boxes are editable
    // and their Browse buttons enabled)
    var checking: bool
    var buttonLabel: string
    var pathInputsEnabled: bool
    var mountPoint: string
    var dirPathText: string
    var devPathText: string

    // option boxes of the device tab
    var quickTest: bool
    var useCache: bool
    var lessMem: bool
    var destructive: bool
    var useCacheEnabled: bool
    var lessMemEnabled: bool
    var destructiveEnabled: bool

    // requests sent so far, oldest first
    var commands: seq<Command>

    /** The progress bar counts up from 0 and its value is on the 0..10000 scale. */
    ghost predicate ProgressValid()
      reads this
    {
      progressMin == 0 && progressMax >= 0 && 0 <= progressValue <= MaxProgress
    }

    /** The capacity bar climbs towards a target percentage, and a running timer has a sane interval. */
    ghost predicate CapacityValid()
      reads this
    {
      && 0 <= capacityValue <= timerTarget <= 100
      && (timerActive ==> 10 <= timerInterval <= 1000)
    }

    /** The Check button names what a click does, and the path inputs are usable when no check runs. */
    ghost predicate RunStateValid()
      reads this
    {
      buttonLabel == CheckButtonLabel(checking) && (!checking ==> pathInputsEnabled)
    }

    /**
     * Less-memory and destructive are never both checked; both are usable only
     * with quick test, and the cache box only without it.
     */
    ghost predicate OptionsCoupled()
      reads this
    {
      && !(lessMem && destructive)
      && (quickTest ==> lessMemEnabled && destructiveEnabled && !useCacheEnabled)
      && (!quickTest ==> !lessMem && !destructive && !lessMemEnabled && !destructiveEnabled && useCacheEnabled)
    }

    ghost predicate Valid()
      reads this
    {
      ProgressValid() && CapacityValid() && RunStateValid() && OptionsCoupled()
    }

    /** The progress bar is as it was. */
    twostate predicate ProgressKept()
      reads this`progressVisible, this`progressMin, this`progressMax, this`progressValue, this`progressFormat
    {
      && progressVisible == old(progressVisible) && progressMin == old(progressMin)
      && progressMax == old(progressMax) && progressValue == old(progressValue)
      && progressFormat == old(progressFormat)
    }

    /** The result labels, the capacity bar, its timer and the tabs are as they were. */
    twostate predicate ResultsKept()
      reads this`spaceLabel, this`speedLabel, this`capacityFormat, this`timerTarget, this`capacityValue,
            this`timerActive, this`timerInterval, this`resultTabVisible, this`currentTab
    {
      && spaceLabel == old(spaceLabel) && speedLabel == old(speedLabel)
      && capacityFormat == old(capacityFormat) && timerTarget == old(timerTarget)
      && capacityValue == old(capacityValue) && timerActive == old(timerActive)
      && timerInterval == old(timerInterval) && resultTabVisible == old(resultTabVisible)
      && currentTab == old(currentTab)
    }

    /**
     * The progress bar and status line after showing `progress10K`: -1 makes
     * the bar indeterminate (range 0..0) and keeps its value, anything below
     * -1 empties it, and any other value is bounded to 0..10000 and shown on a
     * 0..10000 scale, which replaces an empty or indeterminate range. The
     * format is not touched.
     */
    twostate predicate ProgressShown(progress10K: int)
      reads this`progressVisible, this`progressMin, this`progressMax, this`progressValue,
            this`progressFormat, this`statusText
    {
      && progressVisible && progressMin == 0 && progressFormat == old(progressFormat)
      && (progress10K == -1 ==>
            && progressMax == 0 && progressValue == old(progressValue)
            && statusText == Message("Processing..."))
      && (progress10K < -1 ==>
            && progressMax == 0 && progressValue == 0
            && statusText == Message(""))
      && (progress10K >= 0 ==>
            && progressValue == Bound(0, progress10K, MaxProgress)
            && progressMax == (if old(progressMax) <= 0 then MaxProgress else old(progressMax))
            && statusText == Processing(progressValue))
    }

    /**
     * The capacity bar after being set to climb to `value` percent: the target
     * is the value bounded to 0..100, the bar restarts from 0, a negative value
     * reads "Capacity not available", and only a positive value (re)starts the
     * timer, with its interval derived from the target.
     */
    twostate predicate CapacityShown(value: int)
      reads this`capacityFormat, this`timerTarget, this`capacityValue, this`timerActive, this`timerInterval
    {
      && timerTarget == CapacityTarget(value) && capacityValue == 0
      && capacityFormat == (if value >= 0 then "%p% Available" else "Capacity not available")
      && (value > 0 ==> timerActive && timerInterval == TimerInterval(timerTarget))
      && (value <= 0 ==> timerActive == old(timerActive) && timerInterval == old(timerInterval))
    }

    /**
     * A report on screen: the labels show the filled-in measurements, the
     * capacity bar climbs to the availability and the result tab is current.
     */
    twostate predicate ReportShown(report: Report)
      reads this`spaceLabel, this`speedLabel, this`capacityFormat, this`timerTarget, this`capacityValue,
            this`timerActive, this`timerInterval, this`resultTabVisible, this`currentTab
    {
      var r := Normalized(report);
      && spaceLabel == "Free Space: " + r.reportedFree + "\nActual: " + r.actualFree
      && speedLabel == "Read speed: " + r.readingSpeed + "\nWrite speed: " + r.writingSpeed
      && CapacityShown(r.availability)
      && resultTabVisible && currentTab == ResultTab
    }

    /**
     * A finished run on screen: the bar is emptied and hidden with its range
     * and format kept, the status line says whether errors were found, and the
     * report is shown unless it marks a completed fix, which leaves the
     * results as they were.
     */
    twostate predicate FinishedShown(report: Report)
      reads this`progressVisible, this`progressMin, this`progressMax, this`progressValue,
            this`progressFormat, this`statusText, this`spaceLabel, this`speedLabel,
            this`capacityFormat, this`timerTarget, this`capacityValue, this`timerActive,
            this`timerInterval, this`resultTabVisible, this`currentTab
    {
      && !progressVisible && progressValue == 0 && progressMin == old(progressMin)
      && progressMax == old(progressMax) && progressFormat == old(progressFormat)
      && statusText == Message(if report.success then "Finished (without error)." else "Finished.")
      && (report.reportedFree == FixedMarker ==> ResultsKept())
      && (report.reportedFree != FixedMarker ==> ReportShown(report))
    }

    /**
     * What the window shows after a status change, field by field, for each
     * status. Everything a status does not mention keeps its value.
     */
    twostate predicate StatusShown(status: F3Status, engine: EngineView)
      reads this`progressVisible, this`progressMin, this`progressMax, this`progressValue,
            this`progressFormat, this`statusText, this`spaceLabel, this`speedLabel,
            this`capacityFormat, this`timerTarget, this`capacityValue, this`timerActive,
            this`timerInterval, this`resultTabVisible, this`currentTab
    {
      match status
      case Ready =>
        statusText == Message("Ready.") && ProgressKept() && ResultsKept()
      case Running =>
        && statusText == Message("Checking... Please wait...")
        && progressVisible && progressMin == old(progressMin) && progressMax == old(progressMax)
        && progressValue == old(progressValue) && progressFormat == old(progressFormat)
        && ResultsKept()
      case Finished =>
        FinishedShown(engine.report)
      case Stopped =>
        && progressVisible && progressMin == 0 && progressValue == 0 && progressFormat == "!"
        && progressMax == (if old(progressMax) <= 0 then MaxProgress else old(progressMax))
        && statusText == Processing(0) && ResultsKept()
      case Staged =>
        && progressVisible && progressMin == 0 && progressMax == 0
        && progressValue == old(progressValue) && progressFormat == "?"
        && statusText == Message("Processing...") && ResultsKept()
      case Progressed =>
        ProgressShown(engine.progress10K) && ResultsKept()
    }

    /**
     * A fresh window: no check in progress, the status line reads "Ready", the
     * progress bar has Qt's default range 0..100, and quick test is off.
     */
    constructor ()
      ensures Valid()
      ensures !checking && buttonLabel == "Check!" && pathInputsEnabled
      ensures statusText == Message("Ready") && !progressVisible
      ensures progressMin == 0 && progressMax == 100 && progressValue == 0 && progressFormat == "%p%"
      ensures spaceLabel == [] && speedLabel == [] && !resultTabVisible && currentTab == 0
      ensures capacityValue == 0 && timerTarget == 0 && !timerActive
      ensures mountPoint == [] && dirPathText == [] && devPathText == []
      ensures !quickTest && !useCache && !lessMem && !destructive
      ensures useCacheEnabled && !lessMemEnabled && !destructiveEnabled
      ensures commands == []
    {
      statusText := Message("Ready");
      progressVisible := false;
      progressMin, progressMax, progressValue := 0, 100, 0;
      progressFormat := "%p%";
      spaceLabel, speedLabel := "", "";
      currentTab := 0;
      resultTabVisible := false;
      capacityValue, timerTarget := 0, 0;
      capacityFormat := "%p%";
      timerActive, timerInterval := false, 1000;
      checking := false;
      buttonLabel := "Check!";
      pathInputsEnabled := true;
      mountPoint, dirPathText, devPathText := "", "", "";
      quickTest, useCache, lessMem, destructive := false, false, false, false;
      useCacheEnabled, lessMemEnabled, destructiveEnabled := true, false, false;
      commands := [];
    }

    /** Resets the status line, the result labels and the progress value, and hides the result tab. */
    method ClearStatus()
      requires Valid()
      modifies this`statusText, this`spaceLabel, this`speedLabel, this`progressValue, this`resultTabVisible
      ensures Valid()
      ensures statusText == Message("Ready") && spaceLabel == [] && speedLabel == []
      ensures progressValue == 0 && !resultTabVisible
    {
      statusText := Message("Ready");
      spaceLabel := "";
      speedLabel := "";
      progressValue := 0;
      resultTabVisible := false;
    }

    /**
     * Shows a progress value in hundredths of a percent: -1 makes the bar
     * indeterminate (range 0..0), anything below -1 empties it, and any other
     * value is bounded to 0..10000 and shown on a 0..10000 scale.
     */
    method ShowProgress(progress10K: int)
      requires Valid()
      modifies this`progressVisible, this`progressMin, this`progressMax, this`progressValue, this`statusText
      ensures Valid() && ProgressShown(progress10K)
    {
      progressVisible := true;
      if progress10K == -1 {
        progressMin := 0;
        progressMax := 0;
        statusText := Message("Processing...");
        return;
      } else if progress10K < -1 {
        progressMax := 0;
        progressValue := 0;
        statusText := Message("");
        return;
      }
      var value := Bound(0, progress10K, MaxProgress);
      if progressMax <= 0 {
        progressMin := 0;
        progressMax := MaxProgress;
      }
      progressValue := value;
      statusText := Processing(value);
    }

    /**
     * Prepares the capacity bar to climb to `value` percent: the target is the
     * value bounded to 0..100 and the bar restarts from 0. Only a positive
     * value starts the timer, with 1000/value milliseconds between steps.
     */
    method ShowCapacity(value: int)
      requires Valid()
      modifies this`capacityFormat, this`timerTarget, this`capacityValue, this`timerActive, this`timerInterval
      ensures Valid() && CapacityShown(value)
      ensures 0 < value <= 100 ==> timerInterval == 1000 / value
    {
      var v := value;
      if v > 100 {
        v := 100;
      }
      if v >= 0 {
        capacityFormat := "%p% Available";
        timerTarget := v;
      } else {
        capacityFormat := "Capacity not available";
        timerTarget := 0;
      }
      capacityValue := 0;
      if v <= 0 {
        return;
      }
      timerInterval := Bound(10, 1000 / v, 1000);
      timerActive := true;
    }

    /**
     * One tick of the capacity timer: below its target the bar climbs one
     * step; at the target the timer stops, and a fix is offered when the
     * capacity is short, the device tab is current and quick test is checked.
     * `fixConfirmed` is the user's answer to both fix questions. The timer
     * fires only while it runs.
     */
    method OnTimerTimeout(fixConfirmed: bool) returns (fixOffered: bool)
      requires Valid() && timerActive
      modifies this`capacityValue, this`timerActive, this`commands
      ensures Valid()
      ensures capacityValue == NextBarValue(old(capacityValue), timerTarget)
      ensures old(capacityValue) < timerTarget ==> timerActive == old(timerActive) && !fixOffered
      ensures old(capacityValue) >= timerTarget ==>
        !timerActive && (fixOffered <==> timerTarget < 100 && currentTab == DeviceTab && quickTest)
      ensures commands == old(commands) + (if fixOffered && fixConfirmed then [StartFix] else [])
    {
      fixOffered := false;
      var value := capacityValue;
      if value < timerTarget {
        value := value + 1;
        capacityValue := value;
      } else {
        timerActive := false;
        if timerTarget < 100 && currentTab == DeviceTab && quickTest {
          fixOffered := true;
          if fixConfirmed {
            commands := commands + [StartFix];
          }
        }
      }
    }

    /** Shows the result tab and switches to it, or hides it and leaves it for the directory tab. */
    method ShowResultPage(visible: bool)
      requires Valid()
      modifies this`resultTabVisible, this`currentTab
      ensures Valid()
      ensures resultTabVisible == visible
      ensures visible ==> currentTab == ResultTab
      ensures !visible ==> currentTab == (if old(currentTab) == ResultTab then 0 else old(currentTab))
    {
      if visible {
        resultTabVisible := true;
        currentTab := ResultTab;
      } else {
        resultTabVisible := false;
        if currentTab == ResultTab {
          currentTab := if currentTab == DeviceTab then DeviceTab else 0;
        }
      }
    }

    /**
     * Shows a finished run's report: fills in the missing measurements, writes
     * the space and speed labels, starts the capacity animation towards the
     * availability and switches to the result tab.
     */
    method ShowReport(report: Report)
      requires Valid()
      modifies this`spaceLabel, this`speedLabel, this`capacityFormat, this`timerTarget,
               this`capacityValue, this`timerActive, this`timerInterval, this`resultTabVisible,
               this`currentTab
      ensures Valid() && ReportShown(report)
    {
      var filled := FillReport(report);
      spaceLabel := "Free Space: " + filled.reportedFree + "\nActual: " + filled.actualFree;
      speedLabel := "Read speed: " + filled.readingSpeed + "\nWrite speed: " + filled.writingSpeed;
      ShowCapacity(filled.availability);
      ShowResultPage(true);
    }

    /**
     * A finished run: the progress bar is emptied and hidden, the status line
     * says whether the run found errors, and the report is shown unless it
     * marks a completed fix.
     */
    method ShowFinished(report: Report)
      requires Valid()
      modifies this`progressValue, this`progressVisible, this`statusText, this`spaceLabel,
               this`speedLabel, this`capacityFormat, this`timerTarget, this`capacityValue,
               this`timerActive, this`timerInterval, this`resultTabVisible, this`currentTab
      ensures Valid() && FinishedShown(report)
    {
      ShowRunEnded(report.success);
      if report.reportedFree == FixedMarker {
        return;
      }
      ShowReport(report);
    }

    /** The progress part of a finished run: the bar is emptied and hidden, and the status line says whether errors were found. */
    method ShowRunEnded(success: bool)
      requires Valid()
      modifies this`progressValue, this`progressVisible, this`statusText
      ensures Valid()
      ensures !progressVisible && progressValue == 0
      ensures statusText == Message(if success then "Finished (without error)." else "Finished.")
    {
      progressValue := 0;
      progressVisible := false;
      statusText := if success then Message("Finished (without error).") else Message("Finished.");
    }

    /** A stopped run: the bar shows 0 with a "!" in place of the percentage. */
    method ShowStopped()
      requires Valid()
      modifies this`statusText, this`progressVisible, this`progressMin, this`progressMax,
               this`progressValue, this`progressFormat
      ensures Valid()
      ensures progressVisible && progressMin == 0 && progressValue == 0 && progressFormat == "!"
      ensures progressMax == (if old(progressMax) <= 0 then MaxProgress else old(progressMax))
      ensures statusText == Processing(0)
    {
      statusText := Message("Stopped.");
      ShowProgress(0);
      progressFormat := "!";
    }

    /** A new stage: the bar turns indeterminate with a "?" in place of the percentage. */
    method ShowStaged(stage: int)
      requires Valid()
      modifies this`statusText, this`progressVisible, this`progressMin, this`progressMax,
               this`progressValue, this`progressFormat
      ensures Valid()
      ensures progressVisible && progressMin == 0 && progressMax == 0
      ensures progressValue == old(progressValue)
      ensures progressFormat == "?" && statusText == Message("Processing...")
    {
      statusText := StageText(stage);
      ShowProgress(-1);
      progressFormat := "?";
    }

    /**
     * The display part of a status change: the status line, the progress bar
     * and, for a finished run whose report does not mark a completed fix, the
     * report. A running check also locks the path inputs.
     */
    method ShowStatusChange(status: F3Status, engine: EngineView)
      requires Valid()
      modifies this`statusText, this`progressVisible, this`progressMin, this`progressMax,
               this`progressValue, this`progressFormat, this`spaceLabel, this`speedLabel,
               this`resultTabVisible, this`currentTab, this`capacityFormat, this`timerTarget,
               this`capacityValue, this`timerActive, this`timerInterval, this`pathInputsEnabled
      ensures ProgressValid() && CapacityValid() && OptionsCoupled()
      ensures pathInputsEnabled == (if status == Running then false else old(pathInputsEnabled))
      ensures StatusShown(status, engine)
    {
      match status {
        case Ready =>
          statusText := Message("Ready.");
        case Running =>
          statusText := Message("Checking... Please wait...");
          pathInputsEnabled := false;
          progressVisible := true;
        case Finished =>
          ShowFinished(engine.report);
        case Stopped =>
          ShowStopped();
        case Staged =>
          ShowStaged(engine.stage);
        case Progressed =>
          ShowProgress(engine.progress10K);
      }
    }

    /**
     * The run-state part of a status change. A check is in progress, and the
     * button reads "Stop", exactly while the status is Running, Staged or
     * Progressed; on any other status the path inputs are usable again and a
     * device mounted for a legacy test on the device tab is unmounted.
     */
    method UpdateRunState(status: F3Status)
      requires ProgressValid() && CapacityValid() && OptionsCoupled()
      modifies this`checking, this`buttonLabel, this`pathInputsEnabled, this`commands
      ensures Valid()
      ensures checking == IsActive(status)
      ensures buttonLabel == (if IsActive(status) then "Stop" else "Check!")
      ensures pathInputsEnabled == (if IsActive(status) then old(pathInputsEnabled) else true)
      ensures commands == old(commands) +
        (if !IsActive(status) && currentTab == DeviceTab && !quickTest then [Unmount(mountPoint)] else [])
    {
      if IsActive(status) {
        checking := true;
        buttonLabel := "Stop";
      } else {
        if currentTab == DeviceTab && !quickTest {
          commands := commands + [Unmount(mountPoint)];
        }
        checking := false;
        buttonLabel := "Check!";
        pathInputsEnabled := true;
      }
    }

    /**
     * Reacts to a status change of the launcher: shows it, then updates the
     * run state. The unmount decision reads the tab as the display part left
     * it, so a finished run that switched to the result tab unmounts nothing.
     */
    method OnStatusChanged(status: F3Status, engine: EngineView)
      requires Valid()
      modifies this`statusText, this`progressVisible, this`progressMin, this`progressMax,
               this`progressValue, this`progressFormat, this`spaceLabel, this`speedLabel,
               this`resultTabVisible, this`currentTab, this`capacityFormat, this`timerTarget,
               this`capacityValue, this`timerActive, this`timerInterval, this`checking,
               this`buttonLabel, this`pathInputsEnabled, this`commands
      ensures Valid()
      // run state
      ensures checking == IsActive(status)
      ensures buttonLabel == (if IsActive(status) then "Stop" else "Check!")
      ensures !IsActive(status) ==> pathInputsEnabled
      ensures status == Running ==> !pathInputsEnabled
      ensures status == Staged || status == Progressed ==> pathInputsEnabled == old(pathInputsEnabled)
      ensures commands == old(commands) +
        (if !IsActive(status) && currentTab == DeviceTab && !quickTest then [Unmount(mountPoint)] else [])
      ensures status == Finished && engine.report.reportedFree != FixedMarker ==> commands == old(commands)
      // display
      ensures StatusShown(status, engine)
    {
      ShowStatusChange(status, engine);
      UpdateRunState(status);
    }

    /**
     * A click on the Check button. While a check is in progress it only asks
     * the launcher to stop. Otherwise it reads the path of the current tab,
     * screens it, sets the run options from the tab and the option boxes and
     * starts the check; `answers` gives the outcome of the file-system checks,
     * of opening or mounting the device and of the destructive-test question.
     */
    method OnButtonCheckClicked(answers: Answers)
      requires Valid()
      modifies this`commands, this`mountPoint, this`statusText, this`spaceLabel, this`speedLabel,
               this`progressValue, this`resultTabVisible
      ensures Valid()
      ensures var path := old(SelectedPath(currentTab, dirPathText, devPathText));
              var boxes := old(Checkboxes(quickTest, useCache, lessMem, destructive));
              var starts := ClickStarts(old(checking), old(currentTab), path, boxes, answers);
        && commands == old(commands) + CheckClicked(old(checking), old(currentTab), path, boxes, answers)
        && (starts ==>
              && statusText == Message("Ready") && spaceLabel == [] && speedLabel == []
              && progressValue == 0 && !resultTabVisible)
        && (!starts ==>
              && statusText == old(statusText) && spaceLabel == old(spaceLabel)
              && speedLabel == old(speedLabel) && progressValue == old(progressValue)
              && resultTabVisible == old(resultTabVisible))
        && mountPoint ==
             (if && !old(checking) && old(currentTab) != 0 && !old(quickTest)
                 && PathTextAcceptable(path, old(currentTab) == DeviceTab) && answers.pathChecksPass
              then MountedAt(answers) else old(mountPoint))
    {
      if checking {
        commands := commands + [StopCheck];
        return;
      }

      var isDeviceMode := currentTab == DeviceTab;
      var inputPath := SelectedPath(currentTab, dirPathText, devPathText);
      if !(PathTextAcceptable(inputPath, isDeviceMode) && answers.pathChecksPass) {
        return;
      }
      StartFromPath(inputPath, answers);
    }

    /**
     * The rest of a click once the path has passed its checks: sets the run
     * options of the current tab and starts the check, clearing the status
     * display first.
     */
    method StartFromPath(path: string, answers: Answers)
      requires Valid() && !checking
      requires PathTextAcceptable(path, currentTab == DeviceTab) && answers.pathChecksPass
      modifies this`commands, this`mountPoint, this`statusText, this`spaceLabel, this`speedLabel,
               this`progressValue, this`resultTabVisible
      ensures Valid()
      ensures var boxes := old(Checkboxes(quickTest, useCache, lessMem, destructive));
              var starts := ClickStarts(false, old(currentTab), path, boxes, answers);
        && commands == old(commands) + CheckClicked(false, old(currentTab), path, boxes, answers)
        && (starts ==>
              && statusText == Message("Ready") && spaceLabel == [] && speedLabel == []
              && progressValue == 0 && !resultTabVisible)
        && (!starts ==>
              && statusText == old(statusText) && spaceLabel == old(spaceLabel)
              && speedLabel == old(speedLabel) && progressValue == old(progressValue)
              && resultTabVisible == old(resultTabVisible))
        && mountPoint == (if old(currentTab) != 0 && !old(quickTest) then MountedAt(answers) else old(mountPoint))
    {
      var sent: seq<Command>;
      var launchPath := path;
      if currentTab == 0 {
        sent := [SetOption(ModeOption(false)), SetOption(CacheOption(false))];
      } else {
        var target;
        sent, target := SendDeviceOptions(path, answers);
        if target.None? {
          commands := commands + sent;
          return;
        }
        launchPath := target.value;
      }
      ClearStatus();
      commands := commands + (sent + [StartCheck(launchPath)]);
    }

    /**
     * The device-tab part of a click on the Check button: opens the device
     * (quick test) or mounts it (legacy test), then chooses mode, cache,
     * memory and destructive from the option boxes. Returns the option
     * commands in order and where the check is to run, or None where the
     * click gives up.
     */
    method SendDeviceOptions(path: string, answers: Answers) returns (sent: seq<Command>, target: Option<string>)
      requires Valid()
      modifies this`mountPoint
      ensures Valid()
      ensures sent + (if target.Some? then [StartCheck(target.value)] else [])
              == DeviceClick(path, Checkboxes(quickTest, useCache, lessMem, destructive), answers)
      ensures target.Some? <==> DeviceReady(Checkboxes(quickTest, useCache, lessMem, destructive), answers)
      ensures mountPoint == (if quickTest then old(mountPoint) else MountedAt(answers))
    {
      var launchPath := path;
      if quickTest {
        sent := [SetOption(ModeOption(true))];
        if !answers.deviceOpens {
          return sent, None;
        }
      } else {
        mountPoint := answers.mountResult;
        if mountPoint == [] {
          mountPoint := answers.sudoMountResult;
          if mountPoint == [] {
            return [], None;
          }
        }
        launchPath := mountPoint;
        sent := [SetOption(ModeOption(false))];
      }

      sent := sent + [SetOption(CacheOption(useCache))];
      sent := sent + [SetOption(MemoryOption(lessMem))];

      if destructive {
        if !answers.destructiveConfirmed {
          return sent, None;
        }
      }
      sent := sent + [SetOption(DestructiveOption(destructive))];
      target := Some(launchPath);
    }

    /**
     * The user switches to another tab; the result tab can be chosen only
     * while it is shown. This is the tab bar's own behaviour, which the
     * window does not program.
     */
    method SelectTab(index: int)
      requires Valid()
      requires 0 <= index < ResultTab || (index == ResultTab && resultTabVisible)
      modifies this`currentTab
      ensures Valid() && currentTab == index
    {
      currentTab := index;
    }

    /**
     * The user edits the text of the directory and device path boxes, which
     * are read-only while a check runs. Typing is the line edits' own
     * behaviour, which the window does not program.
     */
    method EditPathTexts(dirText: string, devText: string)
      requires Valid()
      modifies this`dirPathText, this`devPathText
      ensures Valid()
      ensures pathInputsEnabled ==> dirPathText == dirText && devPathText == devText
      ensures !pathInputsEnabled ==> dirPathText == old(dirPathText) && devPathText == old(devPathText)
    {
      if pathInputsEnabled {
        dirPathText, devPathText := dirText, devText;
      }
    }

    /**
     * A click on the directory Browse button: `chosen` is the directory the
     * dialog returned (empty when cancelled) and `checksPass` the outcome of
     * the file-system checks of the path validation. A chosen directory that
     * passes the validation replaces the directory path text. The button is
     * disabled, and so does nothing, while a check runs.
     */
    method OnSelectPathClicked(chosen: string, checksPass: bool)
      requires Valid()
      modifies this`dirPathText
      ensures Valid()
      ensures dirPathText ==
        (if pathInputsEnabled && PathTextAcceptable(chosen, false) && checksPass then chosen else old(dirPathText))
      ensures chosen == [] ==> dirPathText == old(dirPathText)
    {
      if !pathInputsEnabled || chosen == [] {
        return;
      }
      if PathTextAcceptable(chosen, false) && checksPass {
        dirPathText := chosen;
      }
    }

    /**
     * A click on the device Browse button: as for the directory, but the
     * chosen path must also lie under /dev/ before it replaces the device
     * path text.
     */
    method OnSelectDevClicked(chosen: string, checksPass: bool)
      requires Valid()
      modifies this`devPathText
      ensures Valid()
      ensures devPathText ==
        (if pathInputsEnabled && PathTextAcceptable(chosen, true) && checksPass then chosen else old(devPathText))
      ensures devPathText != old(devPathText) ==> DevicePrefix <= devPathText
    {
      if !pathInputsEnabled || chosen == [] {
        return;
      }
      if PathTextAcceptable(chosen, true) && checksPass {
        devPathText := chosen;
      }
    }

    /**
     * The user toggles the use-cache box, which does nothing while the box is
     * disabled. The toggle is the check box's own behaviour, which the window
     * does not program.
     */
    method UseCacheToggled()
      requires Valid()
      modifies this`useCache
      ensures Valid()
      ensures useCache == (if useCacheEnabled then !old(useCache) else old(useCache))
    {
      if useCacheEnabled {
        useCache := !useCache;
      }
    }

    /**
     * A click on the quick-test box toggles it. Checking it makes the
     * less-memory and destructive boxes usable and the cache box unusable;
     * unchecking it clears and disables the former two and enables the cache
     * box.
     */
    method OnQuickTestClicked()
      requires Valid()
      modifies this`quickTest, this`lessMem, this`destructive, this`useCacheEnabled,
               this`lessMemEnabled, this`destructiveEnabled
      ensures Valid()
      ensures quickTest == !old(quickTest)
      ensures quickTest ==>
        && lessMemEnabled && destructiveEnabled && !useCacheEnabled
        && lessMem == old(lessMem) && destructive == old(destructive)
      ensures !quickTest ==>
        !lessMem && !destructive && !lessMemEnabled && !destructiveEnabled && useCacheEnabled
    {
      quickTest := !quickTest;
      if quickTest {
        destructiveEnabled := true;
        lessMemEnabled := true;
        useCacheEnabled := false;
      } else {
        destructive := false;
        destructiveEnabled := false;
        lessMem := false;
        lessMemEnabled := false;
        useCacheEnabled := true;
      }
    }

    /** A click on the less-memory box toggles it, when it is enabled, and clears the destructive box. */
    method OnLessMemClicked()
      requires Valid()
      modifies this`lessMem, this`destructive
      ensures Valid()
      ensures old(lessMemEnabled) ==> lessMem == !old(lessMem) && !destructive
      ensures !old(lessMemEnabled) ==> lessMem == old(lessMem) && destructive == old(destructive)
    {
      if !lessMemEnabled {
        return;
      }
      lessMem := !lessMem;
      destructive := false;
    }

    /** A click on the destructive box toggles it, when it is enabled, and clears the less-memory box. */
    method OnDestructiveClicked()
      requires Valid()
      modifies this`lessMem, this`destructive
      ensures Valid()
      ensures old(destructiveEnabled) ==> destructive == !old(destructive) && !lessMem
      ensures !old(destructiveEnabled) ==> lessMem == old(lessMem) && destructive == old(destructive)
    {
      if !destructiveEnabled {
        return;
      }
      destructive := !destructive;
      lessMem := false;
    }
  }
}
