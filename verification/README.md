# f3-qt front end: a verified model of its decision logic

f3-qt is a Qt front end for the f3 tools that test flash drives for fake
capacity. Its main window starts a check through the `f3_launcher` engine,
follows the status changes the engine announces, and shows the report at the
end of a run. This project models that window without its widgets:

- `f3_launcher.dfy` (module `F3Launcher`): the run statuses and error codes
  the engine announces, with their numeric values, and the report record it
  hands out.
- `window_logic.dfy` (module `WindowLogic`): the pure decisions. These are
  filling in a report, bounding progress and capacity values, which statuses
  count as a check in progress, trimming and screening the typed path, and
  which run options a click on the Check button sends. It also covers the
  capacity bar's climb tick by tick.
- `main_window.dfy` (module `Window`): class `MainWindow`. Its fields are the
  state the window changes in place: status line, progress bar, capacity bar
  and timer, the `checking` flag and button caption, the path inputs, the
  option boxes, and the log of requests sent to the engine and mount helper.
  Its methods are the window's slots and helpers. The invariant `Valid()`
  holds between events. It says:
  - the progress value is on the 0..10000 scale;
  - the capacity bar never passes its target;
  - the button caption matches `checking`;
  - the option boxes stay coupled: less-memory and destructive are never both
    checked, and both are usable only with quick test.

Whatever the window cannot decide by itself is a parameter of the method that
needs it. This covers file-system checks, opening or mounting the device,
and the user's answers to questions. Requests to the engine or the mount
helper are appended to `commands` rather than executed.

## Model

| member | source | states |
|---|---|---|
| F3Launcher.StatusCode | f3_launcher.h:9-16 | every status has its declared code, within 0..5 |
| F3Launcher.StatusFromCode | f3_launcher.h:9-16 | a code names a status exactly when it lies in 0..5 |
| F3Launcher.StatusCodeRoundTrip | f3_launcher.h:9-16 | reading back a status's code gives the status |
| F3Launcher.StatusFromCodeRoundTrip | f3_launcher.h:9-16 | a code that names a status is that status's code |
| F3Launcher.StatusCodesDistinct | f3_launcher.h:9-16 | the six statuses have distinct codes and use every code 0..5 |
| F3Launcher.ErrorCode | f3_launcher.h:18-37 | every error code is 0, in 128..143, or 255 |
| F3Launcher.ErrorFromCode | f3_launcher.h:18-37 | a code names an error exactly when it is 0, in 128..143, or 255 |
| F3Launcher.ErrorCodeRoundTrip | f3_launcher.h:18-37 | reading back an error's code gives the error |
| F3Launcher.ErrorFromCodeRoundTrip | f3_launcher.h:18-37 | a code that names an error is that error's code |
| F3Launcher.ErrorCodesDistinct | f3_launcher.h:18-37 | no two errors share a code |
| F3Launcher.ErrorCodeLayout | f3_launcher.h:19-36 | Ok is the only code 0; every other error is at least 128; the errors other than Ok and Unknown fill 128..143 exactly; Unknown is 255 |
| WindowLogic.Normalized | mainwindow.cpp:24-37 | each of the four measurement texts becomes "(N/A)" when empty and is kept otherwise; a negative availability becomes -1 and any other is kept; success, lost space, module and block size are untouched |
| WindowLogic.FillReport | mainwindow.cpp:24-37 | filling in the report field by field gives the normalised report |
| WindowLogic.NormalizedIsComplete | mainwindow.cpp:24-37 | after normalisation no measurement text is empty; a text is "(N/A)" exactly when it was empty or already "(N/A)"; the availability is -1 or non-negative |
| WindowLogic.NormalizedIdempotent | mainwindow.cpp:24-37 | normalising twice gives the same report as normalising once |
| WindowLogic.Bound | mainwindow.cpp:214 | qBound: the result lies between the bounds and equals the value when the value does |
| WindowLogic.CapacityTarget | mainwindow.cpp:235-249 | the capacity target always lies in 0..100 |
| WindowLogic.CapacityTargetIsBound | mainwindow.cpp:235-249 | the target is the value bounded to 0..100: above 100 gives 100, negative gives 0 |
| WindowLogic.TimerInterval | mainwindow.cpp:257 | the timer interval lies in 10..1000 ms and is 1000/value for targets up to 100 |
| WindowLogic.IsActive | mainwindow.cpp:539-541 | has no contract of its own: ActiveStatusCodes states which statuses it accepts, and UpdateRunState and OnStatusChanged state what the window does with it |
| WindowLogic.ActiveStatusCodes | mainwindow.cpp:539-541 | a check is in progress exactly for the statuses with codes 1, 4 and 5 |
| WindowLogic.CheckButtonLabel | mainwindow.cpp:539-555 | the button reads "Stop" exactly while checking and "Check!" exactly while not |
| WindowLogic.TrimStart | mainwindow.cpp:770-773 | the result is a suffix of the text, everything cut off is white space, and it does not start with white space |
| WindowLogic.TrimEnd | mainwindow.cpp:770-773 | the result is a prefix of the text, everything cut off is white space, and it does not end with white space |
| WindowLogic.TrimIsTrimmed | mainwindow.cpp:770-773 | a trimmed path neither starts nor ends with white space and is empty exactly when the text was all white space |
| WindowLogic.TrimKeepsTrimmed | mainwindow.cpp:770-773 | a text without white space at either end is its own trimming |
| WindowLogic.TrimIdempotent | mainwindow.cpp:770-773 | trimming twice equals trimming once |
| WindowLogic.PathTextAcceptable | mainwindow.cpp:684-703 | a directory path passes the string checks exactly when non-empty; a device path exactly when it starts with "/dev/" |
| WindowLogic.SelectedPath | mainwindow.cpp:768-773 | the path read for a click is the device box on the device tab and the directory box on every other tab, trimmed: no longer than the text, empty exactly when the text is all white space, and without white space at either end |
| WindowLogic.SelectedPathIsTrimmedText | mainwindow.cpp:768-773 | the path is the box's text with only the white space at its two ends cut off: a slice of the text after its leading white space, with nothing but white space before and after it |
| WindowLogic.ParseOption | mainwindow.cpp:779-857 | a key and value text name an option exactly when the engine knows them |
| WindowLogic.OptionRoundTrip | mainwindow.cpp:779-857 | every option the window chooses reaches the engine as a known key and value, and reads back as the same option |
| WindowLogic.ParseOptionRoundTrip | mainwindow.cpp:779-857 | a known key and value is exactly the text of the option it names |
| WindowLogic.RunOptions | mainwindow.cpp:779-857 | a check's options never set the same key twice |
| WindowLogic.OptionValue | mainwindow.cpp:779-857 | a key has a value exactly when some option sets it |
| WindowLogic.OptionValueIsLast | mainwindow.cpp:779-857 | a key's value is the text of the last option that sets it: no later option sets the key again, so a later setting overrides an earlier one |
| WindowLogic.OptionValueOfDistinct | mainwindow.cpp:779-857 | where no key is set twice, each key's value is the text of its one setting |
| WindowLogic.RunOptionValues | mainwindow.cpp:779-857 | the directory tab sends mode legacy and cache none and leaves memory and destructive unset; any other tab sends mode, cache, memory and destructive from their boxes |
| WindowLogic.RunOptionsFollowBoxes | mainwindow.cpp:779-857 | directory tab: mode legacy, cache none, no memory or destructive; other tabs: mode quick iff quick test, cache write iff use-cache, memory minimum iff less-memory, destructive yes iff destructive (each with its opposite value otherwise) |
| WindowLogic.SetOptions | mainwindow.cpp:779-857 | one command per option, in order |
| WindowLogic.CheckClicked | mainwindow.cpp:759-862 | a click sends a stop request exactly while a check runs; otherwise it sends only option settings and check starts (ClickLaunches and ClickSetsKnownOptions state which) |
| WindowLogic.DeviceClick | mainwindow.cpp:786-857 | the device-tab part of a click starts a check exactly when the device is ready; every request before the last sets an option, and the first sets the mode from the quick-test box |
| WindowLogic.MountedAt | mainwindow.cpp:821-830 | the plain mount's point when it succeeded, otherwise the sudo retry's; none exactly when both failed |
| WindowLogic.ClickWhileCheckingStops | mainwindow.cpp:761-765 | while a check runs, a click only asks the engine to stop |
| WindowLogic.ClickRejectsBadPath | mainwindow.cpp:775-777 | an empty path, or a device path outside /dev/, sends nothing |
| WindowLogic.ClickLaunches | mainwindow.cpp:758-862 | a click starts a check exactly when nothing runs, the path passes, and on any tab but the directory tab the device opened or mounted and a destructive test was confirmed; it then sets every run option first and starts the check last, on the path or the mount point. On tabs 2 and 3 the directory path is screened as a directory but then used as a device, as the code does |
| WindowLogic.ClickSetsKnownOptions | mainwindow.cpp:779-857 | every option a click sets is one the engine understands |
| WindowLogic.NextBarValue | mainwindow.cpp:947-951 | one tick leaves the bar where it is exactly when it is at or above its target; from at or below the target it stays at or below it |
| WindowLogic.BarAfterTicks | mainwindow.cpp:945-951 | after any number of ticks the bar is between its start and the larger of start and target, and a bar at or above its target does not move |
| WindowLogic.BarClimbsToTarget | mainwindow.cpp:945-951 | from at or below its target, after n ticks the bar is at min(start + n, target) |
| WindowLogic.CapacityAnimation | mainwindow.cpp:945-951 | from 0 the bar stays within 0..target and is below the target exactly during the first target ticks |
| Window.MainWindow.constructor | mainwindow.cpp:39-173 | a fresh window: not checking, caption "Check!", status "Ready", progress bar hidden with range 0..100, value 0 and format "%p%", result labels and path texts empty, result tab hidden and the directory tab current, capacity bar at 0 with the timer stopped, quick test off with the boxes coupled, no request sent, invariant established |
| Window.MainWindow.ClearStatus | mainwindow.cpp:185-192 | status "Ready", both result labels empty, progress 0, result tab hidden; invariant kept |
| Window.MainWindow.ShowProgress | mainwindow.cpp:194-231 | bar visible; -1 makes the range 0..0 with "Processing..."; below -1 empties it (maximum and value 0); otherwise the value is bounded to 0..10000, the range reset to 0..10000 if its maximum was not positive, and the status shows the value |
| Window.MainWindow.ShowCapacity | mainwindow.cpp:233-260 | target is the value bounded to 0..100 and the bar restarts at 0; format "%p% Available", or "Capacity not available" for a negative value; only a positive value starts the timer, with interval 1000/value bounded to 10..1000; otherwise the timer and its interval are kept |
| Window.MainWindow.OnTimerTimeout | mainwindow.cpp:945-958 | called only while the timer runs; below target the bar rises by one and the timer runs on; at the target the timer stops and a fix is offered exactly when the target is below 100, the device tab is current and quick test is checked; a confirmed fix is requested |
| Window.MainWindow.ShowResultPage | mainwindow.cpp:262-274 | showing makes the result tab visible and current; hiding leaves the result tab for the directory tab |
| Window.MainWindow.ShowReport | mainwindow.cpp:507-519 | labels show the normalised free space and speeds; the capacity bar is set as ShowCapacity states for the normalised availability (format, target, restart at 0, timer started with its interval only for a positive availability and kept otherwise); the result tab is shown and current |
| Window.MainWindow.ShowFinished | mainwindow.cpp:486-521 | progress 0 and hidden, with its range and format kept; the status says whether the run was error-free; a report marked "(Fixed)" leaves labels, capacity bar, its format, timer, interval and tabs untouched; any other is shown as ShowReport states |
| Window.MainWindow.ShowStopped | mainwindow.cpp:522-526 | progress visible at 0 with format "!" and the status showing 0; the range becomes 0..10000 if its maximum was not positive and is kept otherwise |
| Window.MainWindow.ShowStaged | mainwindow.cpp:527-534 | indeterminate progress (range 0..0) with its value kept, format "?" and status "Processing..." |
| Window.MainWindow.ShowStatusChange | mainwindow.cpp:472-538 | every display field, per status: Ready sets the status line and keeps everything else; Running also shows the bar, keeping its range, value and format, and locks the path inputs; Finished is ShowFinished; Stopped and Staged are ShowStopped and ShowStaged; Progressed is ShowProgress with the format kept (including the -1 and below -1 cases); only a shown report changes labels, capacity bar, timer and tabs |
| Window.MainWindow.UpdateRunState | mainwindow.cpp:539-559 | checking and the "Stop" caption exactly for Running, Staged and Progressed; otherwise "Check!", path inputs usable again, and an unmount request when the device tab is current without quick test |
| Window.MainWindow.OnStatusChanged | mainwindow.cpp:470-560 | every display field as ShowStatusChange states, then the run state as UpdateRunState states, with the invariant kept |
| Window.MainWindow.OnButtonCheckClicked | mainwindow.cpp:758-862 | the requests sent are exactly the click plan `CheckClicked` gives for the state before the click; the status display is cleared exactly when the click starts a check; the mount point records the device mount of a legacy device test |
| Window.MainWindow.StartFromPath | mainwindow.cpp:779-861 | for a path that passed its checks: sends the tab's part of the click plan, clears the status display exactly when the check starts, records the mount point |
| Window.MainWindow.SendDeviceOptions | mainwindow.cpp:784-857 | sends the device-tab options in order and gives the launch path exactly when the device is ready; a legacy test records the mount point |
| Window.MainWindow.OnSelectPathClicked | mainwindow.cpp:932-942 | a chosen directory that passes the validation replaces the directory path text; a cancelled dialog, a failed validation or a disabled button leaves it |
| Window.MainWindow.OnSelectDevClicked | mainwindow.cpp:976-987 | a chosen path under /dev/ that passes the validation replaces the device path text; anything else leaves it, so a changed device path always lies under /dev/ |
| Window.MainWindow.OnQuickTestClicked | mainwindow.cpp:989-1005 | toggles quick test; checking it enables less-memory and destructive and disables use-cache; unchecking it clears and disables both and enables use-cache |
| Window.MainWindow.OnLessMemClicked | mainwindow.cpp:1007-1010 | an enabled less-memory box toggles and clears destructive |
| Window.MainWindow.OnDestructiveClicked | mainwindow.cpp:1012-1015 | an enabled destructive box toggles and clears less-memory |

## Left out

- The `f3_launcher` engine itself: how it runs the f3 tools, parses their output and classifies errors. Its source is not part of this model. Status changes arrive as method calls with an `EngineView` (report, stage, progress).
- Mounting, unmounting and running commands. The mount results are inputs (`Answers.mountResult`, `Answers.sudoMountResult`). An unmount is recorded as an `Unmount` request.
- The file-system and privilege parts of path validation, and the sudo chmod retry when the device cannot be opened. Each is one input: `Answers.pathChecksPass` and `Answers.deviceOpens`. Only the string checks (non-empty, "/dev/" prefix) are modelled.
- Message boxes, the password dialog, the error handler's dialogs and the fix prompt's dialogs. Only the user's answers are modelled (`Answers.destructiveConfirmed`, the `fixConfirmed` argument of `OnTimerTimeout`).
- Window geometry, settings persistence, the help and about windows.
- Floating point:
  - The availability is a whole percentage rather than a float fraction times 100.
  - The "Processing: x.yy%" text is `StatusText.Processing(progress10K)` rather than formatted text.
  - The stage text "Progress: (Stage n)" is `StatusText.StageText(n)`.
- Timer scheduling: one tick is one call of `OnTimerTimeout`.
- Window.MainWindow.ShowProgress: the model stores the value as given and does not model QProgressBar's own rules. Qt ignores a value outside the current range. Qt also resets the value when a smaller maximum excludes it, as setMaximum(0) does. Before the first Staged status the bar keeps its 0..100 range, so Qt drops a Progressed value above 100 that the model stores.
- WindowLogic.IsSpace: white space covers the six ASCII white-space characters only, not the wider Unicode set that QString::trimmed removes.
- Window.MainWindow.constructor: the initial state of the option boxes comes from the Designer form, which is not part of this model. The model starts with quick test off and the boxes coupled accordingly. `timerTarget` is left uninitialised by the original constructor; the model starts it at 0.
- Window.MainWindow.OnLessMemClicked and Window.MainWindow.OnDestructiveClicked: a click on a disabled box does nothing, because Qt sends no click signal for one. Qt's toggle of the box itself is part of the method.
- Window.MainWindow.OnStatusChanged: the unmount decision reads the tab after the display part. A finished run that shows its report has switched to the result tab, so it sends no unmount. This is what the code as written does.
- Window.MainWindow.OnTimerTimeout: the same switch to the result tab also silences the fix prompt. The prompt asks for the device tab, but a finished run that shows its report has made the result tab current. So after a shown report no fix is offered unless the user goes back to the device tab before the last tick. This is what the code as written does.
- Window.MainWindow.ClearStatus: hiding the result tab while it is current leaves it current in the model. Qt would move to a visible tab, which the window's code does not do itself. Tabs 2 and 3 lead to the same decisions for a click, an unmount and a fix offer, so no contract depends on the difference.
- Switching tabs and typing into the path boxes are Qt's own behaviour, not code of the window. `SelectTab`, `EditPathTexts` and `UseCacheToggled` stand for them (with the toggling of the use-cache box, which has no slot of its own), so that every field the window reads can change: a tab is selectable when shown, and the path boxes are read-only while a check runs.
