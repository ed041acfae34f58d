# selenium-tools: download watcher and page objects, in Dafny

This project models two parts of the `selenium-tools` Python library and proves properties about them.

**The download-completion watcher.** This is `wait_chrome_download` and its inner wrapper in
`selenium_tools/selenium_plus/plus.py`. The watcher wraps an action that makes Chrome download
a file. It runs these steps in order:

1. It works out the download folder. This is either the explicit `download_folder`, or the
   folder stored under `"options"` in the capabilities of the first argument's driver. That
   argument must be an `Element`.
2. It lists the folder.
3. It fixes one deadline, `time() + timeout`.
4. It runs the action once.
5. It polls the folder in two phases that share the deadline:
   - Phase 1 waits until a listing has strictly more entries than the first one. Otherwise it
     raises `UnintilizedFileDownload`.
   - Phase 2 re-lists the folder on every pass. Each pass pops an arbitrary name from the
     symmetric difference with the first listing. The pass returns that file when its name
     does not look like a partial Chrome download. A name looks partial when its suffix is
     `.tmp` or `.crdownload`, or when it contains `.com.google.Chrome.`. If no such pass comes
     before the deadline, the watcher raises `UnfinishedFileDownload`.

The three exception classes of `plus.py` (lines 8-24) are constructors of `DownloadWatcher.Outcome`:

| exception | constructor |
|---|---|
| `UnintilizedFileDownload` | `NotStarted` |
| `UnfinishedFileDownload` | `Unfinished` |
| `DownloadFolderException` | `FolderError` |

The errors the code raises without naming them are also constructors:

- an `AttributeError` on `None`;
- the `KeyError` of a missing `"options"` capability;
- the `TypeError` of `Path(None)`;
- the `KeyError` of `pop()` on an empty set.

**The page objects.** This part lives in `selenium_tools/page_objects/page_objects.py`:

- A `Page` stores its driver and url, then hands its driver to every attribute that is an
  `Element` (`_reflection`).
- `close` quits the browser.
- `__exit__` always closes. When the `with` block raised, it then calls that exception's class
  with the exception as its one argument and raises the result. The parameter named `type`
  shadows the builtin, so `type(value)` is a constructor call.
- The `text_changed` condition of `wait_text_change` gives the element's new text, or `False`.

The model has these modules:

- `Optional` holds the `Option` datatype. It stands for Python's `None` next to a value.
- `PathNames` holds the string operations behind the name test: `str.rfind`, `PurePath.suffix`,
  `in` on strings, and the partial-download classifier `IsPartial` / `LooksFinished`.
- `PageObjects` holds `Driver`, `Element` and `Page`. These are classes whose fields change in
  place. It also holds the pure `TextChanged`.
- `DownloadWatcher` holds the watcher as imperative methods. Each method is proved against a
  specification function or predicate: `ResolveFolder`, `Phase1`, `PollingResult`, `PollSteps`.
  It also holds lemmas about those specifications.
- `DownloadScenarios` holds fixed runs of the watcher and what its contract lets a caller
  conclude about each.

The file system and the clock are inputs:

- `initial` is the first listing of the folder.
- `start` is the clock reading that fixes the deadline.
- `polls` lists the passes of both polling loops in order. Each pass is `Poll(time, listing)`:
  the value `time()` gave at the loop test, and the listing taken when that value was within
  the deadline.
- The only demand on the environment is that the clock eventually passes the deadline: the
  last pass is late.

The action is an input, `Returned` or `Raised`. The watcher's interactions with the outside
world are reported as a trace of `ListFolder`, `ReadClock` and `RunAction` steps. The set
`pop()` is a nondeterministic choice (`:|`). No tie-break is imposed, so a contract can only
say which names may come out.

Three behaviours of the code are easy to miss:

- A missing folder has no dedicated exception. It raises `AttributeError` when there is no
  `Element` or the Element has no driver, `KeyError` when the driver's capabilities hold no
  `"options"`, and `TypeError` when `"options"` is `None`.
- `pop()` has no tie-break. When several new files look finished, any of them may be returned;
  `TwoNewFilesEitherIsReturned` shows that either of two may come out.
- The symmetric difference also holds names that were deleted after the first listing. Such a
  name can be returned when it looks finished.

## Model

| member | source | states |
|---|---|---|
| PathNames.IsPartial | selenium_tools/selenium_plus/plus.py:67 | the name test's negation: a suffix of `.tmp` or `.crdownload`, or the Chrome marker in the name; its lemmas below state which names it takes for partial |
| PathNames.LooksFinished | selenium_tools/selenium_plus/plus.py:67 | the condition under which phase 2 returns a name: not partial |
| PathNames.RFind | selenium_tools/selenium_plus/plus.py:67 | the result is -1 or an index of `c`, and no `c` occurs after it (the last-dot search behind `Path.suffix`) |
| PathNames.Suffix | selenium_tools/selenium_plus/plus.py:67 | the suffix is empty, or it is a tail of the name that starts with its only dot and has at least one character after it |
| PathNames.Contains | selenium_tools/selenium_plus/plus.py:67 | `sub in t` holds exactly when `sub` occurs in `t` at some position |
| PathNames.SuffixEmptyIff | selenium_tools/selenium_plus/plus.py:67 | the suffix is empty exactly when no dot follows the first character or the name ends with a dot |
| PathNames.SuffixOfExtension | selenium_tools/selenium_plus/plus.py:67 | for a non-empty stem and a non-empty dotless extension, `stem.ext` has suffix `.ext` |
| PathNames.ChromeMarkerIsPartial | selenium_tools/selenium_plus/plus.py:67 | any name that contains `.com.google.Chrome.` looks partial, whatever surrounds it |
| PathNames.PartialSuffixes | selenium_tools/selenium_plus/plus.py:67 | `stem.crdownload` and `stem.tmp` look partial for every non-empty stem |
| PathNames.BareCrdownloadLooksFinished | selenium_tools/selenium_plus/plus.py:67 | a file named exactly `.crdownload` passes the test, because a leading dot gives no suffix |
| PathNames.ShortNameHasNoMarker | selenium_tools/selenium_plus/plus.py:67 | a name shorter than the Chrome marker does not contain it |
| PathNames.PlainExtensionLooksFinished | selenium_tools/selenium_plus/plus.py:67 | a stem with a dotless extension other than `tmp`/`crdownload`, and no Chrome marker, looks finished |
| PageObjects.Driver.Quit | selenium_tools/page_objects/page_objects.py:276 | after quitting, the driver is marked as quit |
| PageObjects.Element.constructor | selenium_tools/page_objects/page_objects.py:297-298 | a new Element holds exactly the driver it was given, so one built without a driver holds None |
| PageObjects.Page.constructor | selenium_tools/page_objects/page_objects.py:255-258 | the page holds the given driver, url and attributes, and every Element attribute holds the page's driver |
| PageObjects.Page.Reflection | selenium_tools/page_objects/page_objects.py:260-266 | afterwards every Element attribute holds the page's driver; only Element attributes may change; a second run on a propagated page changes nothing |
| PageObjects.SharedElementFollowsLatestPage | selenium_tools/page_objects/page_objects.py:255-266 | an Element shared by two pages ends with the later page's driver, so the earlier page's guarantee no longer holds |
| PageObjects.Page.Close | selenium_tools/page_objects/page_objects.py:274-276 | with a driver, the browser is quit and nothing is raised; without one, an AttributeError is raised |
| PageObjects.Page.Exit | selenium_tools/page_objects/page_objects.py:287-291 | the browser is always quit first; with no pending exception nothing is raised; otherwise the pending exception's class is called with the pending exception as its one argument, giving a new exception of that class, or a TypeError when the class does not take one argument; whatever escapes has the pending exception as its context |
| PageObjects.FailingWithBlockReRaises | selenium_tools/page_objects/page_objects.py:287-291 | a `with` block over a page that raises quits the browser and lets out a new exception of the same class whose one argument is the original |
| PageObjects.TextChanged | selenium_tools/page_objects/page_objects.py:241-246 | the condition is truthy exactly when the lookup succeeded and the text differs from `old_text` and is non-empty; a string result is the element's text; a failed lookup gives `False` |
| DownloadWatcher.Falsy | selenium_tools/selenium_plus/plus.py:48 | Python's `not download_folder` for a string or None: None or the empty string |
| DownloadWatcher.ResolveFolder | selenium_tools/selenium_plus/plus.py:41-49 | the folder the call watches, or the error raised first: a non-Element first argument, then an explicit folder, then the driver's `"options"` with its three failure cases; the lemmas below state its rules |
| DownloadWatcher.ResolveDownloadFolder | selenium_tools/selenium_plus/plus.py:41-49 | the argument scan and folder lookup give exactly `ResolveFolder`: a non-Element first argument fails, an explicit folder wins, otherwise the driver's `"options"` or one of the three Python errors |
| DownloadWatcher.ExplicitFolderWins | selenium_tools/selenium_plus/plus.py:47-48 | when the scan lets the call through, a truthy `download_folder` is the watched folder, whatever the driver holds |
| DownloadWatcher.NonElementFirstArgFails | selenium_tools/selenium_plus/plus.py:41-46 | a first positional argument that is not an Element gives `DownloadFolderException`, even with an explicit folder |
| DownloadWatcher.DriverFolderUsed | selenium_tools/selenium_plus/plus.py:47-49 | with a falsy `download_folder`, a folder is found exactly when the first argument is an Element whose driver has a non-None `"options"`, and it is that value |
| DownloadWatcher.SymDiff | selenium_tools/selenium_plus/plus.py:66 | the `^` of the first and the current listing |
| DownloadWatcher.SymDiffIff | selenium_tools/selenium_plus/plus.py:66 | a name is in the difference exactly when it is in one listing and not the other, and the difference is empty, so that `pop()` raises KeyError, exactly when the listings are equal |
| DownloadWatcher.Phase1 | selenium_tools/selenium_plus/plus.py:55-61 | phase 1 stops at the first pass that is not waiting; every earlier pass was in time, listed and not larger; it times out, fails to list or sees strictly more entries exactly at that pass |
| DownloadWatcher.Phase1StopsAtFirst | selenium_tools/selenium_plus/plus.py:55-59 | if the first k passes wait and pass k does not, phase 1 stops at pass k |
| DownloadWatcher.NotStartedIff | selenium_tools/selenium_plus/plus.py:55-61 | `UnintilizedFileDownload` is raised exactly when a late pass comes before any pass that is larger or fails to list |
| DownloadWatcher.StartedIff | selenium_tools/selenium_plus/plus.py:55-59 | phase 1 succeeds exactly when some in-time pass shows strictly more entries than the first listing, after passes that all listed no more |
| DownloadWatcher.AwaitStart | selenium_tools/selenium_plus/plus.py:55-61 | the phase-1 loop ends as `Phase1` says, after one clock reading per pass and one listing per in-time pass |
| DownloadWatcher.InspectFolder | selenium_tools/selenium_plus/plus.py:64-68 | an in-time phase-2 pass either ends the wait (a listing error, `KeyError` on an empty difference, or a finished name from the difference) or goes on because the popped name failed the test |
| DownloadWatcher.AwaitFinish | selenium_tools/selenium_plus/plus.py:63-70 | every pass of phase 2 but the last went on, and the last ended the wait; the steps are one clock reading per pass and one listing per in-time pass |
| DownloadWatcher.PollFolder | selenium_tools/selenium_plus/plus.py:55-70 | both phases together satisfy `PollingResult` under one deadline, with the matching step trace |
| DownloadWatcher.WaitChromeDownload | selenium_tools/selenium_plus/plus.py:41-70 | folder errors come before any listing or action; otherwise the trace is list, read clock, run action, then the polling passes; an action that raises ends the call; an action that returns leads to a `PollingResult` under the deadline `start + timeout` |
| DownloadWatcher.PollStepsCounts | selenium_tools/selenium_plus/plus.py:55-65 | the polling passes read the clock once each and never run the action |
| DownloadWatcher.ActionRunsOnce | selenium_tools/selenium_plus/plus.py:50-53 | the first listing, then the deadline, then the action come first; the action runs exactly once, and the clock is read once more than there are passes |
| DownloadWatcher.FinishedNamesEndTheWait | selenium_tools/selenium_plus/plus.py:63-68 | when the first phase-2 pass is in time and its difference is non-empty with only finished names, the watcher returns a name from that difference, in the watched folder |
| DownloadWatcher.OnlyPartialNamesNeverFinish | selenium_tools/selenium_plus/plus.py:63-70 | when every in-time phase-2 pass finds a non-empty difference of partial names only, the result is `UnfinishedFileDownload` |
| DownloadScenarios.RenamedOutcome | selenium_tools/selenium_plus/plus.py:55-68 | a download that starts under a partial name and is renamed to a finished, new name is returned under that name, whatever the folder held before |
| DownloadScenarios.RenamedDownloadIsReturned | selenium_tools/selenium_plus/plus.py:41-68 | with a.txt and b.txt present, b.txt.crdownload renamed to c.pdf gives `downloads/c.pdf` |
| DownloadScenarios.NothingDownloadedNeverStarts | selenium_tools/selenium_plus/plus.py:55-61 | an empty folder that stays empty gives `UnintilizedFileDownload` |
| DownloadScenarios.PartialOutcome | selenium_tools/selenium_plus/plus.py:63-70 | a new file whose name keeps failing the test gives `UnfinishedFileDownload` |
| DownloadScenarios.PartialDownloadNeverFinishes | selenium_tools/selenium_plus/plus.py:63-70 | a `d.crdownload` that is never renamed gives `UnfinishedFileDownload` |
| DownloadScenarios.NoConfiguredFolderFailsAtOnce | selenium_tools/selenium_plus/plus.py:47-50 | with no explicit folder and a None `"options"` capability, the call raises `TypeError` before any listing or action |
| DownloadScenarios.TwoFileOutcome | selenium_tools/selenium_plus/plus.py:63-68 | when two new finished files appear together, the result is one of the two |
| DownloadScenarios.TwoNewFilesEitherIsReturned | selenium_tools/selenium_plus/plus.py:41-68 | x.pdf and y.pdf appearing together give one of them; the contract cannot say which |
| DownloadScenarios.TwoFinishedNames | selenium_tools/selenium_plus/plus.py:67 | `x.pdf` and `y.pdf` pass the name test |
| DownloadScenarios.FinishedScenarioName | selenium_tools/selenium_plus/plus.py:67 | `c.pdf` passes the name test |
| DownloadScenarios.PartialDownloadName | selenium_tools/selenium_plus/plus.py:67 | `d.crdownload` fails the name test |

## Left out

- The real clock, `Path.resolve()`, `iterdir()` and symlinks are not modelled. Listings are sets of names in the given folder, and a returned path is the pair (folder, name). The clock readings and listings are inputs.
- Every OS error that `iterdir()` may raise becomes one `ListingError`. This includes a missing folder, a file in place of a folder, and a permission error.
- The `print(args, kwargs)` at `plus.py:52` is not modelled. Keyword arguments are not modelled either, because they only reach the action.
- The action's return value is not modelled, because the wrapper discards it. The exception an action raises is reduced to `ActionError`.
- `download_folder` is a string or None. A `Path` object is always truthy in Python, so only a `str` `""` or `None` sends the watcher to the driver.
- Python's `dir()`/`getattr` reflection is not modelled. A page's attributes are an explicit sequence in the order `dir()` would list them. Class attributes shared between instances appear as the same `Element` object in several pages.
- PageObjects.TextChanged reads the element's text once. The source reads `el.text` twice and assumes both reads agree.
- PageObjects.Page.Exit reduces an exception class to whether its constructor takes one positional argument. The text of the TypeError raised for a class that does not is not modelled, nor are constructors that raise for other reasons.
- `Page.open`, `Page.__enter__`, and the Selenium wrappers in `page_objects.py` are not part of this model. The wrappers are `find_element`, `find_elements`, `find_element_and_clear`, `find_and_scroll`, `execute_script`, `change_frame_context`, `change_frame`, `change_window`, and the `WebDriverWait` loop around `text_changed`. They delegate to browser code that is not visible here.
- `captcha_breaker`, `recaptcha_breaker` and `recaptcha_breaker_v2` are not modelled. They do temporary-file I/O, take screenshots and call external solvers.
- `SeleniumDriver` (`selenium_driver/webdriver.py`) is not part of this model. It starts the browser and downloads its driver over the network. The driver is reduced to its capability map and a `quit` flag.
- Concurrency with the browser is not modelled. Files that Chrome writes while a listing is taken appear in the model only through the listings given as input.
- DownloadWatcher.WaitChromeDownload works on exact real numbers, while `timeout` and `time()` are Python floats. Three behaviours are lost. The rounding of `time() + timeout` (`plus.py:51`) is not modelled. With `timeout = nan`, `time() <= end_time` is always False, so the source raises `UnintilizedFileDownload` right after the action without listing again. With `timeout = inf` the deadline never passes. The source then never raises `UnintilizedFileDownload` or `UnfinishedFileDownload`. It polls until a listing grows and a finished name comes out, or until a listing or `pop()` fails, and forever if none of these happens. A real-valued timeout cannot express this, and the requirement that the last pass comes after the deadline excludes it, so all such runs are outside the model. The default `timeout = 10` (`plus.py:27`) is not modelled: `timeout` is always passed explicitly, and no behaviour depends on the default.
