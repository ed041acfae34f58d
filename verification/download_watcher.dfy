/**
 * The download-completion watcher: it wraps an action that makes the browser
 * download a file, lists the download folder before the action, fixes one
 * deadline, runs the action once, and then polls the folder until a new,
 * finished-looking file shows up or the deadline passes.
 *
 * The file system and the clock are inputs. `initial` is the first listing
 * of the folder, `start` the clock reading taken right after it, and `polls`
 * the passes of the two polling loops in order: each pass reads the clock
 * and, when the deadline has not passed, lists the folder once more.
 */
module DownloadWatcher {
  import opened Optional
  import opened PathNames
  import opened PageObjects

  /** A positional argument of the wrapped call. */
  datatype Arg = ElementArg(element: Element) | OtherArg

  /** One listing of the folder: the names in it, or the OS error listing raised. */
  datatype Listing = Entries(names: set<string>) | Unreadable

  /** One pass of a polling loop: the clock reading, and the listing taken if the deadline has not passed. */
  datatype Poll = Poll(time: real, listing: Listing)

  /** A file inside the download folder. */
  datatype FilePath = FilePath(folder: string, name: string)

  /** How the wrapped action ended. */
  datatype ActionResult = Returned | Raised

  /** What a call of the wrapped function gives back or raises. */
  datatype Outcome =
    | Finished(path: FilePath)      // the path is returned
    | NotStarted                    // UnintilizedFileDownload
    | Unfinished                    // UnfinishedFileDownload
    | FolderError                   // DownloadFolderException
    | NoneAttributeError            // AttributeError: no Element, or an Element without a driver
    | CapsKeyError                  // KeyError: the driver's caps hold no "options"
    | NoneFolderTypeError           // TypeError: caps["options"] is None
    | EmptyDifferenceKeyError       // KeyError: pop from an empty symmetric difference
    | ListingError                  // the folder could not be listed
    | ActionError                   // the wrapped action raised

  /** The watcher's interactions with the outside world, in the order they happen. */
  datatype Step = ListFolder | ReadClock | RunAction

  /** The folder the watcher observes, or the error that stops it before any listing. */
  datatype Resolution = Folder(path: string) | Unresolved(error: Outcome)

  const Prologue: seq<Step> := [ListFolder, ReadClock, RunAction]

  function ArgElements(args: seq<Arg>): set<Element>
  {
    set a | a in args && a.ElementArg? :: a.element
  }

  /** Python's falsiness of an optional folder string. */
  predicate Falsy(folder: Option<string>)
  {
    folder == None || folder == Some("")
  }

  /**
   * Which folder is watched. The argument scan accepts only an Element as
   * the first positional argument (with no positional argument it is
   * skipped); an explicit folder is then used as it is, and only a falsy one
   * sends the watcher to the Element's driver.
   */
  function ResolveFolder(args: seq<Arg>, downloadFolder: Option<string>): Resolution
    reads ArgElements(args)
  {
    if |args| > 0 && args[0].OtherArg? then Unresolved(FolderError)
    else if !Falsy(downloadFolder) then Folder(downloadFolder.value)
    else if |args| == 0 || args[0].element.driver == null then Unresolved(NoneAttributeError)
    else if "options" !in args[0].element.driver.caps then Unresolved(CapsKeyError)
    else match args[0].element.driver.caps["options"]
      case None => Unresolved(NoneFolderTypeError)
      case Some(path) => Folder(path)
  }

  /** The names in exactly one of two listings. */
  function SymDiff(a: set<string>, b: set<string>): set<string>
  {
    (a - b) + (b - a)
  }

  /** The listing has more entries than the first one. */
  predicate Grew(listing: Listing, before: set<string>)
  {
    listing.Entries? && |listing.names| > |before|
  }

  /** A phase-1 pass that lets phase 1 go on: in time, listed, no more entries than before. */
  predicate Waiting(p: Poll, before: set<string>, deadline: real)
  {
    p.time <= deadline && p.listing.Entries? && |p.listing.names| <= |before|
  }

  /** Some name in `diff` fails the name test `finished`: it looks like a download in progress. */
  predicate HasPartial(diff: set<string>, finished: string -> bool)
  {
    exists x :: x in diff && !finished(x)
  }

  /**
   * A phase-2 pass that lets phase 2 go on: in time, listed, and the name
   * popped from the difference failed the name test, so the difference holds
   * such a name.
   */
  predicate Continues(p: Poll, before: set<string>, deadline: real, finished: string -> bool)
  {
    p.time <= deadline && p.listing.Entries? && HasPartial(SymDiff(before, p.listing.names), finished)
  }

  /** The last pass comes after the deadline: the clock does not stop. */
  predicate EndsPastDeadline(polls: seq<Poll>, deadline: real)
  {
    |polls| > 0 && polls[|polls| - 1].time > deadline
  }

  /** How phase 1 ends, and at which pass. */
  datatype StartResult = Started(at: nat) | TimedOut(at: nat) | ListFailed(at: nat)

  /** Phase 1 from pass `i` on: the first pass that is not Waiting ends it. */
  function Phase1(polls: seq<Poll>, before: set<string>, deadline: real, i: nat): (r: StartResult)
    requires i < |polls| && EndsPastDeadline(polls, deadline)
    ensures i <= r.at < |polls|
    ensures forall j :: i <= j < r.at ==> Waiting(polls[j], before, deadline)
    ensures !Waiting(polls[r.at], before, deadline)
    ensures r.TimedOut? <==> polls[r.at].time > deadline
    ensures r.ListFailed? <==> polls[r.at].time <= deadline && polls[r.at].listing.Unreadable?
    ensures r.Started? <==> polls[r.at].time <= deadline && Grew(polls[r.at].listing, before)
    decreases |polls| - i
  {
    var p := polls[i];
    if p.time > deadline then TimedOut(i)
    else if p.listing.Unreadable? then ListFailed(i)
    else if |p.listing.names| > |before| then Started(i)
    else Phase1(polls, before, deadline, i + 1)
  }

  /**
   * How the pass that ends phase 2 decides the outcome: past the deadline,
   * Unfinished; a failed listing, an error; an empty difference, the KeyError
   * of `pop`; otherwise a name of the difference that passes the name test.
   */
  predicate FinishesWith(last: Poll, before: set<string>, deadline: real, folder: string,
                         finished: string -> bool, outcome: Outcome)
  {
    && (outcome == Unfinished <==> last.time > deadline)
    && (outcome == ListingError <==> last.time <= deadline && last.listing.Unreadable?)
    && (outcome == EmptyDifferenceKeyError <==>
          last.time <= deadline && last.listing.Entries? && last.listing.names == before)
    && (outcome.Finished? ==>
          && last.time <= deadline && last.listing.Entries?
          && outcome.path.folder == folder
          && outcome.path.name in SymDiff(before, last.listing.names)
          && finished(outcome.path.name))
    && (outcome.Finished? || outcome in {Unfinished, ListingError, EmptyDifferenceKeyError})
  }

  /**
   * What the two polling phases promise after the action: phase 1 ends at the
   * first pass that is not Waiting; if the folder grew there, phase 2 runs on
   * the following passes under the same deadline, and the pass that ends it
   * decides the outcome.
   */
  predicate PollingResult(polls: seq<Poll>, before: set<string>, deadline: real, folder: string,
                          finished: string -> bool, outcome: Outcome, polled: nat)
    requires EndsPastDeadline(polls, deadline)
  {
    var first := Phase1(polls, before, deadline, 0);
    && first.at < polled <= |polls|
    && (first.TimedOut? ==> outcome == NotStarted && polled == first.at + 1)
    && (first.ListFailed? ==> outcome == ListingError && polled == first.at + 1)
    && (first.Started? ==>
          && first.at + 1 < polled
          && (forall j :: first.at < j < polled - 1 ==> Continues(polls[j], before, deadline, finished))
          && FinishesWith(polls[polled - 1], before, deadline, folder, finished, outcome))
  }

  /** The steps of the first `n` passes: a clock reading each, and a listing for each one in time. */
  function PollSteps(polls: seq<Poll>, deadline: real, n: nat): seq<Step>
    requires n <= |polls|
  {
    if n == 0 then []
    else PollSteps(polls, deadline, n - 1) + [ReadClock] + (if polls[n - 1].time <= deadline then [ListFolder] else [])
  }

  /** The argument scan and the folder lookup. */
  method ResolveDownloadFolder(args: seq<Arg>, downloadFolder: Option<string>) returns (r: Resolution)
    ensures r == ResolveFolder(args, downloadFolder)
  {
    var element: Element? := null;
    for k := 0 to |args|
      invariant k == 0 && element == null
    {
      if args[k].ElementArg? {
        element := args[k].element;
        break;
      }
      return Unresolved(FolderError);
    }
    if !Falsy(downloadFolder) {
      return Folder(downloadFolder.value);
    }
    if element == null || element.driver == null {
      return Unresolved(NoneAttributeError);
    }
    if "options" !in element.driver.caps {
      return Unresolved(CapsKeyError);
    }
    match element.driver.caps["options"]
    case None => r := Unresolved(NoneFolderTypeError);
    case Some(path) => r := Folder(path);
  }

  /** Phase 1: poll until the folder holds more entries than `before`, or the deadline passes. */
  method AwaitStart(polls: seq<Poll>, before: set<string>, deadline: real) returns (ended: StartResult, steps: seq<Step>)
    requires EndsPastDeadline(polls, deadline)
    ensures ended == Phase1(polls, before, deadline, 0)
    ensures steps == PollSteps(polls, deadline, ended.at + 1)
  {
    var i := 0;
    steps := [];
    while true
      invariant i < |polls|
      invariant Phase1(polls, before, deadline, i) == Phase1(polls, before, deadline, 0)
      invariant steps == PollSteps(polls, deadline, i)
      decreases |polls| - i
    {
      var p := polls[i];
      steps := steps + [ReadClock];
      if p.time > deadline {
        return TimedOut(i), steps;
      }
      steps := steps + [ListFolder];
      if p.listing.Unreadable? {
        return ListFailed(i), steps;
      }
      if |p.listing.names| > |before| {
        break;
      }
      i := i + 1;
    }
    ended := Started(i);
  }

  /**
   * One pass of phase 2 once the deadline test has passed: list the folder,
   * pop a name from the difference with `before`, and stop when it passes
   * the name test (or when listing or `pop` raises).
   */
  method InspectFolder(p: Poll, before: set<string>, deadline: real, folder: string, finished: string -> bool)
    returns (done: bool, outcome: Outcome)
    requires p.time <= deadline
    ensures done ==> FinishesWith(p, before, deadline, folder, finished, outcome)
    ensures !done ==> Continues(p, before, deadline, finished)
  {
    if p.listing.Unreadable? {
      return true, ListingError;
    }
    var diff := SymDiff(before, p.listing.names);
    if diff == {} {
      assert p.listing.names == before;
      return true, EmptyDifferenceKeyError;
    }
    var name :| name in diff;
    if finished(name) {
      return true, Finished(FilePath(folder, name));
    }
    done, outcome := false, Unfinished;
  }

  /**
   * Phase 2, from pass `from` on: until the deadline passes, inspect the
   * folder and return the first popped name that passes the name test. The
   * test is a parameter here; the watcher passes LooksFinished.
   */
  method AwaitFinish(polls: seq<Poll>, before: set<string>, deadline: real, folder: string,
                     finished: string -> bool, from: nat, stepsBefore: seq<Step>)
    returns (outcome: Outcome, steps: seq<Step>, polled: nat)
    requires from < |polls| && EndsPastDeadline(polls, deadline)
    requires stepsBefore == PollSteps(polls, deadline, from)
    ensures from < polled <= |polls|
    ensures steps == PollSteps(polls, deadline, polled)
    ensures forall j :: from <= j < polled - 1 ==> Continues(polls[j], before, deadline, finished)
    ensures FinishesWith(polls[polled - 1], before, deadline, folder, finished, outcome)
  {
    var i := from;
    steps := stepsBefore;
    while true
      invariant from <= i < |polls|
      invariant forall j :: from <= j < i ==> Continues(polls[j], before, deadline, finished)
      invariant steps == PollSteps(polls, deadline, i)
      decreases |polls| - i
    {
      var p := polls[i];
      steps := steps + [ReadClock];
      if p.time > deadline {
        return Unfinished, steps, i + 1;
      }
      steps := steps + [ListFolder];
      var done;
      done, outcome := InspectFolder(p, before, deadline, folder, finished);
      if done {
        return outcome, steps, i + 1;
      }
      i := i + 1;
    }
  }

  /** Both polling phases after the action, sharing one deadline. */
  method PollFolder(polls: seq<Poll>, before: set<string>, deadline: real, folder: string)
    returns (outcome: Outcome, steps: seq<Step>, polled: nat)
    requires EndsPastDeadline(polls, deadline)
    ensures PollingResult(polls, before, deadline, folder, LooksFinished, outcome, polled)
    ensures steps == PollSteps(polls, deadline, polled)
  {
    var ended;
    ended, steps := AwaitStart(polls, before, deadline);
    polled := ended.at + 1;
    if ended.TimedOut? {
      return NotStarted, steps, polled;
    }
    if ended.ListFailed? {
      return ListingError, steps, polled;
    }
    outcome, steps, polled := AwaitFinish(polls, before, deadline, folder, LooksFinished, polled, steps);
  }

  /**
   * One call of the wrapped function. Returns what the call returns or
   * raises, the steps it took, and how many polling passes it made.
   */
  method WaitChromeDownload(timeout: real, downloadFolder: Option<string>, args: seq<Arg>,
                            action: ActionResult, initial: Listing, start: real, polls: seq<Poll>)
    returns (outcome: Outcome, trace: seq<Step>, polled: nat)
    requires EndsPastDeadline(polls, start + timeout)
    // the folder cannot be resolved: nothing is listed, the action does not run
    ensures ResolveFolder(args, downloadFolder).Unresolved? ==>
      outcome == ResolveFolder(args, downloadFolder).error && trace == [] && polled == 0
    // the first listing fails: the action does not run
    ensures ResolveFolder(args, downloadFolder).Folder? && initial.Unreadable? ==>
      outcome == ListingError && trace == [ListFolder] && polled == 0
    // otherwise: list, fix the deadline, run the action once, then poll
    ensures ResolveFolder(args, downloadFolder).Folder? && initial.Entries? ==>
      polled <= |polls| && trace == Prologue + PollSteps(polls, start + timeout, polled)
    ensures ResolveFolder(args, downloadFolder).Folder? && initial.Entries? && action.Raised? ==>
      outcome == ActionError && polled == 0
    ensures ResolveFolder(args, downloadFolder).Folder? && initial.Entries? && action.Returned? ==>
      PollingResult(polls, initial.names, start + timeout, ResolveFolder(args, downloadFolder).path, LooksFinished,
                    outcome, polled)
  {
    trace, polled := [], 0;
    var resolution := ResolveDownloadFolder(args, downloadFolder);
    if resolution.Unresolved? {
      return resolution.error, trace, polled;
    }
    trace := trace + [ListFolder];
    if initial.Unreadable? {
      return ListingError, trace, polled;
    }
    var before := initial.names;
    trace := trace + [ReadClock];
    var deadline := start + timeout;
    trace := trace + [RunAction];
    if action.Raised? {
      return ActionError, trace, polled;
    }
    var steps;
    outcome, steps, polled := PollFolder(polls, before, deadline, resolution.path);
    trace := trace + steps;
    assert before == initial.names && deadline == start + timeout && resolution.path == ResolveFolder(args, downloadFolder).path;
  }

  /** How many times `x` occurs in a trace. */
  function Count(trace: seq<Step>, x: Step): nat
  {
    if trace == [] then 0
    else Count(trace[..|trace| - 1], x) + (if trace[|trace| - 1] == x then 1 else 0)
  }

  lemma {:induction false} CountConcat(a: seq<Step>, b: seq<Step>, x: Step)
    ensures Count(a + b, x) == Count(a, x) + Count(b, x)
    decreases |b|
  {
    if b == [] {
      assert a + b == a;
    } else {
      var c := b[..|b| - 1];
      assert (a + b)[..|a + b| - 1] == a + c;
      CountConcat(a, c, x);
    }
  }

  /** The polling passes read the clock once each and never run the action. */
  lemma {:induction false} PollStepsCounts(polls: seq<Poll>, deadline: real, n: nat)
    requires n <= |polls|
    ensures Count(PollSteps(polls, deadline, n), ReadClock) == n
    ensures Count(PollSteps(polls, deadline, n), RunAction) == 0
  {
    if n > 0 {
      PollStepsCounts(polls, deadline, n - 1);
      var clocked := PollSteps(polls, deadline, n - 1) + [ReadClock];
      assert clocked[..|clocked| - 1] == PollSteps(polls, deadline, n - 1);
      if polls[n - 1].time <= deadline {
        assert (clocked + [ListFolder])[..|clocked|] == clocked;
      } else {
        assert clocked + [] == clocked;
      }
    }
  }

  /**
   * In a watcher trace that reaches the action, the folder is listed and the
   * deadline fixed first, the action runs exactly once, and every later pass
   * reads the clock once: the clock is read once more than there are passes.
   */
  lemma ActionRunsOnce(polls: seq<Poll>, deadline: real, n: nat)
    requires n <= |polls|
    ensures var trace := Prologue + PollSteps(polls, deadline, n);
      && trace[0] == ListFolder && trace[1] == ReadClock && trace[2] == RunAction
      && Count(trace, RunAction) == 1
      && Count(trace, ReadClock) == n + 1
  {
    PollStepsCounts(polls, deadline, n);
    CountConcat(Prologue, PollSteps(polls, deadline, n), RunAction);
    CountConcat(Prologue, PollSteps(polls, deadline, n), ReadClock);
    var firstTwo := [ListFolder, ReadClock];
    assert Prologue[..2] == firstTwo && firstTwo[..1] == [ListFolder] && [ListFolder][..0] == [];
  }

  /** Phase 1 ends at the first pass that is not Waiting, whatever comes after it. */
  lemma Phase1StopsAtFirst(polls: seq<Poll>, before: set<string>, deadline: real, k: nat)
    requires k < |polls| && EndsPastDeadline(polls, deadline)
    requires forall j :: 0 <= j < k ==> Waiting(polls[j], before, deadline)
    requires !Waiting(polls[k], before, deadline)
    ensures Phase1(polls, before, deadline, 0).at == k
  {
  }

  /**
   * The download counts as never started exactly when some pass past the
   * deadline comes before any pass that shows more entries or fails to list.
   */
  lemma NotStartedIff(polls: seq<Poll>, before: set<string>, deadline: real)
    requires EndsPastDeadline(polls, deadline)
    ensures Phase1(polls, before, deadline, 0).TimedOut? <==>
      exists k :: 0 <= k < |polls| && polls[k].time > deadline &&
        forall j :: 0 <= j < k ==> Waiting(polls[j], before, deadline)
  {
    if k :| 0 <= k < |polls| && polls[k].time > deadline &&
           forall j :: 0 <= j < k ==> Waiting(polls[j], before, deadline) {
      Phase1StopsAtFirst(polls, before, deadline, k);
    }
  }

  /**
   * Phase 1 succeeds exactly when, before the deadline, some listing shows
   * more entries than the first one, after listings that all succeeded and
   * showed no more.
   */
  lemma StartedIff(polls: seq<Poll>, before: set<string>, deadline: real)
    requires EndsPastDeadline(polls, deadline)
    ensures Phase1(polls, before, deadline, 0).Started? <==>
      exists k :: 0 <= k < |polls| && polls[k].time <= deadline && Grew(polls[k].listing, before) &&
        forall j :: 0 <= j < k ==> Waiting(polls[j], before, deadline)
  {
    if k :| 0 <= k < |polls| && polls[k].time <= deadline && Grew(polls[k].listing, before) &&
           forall j :: 0 <= j < k ==> Waiting(polls[j], before, deadline) {
      Phase1StopsAtFirst(polls, before, deadline, k);
    }
  }

  /**
   * The pass right after the start, when it is in time and the new and
   * removed entries it finds are non-empty and all look finished, ends the
   * wait with one of them.
   */
  lemma FinishedNamesEndTheWait(polls: seq<Poll>, before: set<string>, deadline: real, folder: string,
                                finished: string -> bool, outcome: Outcome, polled: nat)
    requires EndsPastDeadline(polls, deadline)
    requires PollingResult(polls, before, deadline, folder, finished, outcome, polled)
    requires Phase1(polls, before, deadline, 0).Started?
    requires var next := Phase1(polls, before, deadline, 0).at + 1;
      && next < |polls| && polls[next].time <= deadline && polls[next].listing.Entries?
      && SymDiff(before, polls[next].listing.names) != {}
      && forall x :: x in SymDiff(before, polls[next].listing.names) ==> finished(x)
    ensures polled == Phase1(polls, before, deadline, 0).at + 2
    ensures outcome.Finished? && outcome.path.folder == folder
    ensures outcome.path.name in SymDiff(before, polls[polled - 1].listing.names)
  {
  }

  /**
   * Once the download has started, if every later pass before the deadline
   * lists the folder and finds only partial names among the new and removed
   * entries, the watcher gives up when the deadline passes.
   */
  lemma OnlyPartialNamesNeverFinish(polls: seq<Poll>, before: set<string>, deadline: real, folder: string,
                                    finished: string -> bool, outcome: Outcome, polled: nat)
    requires EndsPastDeadline(polls, deadline)
    requires PollingResult(polls, before, deadline, folder, finished, outcome, polled)
    requires Phase1(polls, before, deadline, 0).Started?
    requires forall j :: Phase1(polls, before, deadline, 0).at < j < |polls| && polls[j].time <= deadline ==>
      && polls[j].listing.Entries?
      && SymDiff(before, polls[j].listing.names) != {}
      && forall x :: x in SymDiff(before, polls[j].listing.names) ==> !finished(x)
    ensures outcome == Unfinished
  {
  }

  /**
   * A name is in the symmetric difference exactly when it is in one listing
   * and not the other, so the difference is empty exactly when the listings
   * are equal: the case where `pop()` raises KeyError.
   */
  lemma SymDiffIff(a: set<string>, b: set<string>)
    ensures forall x :: x in SymDiff(a, b) <==> (x in a) != (x in b)
    ensures SymDiff(a, b) == {} <==> a == b
  {
  }

  /**
   * An explicit, non-empty folder is used as it is, whatever the Element's
   * driver says, as long as the argument scan lets the call through.
   */
  lemma ExplicitFolderWins(args: seq<Arg>, downloadFolder: Option<string>)
    requires |args| == 0 || args[0].ElementArg?
    requires !Falsy(downloadFolder)
    ensures ResolveFolder(args, downloadFolder) == Folder(downloadFolder.value)
  {
  }

  /** A first positional argument that is not an Element stops the call, even with an explicit folder. */
  lemma NonElementFirstArgFails(args: seq<Arg>, downloadFolder: Option<string>)
    requires |args| > 0 && args[0].OtherArg?
    ensures ResolveFolder(args, downloadFolder) == Unresolved(FolderError)
  {
  }

  /**
   * With no explicit folder the driver's "options" entry is the folder; no
   * Element, no driver, no entry or a None entry are each an error.
   */
  lemma DriverFolderUsed(args: seq<Arg>, downloadFolder: Option<string>)
    requires Falsy(downloadFolder)
    ensures ResolveFolder(args, downloadFolder).Folder? <==>
      && |args| > 0 && args[0].ElementArg? && args[0].element.driver != null
      && "options" in args[0].element.driver.caps
      && args[0].element.driver.caps["options"].Some?
    ensures ResolveFolder(args, downloadFolder).Folder? ==>
      ResolveFolder(args, downloadFolder).path == args[0].element.driver.caps["options"].value
  {
  }
}
