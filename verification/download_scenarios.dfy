/**
 * Single runs of the watcher on fixed folder contents and clock readings,
 * with what their contracts let a caller conclude about the result.
 */
module DownloadScenarios {
  import opened Optional
  import opened PathNames
  import opened PageObjects
  import opened DownloadWatcher

  /** The folder every scenario watches. */
  const Downloads: string := "downloads"

  /**
   * A download that starts under a partial name and is renamed a second
   * later; the timeout is ten seconds.
   */
  function RenamePolls(before: set<string>, partial: string, name: string): seq<Poll>
  {
    [Poll(1.0, Entries(before + {partial})),
     Poll(2.0, Entries(before + {name})),
     Poll(10.5, Entries(before + {name}))]
  }

  /** Whatever the folder held before, the renamed download is returned. */
  lemma RenamedOutcome(before: set<string>, partial: string, name: string, finished: string -> bool,
                       outcome: Outcome, polled: nat)
    requires partial !in before && name !in before && finished(name)
    requires EndsPastDeadline(RenamePolls(before, partial, name), 10.0)
    requires PollingResult(RenamePolls(before, partial, name), before, 10.0, Downloads, finished, outcome, polled)
    ensures outcome == Finished(FilePath(Downloads, name))
  {
    var polls := RenamePolls(before, partial, name);
    assert |polls[0].listing.names| == |before| + 1;
    Phase1StopsAtFirst(polls, before, 10.0, 0);
    assert SymDiff(before, polls[1].listing.names) == {name};
    FinishedNamesEndTheWait(polls, before, 10.0, Downloads, finished, outcome, polled);
    assert polled == 2;
    assert outcome == Finished(FilePath(Downloads, outcome.path.name));
  }

  /**
   * The folder holds a.txt and b.txt; the action starts b.txt.crdownload,
   * which is renamed to c.pdf.
   */
  method RenamedDownloadIsReturned() returns (outcome: Outcome)
    ensures outcome == Finished(FilePath(Downloads, "c.pdf"))
  {
    var before: set<string> := {"a.txt", "b.txt"};
    var trace, polled;
    outcome, trace, polled := WaitChromeDownload(10.0, Some(Downloads), [], Returned, Entries(before), 0.0,
                                                 RenamePolls(before, "b.txt.crdownload", "c.pdf"));
    assert ResolveFolder([], Some(Downloads)) == Folder(Downloads);
    FinishedScenarioName();
    RenamedOutcome(before, "b.txt.crdownload", "c.pdf", LooksFinished, outcome, polled);
  }

  /** The folder is empty and the action creates nothing; the timeout is one second. */
  method NothingDownloadedNeverStarts() returns (outcome: Outcome)
    ensures outcome == NotStarted
  {
    var polls := [Poll(0.5, Entries({})), Poll(1.2, Entries({}))];
    var trace, polled;
    outcome, trace, polled := WaitChromeDownload(1.0, Some(Downloads), [], Returned, Entries({}), 0.0, polls);
    assert Phase1(polls, {}, 1.0, 1) == TimedOut(1);
  }

  /** The folder is empty; the action creates `name` and never renames it; the timeout is one second. */
  function PartialPolls(name: string): seq<Poll>
  {
    [Poll(0.2, Entries({name})), Poll(0.6, Entries({name})), Poll(1.1, Entries({name}))]
  }

  /** A download that keeps a partial name is given up when the deadline passes. */
  lemma PartialOutcome(name: string, finished: string -> bool, outcome: Outcome, polled: nat)
    requires !finished(name)
    requires EndsPastDeadline(PartialPolls(name), 1.0)
    requires PollingResult(PartialPolls(name), {}, 1.0, Downloads, finished, outcome, polled)
    ensures outcome == Unfinished
  {
    var polls := PartialPolls(name);
    Phase1StopsAtFirst(polls, {}, 1.0, 0);
    assert SymDiff({}, polls[1].listing.names) == {name};
    OnlyPartialNamesNeverFinish(polls, {}, 1.0, Downloads, finished, outcome, polled);
  }

  /** The action creates d.crdownload, which Chrome never renames. */
  method PartialDownloadNeverFinishes() returns (outcome: Outcome)
    ensures outcome == Unfinished
  {
    var trace, polled;
    outcome, trace, polled := WaitChromeDownload(1.0, Some(Downloads), [], Returned, Entries({}), 0.0,
                                                 PartialPolls("d.crdownload"));
    assert ResolveFolder([], Some(Downloads)) == Folder(Downloads);
    PartialDownloadName();
    PartialOutcome("d.crdownload", LooksFinished, outcome, polled);
  }

  /**
   * No explicit folder, and the Element's driver was created without a
   * download folder, so its "options" entry is None: the call fails before
   * listing anything or running the action.
   */
  method NoConfiguredFolderFailsAtOnce() returns (outcome: Outcome, trace: seq<Step>)
    ensures outcome == NoneFolderTypeError && trace == []
  {
    var driver := new Driver(map["options" := None]);
    var element := new Element(driver);
    var polls := [Poll(1.0, Entries({}))];
    var polled;
    outcome, trace, polled := WaitChromeDownload(0.0, None, [ElementArg(element)], Returned, Entries({}), 0.0, polls);
  }

  /** Two files appear at once in an empty folder; the timeout is ten seconds. */
  function TwoFilePolls(a: string, b: string): seq<Poll>
  {
    [Poll(1.0, Entries({a, b})), Poll(2.0, Entries({a, b})), Poll(11.0, Entries({a, b}))]
  }

  /** When both new files look finished, the watcher returns one of them, and nothing decides which. */
  lemma TwoFileOutcome(a: string, b: string, finished: string -> bool, outcome: Outcome, polled: nat)
    requires finished(a) && finished(b)
    requires EndsPastDeadline(TwoFilePolls(a, b), 10.0)
    requires PollingResult(TwoFilePolls(a, b), {}, 10.0, Downloads, finished, outcome, polled)
    ensures outcome == Finished(FilePath(Downloads, a)) || outcome == Finished(FilePath(Downloads, b))
  {
    var polls := TwoFilePolls(a, b);
    assert |polls[0].listing.names| > 0;
    Phase1StopsAtFirst(polls, {}, 10.0, 0);
    assert SymDiff({}, polls[1].listing.names) == {a, b};
    FinishedNamesEndTheWait(polls, {}, 10.0, Downloads, finished, outcome, polled);
    assert polled == 2;
    assert outcome == Finished(FilePath(Downloads, outcome.path.name));
    assert outcome.path.name in {a, b};
  }

  /** x.pdf and y.pdf appear together: either may be returned. */
  method TwoNewFilesEitherIsReturned() returns (outcome: Outcome)
    ensures outcome == Finished(FilePath(Downloads, "x.pdf")) || outcome == Finished(FilePath(Downloads, "y.pdf"))
  {
    var trace, polled;
    outcome, trace, polled := WaitChromeDownload(10.0, Some(Downloads), [], Returned, Entries({}), 0.0,
                                                 TwoFilePolls("x.pdf", "y.pdf"));
    assert ResolveFolder([], Some(Downloads)) == Folder(Downloads);
    TwoFinishedNames();
    TwoFileOutcome("x.pdf", "y.pdf", LooksFinished, outcome, polled);
  }

  /** Both names of the two-file scenario look finished. */
  lemma TwoFinishedNames()
    ensures LooksFinished("x.pdf") && LooksFinished("y.pdf")
  {
    assert "x" + "." + "pdf" == "x.pdf" && "y" + "." + "pdf" == "y.pdf";
    ShortNameHasNoMarker("x.pdf");
    ShortNameHasNoMarker("y.pdf");
    PlainExtensionLooksFinished("x", "pdf");
    PlainExtensionLooksFinished("y", "pdf");
  }

  /** The finished name of the renaming scenario. */
  lemma FinishedScenarioName()
    ensures LooksFinished("c.pdf")
  {
    assert "c" + "." + "pdf" == "c.pdf";
    ShortNameHasNoMarker("c.pdf");
    PlainExtensionLooksFinished("c", "pdf");
  }

  /** The name of the download that never finishes. */
  lemma PartialDownloadName()
    ensures IsPartial("d.crdownload")
  {
    var name := "d.crdownload";
    assert name == "d" + "." + "crdownload";
    SuffixOfExtension("d", "crdownload");
    assert Suffix(name) == CrdownloadSuffix;
  }
}
