/**
 * DynamicFolderHandler: watches one day folder under a root, hands each new
 * PDF to the pipeline at most once per day folder, and switches to the next
 * day's folder when it appears.
 *
 * The observer is modelled as the folder it watches (or none); the clock, the
 * calendar date and the file system are inputs of the methods that read them;
 * what the handler does to the outside world is recorded, in order, in the
 * ghost trace `effects`.
 */
module FolderHandler {
  import opened Wrappers
  import opened JsonValue
  import opened DayFolder
  import opened Readiness
  import opened Pipeline

  /** The handler's `check_interval`: the day folder is looked for at most once a minute. */
  const CHECK_INTERVAL := 60

  /** The watchdog event fields the handler reads. */
  datatype FileEvent = FileEvent(isDirectory: bool, srcPath: Path, destPath: Path)

  /** Where process_file stopped: at one of its three guards, or after calling process_pdf. */
  datatype FileOutcome = NotPdf | NotReady | AlreadyProcessed | Handled(pdf: PdfOutcome)

  /** `str.lower()` on one character, for the ASCII letters. */
  function LowerChar(c: char): (r: char)
    ensures 'A' <= c <= 'Z' ==> r as int == c as int + 32
    ensures !('A' <= c <= 'Z') ==> r == c
  {
    if 'A' <= c <= 'Z' then (c as int + 32) as char else c
  }

  function Lower(s: string): (r: string)
    ensures |r| == |s| && forall i :: 0 <= i < |s| ==> r[i] == LowerChar(s[i])
  {
    if s == [] then [] else [LowerChar(s[0])] + Lower(s[1..])
  }

  /** `path.lower().endswith(".pdf")` */
  predicate IsPdfName(path: Path)
  {
    var l := Lower(path);
    |l| >= 4 && l[|l| - 4..] == ".pdf"
  }

  /** Lowering yields the small letter `lo` exactly from `lo` itself or its capital. */
  lemma LowerCharIs(c: char, lo: char)
    requires 'a' <= lo <= 'z'
    ensures LowerChar(c) == lo <==> c == lo || c as int == lo as int - 32
  {
  }

  /** The suffix test accepts `.pdf` in any mix of letter cases and nothing else. */
  lemma PdfSuffixAnyCase(path: Path)
    ensures IsPdfName(path) <==>
              var n := |path|;
              && n >= 4 && path[n - 4] == '.'
              && (path[n - 3] == 'p' || path[n - 3] == 'P')
              && (path[n - 2] == 'd' || path[n - 2] == 'D')
              && (path[n - 1] == 'f' || path[n - 1] == 'F')
  {
    var l := Lower(path);
    var n := |path|;
    if n >= 4 {
      assert l[n - 4..] == [l[n - 4], l[n - 3], l[n - 2], l[n - 1]];
      LowerCharIs(path[n - 3], 'p');
      LowerCharIs(path[n - 2], 'd');
      LowerCharIs(path[n - 1], 'f');
    }
  }

  /** The paths handed to process_pdf, in order, in a trace of effects. */
  function Submissions(es: seq<Effect>): (r: seq<Path>)
    ensures |r| <= |es|
  {
    if es == [] then []
    else
      var last := es[|es| - 1];
      Submissions(es[..|es| - 1]) + (if last.Submitted? then [last.path] else [])
  }

  lemma {:induction false} SubmissionsAppend(a: seq<Effect>, b: seq<Effect>)
    ensures Submissions(a + b) == Submissions(a) + Submissions(b)
    decreases |b|
  {
    if b != [] {
      var b' := b[..|b| - 1];
      assert (a + b)[..|a + b| - 1] == a + b';
      var last := b[|b| - 1];
      var tail := if last.Submitted? then [last.path] else [];
      assert (a + b)[|a + b| - 1] == last;
      SubmissionsAppend(a, b');
      calc {
        Submissions(a + b);
        Submissions(a + b') + tail;
        Submissions(a) + Submissions(b') + tail;
        Submissions(a) + (Submissions(b') + tail);
        Submissions(a) + Submissions(b);
      }
    } else {
      assert a + b == a;
    }
  }

  /** Appending to a trace extends the submissions of any of its suffixes by those appended. */
  lemma EpochAppend(es: seq<Effect>, start: nat, more: seq<Effect>)
    requires start <= |es|
    ensures Submissions((es + more)[start..]) == Submissions(es[start..]) + Submissions(more)
  {
    assert (es + more)[start..] == es[start..] + more;
    SubmissionsAppend(es[start..], more);
  }

  /** Nothing the pipeline does after process_pdf is called is another submission. */
  lemma PdfEffectsSubmitNothing(outcome: PdfOutcome, folderMade: bool)
    ensures Submissions(PdfEffects(outcome, folderMade)) == []
  {
    var es := PdfEffects(outcome, folderMade);
    if es != [] {
      assert Submissions(es[..1]) == [];
    }
  }

  /** What stop_monitoring records: the stop of the running observer, if any. */
  function StopEffects(running: Option<Path>): seq<Effect>
  {
    if running.Some? then [ObserverStopped(running.value)] else []
  }

  /** What start_monitoring records: the start of an observer on `folder`, if it started. */
  function StartEffects(folder: Path, started: bool): seq<Effect>
  {
    if started then [ObserverStarted(folder)] else []
  }

  predicate NoDuplicates(s: seq<Path>)
  {
    forall i, j :: 0 <= i < j < |s| ==> s[i] != s[j]
  }

  class DynamicFolderHandler {
    const basePath: Path
    var currentFolder: Path
    var processedFiles: set<Path>
    /**
     * The folder of the observer `self.observer` refers to; None when the field
     * is None. The field, not the observer's thread: an exception escaping
     * process_file ends that thread's dispatch and leaves the field set.
     */
    var observer: Option<Path>
    var lastCheckTime: int
    const checkInterval: int

    /** The date whose folder is `currentFolder`. */
    ghost var day: Date
    /** Everything the handler has done to the outside world, in order. */
    ghost var effects: seq<Effect>
    /** Where in `effects` the current day folder's epoch began. */
    ghost var epochStart: nat

    /**
     * The handler's invariant: the current folder is the day folder of `day`;
     * a running observer watches it; `processedFiles` holds exactly the paths
     * submitted since the folder was taken on (the effects from `epochStart`
     * on), and none of them was submitted twice.
     */
    ghost predicate Valid()
      reads this
    {
      && ValidDate(day)
      && currentFolder == CurrentDayFolder(basePath, day)
      && (observer.Some? ==> observer.value == currentFolder)
      && checkInterval == CHECK_INTERVAL
      && epochStart <= |effects|
      && (forall p :: p in processedFiles <==> p in Submissions(effects[epochStart..]))
      && NoDuplicates(Submissions(effects[epochStart..]))
    }

    /** `__init__`: today's folder, nothing processed, no observer, last check at start-up. */
    constructor (base: Path, today: Date, now: int)
      requires ValidDate(today)
      ensures Valid()
      ensures basePath == base && day == today && currentFolder == CurrentDayFolder(base, today)
      ensures processedFiles == {} && observer == None && lastCheckTime == now
      ensures effects == []
    {
      basePath := base;
      currentFolder := CurrentDayFolder(base, today);
      processedFiles := {};
      observer := None;
      lastCheckTime := now;
      checkInterval := CHECK_INTERVAL;
      day := today;
      effects := [];
      epochStart := 0;
    }

    /**
     * start_monitoring: a missing current folder leaves everything as it was
     * and reports False; otherwise an observer is started on it.
     */
    method StartMonitoring(folderExists: bool) returns (started: bool)
      requires Valid()
      modifies this
      ensures Valid()
      ensures started == folderExists
      ensures effects == old(effects) + StartEffects(currentFolder, started)
      ensures observer == if started then Some(currentFolder) else old(observer)
      ensures currentFolder == old(currentFolder) && processedFiles == old(processedFiles)
      ensures lastCheckTime == old(lastCheckTime) && day == old(day) && epochStart == old(epochStart)
    {
      if !folderExists {
        return false;
      }
      var note := [ObserverStarted(currentFolder)];
      assert Submissions(note) == [];
      Record(note);
      observer := Some(currentFolder);
      return true;
    }

    /** stop_monitoring: stops the running observer, if any. */
    method StopMonitoring()
      requires Valid()
      modifies this
      ensures Valid()
      ensures observer == None
      ensures effects == old(effects) + StopEffects(old(observer))
      ensures currentFolder == old(currentFolder) && processedFiles == old(processedFiles)
      ensures lastCheckTime == old(lastCheckTime) && day == old(day) && epochStart == old(epochStart)
    {
      if observer.Some? {
        var stopped := [ObserverStopped(observer.value)];
        assert Submissions(stopped) == [];
        Record(stopped);
        observer := None;
      }
    }

    /** Switches to `today`'s folder: stops the observer, forgets the processed files, restarts. */
    method Rollover(today: Date, existsAtStart: bool) returns (ok: bool)
      requires Valid() && ValidDate(today)
      modifies this
      ensures Valid()
      ensures ok == existsAtStart
      ensures currentFolder == CurrentDayFolder(basePath, today) && day == today && processedFiles == {}
      ensures observer == (if ok then Some(currentFolder) else None)
      ensures effects == old(effects) + StopEffects(old(observer)) + StartEffects(currentFolder, ok)
      ensures lastCheckTime == old(lastCheckTime)
    {
      StopMonitoring();
      TakeOn(today);
      ok := StartMonitoring(existsAtStart);
    }

    /** With no observer running, makes `today`'s folder current and starts an empty epoch. */
    method TakeOn(today: Date)
      requires Valid() && ValidDate(today) && observer == None
      modifies this
      ensures Valid()
      ensures currentFolder == CurrentDayFolder(basePath, today) && day == today && processedFiles == {}
      ensures observer == None && effects == old(effects) && lastCheckTime == old(lastCheckTime)
    {
      currentFolder := CurrentDayFolder(basePath, today);
      day := today;
      processedFiles := {};
      epochStart := |effects|;
      assert Submissions(effects[epochStart..]) == [];
    }

    /**
     * check_for_new_day, as written: at most once per interval, it recomputes
     * the day folder and switches to it only if it differs from the current
     * one and exists; the result is False only when the restart after a
     * switch fails. `onDisk` is the file system seen by the first existence
     * test, `existsAtStart` the outcome of start_monitoring's own test.
     */
    method CheckForNewDay(now: int, today: Date, onDisk: Path -> bool, existsAtStart: bool)
      returns (ok: bool)
      requires Valid() && ValidDate(today)
      modifies this
      ensures Valid()
      ensures now - old(lastCheckTime) < checkInterval ==>
                ok && lastCheckTime == old(lastCheckTime) && Unchanged()
      ensures now - old(lastCheckTime) >= checkInterval ==> lastCheckTime == now
      ensures var next := CurrentDayFolder(basePath, today);
              now - old(lastCheckTime) >= checkInterval && next != old(currentFolder) && onDisk(next) ==>
                && ok == existsAtStart
                && currentFolder == next && day == today && processedFiles == {}
                && observer == (if ok then Some(next) else None)
                && effects == old(effects) + StopEffects(old(observer)) + StartEffects(next, ok)
      ensures var next := CurrentDayFolder(basePath, today);
              now - old(lastCheckTime) >= checkInterval && (next == old(currentFolder) || !onDisk(next)) ==>
                ok && Unchanged()
      // a switch happens exactly when the date has changed and its folder exists
      ensures currentFolder != old(currentFolder) <==>
                now - old(lastCheckTime) >= checkInterval && today != old(day) &&
                onDisk(CurrentDayFolder(basePath, today))
    {
      ok := true;
      if now - lastCheckTime >= checkInterval {
        lastCheckTime := now;
        var next := CurrentDayFolder(basePath, today);
        DayFolderInjective(basePath, today, day);
        if next != currentFolder && onDisk(next) {
          ok := Rollover(today, existsAtStart);
        }
      }
    }

    /** Nothing but (possibly) the last check time has changed. */
    twostate predicate Unchanged()
      reads this
    {
      && currentFolder == old(currentFolder) && day == old(day)
      && processedFiles == old(processedFiles) && observer == old(observer)
      && effects == old(effects) && epochStart == old(epochStart)
    }

    /**
     * check_for_new_day with the pending folder handled: when no observer runs
     * because today's folder did not exist yet, the check starts one as soon
     * as the folder appears, as the start-up message promises.
     */
    method CheckForNewDayOrPending(now: int, today: Date, onDisk: Path -> bool, existsAtStart: bool)
      returns (ok: bool)
      requires Valid() && ValidDate(today)
      modifies this
      ensures Valid()
      ensures now - old(lastCheckTime) < checkInterval ==>
                ok && lastCheckTime == old(lastCheckTime) && Unchanged()
      ensures now - old(lastCheckTime) >= checkInterval ==> lastCheckTime == now
      // a due check that finds a new folder on disk rolls over, as CheckForNewDay does
      ensures var next := CurrentDayFolder(basePath, today);
              now - old(lastCheckTime) >= checkInterval && next != old(currentFolder) && onDisk(next) ==>
                && ok == existsAtStart
                && currentFolder == next && day == today && processedFiles == {}
                && observer == (if ok then Some(next) else None)
                && effects == old(effects) + StopEffects(old(observer)) + StartEffects(next, ok)
      // otherwise a due check starts the missing observer once the current folder exists
      ensures var next := CurrentDayFolder(basePath, today);
              now - old(lastCheckTime) >= checkInterval && !(next != old(currentFolder) && onDisk(next)) &&
              old(observer).None? && onDisk(old(currentFolder)) ==>
                && ok == existsAtStart
                && currentFolder == old(currentFolder) && day == old(day)
                && processedFiles == old(processedFiles) && epochStart == old(epochStart)
                && observer == (if ok then Some(currentFolder) else None)
                && effects == old(effects) + StartEffects(currentFolder, ok)
      // and leaves everything else alone when neither applies
      ensures var next := CurrentDayFolder(basePath, today);
              now - old(lastCheckTime) >= checkInterval && !(next != old(currentFolder) && onDisk(next)) &&
              !(old(observer).None? && onDisk(old(currentFolder))) ==>
                ok && Unchanged()
      // after a due check, an existing day folder of today is being watched
      ensures var next := CurrentDayFolder(basePath, today);
              now - old(lastCheckTime) >= checkInterval && onDisk(next) && existsAtStart ==>
                ok && currentFolder == next && observer == Some(next)
      // the processed files are only forgotten when the day changes
      ensures day == old(day) ==> processedFiles == old(processedFiles)
    {
      ok := true;
      if now - lastCheckTime >= checkInterval {
        lastCheckTime := now;
        var next := CurrentDayFolder(basePath, today);
        if next != currentFolder && onDisk(next) {
          ok := Rollover(today, existsAtStart);
        } else if observer.None? && onDisk(currentFolder) {
          ok := StartMonitoring(existsAtStart);
        }
      }
    }

    /**
     * is_file_ready: polls the size until two consecutive reads agree, a read
     * fails, or the timeout passes.
     */
    method IsFileReady(p: Probe) returns (ready: bool)
      requires Advancing(p)
      ensures ready == Poll(p).0
    {
      var k: nat := 0;
      var lastSize: int := -1;
      while InTime(p, k)
        invariant Remembers(p, k, lastSize)
        invariant PollFrom(p, k, lastSize) == Poll(p)
        decreases READY_TIMEOUT - (p.clock(k) - p.start)
      {
        var size := p.size(k);
        if size.None? {
          return false;
        }
        if size.value == lastSize {
          return true;
        }
        lastSize := size.value;
        assert Sleeps(p, k);
        k := k + 1;
      }
      return false;
    }

    /**
     * process_file: a non-PDF name, a file that does not settle, or a path
     * already processed since the folder was taken on changes nothing;
     * otherwise the path is recorded, then handed to process_pdf, and the
     * mapped payload, if any, to append_to_excel. `folderMade` is whether
     * append_to_excel's os.makedirs succeeds.
     */
    method ProcessFile(path: Path, probe: Probe, extract: ExtractReply, mapper: Json -> MapReply,
                       folderMade: bool)
      returns (outcome: FileOutcome)
      requires Valid() && Advancing(probe)
      modifies this
      ensures Valid()
      ensures ProcessedAs(path, Poll(probe).0, ProcessPdf(extract, mapper), folderMade, outcome)
    {
      if !IsPdfName(path) {
        return NotPdf;
      }
      var ready := IsFileReady(probe);
      if !ready {
        return NotReady;
      }
      if path in processedFiles {
        return AlreadyProcessed;
      }
      MarkProcessed(path);
      var pdf := ProcessPdf(extract, mapper);
      if pdf.Mapped? {
        var after := AppendToExcel(pdf.data, folderMade);
        PdfEffectsSubmitNothing(pdf, folderMade);
        Record(after);
      }
      outcome := Handled(pdf);
    }

    /** Adds `path` to `processedFiles` and records that process_pdf is called for it. */
    method MarkProcessed(path: Path)
      requires Valid() && path !in processedFiles
      modifies this
      ensures Valid()
      ensures processedFiles == old(processedFiles) + {path}
      ensures effects == old(effects) + [Submitted(path)]
      ensures currentFolder == old(currentFolder) && observer == old(observer) && day == old(day)
      ensures lastCheckTime == old(lastCheckTime) && epochStart == old(epochStart)
    {
      ghost var d := Submissions(effects[epochStart..]);
      assert path !in d;
      EpochAppend(effects, epochStart, [Submitted(path)]);
      assert Submissions([Submitted(path)]) == [path];
      processedFiles := processedFiles + {path};
      effects := effects + [Submitted(path)];
      assert Submissions(effects[epochStart..]) == d + [path];
      assert NoDuplicates(d + [path]) by {
        forall i, j | 0 <= i < j < |d| + 1 ensures (d + [path])[i] != (d + [path])[j] {
          if j == |d| {
            assert (d + [path])[i] == d[i];
          }
        }
      }
    }

    /** Records effects that submit nothing. */
    method Record(more: seq<Effect>)
      requires Valid() && Submissions(more) == []
      modifies this
      ensures Valid()
      ensures effects == old(effects) + more
      ensures processedFiles == old(processedFiles)
      ensures currentFolder == old(currentFolder) && observer == old(observer) && day == old(day)
      ensures lastCheckTime == old(lastCheckTime) && epochStart == old(epochStart)
    {
      EpochAppend(effects, epochStart, more);
      effects := effects + more;
    }

    /**
     * The state change of process_file on `path`, given whether the file
     * settled, how process_pdf ends and whether append_to_excel can create
     * the output folder: each guard leaves the state as it
     * was; past them the path joins `processedFiles` and exactly one
     * submission of it is recorded, followed by what the pipeline did.
     */
    twostate predicate ProcessedAs(path: Path, ready: bool, pdf: PdfOutcome, folderMade: bool, outcome: FileOutcome)
      reads this
    {
      && currentFolder == old(currentFolder) && observer == old(observer) && day == old(day)
      && lastCheckTime == old(lastCheckTime) && epochStart == old(epochStart)
      && if !IsPdfName(path) then outcome == NotPdf && Unchanged()
         else if !ready then outcome == NotReady && Unchanged()
         else if path in old(processedFiles) then outcome == AlreadyProcessed && Unchanged()
         else
           && outcome == Handled(pdf)
           && processedFiles == old(processedFiles) + {path}
           && effects == old(effects) + [Submitted(path)] + PdfEffects(pdf, folderMade)
    }

    /** on_created: directories are ignored; a file is processed under its path. */
    method OnCreated(event: FileEvent, probe: Probe, extract: ExtractReply, mapper: Json -> MapReply,
                     folderMade: bool)
      requires Valid() && Advancing(probe)
      modifies this
      ensures Valid()
      ensures event.isDirectory ==> Unchanged() && lastCheckTime == old(lastCheckTime)
      ensures !event.isDirectory ==>
                exists outcome ::
                  ProcessedAs(event.srcPath, Poll(probe).0, ProcessPdf(extract, mapper), folderMade, outcome)
    {
      if event.isDirectory {
        return;
      }
      var outcome := ProcessFile(event.srcPath, probe, extract, mapper, folderMade);
    }

    /** on_moved: directories are ignored; a file is processed under its new path. */
    method OnMoved(event: FileEvent, probe: Probe, extract: ExtractReply, mapper: Json -> MapReply,
                   folderMade: bool)
      requires Valid() && Advancing(probe)
      modifies this
      ensures Valid()
      ensures event.isDirectory ==> Unchanged() && lastCheckTime == old(lastCheckTime)
      ensures !event.isDirectory ==>
                exists outcome ::
                  ProcessedAs(event.destPath, Poll(probe).0, ProcessPdf(extract, mapper), folderMade, outcome)
    {
      if event.isDirectory {
        return;
      }
      var outcome := ProcessFile(event.destPath, probe, extract, mapper, folderMade);
    }
  }

  /**
   * The pending day folder, as written: the handler starts before today's
   * folder exists; the folder then appears the same day, yet a due check
   * leaves the handler without an observer.
   */
  method PendingFolderStaysUnwatched() returns (folderExists: bool, watching: bool)
    ensures folderExists && !watching
  {
    var today := Date(2024, 5, 6);
    var h := new DynamicFolderHandler("/watch", today, 0);
    var started := h.StartMonitoring(false);
    var onDisk := (p: Path) => true;
    var ok := h.CheckForNewDay(60, today, onDisk, true);
    folderExists := onDisk(h.currentFolder);
    watching := h.observer == Some(h.currentFolder);
  }

  /** The same scenario with the pending folder handled: the due check starts watching it. */
  method PendingFolderIsWatched() returns (folderExists: bool, watching: bool)
    ensures folderExists && watching
  {
    var today := Date(2024, 5, 6);
    var h := new DynamicFolderHandler("/watch", today, 0);
    var started := h.StartMonitoring(false);
    var onDisk := (p: Path) => true;
    var ok := h.CheckForNewDayOrPending(60, today, onDisk, true);
    folderExists := onDisk(h.currentFolder);
    watching := h.observer == Some(h.currentFolder);
  }
}
