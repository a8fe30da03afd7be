// The downloads widget (NotchApp/Sources/Widgets/Download/DownloadViewModel.swift):
// scans of the Downloads folder track temporary download files by name,
// mark the ones that disappeared as complete, schedule their removal, and
// publish the tracked entries sorted by start time.
//
// A directory listing arrives as a parameter (`None` when it cannot be read);
// each entry is the file's last path component and size. The clock is a
// parameter, UUIDs come from a counter, and the three-second removal delay is
// a queue of pending batches fired explicitly.
module Downloads {
  import opened Wrappers
  import opened Text
  import DownloadView

  datatype DownloadInfo = DownloadInfo(
    id: nat,
    fileName: string,
    currentSize: int,
    estimatedTotalSize: Option<int>,
    isComplete: bool,
    startTime: real)

  /** A file in the Downloads folder: its name and size. */
  datatype Entry = Entry(name: string, fileSize: int)

  // ---------------------------------------------------------------------------
  // Getters
  // ---------------------------------------------------------------------------

  /** `DownloadInfo.progress`. */
  function Progress(d: DownloadInfo): (p: real)
    ensures d.currentSize >= 0 ==> 0.0 <= p <= 1.0
    ensures d.estimatedTotalSize.None? || d.estimatedTotalSize.value <= 0 ==> p == 0.0
  {
    match d.estimatedTotalSize
    case None => 0.0
    case Some(total) =>
      if total <= 0 then 0.0
      else
        var ratio := d.currentSize as real / total as real;
        if 1.0 <= ratio then 1.0 else ratio
  }

  function SumProgress(ds: seq<DownloadInfo>): real
  {
    if ds == [] then 0.0 else SumProgress(ds[..|ds| - 1]) + Progress(ds[|ds| - 1])
  }

  /** `totalProgress`: the mean progress, or 0 for no downloads. */
  function TotalProgress(ds: seq<DownloadInfo>): real
  {
    if ds == [] then 0.0 else SumProgress(ds) / |ds| as real
  }

  /** The sum of progresses lies between 0 and the number of downloads. */
  lemma {:induction false} SumProgressBounds(ds: seq<DownloadInfo>)
    requires forall k :: 0 <= k < |ds| ==> ds[k].currentSize >= 0
    ensures 0.0 <= SumProgress(ds) <= |ds| as real
  {
    if ds != [] {
      SumProgressBounds(ds[..|ds| - 1]);
      assert Progress(ds[|ds| - 1]) <= 1.0;
    }
  }

  /** The mean progress is a fraction whenever no size is negative. */
  lemma TotalProgressIsFraction(ds: seq<DownloadInfo>)
    requires forall k :: 0 <= k < |ds| ==> ds[k].currentSize >= 0
    ensures 0.0 <= TotalProgress(ds) <= 1.0
  {
    if ds != [] {
      SumProgressBounds(ds);
      var s, n := SumProgress(ds), |ds| as real;
      assert s / n * n == s;
    }
  }

  /** `activeCount`: the entries not yet complete. */
  function ActiveCount(ds: seq<DownloadInfo>): (n: nat)
    ensures n <= |ds|
  {
    if ds == [] then 0 else ActiveCount(ds[..|ds| - 1]) + (if ds[|ds| - 1].isComplete then 0 else 1)
  }

  /** The active count is the number of positions holding an incomplete entry. */
  lemma {:induction false} ActiveCountCounts(ds: seq<DownloadInfo>)
    ensures ActiveCount(ds) == |set k | 0 <= k < |ds| && !ds[k].isComplete|
  {
    if ds != [] {
      var n := |ds| - 1;
      ActiveCountCounts(ds[..n]);
      var before := set k | 0 <= k < n && !ds[..n][k].isComplete;
      var after := set k | 0 <= k < |ds| && !ds[k].isComplete;
      if ds[n].isComplete {
        assert after == before;
      } else {
        assert after == before + {n};
      }
    }
  }

  // ---------------------------------------------------------------------------
  // Scanning
  // ---------------------------------------------------------------------------

  /** `url.pathExtension`: the text after the last dot, or nothing when there is no dot. */
  function PathExtension(name: string): string
  {
    var parts := Split(name, ".");
    if |parts| == 1 then "" else parts[|parts| - 1]
  }

  /** The extensions that mark a download in progress. */
  const DownloadExtensions: set<string> := {"crdownload", "download", "part", "tmp"}

  /** The scan's filter: the lower-cased extension is a download extension. */
  predicate IsDownloadFile(name: string)
  {
    Lower(PathExtension(name)) in DownloadExtensions
  }

  /** Whether the listing has an entry called `name`. */
  predicate Listed(entries: seq<Entry>, name: string)
  {
    exists k :: 0 <= k < |entries| && entries[k].name == name
  }

  /** What tracking one listed download does to the dictionary, with `id` the UUID for a new entry. */
  function Track(tracked: map<string, DownloadInfo>, e: Entry, now: real, id: nat): map<string, DownloadInfo>
  {
    if e.name in tracked then tracked[e.name := tracked[e.name].(currentSize := e.fileSize)]
    else tracked[e.name := DownloadInfo(id, e.name, e.fileSize, None, false, now)]
  }

  datatype Scan = Scan(tracked: map<string, DownloadInfo>, nextId: nat, current: set<string>)

  /** The first loop of a scan over a prefix of the listing. */
  function ScanEntries(tracked: map<string, DownloadInfo>, entries: seq<Entry>, now: real, nextId: nat): Scan
  {
    if entries == [] then Scan(tracked, nextId, {})
    else
      var s := ScanEntries(tracked, entries[..|entries| - 1], now, nextId);
      var e := entries[|entries| - 1];
      if !IsDownloadFile(e.name) then s
      else
        var isNew := e.name !in s.tracked;
        Scan(Track(s.tracked, e, now, s.nextId), if isNew then s.nextId + 1 else s.nextId, s.current + {e.name})
  }

  /** One entry of the first loop: a download file is tracked (fresh ids for new names) and noted as present. */
  function ScanOne(s: Scan, e: Entry, now: real): Scan
  {
    if !IsDownloadFile(e.name) then s
    else Scan(Track(s.tracked, e, now, s.nextId), if e.name !in s.tracked then s.nextId + 1 else s.nextId,
              s.current + {e.name})
  }

  /** Scanning one more entry of the listing is one `ScanOne` step. */
  lemma ScanEntriesNext(tracked: map<string, DownloadInfo>, entries: seq<Entry>, i: nat, now: real, nextId: nat)
    requires i < |entries|
    ensures ScanEntries(tracked, entries[..i + 1], now, nextId)
            == ScanOne(ScanEntries(tracked, entries[..i], now, nextId), entries[i], now)
  {
    assert entries[..i + 1][..i] == entries[..i];
  }

  /** The second loop: every tracked name missing from the listing is complete. */
  function MarkMissing(tracked: map<string, DownloadInfo>, current: set<string>): map<string, DownloadInfo>
  {
    map k | k in tracked :: if k in current then tracked[k] else tracked[k].(isComplete := true)
  }

  /** The keys a scan schedules for removal. */
  function CompletedKeys(tracked: map<string, DownloadInfo>): set<string>
  {
    set k | k in tracked && tracked[k].isComplete
  }

  lemma ListedStep(entries: seq<Entry>, name: string)
    requires entries != []
    ensures var n := |entries| - 1;
      Listed(entries, name) <==> Listed(entries[..n], name) || entries[n].name == name
  {
    var n := |entries| - 1;
    if Listed(entries, name) && entries[n].name != name {
      var k :| 0 <= k < |entries| && entries[k].name == name;
      assert entries[..n][k] == entries[k];
    }
    if Listed(entries[..n], name) {
      var k :| 0 <= k < n && entries[..n][k].name == name;
      assert entries[k] == entries[..n][k];
    }
  }

  /** Ids handed out by a scan stay below its counter, which never goes back. */
  lemma {:induction false} ScanEntriesIds(tracked: map<string, DownloadInfo>, entries: seq<Entry>, now: real, nextId: nat)
    requires forall k :: k in tracked ==> tracked[k].id < nextId
    ensures var s := ScanEntries(tracked, entries, now, nextId);
      (forall k :: k in s.tracked ==> s.tracked[k].id < s.nextId) && nextId <= s.nextId
  {
    if entries != [] {
      ScanEntriesIds(tracked, entries[..|entries| - 1], now, nextId);
    }
  }

  /** The names a scan reports present are the listed download files. */
  lemma {:induction false} ScanCurrent(tracked: map<string, DownloadInfo>, entries: seq<Entry>, now: real,
                                       nextId: nat, name: string)
    ensures name in ScanEntries(tracked, entries, now, nextId).current <==> IsDownloadFile(name) && Listed(entries, name)
  {
    if entries != [] {
      ScanCurrent(tracked, entries[..|entries| - 1], now, nextId, name);
      ListedStep(entries, name);
    }
  }

  /** A scan keeps every tracked name and adds exactly the names it reports present. */
  lemma {:induction false} ScanKeys(tracked: map<string, DownloadInfo>, entries: seq<Entry>, now: real,
                                    nextId: nat, name: string)
    ensures var s := ScanEntries(tracked, entries, now, nextId);
      name in s.tracked <==> name in tracked || name in s.current
  {
    if entries != [] {
      ScanKeys(tracked, entries[..|entries| - 1], now, nextId, name);
    }
  }

  /** An entry tracked before the scan changes only its size. */
  lemma {:induction false} ScanKeepsTracked(tracked: map<string, DownloadInfo>, entries: seq<Entry>, now: real,
                                            nextId: nat, name: string)
    requires name in tracked
    ensures var s := ScanEntries(tracked, entries, now, nextId);
      name in s.tracked && s.tracked[name] == tracked[name].(currentSize := s.tracked[name].currentSize)
  {
    if entries != [] {
      ScanKeepsTracked(tracked, entries[..|entries| - 1], now, nextId, name);
    }
  }

  /** An unseen listed download gets a fresh, incomplete entry started now. */
  lemma {:induction false} ScanNewEntry(tracked: map<string, DownloadInfo>, entries: seq<Entry>, now: real,
                                        nextId: nat, name: string)
    requires name !in tracked
    ensures var s := ScanEntries(tracked, entries, now, nextId);
      nextId <= s.nextId
      && (name in s.tracked ==>
            var d := s.tracked[name];
            d.fileName == name && !d.isComplete && d.startTime == now && d.estimatedTotalSize.None?
            && nextId <= d.id < s.nextId)
  {
    if entries != [] {
      ScanNewEntry(tracked, entries[..|entries| - 1], now, nextId, name);
    }
  }

  /**
   * The first loop tracks exactly the download files of the listing; an entry
   * already tracked keeps its id, start time and completion and only changes
   * size, and an unseen name gets a fresh, incomplete entry started now.
   */
  lemma ScanEntriesSpec(tracked: map<string, DownloadInfo>, entries: seq<Entry>, now: real,
                        nextId: nat, name: string)
    requires forall k :: k in tracked ==> tracked[k].id < nextId
    ensures var s := ScanEntries(tracked, entries, now, nextId);
      (name in s.current <==> IsDownloadFile(name) && Listed(entries, name))
      && (name in s.tracked <==> name in tracked || name in s.current)
      && (name in tracked ==>
            s.tracked[name] == tracked[name].(currentSize := s.tracked[name].currentSize))
      && (name !in tracked && name in s.current ==>
            var d := s.tracked[name];
            d.fileName == name && !d.isComplete && d.startTime == now && d.estimatedTotalSize.None?
            && nextId <= d.id < s.nextId)
      && (forall k :: k in s.tracked ==> s.tracked[k].id < s.nextId)
      && nextId <= s.nextId
  {
    ScanEntriesIds(tracked, entries, now, nextId);
    ScanCurrent(tracked, entries, now, nextId, name);
    ScanKeys(tracked, entries, now, nextId, name);
    if name in tracked {
      ScanKeepsTracked(tracked, entries, now, nextId, name);
    } else {
      ScanNewEntry(tracked, entries, now, nextId, name);
    }
  }

  /** Marking keeps every key; missing names become complete and listed ones are left alone. */
  lemma MarkMissingSpec(tracked: map<string, DownloadInfo>, current: set<string>, name: string)
    requires name in tracked
    ensures var m := MarkMissing(tracked, current);
      m.Keys == tracked.Keys
      && (name !in current ==> m[name] == tracked[name].(isComplete := true))
      && (name in current ==> m[name] == tracked[name])
      && (name !in current ==> name in CompletedKeys(m))
  {
  }

  /** A scan tracks nothing but download files: a name that is not one is never added. */
  lemma ScanIgnoresOtherFiles(tracked: map<string, DownloadInfo>, entries: seq<Entry>, now: real, nextId: nat,
                              name: string)
    requires forall k :: k in tracked ==> tracked[k].id < nextId
    requires name !in tracked && !IsDownloadFile(name)
    ensures name !in MarkMissing(ScanEntries(tracked, entries, now, nextId).tracked,
                                 ScanEntries(tracked, entries, now, nextId).current)
  {
    ScanEntriesSpec(tracked, entries, now, nextId, name);
  }

  // ---------------------------------------------------------------------------
  // Ordering the active list
  // ---------------------------------------------------------------------------

  predicate SortedByStart(ds: seq<DownloadInfo>)
  {
    forall i, j :: 0 <= i < j < |ds| ==> ds[i].startTime <= ds[j].startTime
  }

  /** Inserting before the first later-starting entry. */
  function InsertByStart(ds: seq<DownloadInfo>, d: DownloadInfo): (r: seq<DownloadInfo>)
    ensures multiset(r) == multiset(ds) + multiset{d}
  {
    if ds == [] || d.startTime <= ds[0].startTime then [d] + ds
    else
      assert ds == [ds[0]] + ds[1..];
      [ds[0]] + InsertByStart(ds[1..], d)
  }

  /** The inserted list holds the old elements and the new one, and nothing else. */
  lemma InsertMembers(ds: seq<DownloadInfo>, d: DownloadInfo)
    ensures |InsertByStart(ds, d)| == |ds| + 1
    ensures forall x :: x in InsertByStart(ds, d) <==> x in ds || x == d
  {
    var r := InsertByStart(ds, d);
    assert |multiset(r)| == |multiset(ds)| + 1;
    forall x ensures x in r <==> x in ds || x == d {
      assert x in r <==> x in multiset(r);
      assert x in ds <==> x in multiset(ds);
    }
  }

  /** Insertion keeps the list in start order. */
  lemma {:induction false} InsertSorted(ds: seq<DownloadInfo>, d: DownloadInfo)
    requires SortedByStart(ds)
    ensures SortedByStart(InsertByStart(ds, d))
  {
    if ds != [] && d.startTime > ds[0].startTime {
      var rest := InsertByStart(ds[1..], d);
      InsertSorted(ds[1..], d);
      InsertMembers(ds[1..], d);
      forall j | 0 <= j < |rest| ensures ds[0].startTime <= rest[j].startTime {
        assert rest[j] in ds[1..] || rest[j] == d;
      }
    }
  }

  /** A list in start order of the entries of `tracked` under the keys `done`, one per key. */
  predicate ListsKeys(ds: seq<DownloadInfo>, done: set<string>, tracked: map<string, DownloadInfo>)
  {
    SortedByStart(ds) && |ds| == |done| && done <= tracked.Keys
    && (forall k :: k in done ==> tracked[k] in ds)
    && (forall d :: d in ds ==> d in tracked.Values)
  }

  /** A list of every key's entry is the active list. */
  lemma ListsAllKeys(ds: seq<DownloadInfo>, tracked: map<string, DownloadInfo>)
    requires ListsKeys(ds, tracked.Keys, tracked)
    ensures IsActiveList(ds, tracked)
  {
    assert |tracked.Keys| == |tracked|;
  }

  /** One step of `updateActiveList`'s loop: inserting the entry of a new key. */
  lemma InsertKey(ds: seq<DownloadInfo>, done: set<string>, tracked: map<string, DownloadInfo>, k: string)
    requires ListsKeys(ds, done, tracked) && k in tracked && k !in done
    ensures ListsKeys(InsertByStart(ds, tracked[k]), done + {k}, tracked)
  {
    InsertMembers(ds, tracked[k]);
    InsertSorted(ds, tracked[k]);
    assert tracked[k] in tracked.Values;
  }

  /** The loop step of `ActiveList` as a whole: one key moves from the remaining keys to the listed ones. */
  lemma MoveKey(ds: seq<DownloadInfo>, keys: set<string>, done: set<string>, tracked: map<string, DownloadInfo>,
                k: string)
    requires keys + done == tracked.Keys && keys !! done && ListsKeys(ds, done, tracked) && k in keys
    ensures (keys - {k}) + (done + {k}) == tracked.Keys && (keys - {k}) !! (done + {k})
    ensures ListsKeys(InsertByStart(ds, tracked[k]), done + {k}, tracked)
    ensures |keys - {k}| < |keys|
  {
    InsertKey(ds, done, tracked, k);
  }

  /** `activeDownloads` for a dictionary: its values, in order of start time. */
  predicate IsActiveList(ds: seq<DownloadInfo>, tracked: map<string, DownloadInfo>)
  {
    SortedByStart(ds) && |ds| == |tracked|
    && (forall k :: k in tracked ==> tracked[k] in ds)
    && (forall d :: d in ds ==> d in tracked.Values)
  }

  /** `Array(trackedFiles.values).sorted { $0.startTime < $1.startTime }`, by insertion. */
  method ActiveList(tracked: map<string, DownloadInfo>) returns (result: seq<DownloadInfo>)
    ensures IsActiveList(result, tracked)
  {
    var keys := tracked.Keys;
    result := [];
    ghost var done: set<string> := {};
    while keys != {}
      invariant keys + done == tracked.Keys && keys !! done
      invariant ListsKeys(result, done, tracked)
      decreases |keys|
    {
      var k :| k in keys;
      MoveKey(result, keys, done, tracked, k);
      result := InsertByStart(result, tracked[k]);
      keys := keys - {k};
      done := done + {k};
    }
    ListsAllKeys(result, tracked);
  }

  // ---------------------------------------------------------------------------
  // The view-model object
  // ---------------------------------------------------------------------------

  class DownloadViewModel {
    var activeDownloads: seq<DownloadInfo>
    var isMonitoring: bool
    /** `pollTimer != nil`. */
    var polling: bool
    /** `dispatchSource != nil`. */
    var watchingFolder: bool
    var trackedFiles: map<string, DownloadInfo>
    /** The next UUID to hand out. */
    var nextId: nat
    /** Key batches whose three-second removal task has not run yet, oldest first. */
    var pendingRemovals: seq<set<string>>

    /** Ids are below the next one to be issued. */
    ghost predicate Valid()
      reads this
    {
      forall k :: k in trackedFiles ==> trackedFiles[k].id < nextId
    }

    constructor ()
      ensures Valid() && activeDownloads == [] && !isMonitoring && !polling && !watchingFolder
      ensures trackedFiles == map[] && pendingRemovals == []
    {
      activeDownloads := [];
      isMonitoring := false;
      polling := false;
      watchingFolder := false;
      trackedFiles := map[];
      nextId := 0;
      pendingRemovals := [];
    }

    /** `updateActiveList()`. */
    method UpdateActiveList()
      modifies this
      ensures IsActiveList(activeDownloads, trackedFiles)
      ensures trackedFiles == old(trackedFiles) && nextId == old(nextId) && pendingRemovals == old(pendingRemovals)
      ensures isMonitoring == old(isMonitoring) && polling == old(polling) && watchingFolder == old(watchingFolder)
    {
      activeDownloads := ActiveList(trackedFiles);
    }

    /** The body of the first loop of `scanForDownloads()` for one entry `e`, with `current` the names seen so far. */
    method TrackEntry(e: Entry, now: real, current: set<string>) returns (current': set<string>)
      modifies this
      ensures Scan(trackedFiles, nextId, current') == ScanOne(Scan(old(trackedFiles), old(nextId), current), e, now)
      ensures activeDownloads == old(activeDownloads) && pendingRemovals == old(pendingRemovals)
      ensures isMonitoring == old(isMonitoring) && polling == old(polling) && watchingFolder == old(watchingFolder)
    {
      current' := current;
      if IsDownloadFile(e.name) {
        current' := current' + {e.name};
        if e.name in trackedFiles {
          var existing := trackedFiles[e.name];
          trackedFiles := trackedFiles[e.name := existing.(currentSize := e.fileSize)];
        } else {
          trackedFiles := trackedFiles[e.name := DownloadInfo(nextId, e.name, e.fileSize, None, false, now)];
          nextId := nextId + 1;
        }
      }
    }

    /** The first loop of `scanForDownloads()`: track the listed downloads, returning their names. */
    method TrackListing(contents: seq<Entry>, now: real) returns (currentFiles: set<string>)
      modifies this
      ensures ScanEntries(old(trackedFiles), contents, now, old(nextId)) == Scan(trackedFiles, nextId, currentFiles)
      ensures activeDownloads == old(activeDownloads) && pendingRemovals == old(pendingRemovals)
      ensures isMonitoring == old(isMonitoring) && polling == old(polling) && watchingFolder == old(watchingFolder)
    {
      currentFiles := {};
      var i := 0;
      while i < |contents|
        invariant 0 <= i <= |contents|
        invariant ScanEntries(old(trackedFiles), contents[..i], now, old(nextId))
                  == Scan(trackedFiles, nextId, currentFiles)
        invariant activeDownloads == old(activeDownloads) && pendingRemovals == old(pendingRemovals)
        invariant isMonitoring == old(isMonitoring) && polling == old(polling)
        invariant watchingFolder == old(watchingFolder)
      {
        ScanEntriesNext(old(trackedFiles), contents, i, now, old(nextId));
        currentFiles := TrackEntry(contents[i], now, currentFiles);
        i := i + 1;
      }
      assert contents[..i] == contents;
    }

    /** `scanForDownloads()` over a listing taken at `now`. */
    method ScanForDownloads(listing: Option<seq<Entry>>, now: real)
      requires Valid()
      modifies this
      ensures Valid()
      ensures listing.None? ==> trackedFiles == old(trackedFiles) && activeDownloads == old(activeDownloads)
                                && pendingRemovals == old(pendingRemovals) && nextId == old(nextId)
      ensures listing.Some? ==>
                var s := ScanEntries(old(trackedFiles), listing.value, now, old(nextId));
                var marked := MarkMissing(s.tracked, s.current);
                trackedFiles == marked && nextId == s.nextId
                && pendingRemovals == old(pendingRemovals)
                                      + (if CompletedKeys(marked) == {} then [] else [CompletedKeys(marked)])
                && IsActiveList(activeDownloads, trackedFiles)
      ensures isMonitoring == old(isMonitoring) && polling == old(polling) && watchingFolder == old(watchingFolder)
    {
      if listing.None? {
        return;
      }
      ScanEntriesIds(trackedFiles, listing.value, now, nextId);
      var currentFiles := TrackListing(listing.value, now);
      trackedFiles := MarkMissing(trackedFiles, currentFiles);
      var completedKeys := CompletedKeys(trackedFiles);
      if completedKeys != {} {
        pendingRemovals := pendingRemovals + [completedKeys];
      }
      UpdateActiveList();
    }

    /** The oldest pending removal task runs: its keys are dropped and the list rebuilt. */
    method FirePendingRemoval()
      requires Valid() && pendingRemovals != []
      modifies this
      ensures Valid()
      ensures trackedFiles == map k | k in old(trackedFiles) && k !in old(pendingRemovals)[0] :: old(trackedFiles)[k]
      ensures pendingRemovals == old(pendingRemovals)[1..]
      ensures IsActiveList(activeDownloads, trackedFiles)
      ensures nextId == old(nextId)
      ensures isMonitoring == old(isMonitoring) && polling == old(polling) && watchingFolder == old(watchingFolder)
    {
      var completedKeys := pendingRemovals[0];
      pendingRemovals := pendingRemovals[1..];
      trackedFiles := map k | k in trackedFiles && k !in completedKeys :: trackedFiles[k];
      UpdateActiveList();
    }

    /** `startMonitoring()`: `listing` is the initial scan's listing, `folderOpened` whether the folder could be watched. */
    method StartMonitoring(listing: Option<seq<Entry>>, now: real, folderOpened: bool)
      requires Valid()
      modifies this
      ensures Valid()
      ensures old(isMonitoring) ==>
                isMonitoring && trackedFiles == old(trackedFiles) && activeDownloads == old(activeDownloads)
                && nextId == old(nextId) && pendingRemovals == old(pendingRemovals)
                && polling == old(polling) && watchingFolder == old(watchingFolder)
      ensures !old(isMonitoring) ==> isMonitoring && polling && watchingFolder == (old(watchingFolder) || folderOpened)
      ensures !old(isMonitoring) && listing.None? ==>
                trackedFiles == old(trackedFiles) && activeDownloads == old(activeDownloads)
                && pendingRemovals == old(pendingRemovals) && nextId == old(nextId)
      ensures !old(isMonitoring) && listing.Some? ==>
                var s := ScanEntries(old(trackedFiles), listing.value, now, old(nextId));
                var marked := MarkMissing(s.tracked, s.current);
                trackedFiles == marked && nextId == s.nextId
                && pendingRemovals == old(pendingRemovals)
                                      + (if CompletedKeys(marked) == {} then [] else [CompletedKeys(marked)])
                && IsActiveList(activeDownloads, trackedFiles)
    {
      if isMonitoring {
        return;
      }
      isMonitoring := true;
      ScanForDownloads(listing, now);
      polling := true;
      if !folderOpened {
        return;
      }
      watchingFolder := true;
    }

    /** `stopMonitoring()`. */
    method StopMonitoring()
      modifies this
      ensures !isMonitoring && !polling && !watchingFolder
      ensures trackedFiles == old(trackedFiles) && activeDownloads == old(activeDownloads)
      ensures pendingRemovals == old(pendingRemovals) && nextId == old(nextId)
    {
      isMonitoring := false;
      polling := false;
      watchingFolder := false;
    }
  }

  /** The scan's filter accepts an upper-case download extension that the display name does not strip. */
  lemma ScanAndDisplayDisagreeOnCase(base: string)
    ensures IsDownloadFile(base + ".PART")
    ensures DownloadView.CleanedName(base + ".PART") == base + ".PART"
  {
    UpperPartExtension(base);
    assert Lower("PART") == "part";
    DownloadView.CaseSensitive(base);
  }

  lemma UpperPartExtension(base: string)
    ensures PathExtension(base + ".PART") == "PART"
  {
    SplitLastPiece(base, '.', "PART");
    assert base + ".PART" == base + ['.'] + "PART";
  }
}
