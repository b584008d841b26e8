/**
 * The counting script (kept as two identical copies in the repository): for the
 * slide folders of a converted tree, how many files carry the DICOM UID prefix of
 * the image objects and how many do not, and the CSV rows written from those
 * counts. The directory walk becomes a parameter: the folders in the order the
 * walk yields them, each with its entries and whether each entry is a regular file.
 */
module CountFiles {
  import opened Wrappers
  import opened Strings
  import opened Indices

  /** The prefix of the image objects' file names (their UID root). */
  const DefaultPrefix := "1.2."

  /** The suffix of the slide folders that are counted. */
  const SlideFolderSuffix := "_bm"

  /** What the walk yields for one folder: its path and its entries, marked when they are regular files. */
  datatype WalkEntry = WalkEntry(folder: string, entries: seq<(string, bool)>)

  datatype CountRow = CountRow(folder: string, countPrefix: nat, countNonPrefix: nat)

  /** `[f for f in filenames if os.path.isfile(...)]`. */
  function RegularFiles(entries: seq<(string, bool)>): (r: seq<string>)
    ensures |r| <= |entries|
    ensures forall f :: f in r ==> (f, true) in entries
    ensures forall i :: 0 <= i < |entries| && entries[i].1 ==> entries[i].0 in r
    decreases |entries|
  {
    if entries == [] then []
    else
      var m := |entries| - 1;
      var before := RegularFiles(entries[..m]);
      assert forall i :: 0 <= i < m ==> entries[..m][i] == entries[i];
      before + (if entries[m].1 then [entries[m].0] else [])
  }

  /** `os.path.isfile` of each entry, as a mask on the entries' positions. */
  function IsFileMask(entries: seq<(string, bool)>): nat -> bool {
    (i: nat) => i < |entries| && entries[i].1
  }

  /** The names of the entries at the given positions, in the order of the positions. */
  function NamesAt(entries: seq<(string, bool)>, positions: seq<nat>): (r: seq<string>)
    requires forall k :: 0 <= k < |positions| ==> positions[k] < |entries|
    ensures |r| == |positions| && forall k :: 0 <= k < |r| ==> r[k] == entries[positions[k]].0
  {
    seq(|positions|, k requires 0 <= k < |positions| => entries[positions[k]].0)
  }

  /**
   * The comprehension keeps exactly the entries that are regular files, once each and in
   * the walk's order: the names at the ascending positions where `isfile` holds.
   */
  lemma {:induction false} RegularFilesSelection(entries: seq<(string, bool)>)
    ensures RegularFiles(entries) == NamesAt(entries, Where(|entries|, IsFileMask(entries)))
    decreases |entries|
  {
    if entries != [] {
      RegularFilesSelection(entries[..|entries| - 1]);
      RegularFilesSnoc(entries);
      SelectionSnoc(entries);
    }
  }

  /** The last entry adds its name when it is a regular file. */
  lemma RegularFilesSnoc(entries: seq<(string, bool)>)
    requires entries != []
    ensures var n := |entries|;
      RegularFiles(entries) == RegularFiles(entries[..n - 1]) + (if entries[n - 1].1 then [entries[n - 1].0] else [])
  {
  }

  lemma SelectionSnoc(entries: seq<(string, bool)>)
    requires entries != []
    ensures var n := |entries|;
      NamesAt(entries, Where(n, IsFileMask(entries)))
        == NamesAt(entries[..n - 1], Where(n - 1, IsFileMask(entries[..n - 1])))
           + (if entries[n - 1].1 then [entries[n - 1].0] else [])
  {
    var n := |entries|;
    var w := Where(n - 1, IsFileMask(entries[..n - 1]));
    var last: seq<nat> := if entries[n - 1].1 then [n - 1] else [];
    FileMaskSnoc(entries);
    NamesAtPrefix(entries, w);
    NamesAtConcat(entries, w, last);
    assert NamesAt(entries, last) == if entries[n - 1].1 then [entries[n - 1].0] else [];
  }

  lemma NamesAtConcat(entries: seq<(string, bool)>, a: seq<nat>, b: seq<nat>)
    requires forall k :: 0 <= k < |a| ==> a[k] < |entries|
    requires forall k :: 0 <= k < |b| ==> b[k] < |entries|
    ensures NamesAt(entries, a + b) == NamesAt(entries, a) + NamesAt(entries, b)
  {
  }

  lemma FileMaskSnoc(entries: seq<(string, bool)>)
    requires entries != []
    ensures var n := |entries|;
      Where(n, IsFileMask(entries))
        == Where(n - 1, IsFileMask(entries[..n - 1])) + (if entries[n - 1].1 then [n - 1] else [])
  {
    var n := |entries|;
    var prefix := entries[..n - 1];
    assert forall i: nat :: i < n - 1 ==> prefix[i] == entries[i];
    WhereSame(n - 1, IsFileMask(entries), IsFileMask(prefix));
  }

  lemma NamesAtPrefix(entries: seq<(string, bool)>, w: seq<nat>)
    requires entries != [] && forall k :: 0 <= k < |w| ==> w[k] < |entries| - 1
    ensures NamesAt(entries, w) == NamesAt(entries[..|entries| - 1], w)
  {
    var prefix := entries[..|entries| - 1];
    assert forall k :: 0 <= k < |w| ==> prefix[w[k]] == entries[w[k]];
  }

  /** `sum(f.startswith(prefix) for f in files)`. */
  function CountPrefix(files: seq<string>, prefix: string): nat
    decreases |files|
  {
    if files == [] then 0
    else CountPrefix(files[..|files| - 1], prefix) + (if StartsWith(files[|files| - 1], prefix) then 1 else 0)
  }

  /** The files not starting with the prefix, counted on their own. */
  function CountWithout(files: seq<string>, prefix: string): nat
    decreases |files|
  {
    if files == [] then 0
    else CountWithout(files[..|files| - 1], prefix) + (if StartsWith(files[|files| - 1], prefix) then 0 else 1)
  }

  /** Every file is counted once: with the prefix or without it. */
  lemma {:induction false} CountsPartition(files: seq<string>, prefix: string)
    ensures CountPrefix(files, prefix) + CountWithout(files, prefix) == |files|
    ensures CountPrefix(files, prefix) <= |files|
    decreases |files|
  {
    if files != [] {
      CountsPartition(files[..|files| - 1], prefix);
    }
  }

  /** The row of one slide folder. */
  function FolderRow(entry: WalkEntry, prefix: string): (r: CountRow)
    ensures r.folder == entry.folder
    ensures r.countPrefix == CountPrefix(RegularFiles(entry.entries), prefix)
    ensures r.countNonPrefix == CountWithout(RegularFiles(entry.entries), prefix)
    ensures r.countPrefix + r.countNonPrefix == |RegularFiles(entry.entries)|
  {
    var files := RegularFiles(entry.entries);
    CountsPartition(files, prefix);
    if files != [] then
      var countPrefix := CountPrefix(files, prefix);
      CountRow(entry.folder, countPrefix, |files| - countPrefix)
    else
      CountRow(entry.folder, 0, 0)
  }

  /**
   * `count_files_by_prefix`: the loop returns after the first folder the walk
   * yields, so only that folder is looked at, and reported only if it is a slide
   * folder; a walk that yields nothing falls off the end and returns None.
   */
  method CountFilesByPrefix(walk: seq<WalkEntry>, prefix: string) returns (r: Option<seq<CountRow>>)
    ensures walk == [] <==> r.None?
    ensures r.Some? ==> |r.value| <= 1
    ensures r.Some? ==> (r.value != [] <==> EndsWith(walk[0].folder, SlideFolderSuffix))
    ensures r.Some? && r.value != [] ==> r.value[0] == FolderRow(walk[0], prefix)
  {
    var results := [];
    // The loop over the walk returns at the end of its first pass.
    if walk != [] {
      var entry := walk[0];
      if EndsWith(entry.folder, SlideFolderSuffix) {
        var files := RegularFiles(entry.entries);
        var countPrefix, countNonPrefix;
        if files != [] {
          countPrefix := CountPrefix(files, prefix);
          CountsPartition(files, prefix);
          countNonPrefix := |files| - countPrefix;
        } else {
          countPrefix, countNonPrefix := 0, 0;
        }
        results := results + [CountRow(entry.folder, countPrefix, countNonPrefix)];
      }
      return Some(results);
    }
    return None;
  }

  /** A slide folder without regular files is reported with both counts zero. */
  lemma EmptyFolderCounts(entry: WalkEntry, prefix: string)
    requires forall i :: 0 <= i < |entry.entries| ==> !entry.entries[i].1
    ensures FolderRow(entry, prefix) == CountRow(entry.folder, 0, 0)
  {
    NoRegularFiles(entry.entries);
  }

  lemma {:induction false} NoRegularFiles(entries: seq<(string, bool)>)
    requires forall i :: 0 <= i < |entries| ==> !entries[i].1
    ensures RegularFiles(entries) == []
    decreases |entries|
  {
    if entries != [] {
      NoRegularFiles(entries[..|entries| - 1]);
    }
  }

  const Header := ["slide_id", "image_files", "ann_files"]

  /** The type error Python raises when iterating `None`. */
  const IterateNone := TypeError("'NoneType' object is not iterable")

  /**
   * `export_to_csv`: the header row, then folder and the two counts per result in
   * order, as the writer's fields; iterating a missing result raises after the
   * header has been written.
   */
  method ExportToCsv(results: Option<seq<CountRow>>) returns (rows: seq<seq<string>>, error: Option<Exception>)
    ensures rows != [] && rows[0] == Header
    ensures results.None? ==> rows == [Header] && error == Some(IterateNone)
    ensures results.Some? ==> error.None? && |rows| == |results.value| + 1
    ensures results.Some? ==> forall k :: 0 <= k < |results.value| ==>
      rows[k + 1] == [results.value[k].folder, NatToString(results.value[k].countPrefix),
                      NatToString(results.value[k].countNonPrefix)]
  {
    rows := [Header];
    if results.None? {
      return rows, Some(IterateNone);
    }
    var rs := results.value;
    for k := 0 to |rs|
      invariant |rows| == k + 1 && rows[0] == Header
      invariant forall j :: 0 <= j < k ==>
        rows[j + 1] == [rs[j].folder, NatToString(rs[j].countPrefix), NatToString(rs[j].countNonPrefix)]
    {
      rows := rows + [[rs[k].folder, NatToString(rs[k].countPrefix), NatToString(rs[k].countNonPrefix)]];
    }
    return rows, None;
  }

  /** Each count written is read back from its field: the exported rows determine the counts. */
  lemma ExportedCountsReadBack(row: CountRow)
    ensures ParseNat(NatToString(row.countPrefix)) == row.countPrefix
    ensures ParseNat(NatToString(row.countNonPrefix)) == row.countNonPrefix
  {
    ParseNatToString(row.countPrefix);
    ParseNatToString(row.countNonPrefix);
  }
}
