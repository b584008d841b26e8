/**
 * The error summary of the verification step: from every validator output file of
 * a directory, the lines that report an error, each prefixed with the file's name.
 * The directory listing becomes a parameter, each file with its lines (each line
 * as Python's file iteration gives it, newline included); the summary is the
 * sequence of strings written, in order.
 */
module SummarizeErrors {
  import opened Strings

  const SummaryName := "error_summary.txt"
  const OutputSuffix := "_output.txt"
  const ErrorMarker := "Error"

  /** A file of the listing: its name and its lines. */
  datatype ListedFile = ListedFile(name: string, lines: seq<string>)

  /** The summary lines of one file: `f"{filename}: {line}"` for each of its error lines. */
  function ErrorLines(name: string, lines: seq<string>): seq<string>
    decreases |lines|
  {
    if lines == [] then []
    else
      var m := |lines| - 1;
      ErrorLines(name, lines[..m]) + (if StartsWith(lines[m], ErrorMarker) then [name + ": " + lines[m]] else [])
  }

  /** The lines a listed file contributes: none unless it is a validator output file. */
  function FileSummary(f: ListedFile): seq<string> {
    if EndsWith(f.name, OutputSuffix) then ErrorLines(f.name, f.lines) else []
  }

  /** The whole summary, file after file in listing order. */
  function Summary(listing: seq<ListedFile>): seq<string>
    decreases |listing|
  {
    if listing == [] then [] else Summary(listing[..|listing| - 1]) + FileSummary(listing[|listing| - 1])
  }

  /** `summarize_errors`: the files of the listing, then their lines, written when they report an error. */
  method SummarizeErrorsIn(listing: seq<ListedFile>) returns (written: seq<string>)
    ensures written == Summary(listing)
  {
    written := [];
    for i := 0 to |listing|
      invariant written == Summary(listing[..i])
    {
      assert listing[..i + 1][..i] == listing[..i];
      var f := listing[i];
      if EndsWith(f.name, OutputSuffix) {
        ghost var before := written;
        for j := 0 to |f.lines|
          invariant written == before + ErrorLines(f.name, f.lines[..j])
        {
          assert f.lines[..j + 1][..j] == f.lines[..j];
          if StartsWith(f.lines[j], ErrorMarker) {
            written := written + [f.name + ": " + f.lines[j]];
          }
        }
        assert f.lines[..|f.lines|] == f.lines;
      }
    }
    assert listing[..|listing|] == listing;
  }

  /** Every summary line of a file is that file's name and one of its error lines, verbatim. */
  lemma {:induction false} ErrorLinesSound(name: string, lines: seq<string>, k: nat)
    requires k < |ErrorLines(name, lines)|
    ensures exists j :: 0 <= j < |lines| && StartsWith(lines[j], ErrorMarker)
                        && ErrorLines(name, lines)[k] == name + ": " + lines[j]
    decreases |lines|
  {
    var m := |lines| - 1;
    var before := ErrorLines(name, lines[..m]);
    if k < |before| {
      ErrorLinesSound(name, lines[..m], k);
      var j :| 0 <= j < m && StartsWith(lines[..m][j], ErrorMarker) && before[k] == name + ": " + lines[..m][j];
      assert lines[j] == lines[..m][j];
    } else {
      assert ErrorLines(name, lines)[k] == name + ": " + lines[m];
    }
  }

  /** Every error line of a file is in the summary; the lines keep their order. */
  lemma {:induction false} ErrorLinesComplete(name: string, lines: seq<string>, i: nat, j: nat)
    requires i < j < |lines| && StartsWith(lines[i], ErrorMarker) && StartsWith(lines[j], ErrorMarker)
    ensures exists a, b ::
      && 0 <= a < b < |ErrorLines(name, lines)|
      && ErrorLines(name, lines)[a] == name + ": " + lines[i]
      && ErrorLines(name, lines)[b] == name + ": " + lines[j]
  {
    var a := ErrorLineAt(name, lines, i);
    var b := ErrorLineAt(name, lines, j);
    ErrorLineAtMonotone(name, lines, i, j);
  }

  /** The position in the summary of the error line `i`: the error lines before it. */
  function ErrorLineAt(name: string, lines: seq<string>, i: nat): (a: nat)
    requires i < |lines| && StartsWith(lines[i], ErrorMarker)
    ensures a < |ErrorLines(name, lines)| && ErrorLines(name, lines)[a] == name + ": " + lines[i]
    ensures a == |ErrorLines(name, lines[..i])|
    decreases |lines|
  {
    var m := |lines| - 1;
    assert lines[..i + 1][..i] == lines[..i];
    if i == m then
      assert lines[..m] == lines[..i];
      |ErrorLines(name, lines[..m])|
    else
      assert lines[..m][..i] == lines[..i];
      ErrorLineAt(name, lines[..m], i)
  }

  lemma {:induction false} ErrorLineAtMonotone(name: string, lines: seq<string>, i: nat, j: nat)
    requires i < j < |lines| && StartsWith(lines[i], ErrorMarker)
    ensures |ErrorLines(name, lines[..i])| < |ErrorLines(name, lines[..j])|
    decreases j - i
  {
    var p := lines[..j];
    assert p[..j - 1] == lines[..j - 1];
    assert lines[..i + 1][..i] == lines[..i];
    if i + 1 < j {
      ErrorLineAtMonotone(name, lines, i, j - 1);
    } else {
      assert p[j - 1] == lines[i];
    }
  }

  /** Every line of the summary comes from an error line of a listed validator output file. */
  lemma {:induction false} SummarySound(listing: seq<ListedFile>, k: nat)
    requires k < |Summary(listing)|
    ensures exists i, j ::
      && 0 <= i < |listing| && 0 <= j < |listing[i].lines|
      && EndsWith(listing[i].name, OutputSuffix) && StartsWith(listing[i].lines[j], ErrorMarker)
      && Summary(listing)[k] == listing[i].name + ": " + listing[i].lines[j]
    decreases |listing|
  {
    var m := |listing| - 1;
    var prefix := listing[..m];
    if k < |Summary(prefix)| {
      SummarySound(prefix, k);
      var i, j :| && 0 <= i < |prefix| && 0 <= j < |prefix[i].lines|
                  && EndsWith(prefix[i].name, OutputSuffix) && StartsWith(prefix[i].lines[j], ErrorMarker)
                  && Summary(prefix)[k] == prefix[i].name + ": " + prefix[i].lines[j];
      assert prefix[i] == listing[i];
    } else {
      var f := listing[m];
      ErrorLinesSound(f.name, f.lines, k - |Summary(prefix)|);
    }
  }

  /** The summary file itself is never read back, whatever the listing order. */
  lemma SummaryNeverRead(lines: seq<string>)
    ensures FileSummary(ListedFile(SummaryName, lines)) == []
  {
    assert SummaryName[|SummaryName| - |OutputSuffix|..] != OutputSuffix by {
      assert SummaryName[|SummaryName| - |OutputSuffix|..][0] == SummaryName[6] == 's';
    }
  }
}
