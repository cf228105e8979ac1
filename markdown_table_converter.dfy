/**
 * The text side of the markdown-table converter: finding the tables in a
 * text, splitting a table row into cells and wrapping a cell's text to a
 * column width. Building the DOCX and PDF documents is left to the document
 * libraries and is not modelled.
 */
module MarkdownTableConverter {
  import opened Wrappers
  import opened Text

  // ---------------------------------------------------------------------
  // Table detection
  // ---------------------------------------------------------------------

  /** A table found in the text: its 1-based first line and its data rows, stripped. */
  datatype Table = Table(startLine: nat, rows: seq<string>)

  /** A line that, once stripped, starts and ends with `|`. */
  predicate IsTableLine(line: string)
  {
    TableMarker(Strip(line))
  }

  /** A character of the class `[\|\-\:\s]`. */
  predicate IsSeparatorChar(c: char)
  {
    c == '|' || c == '-' || c == ':' || IsSpace(c)
  }

  /** A row matching `^[\|\-\:\s]+$`: the `|---|:--:|` line under a header. */
  predicate IsSeparatorRow(row: string)
  {
    row != [] && forall i :: 0 <= i < |row| ==> IsSeparatorChar(row[i])
  }

  function KeepRow(row: string): Option<string>
  {
    if IsSeparatorRow(row) then None else Some(row)
  }

  /** The rows of a run that are not separator rows, in order. */
  function DataRows(rows: seq<string>): seq<string>
  {
    FilterMap(rows, KeepRow)
  }

  /**
   * Exactly the rows that are not separator rows are kept, so a run made
   * only of separator rows keeps nothing.
   */
  lemma DataRowsSpec(rows: seq<string>)
    ensures |DataRows(rows)| <= |rows|
    ensures forall r :: r in DataRows(rows) ==> r in rows && !IsSeparatorRow(r)
    ensures forall k :: 0 <= k < |rows| && !IsSeparatorRow(rows[k]) ==> rows[k] in DataRows(rows)
    ensures DataRows(rows) == [] <==> forall k :: 0 <= k < |rows| ==> IsSeparatorRow(rows[k])
  {
    FilterMapSpec(rows, KeepRow);
    forall r | r in DataRows(rows) ensures r in rows && !IsSeparatorRow(r) {
      var i :| 0 <= i < |rows| && KeepRow(rows[i]) == Some(r);
    }
    if DataRows(rows) != [] {
      var r := DataRows(rows)[0];
      var i :| 0 <= i < |rows| && KeepRow(rows[i]) == Some(r);
      assert !IsSeparatorRow(rows[i]);
    }
    forall k | 0 <= k < |rows| && !IsSeparatorRow(rows[k]) ensures rows[k] in DataRows(rows) {
      assert KeepRow(rows[k]).Some?;
    }
  }

  /** The loop over `current_table` that drops the separator rows. */
  method FilterSeparators(current: seq<string>) returns (rows: seq<string>)
    ensures rows == DataRows(current)
  {
    rows := [];
    for k := 0 to |current|
      invariant rows == DataRows(current[..k])
    {
      FilterMapStep(current, KeepRow, k);
      if !IsSeparatorRow(current[k]) {
        rows := rows + [current[k]];
      }
    }
    WholePrefix(current);
  }

  /** The number of table lines at the start of `lines`. */
  function RunLength(isTable: string -> bool, lines: seq<string>): (n: nat)
    ensures n <= |lines|
    ensures forall k :: 0 <= k < n ==> isTable(lines[k])
    ensures n < |lines| ==> !isTable(lines[n])
  {
    if lines == [] || !isTable(lines[0]) then 0 else 1 + RunLength(isTable, lines[1..])
  }

  /** Every line stripped. */
  function StripAll(lines: seq<string>): (r: seq<string>)
  {
    MapSeq(Strip, lines)
  }

  /** A run of consecutive lines that satisfy the table test, and its 1-based first line. */
  datatype Run = Run(first: nat, lines: seq<string>)

  /**
   * The maximal runs of consecutive lines satisfying `isTable`, in order,
   * for `lines` whose first line is line `offset + 1` of the text.
   */
  function Runs(isTable: string -> bool, lines: seq<string>, offset: nat): seq<Run>
    decreases |lines|
  {
    if lines == [] then []
    else if !isTable(lines[0]) then Runs(isTable, lines[1..], offset + 1)
    else
      var n := RunLength(isTable, lines);
      [Run(offset + 1, lines[..n])] + Runs(isTable, lines[n..], offset + n)
  }

  /** What a finished run contributes: a table of its stripped data rows, if it has any. */
  function TableOf(run: Run): Option<Table>
  {
    TableFrom(run.first, DataRows(StripAll(run.lines)))
  }

  /** A table starting at line `first` with these data rows, unless there are none. */
  function TableFrom(first: nat, rows: seq<string>): Option<Table>
  {
    if rows == [] then None else Some(Table(first, rows))
  }

  /** The tables of a text split into lines. */
  function Detect(lines: seq<string>): seq<Table>
  {
    FilterMap(Runs(IsTableLine, lines, 0), TableOf)
  }

  /** A stripped line that starts and ends with `|`. */
  predicate TableMarker(stripped: string)
  {
    stripped != [] && stripped[0] == '|' && stripped[|stripped| - 1] == '|'
  }

  /** `detect_markdown_tables`. */
  method DetectMarkdownTables(text: string) returns (tables: seq<Table>)
    ensures tables == Detect(SplitOn(text, '\n'))
  {
    var lines := SplitOn(text, '\n');
    tables := ScanLines(lines, IsTableLine, TableOf);
  }

  /**
   * The loop of `detect_markdown_tables` over the lines, stated for a line
   * test and a table builder that agree with the real ones on the lines
   * and runs the loop looks at.
   */
  method ScanLines(lines: seq<string>, ghost isTable: string -> bool, ghost tableOf: Run -> Option<Table>)
    returns (tables: seq<Table>)
    requires LineTest(lines, isTable) && TableBuilder(lines, tableOf)
    ensures tables == FilterMap(Runs(isTable, lines, 0), tableOf)
  {
    tables := [];
    var current: seq<string> := [];
    var start: Option<nat> := None;
    ghost var done: nat := 0;
    var i := 0;
    while i < |lines|
      invariant i <= |lines|
      invariant Scanning(isTable, tableOf, lines, i, done, current, start, tables)
    {
      assert isTable(lines[i]) == TableMarker(Strip(lines[i]));
      assert tableOf(Run(done + 1, lines[done..i])) == TableFrom(done + 1, DataRows(StripAll(lines[done..i])));
      done, current, start, tables := ScanLine(lines, isTable, tableOf, i, done, current, start, tables);
      i := i + 1;
    }
    if current == [] {
      EndOfText(isTable, tableOf, lines, i, done, tables);
    } else {
      var rows := FilterSeparators(current);
      assert tableOf(Run(done + 1, lines[done..i])) == TableFrom(done + 1, rows);
      ghost var tables0 := tables;
      if rows != [] {
        tables := tables + [Table(start.value, rows)];
      }
      EndInRun(isTable, tableOf, lines, i, done, current, start, tables0, tableOf(Run(done + 1, lines[done..i])), tables);
    }
  }

  /** `isTable` is the table-line test on every line. */
  ghost predicate LineTest(lines: seq<string>, isTable: string -> bool)
  {
    forall k {:trigger Strip(lines[k])} :: 0 <= k < |lines| ==> isTable(lines[k]) == TableMarker(Strip(lines[k]))
  }

  /** `tableOf` builds the table of every stretch of lines. */
  ghost predicate TableBuilder(lines: seq<string>, tableOf: Run -> Option<Table>)
  {
    forall d, j {:trigger DataRows(StripAll(lines[d..j]))} :: 0 <= d <= j <= |lines| ==>
      tableOf(Run(d + 1, lines[d..j])) == TableFrom(d + 1, DataRows(StripAll(lines[d..j])))
  }

  /** One pass of the loop body of `detect_markdown_tables`, over line `i`. */
  method ScanLine(lines: seq<string>, ghost isTable: string -> bool, ghost tableOf: Run -> Option<Table>,
                  i: nat, ghost done: nat, current: seq<string>, start: Option<nat>, tables: seq<Table>)
    returns (ghost done': nat, current': seq<string>, start': Option<nat>, tables': seq<Table>)
    requires i < |lines| && Scanning(isTable, tableOf, lines, i, done, current, start, tables)
    requires isTable(lines[i]) == TableMarker(Strip(lines[i]))
    requires tableOf(Run(done + 1, lines[done..i])) == TableFrom(done + 1, DataRows(StripAll(lines[done..i])))
    ensures Scanning(isTable, tableOf, lines, i + 1, done', current', start', tables')
  {
    done', current', start', tables' := done, current, start, tables;
    var stripped := Strip(lines[i]);
    if TableMarker(stripped) {
      if current' == [] {
        start' := Some(i + 1);
      }
      current' := current' + [stripped];
      ContinueRun(isTable, tableOf, lines, i, done, current, start, tables, done', current', start', tables');
    } else if current' == [] {
      done' := i + 1;
      SkipLine(isTable, tableOf, lines, i, done, current, start, tables, done', current', start', tables');
    } else {
      tables' := CloseOpenRun(lines, isTable, tableOf, i, done, current, start, tables);
      current' := [];
      start' := None;
      done' := i + 1;
    }
  }

  /** The branch of the loop body that closes the open run and adds its table, if it has data rows. */
  method CloseOpenRun(lines: seq<string>, ghost isTable: string -> bool, ghost tableOf: Run -> Option<Table>,
                      i: nat, ghost done: nat, current: seq<string>, start: Option<nat>, tables: seq<Table>)
    returns (tables': seq<Table>)
    requires i < |lines| && Scanning(isTable, tableOf, lines, i, done, current, start, tables)
    requires !isTable(lines[i]) && current != []
    requires tableOf(Run(done + 1, lines[done..i])) == TableFrom(done + 1, DataRows(StripAll(lines[done..i])))
    ensures Scanning(isTable, tableOf, lines, i + 1, i + 1, [], None, tables')
  {
    var rows := FilterSeparators(current);
    tables' := tables + if rows != [] then [Table(start.value, rows)] else [];
    CloseRun(isTable, tableOf, lines, i, done, current, start, tables, rows, tables');
  }

  /**
   * The scan has read `lines[..i]`: the runs before `done` are settled into
   * `tables`, and `current` holds the stripped lines of the open run.
   */
  ghost predicate Scanning(isTable: string -> bool, tableOf: Run -> Option<Table>, lines: seq<string>, i: nat, done: nat,
                           current: seq<string>, start: Option<nat>, tables: seq<Table>)
  {
    && done <= i <= |lines|
    && (done == 0 || !isTable(lines[done - 1]))
    && (forall k :: done <= k < i ==> isTable(lines[k]))
    && current == StripAll(lines[done..i])
    && start == (if current == [] then None else Some(done + 1))
    && tables == FilterMap(Runs(isTable, lines[..done], 0), tableOf)
  }

  /** A table line extends the open run. */
  lemma ContinueRun(isTable: string -> bool, tableOf: Run -> Option<Table>, lines: seq<string>, i: nat, done: nat,
                    current: seq<string>, start: Option<nat>, tables: seq<Table>,
                    done': nat, current': seq<string>, start': Option<nat>, tables': seq<Table>)
    requires i < |lines| && Scanning(isTable, tableOf, lines, i, done, current, start, tables)
    requires isTable(lines[i])
    requires done' == done && tables' == tables
    requires current' == current + [Strip(lines[i])]
    requires start' == if current == [] then Some(i + 1) else start
    ensures Scanning(isTable, tableOf, lines, i + 1, done', current', start', tables')
  {
    StripAllSnoc(lines, done, i);
    if current == [] {
      assert done == i;
    }
  }

  /** Any other line, with no run open, is skipped. */
  lemma SkipLine(isTable: string -> bool, tableOf: Run -> Option<Table>, lines: seq<string>, i: nat, done: nat,
                 current: seq<string>, start: Option<nat>, tables: seq<Table>,
                 done': nat, current': seq<string>, start': Option<nat>, tables': seq<Table>)
    requires i < |lines| && Scanning(isTable, tableOf, lines, i, done, current, start, tables)
    requires !isTable(lines[i]) && current == []
    requires done' == i + 1 && current' == current && start' == start && tables' == tables
    ensures Scanning(isTable, tableOf, lines, i + 1, done', current', start', tables')
  {
    assert done == i;
    FlushStep(isTable, lines, done, i);
    assert RunsThen(isTable, lines, done, i) == Runs(isTable, lines[..done], 0) + [];
    assert Runs(isTable, lines[..i + 1], 0) == Runs(isTable, lines[..i], 0);
  }

  /** Any other line closes the open run, whose data rows, if any, make the next table. */
  lemma CloseRun(isTable: string -> bool, tableOf: Run -> Option<Table>, lines: seq<string>, i: nat, done: nat,
                 current: seq<string>, start: Option<nat>, tables: seq<Table>, rows: seq<string>, tables': seq<Table>)
    requires i < |lines| && Scanning(isTable, tableOf, lines, i, done, current, start, tables)
    requires !isTable(lines[i]) && current != [] && start.Some?
    requires tableOf(Run(done + 1, lines[done..i])) == TableFrom(done + 1, DataRows(StripAll(lines[done..i])))
    requires rows == DataRows(current)
    requires tables' == tables + if rows != [] then [Table(start.value, rows)] else []
    ensures Scanning(isTable, tableOf, lines, i + 1, i + 1, [], None, tables')
  {
    FlushStep(isTable, lines, done, i);
    FilterMapSnoc(Runs(isTable, lines[..done], 0), Run(done + 1, lines[done..i]), tableOf);
  }

  /** At the end of the text with no run open, the tables are complete. */
  lemma EndOfText(isTable: string -> bool, tableOf: Run -> Option<Table>, lines: seq<string>, i: nat, done: nat,
                  tables: seq<Table>)
    requires i == |lines| && Scanning(isTable, tableOf, lines, i, done, [], None, tables)
    ensures FilterMap(Runs(isTable, lines, 0), tableOf) == tables
  {
    assert done == |lines|;
    assert lines[..done] == lines;
  }

  /** At the end of the text the open run is closed like any other. */
  lemma EndInRun(isTable: string -> bool, tableOf: Run -> Option<Table>, lines: seq<string>, i: nat, done: nat,
                 current: seq<string>, start: Option<nat>, tables: seq<Table>, t: Option<Table>,
                 tables': seq<Table>)
    requires i == |lines| && Scanning(isTable, tableOf, lines, i, done, current, start, tables)
    requires current != [] && t == tableOf(Run(done + 1, lines[done..i]))
    requires tables' == tables + if t.Some? then [t.value] else []
    ensures FilterMap(Runs(isTable, lines, 0), tableOf) == tables'
  {
    EndStep(isTable, lines, done);
    assert lines[done..i] == lines[done..];
    FilterMapSnoc(Runs(isTable, lines[..done], 0), Run(done + 1, lines[done..]), tableOf);
  }

  lemma StripAllSnoc(lines: seq<string>, done: nat, i: nat)
    requires done <= i < |lines|
    ensures StripAll(lines[done..i + 1]) == StripAll(lines[done..i]) + [Strip(lines[i])]
  {
    assert lines[done..i + 1] == lines[done..i] + [lines[i]];
    MapSeqSnoc(Strip, lines[done..i], lines[i]);
  }

  /** The runs of `lines[..done]` and then the open run, if any. */
  function RunsThen(isTable: string -> bool, lines: seq<string>, done: nat, i: nat): seq<Run>
    requires done <= i <= |lines|
  {
    Runs(isTable, lines[..done], 0) + (if done < i then [Run(done + 1, lines[done..i])] else [])
  }

  /** A line failing the test at `i` closes the run that began at `done`. */
  lemma FlushStep(isTable: string -> bool, lines: seq<string>, done: nat, i: nat)
    requires done <= i < |lines|
    requires done == 0 || !isTable(lines[done - 1])
    requires forall k :: done <= k < i ==> isTable(lines[k])
    requires !isTable(lines[i])
    ensures Runs(isTable, lines[..i + 1], 0) == RunsThen(isTable, lines, done, i)
  {
    assert lines[..i + 1] == lines[..done] + (lines[done..i] + [lines[i]]);
    RunsSplit(isTable, lines[..done], lines[done..i] + [lines[i]], 0);
    OneRun(isTable, lines[done..i], [lines[i]], done);
  }

  /** At the end of the text the open run, if any, is closed as well. */
  lemma EndStep(isTable: string -> bool, lines: seq<string>, done: nat)
    requires done <= |lines|
    requires done == 0 || !isTable(lines[done - 1])
    requires forall k :: done <= k < |lines| ==> isTable(lines[k])
    ensures Runs(isTable, lines, 0)
      == Runs(isTable, lines[..done], 0) + (if done < |lines| then [Run(done + 1, lines[done..])] else [])
  {
    SplitAt(lines, done);
    SuffixAll(isTable, lines, done);
    EndRuns(isTable, lines[..done], lines[done..]);
  }

  lemma EndRuns(isTable: string -> bool, a: seq<string>, b: seq<string>)
    requires a == [] || !isTable(a[|a| - 1])
    requires forall k :: 0 <= k < |b| ==> isTable(b[k])
    ensures Runs(isTable, a + b, 0) == Runs(isTable, a, 0) + (if b != [] then [Run(|a| + 1, b)] else [])
  {
    RunsSplit(isTable, a, b, 0);
    LastRun(isTable, b, |a|);
  }

  lemma SuffixAll(isTable: string -> bool, lines: seq<string>, done: nat)
    requires done <= |lines|
    requires forall k :: done <= k < |lines| ==> isTable(lines[k])
    ensures forall k :: 0 <= k < |lines[done..]| ==> isTable(lines[done..][k])
  {
  }

  /** A run of passing lines closed by one failing line is one run. */
  lemma OneRun(isTable: string -> bool, run: seq<string>, tail: seq<string>, o: nat)
    requires forall k :: 0 <= k < |run| ==> isTable(run[k])
    requires |tail| == 1 && !isTable(tail[0])
    ensures Runs(isTable, run + tail, o) == if run == [] then [] else [Run(o + 1, run)]
  {
    NoRuns(isTable, tail, o + |run|);
    if run == [] {
      assert run + tail == tail;
    } else {
      AppendHeadTail(run, tail);
      RunLengthAll(isTable, run, tail);
      SliceAppend(run, tail, |run|);
    }
  }

  /** Passing lines up to the end of the text are one run. */
  lemma LastRun(isTable: string -> bool, run: seq<string>, o: nat)
    requires forall k :: 0 <= k < |run| ==> isTable(run[k])
    ensures Runs(isTable, run, o) == if run == [] then [] else [Run(o + 1, run)]
  {
    if run != [] {
      RunLengthAll(isTable, run, []);
      assert run + [] == run;
      assert run[|run|..] == [];
    }
  }

  lemma SliceAppend<T>(a: seq<T>, b: seq<T>, n: nat)
    requires n <= |a|
    ensures (a + b)[..n] == a[..n] && (a + b)[n..] == a[n..] + b
  {
  }

  lemma NoRuns(isTable: string -> bool, tail: seq<string>, o: nat)
    requires |tail| == 1 && !isTable(tail[0])
    ensures Runs(isTable, tail, o) == []
  {
    assert tail[1..] == [];
  }

  lemma {:induction false} RunLengthAll(isTable: string -> bool, run: seq<string>, tail: seq<string>)
    requires forall k :: 0 <= k < |run| ==> isTable(run[k])
    requires tail == [] || !isTable(tail[0])
    ensures RunLength(isTable, run + tail) == |run|
    decreases |run|
  {
    if run != [] {
      AppendHeadTail(run, tail);
      RunLengthAll(isTable, run[1..], tail);
    } else {
      assert run + tail == tail;
    }
  }

  /** A run cannot cross a failing line at the end of `a`. */
  lemma {:induction false} RunLengthPrefix(isTable: string -> bool, a: seq<string>, b: seq<string>)
    requires a != [] && !isTable(a[|a| - 1])
    ensures RunLength(isTable, a + b) == RunLength(isTable, a) < |a|
    decreases |a|
  {
    AppendHeadTail(a, b);
    if isTable(a[0]) {
      RunLengthPrefix(isTable, a[1..], b);
    }
  }

  /** The runs split at a failing line. */
  lemma {:induction false} RunsSplit(isTable: string -> bool, a: seq<string>, b: seq<string>, o: nat)
    requires a == [] || !isTable(a[|a| - 1])
    ensures Runs(isTable, a + b, o) == Runs(isTable, a, o) + Runs(isTable, b, o + |a|)
    decreases |a|, 1
  {
    if a == [] {
      assert a + b == b;
    } else if !isTable(a[0]) {
      AppendHeadTail(a, b);
      RunsSplit(isTable, a[1..], b, o + 1);
    } else {
      RunsSplitAfterRun(isTable, a, b, o);
    }
  }

  lemma {:induction false} RunsSplitAfterRun(isTable: string -> bool, a: seq<string>, b: seq<string>, o: nat)
    requires a != [] && isTable(a[0]) && !isTable(a[|a| - 1])
    ensures Runs(isTable, a + b, o) == Runs(isTable, a, o) + Runs(isTable, b, o + |a|)
    decreases |a|, 0
  {
    var n := RunLength(isTable, a);
    RunsAfterFirstRun(isTable, a, b, o, n);
    RunsUnfoldRun(isTable, a, o, n);
    LastOfSuffix(a, n);
    RunsSplit(isTable, a[n..], b, o + n);
    AppendAssoc([Run(o + 1, a[..n])], Runs(isTable, a[n..], o + n), Runs(isTable, b, o + |a|));
  }

  /** The first run of `a + b` lies in `a` when `a` ends with a failing line. */
  lemma RunsAfterFirstRun(isTable: string -> bool, a: seq<string>, b: seq<string>, o: nat, n: nat)
    requires a != [] && isTable(a[0]) && !isTable(a[|a| - 1]) && n == RunLength(isTable, a)
    ensures n < |a|
    ensures Runs(isTable, a + b, o) == [Run(o + 1, a[..n])] + Runs(isTable, a[n..] + b, o + n)
  {
    AppendHeadTail(a, b);
    RunLengthPrefix(isTable, a, b);
    RunsUnfoldRun(isTable, a + b, o, n);
    SliceAppend(a, b, n);
  }

  lemma RunsUnfoldRun(isTable: string -> bool, lines: seq<string>, o: nat, n: nat)
    requires lines != [] && isTable(lines[0]) && n == RunLength(isTable, lines)
    ensures Runs(isTable, lines, o) == [Run(o + 1, lines[..n])] + Runs(isTable, lines[n..], o + n)
  {
  }

  lemma LastOfSuffix<T>(a: seq<T>, n: nat)
    requires n < |a|
    ensures a[n..] != [] && a[n..][|a[n..]| - 1] == a[|a| - 1] && |a[n..]| == |a| - n
  {
  }

  /** Line `s` begins a maximal run of passing lines. */
  predicate RunStart(isTable: string -> bool, lines: seq<string>, s: int)
  {
    0 <= s < |lines| && isTable(lines[s]) && (s == 0 || !isTable(lines[s - 1]))
  }

  /** The run of passing lines that begins at line `s`. */
  function RunFrom(isTable: string -> bool, lines: seq<string>, s: nat): seq<string>
    requires s <= |lines|
  {
    var rest := lines[s..];
    rest[..RunLength(isTable, rest)]
  }

  /** `r` is the maximal run of passing lines that begins at its first line. */
  predicate RunOf(isTable: string -> bool, lines: seq<string>, o: nat, r: Run)
  {
    o < r.first && RunStart(isTable, lines, r.first - o - 1) && r.lines == RunFrom(isTable, lines, r.first - o - 1)
  }

  /** Line `s` of `lines` is line `s - n` of `lines[n..]`. */
  lemma Shift(isTable: string -> bool, lines: seq<string>, n: nat, s: nat)
    requires 0 < n <= s < |lines|
    ensures lines[n..][s - n] == lines[s] && lines[n..][s - n..] == lines[s..]
    ensures s > n ==> lines[n..][s - n - 1] == lines[s - 1]
    ensures RunFrom(isTable, lines[n..], s - n) == RunFrom(isTable, lines, s)
  {
    assert lines[n..][s - n..] == lines[s..];
  }

  /** Every run found is a maximal run, found with its 1-based first line. */
  lemma {:induction false} RunsSound(isTable: string -> bool, lines: seq<string>, o: nat, k: nat)
    requires k < |Runs(isTable, lines, o)|
    ensures RunOf(isTable, lines, o, Runs(isTable, lines, o)[k])
    decreases |lines|
  {
    if !isTable(lines[0]) {
      var r := Runs(isTable, lines[1..], o + 1)[k];
      RunsSound(isTable, lines[1..], o + 1, k);
      RunOfTail(isTable, lines, 1, o, r);
    } else if k > 0 {
      var n := RunLength(isTable, lines);
      var r := Runs(isTable, lines[n..], o + n)[k - 1];
      RunsSound(isTable, lines[n..], o + n, k - 1);
      RunOfTail(isTable, lines, n, o, r);
    } else {
      FirstRun(isTable, lines, o);
    }
  }

  lemma FirstRun(isTable: string -> bool, lines: seq<string>, o: nat)
    requires lines != [] && isTable(lines[0])
    ensures RunOf(isTable, lines, o, Run(o + 1, lines[..RunLength(isTable, lines)]))
  {
    assert lines[0..] == lines;
  }

  /** A run of `lines[n..]` is a run of `lines` when it does not continue one ending at `n - 1`. */
  lemma RunOfTail(isTable: string -> bool, lines: seq<string>, n: nat, o: nat, r: Run)
    requires 0 < n <= |lines|
    requires RunOf(isTable, lines[n..], o + n, r)
    requires r.first - o - n - 1 == 0 ==> !isTable(lines[n - 1])
    ensures RunOf(isTable, lines, o, r)
  {
    Shift(isTable, lines, n, r.first - o - 1);
  }

  predicate Found(runs: seq<Run>, r: Run)
  {
    r in runs
  }

  /** Every maximal run is found, with its 1-based first line. */
  lemma {:induction false} RunsComplete(isTable: string -> bool, lines: seq<string>, o: nat, s: nat, r: Run)
    requires RunStart(isTable, lines, s)
    requires r == Run(o + s + 1, RunFrom(isTable, lines, s))
    ensures Found(Runs(isTable, lines, o), r)
    decreases |lines|, 1
  {
    if !isTable(lines[0]) {
      CompleteAfterSkip(isTable, lines, o, s, r);
    } else if s == 0 {
      FirstRun(isTable, lines, o);
    } else {
      CompleteAfterRun(isTable, lines, o, s, r);
    }
  }

  lemma {:induction false} CompleteAfterSkip(isTable: string -> bool, lines: seq<string>, o: nat, s: nat, r: Run)
    requires RunStart(isTable, lines, s) && !isTable(lines[0])
    requires r == Run(o + s + 1, RunFrom(isTable, lines, s))
    ensures Found(Runs(isTable, lines, o), r)
    decreases |lines|, 0
  {
    StartInTail(isTable, lines, 1, s);
    RunsComplete(isTable, lines[1..], o + 1, s - 1, r);
    RunsSkip(isTable, lines, o, r);
  }

  lemma {:induction false} CompleteAfterRun(isTable: string -> bool, lines: seq<string>, o: nat, s: nat, r: Run)
    requires RunStart(isTable, lines, s) && isTable(lines[0]) && s > 0
    requires r == Run(o + s + 1, RunFrom(isTable, lines, s))
    ensures Found(Runs(isTable, lines, o), r)
    decreases |lines|, 0
  {
    var n := RunLength(isTable, lines);
    RunLengthStops(isTable, lines, s - 1);
    StartInTail(isTable, lines, n, s);
    RunsComplete(isTable, lines[n..], o + n, s - n, r);
    RunsTake(isTable, lines, o, n, r);
  }

  lemma RunsSkip(isTable: string -> bool, lines: seq<string>, o: nat, r: Run)
    requires lines != [] && !isTable(lines[0])
    requires Found(Runs(isTable, lines[1..], o + 1), r)
    ensures Found(Runs(isTable, lines, o), r)
  {
  }

  lemma RunsTake(isTable: string -> bool, lines: seq<string>, o: nat, n: nat, r: Run)
    requires lines != []
    requires isTable(lines[0])
    requires n == RunLength(isTable, lines)
    requires Found(Runs(isTable, lines[n..], o + n), r)
    ensures Found(Runs(isTable, lines, o), r)
  {
    InAppend(Run(o + 1, lines[..n]), Runs(isTable, lines[n..], o + n), r);
  }

  lemma InAppend<T>(head: T, rest: seq<T>, x: T)
    requires x in rest
    ensures x in [head] + rest
  {
  }

  /** A maximal run of `lines` after line `n` is one of `lines[n..]`. */
  lemma StartInTail(isTable: string -> bool, lines: seq<string>, n: nat, s: nat)
    requires 0 < n <= s && RunStart(isTable, lines, s)
    ensures RunStart(isTable, lines[n..], s - n)
    ensures RunFrom(isTable, lines[n..], s - n) == RunFrom(isTable, lines, s)
  {
    Shift(isTable, lines, n, s);
  }

  /** A run of passing lines ends at the first failing line. */
  lemma RunLengthStops(isTable: string -> bool, lines: seq<string>, j: nat)
    requires j < |lines| && !isTable(lines[j])
    ensures RunLength(isTable, lines) <= j
  {
  }

  predicate Increasing(runs: seq<Run>)
  {
    forall k, l :: 0 <= k < l < |runs| ==> runs[k].first < runs[l].first
  }

  predicate After(runs: seq<Run>, bound: nat)
  {
    forall k :: 0 <= k < |runs| ==> bound < runs[k].first
  }

  /** Runs come in increasing order of their first line. */
  lemma {:induction false} RunsOrdered(isTable: string -> bool, lines: seq<string>, o: nat)
    ensures Increasing(Runs(isTable, lines, o))
    decreases |lines|
  {
    if lines != [] {
      if !isTable(lines[0]) {
        RunsOrdered(isTable, lines[1..], o + 1);
      } else {
        var n := RunLength(isTable, lines);
        RunsOrdered(isTable, lines[n..], o + n);
        RunsAfter(isTable, lines[n..], o + n);
      }
    }
  }

  lemma RunsAfter(isTable: string -> bool, lines: seq<string>, o: nat)
    ensures After(Runs(isTable, lines, o), o)
  {
    forall k | 0 <= k < |Runs(isTable, lines, o)| ensures o < Runs(isTable, lines, o)[k].first {
      RunsSound(isTable, lines, o, k);
    }
  }

  /** A table made from a run reports the run's first line and its stripped data rows. */
  lemma TableOfRun(r: Run, t: Table)
    requires TableOf(r) == Some(t)
    ensures t.startLine == r.first && t.rows == DataRows(StripAll(r.lines)) && t.rows != []
  {
  }

  /**
   * Every detected table begins a maximal run of table lines, reports the
   * run's 1-based first line and holds exactly the run's stripped data rows,
   * of which there is at least one.
   */
  lemma DetectSound(lines: seq<string>, t: Table)
    requires t in Detect(lines)
    ensures 0 < t.startLine
    ensures RunStart(IsTableLine, lines, t.startLine - 1)
    ensures t.rows == DataRows(StripAll(RunFrom(IsTableLine, lines, t.startLine - 1))) && t.rows != []
  {
    TablesSound(IsTableLine, lines, t);
  }

  lemma TablesSound(isTable: string -> bool, lines: seq<string>, t: Table)
    requires t in FilterMap(Runs(isTable, lines, 0), TableOf)
    ensures 0 < t.startLine
    ensures RunStart(isTable, lines, t.startLine - 1)
    ensures t.rows == DataRows(StripAll(RunFrom(isTable, lines, t.startLine - 1))) && t.rows != []
  {
    var runs := Runs(isTable, lines, 0);
    var k := FilterMapSource(runs, TableOf, t);
    RunsSound(isTable, lines, 0, k);
    TableOfRunAt(isTable, lines, runs[k], t);
  }

  /** A table made from a maximal run found from line 0 starts that run. */
  lemma TableOfRunAt(isTable: string -> bool, lines: seq<string>, r: Run, t: Table)
    requires RunOf(isTable, lines, 0, r) && TableOf(r) == Some(t)
    ensures 0 < t.startLine
    ensures RunStart(isTable, lines, t.startLine - 1)
    ensures t.rows == DataRows(StripAll(RunFrom(isTable, lines, t.startLine - 1))) && t.rows != []
  {
    TableOfRun(r, t);
  }

  /** Every maximal run of table lines with a data row is detected, with its first line. */
  lemma DetectComplete(lines: seq<string>, s: nat)
    requires RunStart(IsTableLine, lines, s)
    requires DataRows(StripAll(RunFrom(IsTableLine, lines, s))) != []
    ensures Table(s + 1, DataRows(StripAll(RunFrom(IsTableLine, lines, s)))) in Detect(lines)
  {
    TablesComplete(IsTableLine, lines, s);
  }

  lemma TablesComplete(isTable: string -> bool, lines: seq<string>, s: nat)
    requires RunStart(isTable, lines, s)
    requires DataRows(StripAll(RunFrom(isTable, lines, s))) != []
    ensures Table(s + 1, DataRows(StripAll(RunFrom(isTable, lines, s)))) in FilterMap(Runs(isTable, lines, 0), TableOf)
  {
    var r := Run(s + 1, RunFrom(isTable, lines, s));
    RunsComplete(isTable, lines, 0, s, r);
    KeptTable(Runs(isTable, lines, 0), s + 1, RunFrom(isTable, lines, s));
  }

  /** A run with a data row among the runs gives its table. */
  lemma KeptTable(runs: seq<Run>, first: nat, lines: seq<string>)
    requires Found(runs, Run(first, lines))
    requires DataRows(StripAll(lines)) != []
    ensures Table(first, DataRows(StripAll(lines))) in FilterMap(runs, TableOf)
  {
    FilterMapKeeps(runs, TableOf, Run(first, lines));
  }

  /** Tables come in increasing order of their first line. */
  lemma DetectOrdered(lines: seq<string>)
    ensures forall k, l :: 0 <= k < l < |Detect(lines)| ==> Detect(lines)[k].startLine < Detect(lines)[l].startLine
  {
    RunsOrdered(IsTableLine, lines, 0);
    TablesOrdered(Runs(IsTableLine, lines, 0));
  }

  lemma {:induction false} TablesOrdered(runs: seq<Run>)
    requires Increasing(runs)
    ensures forall k, l :: 0 <= k < l < |FilterMap(runs, TableOf)| ==>
      FilterMap(runs, TableOf)[k].startLine < FilterMap(runs, TableOf)[l].startLine
    decreases |runs|
  {
    if runs != [] {
      var init := runs[..|runs| - 1];
      TablesOrdered(init);
      TablesBelow(init, runs[|runs| - 1].first);
    }
  }

  /** Tables made from runs that begin before `bound` begin before `bound`. */
  lemma {:induction false} TablesBelow(runs: seq<Run>, bound: nat)
    requires forall k :: 0 <= k < |runs| ==> runs[k].first < bound
    ensures forall k :: 0 <= k < |FilterMap(runs, TableOf)| ==> FilterMap(runs, TableOf)[k].startLine < bound
    decreases |runs|
  {
    if runs != [] {
      TablesBelow(runs[..|runs| - 1], bound);
    }
  }

  // ---------------------------------------------------------------------
  // Row parsing
  // ---------------------------------------------------------------------

  /** A parsed cell: no `|` inside and no whitespace at either end. */
  predicate Cell(c: string)
  {
    '|' !in c && (c == [] || (!IsSpace(c[0]) && !IsSpace(c[|c| - 1])))
  }

  /** A stripped row without one leading and one trailing `|`. */
  function InnerRow(s: string): string
  {
    var a := if StartsWith(s, "|") then s[1..] else s;
    if EndsWith(a, "|") then a[..|a| - 1] else a
  }

  /**
   * `parse_table_row`: strip the row, drop one leading and one trailing `|`,
   * split on `|` and strip every cell. There is always at least one cell and
   * every cell is free of `|` and of surrounding whitespace.
   */
  function ParseTableRow(row: string): (cells: seq<string>)
    ensures |cells| >= 1
    ensures forall k :: 0 <= k < |cells| ==> Cell(cells[k])
  {
    var parts := SplitOn(InnerRow(Strip(row)), '|');
    StripAllCells(parts);
    StripAll(parts)
  }

  lemma StripAllCells(parts: seq<string>)
    requires forall k :: 0 <= k < |parts| ==> '|' !in parts[k]
    ensures forall k :: 0 <= k < |StripAll(parts)| ==> Cell(StripAll(parts)[k])
  {
    forall k | 0 <= k < |StripAll(parts)| ensures Cell(StripAll(parts)[k]) {
      StripCell(parts, k);
    }
  }

  lemma StripCell(parts: seq<string>, k: nat)
    requires k < |parts| && '|' !in parts[k]
    ensures Cell(StripAll(parts)[k])
  {
    MapSeqAt(Strip, parts, k);
    StripWithin(parts[k], '|');
  }

  /**
   * Cells that are free of `|` and of surrounding whitespace, written
   * between pipes, are read back unchanged.
   */
  lemma ParseTableRowRoundTrip(cells: seq<string>)
    requires cells != []
    requires forall k :: 0 <= k < |cells| ==> Cell(cells[k])
    ensures ParseTableRow("|" + Join(cells, "|") + "|") == cells
  {
    var j := Join(cells, "|");
    InnerOfWrapped(j);
    forall k | 0 <= k < |cells| ensures '|' !in cells[k] {
      assert Cell(cells[k]);
    }
    SplitOnJoin(cells, '|');
    StripAllOfCells(cells);
  }

  /** Wrapping text in pipes and trimming them again gives the text back. */
  lemma InnerOfWrapped(j: string)
    ensures InnerRow(Strip("|" + j + "|")) == j
  {
    var row := "|" + j + "|";
    assert row[0] == '|' && row[|row| - 1] == '|';
    StripOfTrimmed(row);
    assert row[1..] == j + "|";
    assert (j + "|")[..|j|] == j;
  }

  /** Stripping cells that have no surrounding whitespace changes nothing. */
  lemma StripAllOfCells(cells: seq<string>)
    requires forall k :: 0 <= k < |cells| ==> Cell(cells[k])
    ensures StripAll(cells) == cells
  {
    forall k | 0 <= k < |cells| ensures StripAll(cells)[k] == cells[k] {
      StripOfCell(cells, k);
    }
  }

  lemma StripOfCell(cells: seq<string>, k: nat)
    requires k < |cells| && Cell(cells[k])
    ensures StripAll(cells)[k] == cells[k]
  {
    MapSeqAt(Strip, cells, k);
    if cells[k] != [] {
      StripOfTrimmed(cells[k]);
    } else {
      assert Strip(cells[k]) == [];
    }
  }

  // ---------------------------------------------------------------------
  // Cell wrapping
  // ---------------------------------------------------------------------

  /** The lines finished so far and the line being filled. */
  datatype Wrapping = Wrapping(lines: seq<string>, current: string)

  /** The `width`-long pieces the inner loop cuts off a long word. */
  function Pieces(word: string, width: nat): seq<string>
    requires width >= 1
    decreases |word|
  {
    if |word| > width then [word[..width]] + Pieces(word[width..], width) else []
  }

  /** What is left of a long word once its pieces are cut off. */
  function Remainder(word: string, width: nat): string
    requires width >= 1
    decreases |word|
  {
    if |word| > width then Remainder(word[width..], width) else word
  }

  /**
   * One word of the loop of `wrap_text`. When the word does not fit behind
   * the current line, the current line is finished and the word starts the
   * next one; only a word met with no current line is cut into pieces. With
   * `splitAfterFlush` a long word is cut after finishing the current line too.
   */
  function Place(st: Wrapping, word: string, width: int, splitAfterFlush: bool): Wrapping
    requires width >= 1
  {
    if |st.current + " " + word| <= width then
      Wrapping(st.lines, if st.current != "" then st.current + " " + word else word)
    else if st.current != "" then
      if splitAfterFlush then Wrapping(st.lines + [st.current] + Pieces(word, width), Remainder(word, width))
      else Wrapping(st.lines + [st.current], word)
    else
      Wrapping(st.lines + Pieces(word, width), Remainder(word, width))
  }

  /** All the words placed in turn. */
  function PlaceAll(words: seq<string>, width: int, splitAfterFlush: bool): Wrapping
    requires 1 <= width || words == []
  {
    if words == [] then Wrapping([], "")
    else Place(PlaceAll(words[..|words| - 1], width, splitAfterFlush), words[|words| - 1], width, splitAfterFlush)
  }

  /** The finished lines, with the current line if it is not empty. */
  function Finish(st: Wrapping): seq<string>
  {
    if st.current != "" then st.lines + [st.current] else st.lines
  }

  /** The lines `wrap_text` makes of a text's words. */
  function WrapLines(words: seq<string>, width: int, splitAfterFlush: bool): seq<string>
    requires 1 <= width || words == []
  {
    Finish(PlaceAll(words, width, splitAfterFlush))
  }

  /**
   * `wrap_text`: a text that fits is returned as it is; otherwise its words
   * are wrapped into lines joined by newlines. The code as written has
   * `splitAfterFlush` false. With no word and a width of at most zero the
   * inner loop never ends, which the precondition excludes.
   */
  function Wrapped(text: string, width: int, splitAfterFlush: bool): string
    requires 1 <= width || Words(text) == []
  {
    if |text| <= width then text else Join(WrapLines(Words(text), width, splitAfterFlush), "\n")
  }

  /** The loops of `wrap_text`, as written. */
  method WrapText(text: string, maxWidth: int) returns (r: string)
    requires 1 <= maxWidth || Words(text) == []
    ensures r == Wrapped(text, maxWidth, false)
  {
    if |text| <= maxWidth {
      return text;
    }
    var words := Words(text);
    var lines: seq<string> := [];
    var current := "";
    for k := 0 to |words|
      invariant Wrapping(lines, current) == PlaceAll(words[..k], maxWidth, false)
    {
      assert words[..k + 1][..k] == words[..k];
      var word := words[k];
      if |current + " " + word| <= maxWidth {
        if current != "" {
          current := current + " " + word;
        } else {
          current := word;
        }
      } else if current != "" {
        lines := lines + [current];
        current := word;
      } else {
        ghost var lines0 := lines;
        while |word| > maxWidth
          invariant lines0 + Pieces(words[k], maxWidth) == lines + Pieces(word, maxWidth)
          invariant Remainder(word, maxWidth) == Remainder(words[k], maxWidth)
          decreases |word|
        {
          AppendAssoc(lines, [word[..maxWidth]], Pieces(word[maxWidth..], maxWidth));
          lines := lines + [word[..maxWidth]];
          word := word[maxWidth..];
        }
        assert lines0 + Pieces(words[k], maxWidth) == lines + [];
        current := word;
      }
    }
    assert words[..|words|] == words;
    if current != "" {
      lines := lines + [current];
    }
    r := Join(lines, "\n");
  }

  /** The text of the lines, one after the other. */
  function Concat(ss: seq<string>): string
  {
    if ss == [] then "" else ss[0] + Concat(ss[1..])
  }

  /** The characters of a text other than the space. */
  function Letters(s: string): string
  {
    if s == [] then "" else (if s[0] == ' ' then "" else [s[0]]) + Letters(s[1..])
  }

  /** A finished line: not empty, with no newline. */
  predicate Line(l: string)
  {
    l != [] && '\n' !in l
  }

  predicate Clean(st: Wrapping)
  {
    (forall k :: 0 <= k < |st.lines| ==> Line(st.lines[k])) && '\n' !in st.current
  }

  predicate Fits(st: Wrapping, width: int)
  {
    (forall k :: 0 <= k < |st.lines| ==> |st.lines[k]| <= width) && |st.current| <= width
  }

  /** A word cut into pieces: the pieces are words `width` long, the rest a word at most that long. */
  lemma {:induction false} PiecesSpec(word: string, width: nat)
    requires width >= 1 && IsWord(word)
    ensures Concat(Pieces(word, width)) + Remainder(word, width) == word
    ensures forall k :: 0 <= k < |Pieces(word, width)| ==> IsWord(Pieces(word, width)[k]) && |Pieces(word, width)[k]| == width
    ensures IsWord(Remainder(word, width)) && |Remainder(word, width)| <= width
    decreases |word|
  {
    if |word| > width {
      var rest := word[width..];
      PiecesSpec(rest, width);
      var ps := Pieces(word, width);
      assert ps == [word[..width]] + Pieces(rest, width);
      assert ps[1..] == Pieces(rest, width);
      assert word == word[..width] + rest;
      ConcatAssoc(word[..width], Concat(Pieces(rest, width)), Remainder(rest, width));
    }
  }

  lemma {:induction false} ConcatAppend(a: seq<string>, b: seq<string>)
    ensures Concat(a + b) == Concat(a) + Concat(b)
    decreases |a|
  {
    if a != [] {
      ConcatAppend(a[1..], b);
      assert (a + b)[1..] == a[1..] + b;
      ConcatAssoc(a[0], Concat(a[1..]), Concat(b));
    } else {
      assert a + b == b;
    }
  }

  lemma {:induction false} LettersAppend(a: string, b: string)
    ensures Letters(a + b) == Letters(a) + Letters(b)
    decreases |a|
  {
    if a != [] {
      LettersAppend(a[1..], b);
      assert (a + b)[1..] == a[1..] + b;
      var h := if a[0] == ' ' then "" else [a[0]];
      ConcatAssoc(h, Letters(a[1..]), Letters(b));
    } else {
      assert a + b == b;
    }
  }

  lemma {:induction false} LettersOfWord(w: string)
    requires forall i :: 0 <= i < |w| ==> !IsSpace(w[i])
    ensures Letters(w) == w
    decreases |w|
  {
    if w != [] {
      LettersOfWord(w[1..]);
      assert w == [w[0]] + w[1..];
    }
  }

  /** The line of a placed word keeps the newline out and is never empty afterwards. */
  lemma PlaceClean(st: Wrapping, word: string, width: int, splitAfterFlush: bool)
    requires width >= 1 && Clean(st) && IsWord(word)
    ensures Clean(Place(st, word, width, splitAfterFlush)) && Place(st, word, width, splitAfterFlush).current != ""
  {
    assert '\n' !in word by {
      forall i | 0 <= i < |word| ensures word[i] != '\n' {
        assert !IsSpace(word[i]);
      }
    }
    PiecesSpec(word, width);
    var ps := Pieces(word, width);
    forall k | 0 <= k < |ps| ensures Line(ps[k]) {
      assert IsWord(ps[k]);
      forall i | 0 <= i < |ps[k]| ensures ps[k][i] != '\n' {
        assert !IsSpace(ps[k][i]);
      }
    }
    var rem := Remainder(word, width);
    assert '\n' !in rem by {
      forall i | 0 <= i < |rem| ensures rem[i] != '\n' {
        assert !IsSpace(rem[i]);
      }
    }
    if |st.current + " " + word| <= width {
      var c := if st.current != "" then st.current + " " + word else word;
      assert '\n' !in c;
    }
  }

  /** The text of a wrapping state: its lines and the current line, run together. */
  function Written(st: Wrapping): string
  {
    Concat(st.lines) + st.current
  }

  /** Placing a word adds the word's letters and nothing else. */
  lemma PlaceLetters(st: Wrapping, word: string, width: int, splitAfterFlush: bool)
    requires width >= 1 && IsWord(word)
    ensures Letters(Written(Place(st, word, width, splitAfterFlush))) == Letters(Written(st)) + word
  {
    var w := Written(st);
    LettersOfWord(word);
    PlaceWritten(st, word, width, splitAfterFlush);
    if Written(Place(st, word, width, splitAfterFlush)) == w + word {
      LettersAppend(w, word);
    } else {
      LettersAppend(w + " ", word);
      LettersAppend(w, " ");
    }
  }

  /** Placing a word writes the word, after a space when it joins the current line. */
  lemma PlaceWritten(st: Wrapping, word: string, width: int, splitAfterFlush: bool)
    requires width >= 1 && IsWord(word)
    ensures var w' := Written(Place(st, word, width, splitAfterFlush));
      w' == Written(st) + word || w' == Written(st) + " " + word
  {
    PiecesSpec(word, width);
    if st.current != "" {
      PlaceWrittenOpen(st, word, width, splitAfterFlush);
    } else {
      PlaceWrittenEmpty(st, word, width, splitAfterFlush);
    }
  }

  lemma PlaceWrittenOpen(st: Wrapping, word: string, width: int, splitAfterFlush: bool)
    requires width >= 1 && st.current != ""
    requires Concat(Pieces(word, width)) + Remainder(word, width) == word
    ensures var w' := Written(Place(st, word, width, splitAfterFlush));
      w' == Written(st) + word || w' == Written(st) + " " + word
  {
    var c := st.current;
    if |c + " " + word| <= width {
      ConcatAssoc(Concat(st.lines), c, " " + word);
      ConcatAssoc(Concat(st.lines) + c, " ", word);
    } else {
      FlushWritten(st.lines, c);
      if splitAfterFlush {
        CutWritten(st.lines + [c], Pieces(word, width), Remainder(word, width));
      }
    }
  }

  /** Finishing the current line writes nothing new. */
  lemma FlushWritten(lines: seq<string>, current: string)
    ensures Concat(lines + [current]) == Concat(lines) + current
  {
    ConcatAppend(lines, [current]);
    assert Concat([current]) == current + "";
  }

  /** Finishing a word's pieces and keeping its rest writes the pieces, then the rest. */
  lemma CutWritten(lines: seq<string>, pieces: seq<string>, rest: string)
    ensures Written(Wrapping(lines + pieces, rest)) == Concat(lines) + (Concat(pieces) + rest)
  {
    ConcatAppend(lines, pieces);
    ConcatAssoc(Concat(lines), Concat(pieces), rest);
  }

  lemma PlaceWrittenEmpty(st: Wrapping, word: string, width: int, splitAfterFlush: bool)
    requires width >= 1 && st.current == ""
    requires Concat(Pieces(word, width)) + Remainder(word, width) == word
    ensures Written(Place(st, word, width, splitAfterFlush)) == Written(st) + word
  {
    var ps, rem := Pieces(word, width), Remainder(word, width);
    assert Written(st) == Concat(st.lines);
    if |" " + word| > width {
      ConcatAppend(st.lines, ps);
      ConcatAssoc(Concat(st.lines), Concat(ps), rem);
    }
  }

  /**
   * A placed word keeps every line within the width, provided the word fits
   * or is cut: always with `splitAfterFlush`, and as written only when there
   * is no current line.
   */
  lemma PlaceFits(st: Wrapping, word: string, width: int, splitAfterFlush: bool)
    requires width >= 1 && Fits(st, width) && IsWord(word)
    requires splitAfterFlush || st.current == "" || |word| <= width
    ensures Fits(Place(st, word, width, splitAfterFlush), width)
  {
    PiecesSpec(word, width);
    var st' := Place(st, word, width, splitAfterFlush);
    if |st.current + " " + word| > width {
      var ps := Pieces(word, width);
      forall k | 0 <= k < |st'.lines| ensures |st'.lines[k]| <= width {
        if k >= |st.lines| && st.current != "" && k > |st.lines| {
          assert st'.lines[k] == ps[k - |st.lines| - 1];
        } else if k >= |st.lines| && st.current == "" {
          assert st'.lines[k] == ps[k - |st.lines|];
        }
      }
    }
  }

  /** Placing words one after the other: clean lines that spell the words. */
  lemma {:induction false} PlaceAllSpec(words: seq<string>, width: int, splitAfterFlush: bool)
    requires width >= 1 && forall k :: 0 <= k < |words| ==> IsWord(words[k])
    ensures Clean(PlaceAll(words, width, splitAfterFlush))
    ensures words != [] ==> PlaceAll(words, width, splitAfterFlush).current != ""
    ensures Letters(Written(PlaceAll(words, width, splitAfterFlush))) == Concat(words)
    decreases |words|
  {
    if words != [] {
      var init, last := words[..|words| - 1], words[|words| - 1];
      PlaceAllSpec(init, width, splitAfterFlush);
      var st := PlaceAll(init, width, splitAfterFlush);
      PlaceClean(st, last, width, splitAfterFlush);
      PlaceLetters(st, last, width, splitAfterFlush);
      assert words == init + [last];
      ConcatAppend(init, [last]);
      assert Concat([last]) == last + "";
    } else {
      assert Written(Wrapping([], "")) == "";
    }
  }

  /**
   * The lines stay within the width when every word after the first fits it,
   * and always when long words are cut after finishing a line.
   */
  lemma {:induction false} PlaceAllFits(words: seq<string>, width: int, splitAfterFlush: bool)
    requires width >= 1 && forall k :: 0 <= k < |words| ==> IsWord(words[k])
    requires splitAfterFlush || forall k :: 1 <= k < |words| ==> |words[k]| <= width
    ensures Fits(PlaceAll(words, width, splitAfterFlush), width)
    decreases |words|
  {
    if words != [] {
      var init, last := words[..|words| - 1], words[|words| - 1];
      PlaceAllFits(init, width, splitAfterFlush);
      var st := PlaceAll(init, width, splitAfterFlush);
      if init == [] {
        assert st.current == "";
      }
      PlaceFits(st, last, width, splitAfterFlush);
    }
  }

  /**
   * Once the text is too wide and has a word, the wrapped text splits on
   * newlines into exactly the lines made of its words; those lines are not
   * empty and, spaces aside, spell out the words in order.
   */
  lemma WrappedLines(text: string, width: int, splitAfterFlush: bool)
    requires width >= 1 && |text| > width && Words(text) != []
    ensures SplitOn(Wrapped(text, width, splitAfterFlush), '\n') == WrapLines(Words(text), width, splitAfterFlush)
    ensures forall k :: 0 <= k < |WrapLines(Words(text), width, splitAfterFlush)| ==>
      Line(WrapLines(Words(text), width, splitAfterFlush)[k])
    ensures Letters(Concat(WrapLines(Words(text), width, splitAfterFlush))) == Concat(Words(text))
  {
    var words := Words(text);
    PlaceAllSpec(words, width, splitAfterFlush);
    var st := PlaceAll(words, width, splitAfterFlush);
    var lines := Finish(st);
    assert lines == WrapLines(words, width, splitAfterFlush);
    assert lines == st.lines + [st.current];
    ConcatAppend(st.lines, [st.current]);
    assert Concat([st.current]) == st.current + "";
    assert Concat(lines) == Written(st);
    forall k | 0 <= k < |lines| ensures Line(lines[k]) {
      if k < |st.lines| {
        assert lines[k] == st.lines[k];
      }
    }
    SplitOnJoin(lines, '\n');
    assert Wrapped(text, width, splitAfterFlush) == Join(lines, ['\n']);
  }

  /**
   * No line of the wrapped text is wider than the width when every word
   * after the first fits it, and, with long words cut after finishing a
   * line, for every text.
   */
  lemma WrappedFits(text: string, width: int, splitAfterFlush: bool)
    requires width >= 1
    requires splitAfterFlush || forall k :: 1 <= k < |Words(text)| ==> |Words(text)[k]| <= width
    ensures forall k :: 0 <= k < |SplitOn(Wrapped(text, width, splitAfterFlush), '\n')| ==>
      |SplitOn(Wrapped(text, width, splitAfterFlush), '\n')[k]| <= width
  {
    var r := Wrapped(text, width, splitAfterFlush);
    if |text| <= width || Words(text) == [] {
      SplitOnShort(r, '\n');
    } else {
      WrappedLines(text, width, splitAfterFlush);
      PlaceAllFits(Words(text), width, splitAfterFlush);
      FinishFits(PlaceAll(Words(text), width, splitAfterFlush), width);
    }
  }

  /** Finished lines of a state that fits are at most the width. */
  lemma FinishFits(st: Wrapping, width: int)
    requires Fits(st, width)
    ensures forall k :: 0 <= k < |Finish(st)| ==> |Finish(st)[k]| <= width
  {
  }

  lemma {:induction false} SplitOnShort(s: string, sep: char)
    ensures forall k :: 0 <= k < |SplitOn(s, sep)| ==> |SplitOn(s, sep)[k]| <= |s|
    decreases |s|
  {
    if sep in s {
      var i := CharIndex(s, sep);
      SplitOnShort(s[i + 1..], sep);
    }
  }

  /** Two words of which only the first fits: the first is a line of its own, the second follows it, cut or not. */
  lemma TwoWordLines(first: string, long: string, width: int, splitAfterFlush: bool)
    requires IsWord(first) && IsWord(long) && 1 <= |first| <= width < |long|
    ensures WrapLines([first, long], width, splitAfterFlush) ==
      [first] + (if splitAfterFlush then Pieces(long, width) + [Remainder(long, width)] else [long])
  {
    var words := [first, long];
    assert words[..1] == [first] && words[..1][..0] == [];
    assert PlaceAll(words[..1], width, splitAfterFlush) == Wrapping([], first);
    if splitAfterFlush {
      PiecesSpec(long, width);
    }
  }

  /** The words of a word, a space and another word are those two words. */
  lemma TwoWords(first: string, long: string)
    requires IsWord(first) && IsWord(long)
    ensures Words(first + " " + long) == [first, long]
  {
    WordsOfWordThenSpace(first, long);
    WordsOfWord(long);
  }

  /**
   * As written, a word too long for the width that follows a line is not
   * cut: it becomes a line of its own, wider than the width, although the
   * inner loop cuts such a word when it comes first.
   */
  lemma LongWordAfterLine(first: string, long: string, width: int)
    requires IsWord(first) && IsWord(long) && |first| <= width < |long|
    ensures SplitOn(Wrapped(first + " " + long, width, false), '\n') == [first, long]
  {
    TwoWords(first, long);
    TwoWordLines(first, long, width, false);
    WrappedLines(first + " " + long, width, false);
  }

  /** "a bbbbb" wrapped to width 3 keeps the 5-character line "bbbbb". */
  lemma LongWordExample()
    ensures SplitOn(Wrapped("a bbbbb", 3, false), '\n') == ["a", "bbbbb"]
  {
    assert "a bbbbb" == "a" + " " + "bbbbb";
    LongWordAfterLine("a", "bbbbb", 3);
  }

  /** With the cut, the same text wraps into lines of at most the width. */
  lemma LongWordAfterLineCut(first: string, long: string, width: int)
    requires IsWord(first) && IsWord(long) && |first| <= width < |long|
    ensures SplitOn(Wrapped(first + " " + long, width, true), '\n') ==
      [first] + Pieces(long, width) + [Remainder(long, width)]
    ensures forall k :: 0 <= k < |SplitOn(Wrapped(first + " " + long, width, true), '\n')| ==>
      |SplitOn(Wrapped(first + " " + long, width, true), '\n')[k]| <= width
  {
    TwoWords(first, long);
    TwoWordLines(first, long, width, true);
    WrappedLines(first + " " + long, width, true);
    WrappedFits(first + " " + long, width, true);
  }

}
