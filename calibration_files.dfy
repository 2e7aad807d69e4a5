/**
 * Naming, listing and deletion of calibration runs (Code/Protocol.py). A run of sensor `s`
 * is the file `calibracion_sensor{s}_{n}.csv` in `Data/sensor{s}`; its processed artefacts
 * live in `Processed/sensor{s}`. Directory listings are sequences of names.
 */
module CalibrationFiles {
  import opened Wrappers
  import opened Strings
  import opened Paths
  import opened Sorting

  const DataRoot := "Data"
  const ProcessedRoot := "Processed"

  /** `ensure_sensor_folder(s)`: where the runs of sensor `s` are stored. */
  function SensorFolder(sensor: string): string
  {
    Join(DataRoot, "sensor" + sensor)
  }

  /** Where the processed artefacts of sensor `s` are stored. */
  function ReportFolder(sensor: string): string
  {
    Join(ProcessedRoot, "sensor" + sensor)
  }

  /** The fixed part of every run name of a sensor. */
  function RunPrefix(sensor: string): string
  {
    "calibracion_sensor" + sensor + "_"
  }

  /** The text before `$` of a Python pattern: `$` also matches before one final newline. */
  function BeforeFinalNewline(s: string): (r: string)
    ensures StartsWith(s, r) && |s| - 1 <= |r|
    ensures r != s <==> s != [] && s[|s| - 1] == '\n'
  {
    if s != [] && s[|s| - 1] == '\n' then s[..|s| - 1] else s
  }

  /** A name of the shape the run pattern describes, with its digit run and optional final newline. */
  function RunFileName(sensor: string, digits: string, newline: bool): string
  {
    RunPrefix(sensor) + digits + ".csv" + (if newline then "\n" else "")
  }

  /** The name given to run `n`: `f"calibracion_sensor{s}_{n}.csv"`. */
  function NewRunName(sensor: string, n: nat): string
  {
    RunFileName(sensor, NatToString(n), false)
  }

  /**
   * `re.match(rf"^calibracion_sensor{sensor}_(\d+)\.csv$", fn)`, returning `int` of the group.
   * The sensor id is matched literally (the ids in use are digits).
   */
  function RunIndex(sensor: string, fn: string): Option<nat>
  {
    var core := BeforeFinalNewline(fn);
    var p := RunPrefix(sensor);
    if |core| > |p| + 4 && StartsWith(core, p) && EndsWith(core, ".csv") && AllDigits(core[|p|..|core| - 4])
    then Some(ParseNat(core[|p|..|core| - 4]))
    else None
  }

  /** The run pattern accepts every run-shaped name, reading the index from its digits. */
  lemma RunIndexOfRunFileName(sensor: string, d: string, newline: bool)
    requires d != [] && AllDigits(d)
    ensures RunIndex(sensor, RunFileName(sensor, d, newline)) == Some(ParseNat(d))
  {
    var p := RunPrefix(sensor);
    var core := p + d + ".csv";
    assert BeforeFinalNewline(RunFileName(sensor, d, newline)) == core by {
      if newline {
        assert RunFileName(sensor, d, newline) == core + "\n";
      } else {
        assert RunFileName(sensor, d, newline) == core;
      }
    }
    assert StartsWith(core, p) by {
      assert core[..|p|] == p;
    }
    assert EndsWith(core, ".csv") by {
      assert core[|core| - 4..] == ".csv";
    }
    assert core[|p|..|core| - 4] == d;
  }

  /** Every name the run pattern accepts is run-shaped. */
  lemma RunIndexAcceptsOnlyRunNames(sensor: string, fn: string)
    requires RunIndex(sensor, fn).Some?
    ensures exists d, nl :: d != [] && AllDigits(d) && fn == RunFileName(sensor, d, nl)
  {
    var p := RunPrefix(sensor);
    var core := BeforeFinalNewline(fn);
    var d := core[|p|..|core| - 4];
    assert core == p + d + ".csv";
    assert fn == RunFileName(sensor, d, core != fn);
  }

  /** A new run name is read back by the run pattern as its own index. */
  lemma NewRunNameIndex(sensor: string, n: nat)
    ensures RunIndex(sensor, NewRunName(sensor, n)) == Some(n)
  {
    RunIndexOfRunFileName(sensor, NatToString(n), false);
    ParseNatToString(n);
  }

  /** The index a name sorts by; names the pattern rejects never reach the sort. */
  function IndexOf(sensor: string, fn: string): nat
  {
    match RunIndex(sensor, fn)
    case Some(n) => n
    case None => 0
  }

  /** The order of the `(int(index), name)` tuples `list_calibrations` sorts. */
  predicate RunLe(sensor: string, a: string, b: string)
  {
    IndexOf(sensor, a) < IndexOf(sensor, b) || (IndexOf(sensor, a) == IndexOf(sensor, b) && StrLe(a, b))
  }

  lemma RunLeTotal(sensor: string)
    ensures Total((a, b) => RunLe(sensor, a, b))
  {
    forall a, b ensures RunLe(sensor, a, b) || RunLe(sensor, b, a) {
      StrLeTotal(a, b);
    }
  }

  /** The listing entries the run pattern accepts, in listing order. */
  function Matching(sensor: string, listing: seq<string>): (r: seq<string>)
    ensures forall fn {:trigger multiset(r)[fn]} :: multiset(r)[fn] == if RunIndex(sensor, fn).Some? then multiset(listing)[fn] else 0
  {
    if listing == [] then []
    else
      var rest := Matching(sensor, listing[..|listing| - 1]);
      var fn := listing[|listing| - 1];
      assert listing == listing[..|listing| - 1] + [fn];
      if RunIndex(sensor, fn).Some? then rest + [fn] else rest
  }

  /**
   * `list_calibrations(sensor)` over the folder listing: every entry the run pattern accepts,
   * as often as it is listed, and nothing else, ordered by index and then by name.
   */
  function ListCalibrations(sensor: string, listing: seq<string>): (r: seq<string>)
    ensures forall fn {:trigger multiset(r)[fn]} :: multiset(r)[fn] == if RunIndex(sensor, fn).Some? then multiset(listing)[fn] else 0
    ensures forall i :: 0 < i < |r| ==> RunLe(sensor, r[i - 1], r[i])
  {
    RunLeTotal(sensor);
    SortBy(Matching(sensor, listing), (a, b) => RunLe(sensor, a, b))
  }

  /** The listed runs appear in ascending index order, whatever the listing order. */
  lemma {:induction false} ListedInIndexOrder(sensor: string, listing: seq<string>, i: nat, j: nat)
    requires i <= j < |ListCalibrations(sensor, listing)|
    ensures var r := ListCalibrations(sensor, listing);
      RunIndex(sensor, r[i]).Some? && RunIndex(sensor, r[j]).Some?
      && RunIndex(sensor, r[i]).value <= RunIndex(sensor, r[j]).value
  {
    var r := ListCalibrations(sensor, listing);
    assert r[j] in multiset(r);
    assert r[i] in multiset(r);
    if i < j {
      ListedInIndexOrder(sensor, listing, i, j - 1);
      assert RunLe(sensor, r[j - 1], r[j]);
    }
  }

  /** Run 2 sorts before run 10: the order compares indices as numbers, not as text. */
  lemma TwoBeforeTen(sensor: string)
    ensures RunLe(sensor, NewRunName(sensor, 2), NewRunName(sensor, 10))
    ensures !RunLe(sensor, NewRunName(sensor, 10), NewRunName(sensor, 2))
  {
    NewRunNameIndex(sensor, 2);
    NewRunNameIndex(sensor, 10);
  }

  /** `max(xs, default=0)`. */
  function MaxOrZero(xs: seq<nat>): (m: nat)
    ensures forall i :: 0 <= i < |xs| ==> xs[i] <= m
    ensures xs == [] ==> m == 0
    ensures xs != [] ==> m in xs
  {
    if xs == [] then 0
    else
      var m := MaxOrZero(xs[..|xs| - 1]);
      assert xs == xs[..|xs| - 1] + [xs[|xs| - 1]];
      if xs[|xs| - 1] > m then xs[|xs| - 1] else m
  }

  /** The indices of the listed runs, in list order. */
  function Indices(sensor: string, names: seq<string>): (r: seq<nat>)
    ensures |r| == |names|
    ensures forall i :: 0 <= i < |names| ==> r[i] == IndexOf(sensor, names[i])
  {
    seq(|names|, i requires 0 <= i < |names| => IndexOf(sensor, names[i]))
  }

  /**
   * The next free run index: one past the largest listed index, 1 when there is no run.
   * `next_calibration_index` as evidently intended; see `NextCalibrationIndexAsWritten`.
   */
  function NextCalibrationIndex(sensor: string, listing: seq<string>): nat
  {
    MaxOrZero(Indices(sensor, ListCalibrations(sensor, listing))) + 1
  }

  /** The next index is positive and exceeds the index of every run in the listing. */
  lemma NextIndexExceedsListed(sensor: string, listing: seq<string>)
    ensures NextCalibrationIndex(sensor, listing) >= 1
    ensures forall fn :: fn in listing && RunIndex(sensor, fn).Some? ==>
      RunIndex(sensor, fn).value < NextCalibrationIndex(sensor, listing)
  {
    NextIndexBounds(sensor, listing);
  }

  /**
   * The next index follows a listed index, the largest by `NextCalibrationIndex`'s bound, unless
   * it is 1; so with no run listed it is 1.
   */
  lemma NextIndexFollowsLargest(sensor: string, listing: seq<string>)
    ensures var n := NextCalibrationIndex(sensor, listing);
      n == 1 || Carries(sensor, listing, n - 1)
  {
    NextIndexBounds(sensor, listing);
  }

  /** Some run of the listing has index `n`. */
  predicate Carries(sensor: string, listing: seq<string>, n: nat)
  {
    exists fn :: fn in listing && RunIndex(sensor, fn) == Some(n)
  }

  /** The largest listed index bounds every run of the listing and is carried by one of them. */
  lemma NextIndexBounds(sensor: string, listing: seq<string>)
    ensures var m := MaxOrZero(Indices(sensor, ListCalibrations(sensor, listing)));
      (forall fn :: fn in listing && RunIndex(sensor, fn).Some? ==> RunIndex(sensor, fn).value <= m)
      && (m == 0 || Carries(sensor, listing, m))
  {
    forall fn | fn in listing && RunIndex(sensor, fn).Some?
      ensures RunIndex(sensor, fn).value <= MaxOrZero(Indices(sensor, ListCalibrations(sensor, listing)))
    {
      ListedRunBelowMax(sensor, listing, fn);
    }
    LargestIsCarried(sensor, listing);
  }

  lemma ListedRunBelowMax(sensor: string, listing: seq<string>, fn: string)
    requires fn in listing && RunIndex(sensor, fn).Some?
    ensures RunIndex(sensor, fn).value <= MaxOrZero(Indices(sensor, ListCalibrations(sensor, listing)))
  {
    var runs := ListCalibrations(sensor, listing);
    assert multiset(runs)[fn] == multiset(listing)[fn];
    assert fn in multiset(runs);
    var i :| 0 <= i < |runs| && runs[i] == fn;
    assert Indices(sensor, runs)[i] == IndexOf(sensor, fn);
  }

  lemma LargestIsCarried(sensor: string, listing: seq<string>)
    ensures var m := MaxOrZero(Indices(sensor, ListCalibrations(sensor, listing)));
      m == 0 || Carries(sensor, listing, m)
  {
    var runs := ListCalibrations(sensor, listing);
    var nums := Indices(sensor, runs);
    var m := MaxOrZero(nums);
    if nums != [] {
      var i :| 0 <= i < |nums| && nums[i] == m;
      var fn := runs[i];
      assert fn in multiset(runs);
      assert multiset(runs)[fn] == if RunIndex(sensor, fn).Some? then multiset(listing)[fn] else 0;
      assert fn in listing && RunIndex(sensor, fn) == Some(m);
    }
  }

  /**
   * Under the intended index (`NextCalibrationIndex`), the name of a new run is accepted by the
   * run pattern with its own index and is not yet listed.
   */
  lemma NewRunNameIsFresh(sensor: string, listing: seq<string>)
    ensures var n := NextCalibrationIndex(sensor, listing);
      RunIndex(sensor, NewRunName(sensor, n)) == Some(n) && NewRunName(sensor, n) !in listing
  {
    NewRunNameIndex(sensor, NextCalibrationIndex(sensor, listing));
    NextIndexExceedsListed(sensor, listing);
  }

  // ----- next_calibration_index as written -----

  /** `re.search(rf"_{sensor}_(\d+)\.csv$", fn)` matching at position `k`. */
  predicate SearchMatchesAt(sensor: string, fn: string, k: nat)
    requires k <= |fn|
  {
    var t := BeforeFinalNewline(fn[k..]);
    var q := "_" + sensor + "_";
    |t| > |q| + 4 && StartsWith(t, q) && EndsWith(t, ".csv") && AllDigits(t[|q|..|t| - 4])
  }

  /** The leftmost match of the search pattern at or after position `k`, as `int` of the group. */
  function SearchFrom(sensor: string, fn: string, k: nat): Option<nat>
    requires k <= |fn|
    decreases |fn| - k
  {
    if SearchMatchesAt(sensor, fn, k) then
      var t := BeforeFinalNewline(fn[k..]);
      Some(ParseNat(t[|sensor| + 2..|t| - 4]))
    else if k == |fn| then None
    else SearchFrom(sensor, fn, k + 1)
  }

  /** The indices the search pattern picks out of the listed names. */
  function SearchedIndices(sensor: string, names: seq<string>): seq<nat>
  {
    if names == [] then []
    else
      var rest := SearchedIndices(sensor, names[..|names| - 1]);
      match SearchFrom(sensor, names[|names| - 1], 0)
      case Some(n) => rest + [n]
      case None => rest
  }

  /** `next_calibration_index(sensor)` as the code is written. */
  function NextCalibrationIndexAsWritten(sensor: string, listing: seq<string>): nat
  {
    MaxOrZero(SearchedIndices(sensor, ListCalibrations(sensor, listing))) + 1
  }

  /**
   * In a name the run pattern accepts, the search pattern matches at no position: the character
   * before the sensor id is the `r` of "sensor", never the `_` the search pattern demands there.
   */
  lemma SearchMissesRunNameAt(sensor: string, fn: string, k: nat)
    requires RunIndex(sensor, fn).Some? && k <= |fn|
    ensures !SearchMatchesAt(sensor, fn, k)
  {
    var core := BeforeFinalNewline(fn);
    var p := RunPrefix(sensor);
    var d := core[|p|..|core| - 4];
    assert core == p + d + ".csv";
    if SearchMatchesAt(sensor, fn, k) {
      var t := BeforeFinalNewline(fn[k..]);
      var q := "_" + sensor + "_";
      var e := t[|q|..|t| - 4];
      assert t == q + e + ".csv";
      assert t == core[k..];
      NoSearchSuffix(sensor, d, e, k);
    }
  }

  /** No suffix of a run name has the shape `_{sensor}_<digits>.csv`. */
  lemma NoSearchSuffix(sensor: string, d: string, e: string, k: nat)
    requires d != [] && AllDigits(d) && e != [] && AllDigits(e)
    ensures var core := RunPrefix(sensor) + d + ".csv";
      k <= |core| ==> core[k..] != "_" + sensor + "_" + e + ".csv"
  {
    var p := RunPrefix(sensor);
    var core := p + d + ".csv";
    var q := "_" + sensor + "_";
    var w := q + e + ".csv";
    if k <= |core| && |core| - k == |w| {
      if |e| < |d| {
        // where the search pattern wants its second underscore, the run name has a digit
        var i := |q| - 1;
        assert w[i] == '_';
        assert core[k..][i] == d[k + i - |p|];
      } else if |e| > |d| {
        // where the run name has the underscore before its index, the search wants a digit
        var i := |p| - 1 - k;
        assert core[k..][i] == p[|p| - 1] == '_';
        assert w[i] == e[i - |q|];
      } else {
        // the search pattern's first underscore falls on the `r` of "sensor"
        assert core[k..][0] == p[17] == 'r';
        assert w[0] == '_';
      }
    }
  }

  lemma {:induction false} SearchNeverMatchesRunName(sensor: string, fn: string, k: nat)
    requires RunIndex(sensor, fn).Some? && k <= |fn|
    ensures SearchFrom(sensor, fn, k).None?
    decreases |fn| - k
  {
    SearchMissesRunNameAt(sensor, fn, k);
    if k < |fn| {
      SearchNeverMatchesRunName(sensor, fn, k + 1);
    }
  }

  lemma {:induction false} SearchedIndicesOfRuns(sensor: string, names: seq<string>)
    requires forall i :: 0 <= i < |names| ==> RunIndex(sensor, names[i]).Some?
    ensures SearchedIndices(sensor, names) == []
  {
    if names != [] {
      SearchedIndicesOfRuns(sensor, names[..|names| - 1]);
      SearchNeverMatchesRunName(sensor, names[|names| - 1], 0);
    }
  }

  /** As written, the next index is always 1, whatever runs exist. */
  lemma NextCalibrationIndexAsWrittenIsOne(sensor: string, listing: seq<string>)
    ensures NextCalibrationIndexAsWritten(sensor, listing) == 1
  {
    var runs := ListCalibrations(sensor, listing);
    forall i | 0 <= i < |runs| ensures RunIndex(sensor, runs[i]).Some? {
      assert runs[i] in multiset(runs);
    }
    SearchedIndicesOfRuns(sensor, runs);
  }

  /**
   * As written, once run 1 exists every new run is given its name again, and opening it for
   * writing overwrites that run.
   */
  lemma NextCalibrationIndexAsWrittenReusesRunOne(sensor: string, listing: seq<string>)
    requires NewRunName(sensor, 1) in listing
    ensures NewRunName(sensor, NextCalibrationIndexAsWritten(sensor, listing)) in listing
  {
    NextCalibrationIndexAsWrittenIsOne(sensor, listing);
  }

  // ----- deleting a run -----

  /** The report-deletion test as written: `fname.startswith(basename)`. */
  predicate RelatedAsWritten(base: string, fname: string)
  {
    StartsWith(fname, base)
  }

  /** The report-deletion test as evidently intended: the run's base name and then `_`. */
  predicate Related(base: string, fname: string)
  {
    StartsWith(fname, base + "_")
  }

  /**
   * The two tests differ only on names that continue the base name with something other than
   * `_`, such as the reports of run 10 when run 1 is deleted, and on the base name itself.
   */
  lemma RelatedAsWrittenExtends(base: string, fname: string)
    ensures Related(base, fname) ==> RelatedAsWritten(base, fname)
    ensures RelatedAsWritten(base, fname) && !Related(base, fname) <==>
      StartsWith(fname, base) && (|fname| == |base| || fname[|base|] != '_')
  {
    if StartsWith(fname, base) && |fname| > |base| {
      assert StartsWith(fname, base + "_") <==> fname[|base|] == '_' by {
        assert (base + "_")[..|base|] == base;
        assert fname[..|base| + 1] == fname[..|base|] + [fname[|base|]];
      }
    }
  }

  /** The listing after removing the file `name`. */
  function Without(listing: seq<string>, name: string): (r: seq<string>)
    ensures forall f {:trigger multiset(r)[f]} :: multiset(r)[f] == if f == name then 0 else multiset(listing)[f]
  {
    if listing == [] then []
    else
      var rest := Without(listing[..|listing| - 1], name);
      var last := listing[|listing| - 1];
      assert listing == listing[..|listing| - 1] + [last];
      if last == name then rest else rest + [last]
  }

  /** The loop over the report folder: every report the test relates to `base` is removed. */
  method RemoveReports(reports: seq<string>, base: string, related: (string, string) -> bool)
    returns (left: seq<string>)
    ensures forall f {:trigger multiset(left)[f]} ::
      multiset(left)[f] == if related(base, f) then 0 else multiset(reports)[f]
  {
    left := [];
    var i := 0;
    while i < |reports|
      invariant 0 <= i <= |reports|
      invariant forall f {:trigger multiset(left)[f]} ::
        multiset(left)[f] == if related(base, f) then 0 else multiset(reports[..i])[f]
    {
      assert reports[..i + 1] == reports[..i] + [reports[i]];
      if !related(base, reports[i]) {
        left := left + [reports[i]];
      }
      i := i + 1;
    }
    assert reports[..i] == reports;
  }

  /**
   * Deleting run `toDel` with the report test `related`. Removing a CSV file that is not in the
   * data folder raises and changes nothing. Otherwise the file leaves the data folder; then,
   * when the report folder exists, every report related to the run's base name leaves it, and
   * when it does not, listing it raises with the CSV file already gone. All other files stay.
   */
  method DeleteCalibration(
    runs: seq<string>, reports: Option<seq<string>>, toDel: string, related: (string, string) -> bool)
    returns (runsLeft: seq<string>, reportsLeft: Option<seq<string>>, raised: bool)
    ensures toDel !in runs ==> raised && runsLeft == runs && reportsLeft == reports
    ensures toDel in runs ==> (raised <==> reports.None?)
    ensures toDel in runs ==> forall f {:trigger multiset(runsLeft)[f]} ::
      multiset(runsLeft)[f] == if f == toDel then 0 else multiset(runs)[f]
    ensures reportsLeft.Some? <==> reports.Some?
    ensures toDel in runs && reports.Some? ==> forall f {:trigger multiset(reportsLeft.value)[f]} ::
      multiset(reportsLeft.value)[f] == if related(Stem(toDel), f) then 0 else multiset(reports.value)[f]
  {
    if toDel !in runs {
      return runs, reports, true;
    }
    runsLeft := Without(runs, toDel);
    if reports.None? {
      return runsLeft, None, true;
    }
    var left := RemoveReports(reports.value, Stem(toDel), related);
    return runsLeft, Some(left), false;
  }

  /**
   * `files[idx - 1]` for the number typed at the delete prompt, with Python's indexing: a
   * number from `1 - len(files)` to `0` counts from the end, anything else raises and is
   * reported as an invalid index.
   */
  function PickAsWritten(files: seq<string>, idx: int): (r: Option<string>)
    ensures r.Some? ==> r.value in files
  {
    var k := idx - 1;
    if 0 <= k < |files| then Some(files[k])
    else if -|files| <= k < 0 then Some(files[|files| + k])
    else None
  }

  /** Typing 0 at the delete prompt deletes the last run listed. */
  lemma PickZeroAsWrittenTakesLast(files: seq<string>)
    requires files != []
    ensures PickAsWritten(files, 0) == Some(files[|files| - 1])
  {
  }

  /** The selection as evidently intended: only the numbers shown, 1 to `len(files)`. */
  function Pick(files: seq<string>, idx: int): (r: Option<string>)
    ensures r.Some? <==> 1 <= idx <= |files|
    ensures r.Some? ==> r.value == files[idx - 1]
  {
    if 1 <= idx <= |files| then Some(files[idx - 1]) else None
  }

  /**
   * The two selections agree on every number the prompt shows; as written, the other numbers
   * that select a run are 0 and the negatives down to `1 - len(files)`.
   */
  lemma PickAsWrittenExtendsPick(files: seq<string>, idx: int)
    ensures Pick(files, idx).Some? ==> PickAsWritten(files, idx) == Pick(files, idx)
    ensures PickAsWritten(files, idx).Some? && Pick(files, idx).None? <==> files != [] && 1 - |files| <= idx <= 0
  {
  }

  /**
   * The delete option as written: the runs are listed, the number typed selects one of them
   * with Python's indexing, and that run is deleted with every report whose name starts with
   * its base name. With no run listed nothing happens; a number that selects nothing, or a
   * missing report folder, is reported as an invalid index.
   */
  method DeleteSelectedAsWritten(sensor: string, listing: seq<string>, reports: Option<seq<string>>, idx: int)
    returns (deleted: Option<string>, runsLeft: seq<string>, reportsLeft: Option<seq<string>>, raised: bool)
    ensures deleted == PickAsWritten(ListCalibrations(sensor, listing), idx)
    ensures deleted.None? ==> runsLeft == listing && reportsLeft == reports
    ensures deleted.None? ==> (raised <==> ListCalibrations(sensor, listing) != [])
    ensures deleted.Some? ==> RunIndex(sensor, deleted.value).Some? && deleted.value in listing
    ensures deleted.Some? ==> (raised <==> reports.None?) && (reportsLeft.Some? <==> reports.Some?)
    ensures deleted.Some? ==> forall f {:trigger multiset(runsLeft)[f]} ::
      multiset(runsLeft)[f] == if f == deleted.value then 0 else multiset(listing)[f]
    ensures deleted.Some? && reports.Some? ==> forall f {:trigger multiset(reportsLeft.value)[f]} ::
      multiset(reportsLeft.value)[f] == if RelatedAsWritten(Stem(deleted.value), f) then 0 else multiset(reports.value)[f]
  {
    var files := ListCalibrations(sensor, listing);
    if files == [] {
      return None, listing, reports, false;
    }
    deleted := PickAsWritten(files, idx);
    if deleted.None? {
      return deleted, listing, reports, true;
    }
    var toDel := deleted.value;
    assert toDel in multiset(files);
    runsLeft, reportsLeft, raised := DeleteCalibration(listing, reports, toDel, RelatedAsWritten);
  }

  /**
   * The delete option as evidently intended: only the numbers shown select a run, and only
   * the run's own reports (its base name followed by `_`) are deleted with it.
   */
  method DeleteSelected(sensor: string, listing: seq<string>, reports: Option<seq<string>>, idx: int)
    returns (deleted: Option<string>, runsLeft: seq<string>, reportsLeft: Option<seq<string>>, raised: bool)
    ensures deleted == Pick(ListCalibrations(sensor, listing), idx)
    ensures deleted.None? ==> runsLeft == listing && reportsLeft == reports
    ensures deleted.None? ==> (raised <==> ListCalibrations(sensor, listing) != [])
    ensures deleted.Some? ==> RunIndex(sensor, deleted.value).Some? && deleted.value in listing
    ensures deleted.Some? ==> (raised <==> reports.None?) && (reportsLeft.Some? <==> reports.Some?)
    ensures deleted.Some? ==> forall f {:trigger multiset(runsLeft)[f]} ::
      multiset(runsLeft)[f] == if f == deleted.value then 0 else multiset(listing)[f]
    ensures deleted.Some? && reports.Some? ==> forall f {:trigger multiset(reportsLeft.value)[f]} ::
      multiset(reportsLeft.value)[f] == if Related(Stem(deleted.value), f) then 0 else multiset(reports.value)[f]
  {
    var files := ListCalibrations(sensor, listing);
    if files == [] {
      return None, listing, reports, false;
    }
    deleted := Pick(files, idx);
    if deleted.None? {
      return deleted, listing, reports, true;
    }
    var toDel := deleted.value;
    assert toDel in multiset(files);
    runsLeft, reportsLeft, raised := DeleteCalibration(listing, reports, toDel, Related);
  }
}
