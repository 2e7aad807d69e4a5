/**
 * Processing of calibration runs (Code/Process/process_calibration.py). `process_file` turns
 * one run's CSV table into its static properties and names the three artefacts it writes;
 * `process_all` walks the data folder sensor by sensor. The file system is a value: the set
 * of folders, the listing of each folder, and the table read from each CSV path.
 */
module Processing {
  import opened Wrappers
  import opened Strings
  import opened Paths
  import opened Sorting
  import opened Statistics
  import opened CalibrationFiles

  /** The `Peso_g` and `Lectura` cells of one CSV row. */
  datatype Sample = Sample(peso: real, lectura: real)

  /** A CSV file as `pd.read_csv` returns it: its header, and the two cells of every row. */
  datatype Table = Table(columns: seq<string>, samples: seq<Sample>)

  datatype ProcessError =
    | MissingColumns  // the header lacks `Peso_g` or `Lectura`
    | NoSamples       // a header without rows: `np.nanmax` of an empty list
    | FitFailed       // a weight that is not positive: `np.log` gives -inf or NaN and `np.polyfit` raises

  /** The numeric routines taken as given: the root inside `std`, `np.log` and `np.polyfit(x, y, 2)`. */
  datatype Numerics = Numerics(sqrt: real -> real, ln: real -> real, fit: (seq<real>, seq<real>) -> Coeffs)

  /** The `props` row of `process_file`; the equation strings are not modelled. */
  datatype Properties = Properties(
    rangeMinG: real, rangeMaxG: real, rangeMinV: real, rangeMaxV: real,
    spanG: real, fsoVolts: real,
    precision: Option<real>, resolution: Option<real>, r2: Option<real>,
    coeffs: Coeffs)

  /** What `process_file` produces: the properties and the paths of the three files it writes. */
  datatype Report = Report(props: Properties, propertiesFile: string, coeffsFile: string, plotFile: string)

  // ---------------------------------------------------------------------------------------
  // process_file
  // ---------------------------------------------------------------------------------------

  /** `{'Peso_g', 'Lectura'}.issubset(df.columns)`. */
  predicate HasColumns(t: Table)
  {
    "Peso_g" in t.columns && "Lectura" in t.columns
  }

  /** Every `Peso_g` is positive, so that `np.log` gives a finite value for it. */
  predicate PositiveWeights(t: Table)
  {
    forall i :: 0 <= i < |t.samples| ==> t.samples[i].peso > 0.0
  }

  /** The `Peso_g` column as floats. */
  function Weights(t: Table): (ps: seq<real>)
    ensures |ps| == |t.samples|
    ensures forall i :: 0 <= i < |ps| ==> ps[i] == t.samples[i].peso
  {
    seq(|t.samples|, i requires 0 <= i < |t.samples| => t.samples[i].peso)
  }

  /** The `Voltaje` column: every reading converted to volts. */
  function Volts(t: Table): (vs: seq<real>)
    ensures |vs| == |t.samples|
    ensures forall i :: 0 <= i < |vs| ==> vs[i] == Voltage(t.samples[i].lectura)
  {
    seq(|t.samples|, i requires 0 <= i < |t.samples| => Voltage(t.samples[i].lectura))
  }

  /** The `ln_peso` column. */
  function LogWeights(ln: real -> real, ps: seq<real>): (xs: seq<real>)
    ensures |xs| == |ps|
  {
    seq(|ps|, i requires 0 <= i < |ps| => ln(ps[i]))
  }

  /** `os.path.splitext(os.path.basename(csvPath))[0]`: the name every artefact starts with. */
  function BaseName(csvPath: string): string
  {
    Stem(Basename(csvPath))
  }

  /** `os.path.join(outputDir, f"{base}{suffix}")`. */
  function ArtefactPath(outputDir: string, csvPath: string, suffix: string): string
  {
    Join(outputDir, BaseName(csvPath) + suffix)
  }

  const PropertiesSuffix := "_properties.csv"
  const CoeffsSuffix := "_coeffs.txt"
  const PlotSuffix := "_regression.png"

  /** The suffixes of the three files `process_file` writes. */
  predicate IsArtefactSuffix(suffix: string)
  {
    suffix == PropertiesSuffix || suffix == CoeffsSuffix || suffix == PlotSuffix
  }

  /** Each suffix starts with an underscore and holds no slash. */
  lemma ArtefactSuffixShape(suffix: string)
    requires IsArtefactSuffix(suffix)
    ensures suffix != [] && suffix[0] == '_'
    ensures forall i :: 0 <= i < |suffix| ==> suffix[i] != '/'
  {
    if suffix == PropertiesSuffix {
      assert suffix == ['_', 'p', 'r', 'o', 'p', 'e', 'r', 't', 'i', 'e', 's', '.', 'c', 's', 'v'];
    } else if suffix == CoeffsSuffix {
      assert suffix == ['_', 'c', 'o', 'e', 'f', 'f', 's', '.', 't', 'x', 't'];
    } else {
      assert suffix == ['_', 'r', 'e', 'g', 'r', 'e', 's', 's', 'i', 'o', 'n', '.', 'p', 'n', 'g'];
    }
  }

  /** The properties of a run with at least one row. */
  function RunProperties(t: Table, num: Numerics): Properties
    requires t.samples != []
  {
    var ps, vs := Weights(t), Volts(t);
    var fso, span := Range(vs), Range(ps);
    var xs := LogWeights(num.ln, ps);
    var k := num.fit(xs, vs);
    Properties(
      RoundTo(Min(ps), 10.0), RoundTo(Max(ps), 10.0), Min(vs), Max(vs),
      RoundTo(span, 10.0), RoundTo(fso, 1000.0),
      NanMax(GroupPrecisions(num.sqrt, ps, vs, fso)),
      Resolution(fso, span),
      RSquared(SqDist(vs, Predict(k, xs)), SsTot(vs)),
      k)
  }

  /** What `process_file(csvPath, outputDir)` yields for the table read from `csvPath`. */
  function Processed(csvPath: string, outputDir: string, t: Table, num: Numerics): Result<Report, ProcessError>
  {
    if !HasColumns(t) then Failure(MissingColumns)
    else if t.samples == [] then Failure(NoSamples)
    else if !PositiveWeights(t) then Failure(FitFailed)
    else
      Success(Report(
        RunProperties(t, num),
        ArtefactPath(outputDir, csvPath, PropertiesSuffix),
        ArtefactPath(outputDir, csvPath, CoeffsSuffix),
        ArtefactPath(outputDir, csvPath, PlotSuffix)))
  }

  /**
   * `process_file`: the column check, the voltage column, the ranges, the precision of every
   * weight group gathered in a loop, resolution, R² and the three artefact paths. A failure
   * writes nothing.
   */
  method ProcessFile(csvPath: string, outputDir: string, t: Table, num: Numerics)
    returns (r: Result<Report, ProcessError>)
    ensures r == Processed(csvPath, outputDir, t, num)
  {
    if !HasColumns(t) {
      return Failure(MissingColumns);
    }
    if t.samples == [] {
      // With no rows the precision list stays empty and `np.nanmax` raises; nothing has
      // been written by then.
      return Failure(NoSamples);
    }
    var vs := Volts(t);
    var precision := RunPrecision(num.sqrt, Weights(t), vs, Range(vs));
    if !PositiveWeights(t) {
      // the regression after the loop raises; nothing has been written by then
      return Failure(FitFailed);
    }
    r := Success(Report(
      RunProperties(t, num).(precision := precision),
      ArtefactPath(outputDir, csvPath, PropertiesSuffix),
      ArtefactPath(outputDir, csvPath, CoeffsSuffix),
      ArtefactPath(outputDir, csvPath, PlotSuffix)));
  }

  /**
   * The loop of `process_file` over the weight groups: the precision of each group is appended
   * to a list, and the run's precision is the largest defined one.
   */
  method RunPrecision(sqrt: real -> real, ps: seq<real>, vs: seq<real>, fso: real) returns (precision: Option<real>)
    requires |ps| == |vs|
    ensures precision == NanMax(GroupPrecisions(sqrt, ps, vs, fso))
  {
    var keys := Keys(ps);
    ghost var all := GroupPrecisions(sqrt, ps, vs, fso);
    var precisionList: seq<Option<real>> := [];
    for g := 0 to |keys|
      invariant precisionList == all[..g]
    {
      var sigma := SampleStd(sqrt, Group(ps, vs, keys[g]));
      assert all[g] == GroupPrecision(fso, sigma);
      assert all[..g + 1] == all[..g] + [all[g]];
      precisionList := precisionList + [GroupPrecision(fso, sigma)];
    }
    assert precisionList == all;
    precision := NanMax(precisionList);
  }

  /**
   * `process_file` raises exactly when the header lacks one of the two columns, the table has
   * no rows, or some weight is not positive; the column check comes first and the regression
   * last.
   */
  lemma ProcessedFails(csvPath: string, outputDir: string, t: Table, num: Numerics)
    ensures Processed(csvPath, outputDir, t, num).Failure? <==>
      !HasColumns(t) || t.samples == [] || exists i :: 0 <= i < |t.samples| && t.samples[i].peso <= 0.0
    ensures Processed(csvPath, outputDir, t, num) == Failure(MissingColumns) <==>
      !("Peso_g" in t.columns && "Lectura" in t.columns)
    ensures Processed(csvPath, outputDir, t, num) == Failure(FitFailed) <==>
      HasColumns(t) && t.samples != [] && exists i :: 0 <= i < |t.samples| && t.samples[i].peso <= 0.0
  {
  }

  /** All values of the column are the same. */
  predicate Flat(s: seq<real>)
  {
    forall i, j :: 0 <= i < |s| && 0 <= j < |s| ==> s[i] == s[j]
  }

  /** Every voltage equals the mean voltage exactly when all voltages are equal. */
  lemma AtMeanIffFlat(vs: seq<real>)
    requires vs != []
    ensures (forall i :: 0 <= i < |vs| ==> vs[i] == Mean(vs)) <==> Flat(vs)
  {
    if Flat(vs) {
      MeanOfConstant(vs);
    }
  }

  /** Both ranges of a run are ordered and its FSO is not negative. */
  lemma RunRangesSpec(t: Table, num: Numerics)
    requires t.samples != []
    ensures RunProperties(t, num).rangeMinV <= RunProperties(t, num).rangeMaxV
    ensures RunProperties(t, num).rangeMinG <= RunProperties(t, num).rangeMaxG
    ensures RunProperties(t, num).spanG >= 0.0 && RunProperties(t, num).fsoVolts >= 0.0
  {
    var ps, vs := Weights(t), Volts(t);
    RangeSpec(ps);
    RangeSpec(vs);
    RoundToMonotone(Min(ps), Max(ps), 10.0);
    RoundToNonNegative(Range(ps), 10.0);
    RoundToNonNegative(Range(vs), 1000.0);
  }

  /** The resolution of a run is undefined exactly when every row has the same weight. */
  lemma RunResolutionSpec(t: Table, num: Numerics)
    requires t.samples != []
    ensures RunProperties(t, num).resolution.None? <==> Flat(Weights(t))
  {
    ResolutionOfRun(Weights(t), Volts(t));
  }

  /** The precision of a run is undefined exactly when the voltages are flat or no weight occurs twice. */
  lemma RunPrecisionSpec(t: Table, num: Numerics)
    requires t.samples != []
    ensures RunProperties(t, num).precision.None? <==>
      Flat(Volts(t)) || forall w :: w in Weights(t) ==> multiset(Weights(t))[w] < 2
  {
    var ps, vs := Weights(t), Volts(t);
    assert RunProperties(t, num).precision == NanMax(GroupPrecisions(num.sqrt, ps, vs, Range(vs)));
    RangeSpec(vs);
    PrecisionOfRun(num.sqrt, ps, vs, Range(vs));
  }

  /** R² of a run is undefined exactly when the voltages are flat, and is at most 1 otherwise. */
  lemma RunR2Spec(t: Table, num: Numerics)
    requires t.samples != []
    ensures RunProperties(t, num).r2.None? <==> Flat(Volts(t))
    ensures RunProperties(t, num).r2.Some? ==> RunProperties(t, num).r2.value <= 1.0
  {
    var ps, vs := Weights(t), Volts(t);
    var xs := LogWeights(num.ln, ps);
    var k := num.fit(xs, vs);
    assert RunProperties(t, num).r2 == RSquared(SqDist(vs, Predict(k, xs)), SsTot(vs));
    RSquaredOfFit(k, xs, vs);
    AtMeanIffFlat(vs);
  }

  /**
   * Every artefact of a run stored as `folder/name` is named after the run: its file name is
   * the run's name without extension followed by the artefact's suffix.
   */
  lemma ArtefactNames(outputDir: string, folder: string, name: string, suffix: string)
    requires forall i :: 0 <= i < |name| ==> name[i] != '/'
    requires IsArtefactSuffix(suffix)
    ensures Basename(ArtefactPath(outputDir, Join(folder, name), suffix)) == Stem(name) + suffix
  {
    BasenameJoin(folder, name);
    var file := Stem(name) + suffix;
    assert ArtefactPath(outputDir, Join(folder, name), suffix) == Join(outputDir, file);
    ArtefactFileHasNoSlash(name, suffix);
    BasenameJoin(outputDir, file);
  }

  lemma ArtefactFileHasNoSlash(name: string, suffix: string)
    requires forall i :: 0 <= i < |name| ==> name[i] != '/'
    requires IsArtefactSuffix(suffix)
    ensures forall i :: 0 <= i < |Stem(name) + suffix| ==> (Stem(name) + suffix)[i] != '/'
  {
    ArtefactSuffixShape(suffix);
    var stem := Stem(name);
    assert StartsWith(name, stem);
    assert forall i :: 0 <= i < |stem| ==> stem[i] == name[i];
  }

  /** Deleting a run with the intended test removes each of its artefacts. */
  lemma ArtefactsAreRelated(stem: string, suffix: string)
    requires IsArtefactSuffix(suffix)
    ensures Related(stem, stem + suffix)
  {
    ArtefactSuffixShape(suffix);
    assert StartsWith(suffix, "_");
    StartsWithAppend(stem, suffix, "_");
  }

  // ---------------------------------------------------------------------------------------
  // Deleting a run and its artefacts
  // ---------------------------------------------------------------------------------------

  /** The name of run `n` without its extension: `calibracion_sensor{s}_{n}`. */
  lemma RunStem(sensor: string, n: nat)
    ensures Stem(NewRunName(sensor, n)) == RunPrefix(sensor) + NatToString(n)
  {
    var x := RunPrefix(sensor) + NatToString(n);
    assert NewRunName(sensor, n) == x + "." + "csv";
    assert IsDigit(x[|x| - 1]);
    StemOfExtension(x, "csv");
  }

  /**
   * As written, deleting run 1 also deletes the artefacts of run 10 (and of runs 11 to 19,
   * 100 and so on), since their names start with `calibracion_sensor{s}_1`.
   */
  lemma DeletingRunOneAsWrittenTakesRunTen(sensor: string, suffix: string)
    requires IsArtefactSuffix(suffix)
    ensures RelatedAsWritten(Stem(NewRunName(sensor, 1)), Stem(NewRunName(sensor, 10)) + suffix)
  {
    RunStem(sensor, 1);
    RunStem(sensor, 10);
    assert NatToString(1) == "1" && NatToString(10) == "10";
    var p := RunPrefix(sensor);
    assert (p + "10" + suffix)[..|p + "1"|] == p + "1";
  }

  /** Two digit strings followed by an underscore are related only when they are equal. */
  lemma DigitsBeforeUnderscore(d: string, e: string, tail: string)
    requires AllDigits(d) && AllDigits(e) && tail != [] && tail[0] == '_'
    requires StartsWith(e + tail, d + "_")
    ensures d == e
  {
    var s := e + tail;
    // The first place where one of the two digit strings ends holds the underscore in both.
    var k := if |d| < |e| then |d| else |e|;
    assert s[k] == (d + "_")[k];
    assert s[k] == '_' <==> k == |e|;
    assert (d + "_")[k] == '_' <==> k == |d|;
    assert forall i :: 0 <= i < |d| ==> d[i] == s[i] == e[i];
  }

  /**
   * With the intended test, deleting run `n` takes the artefacts of run `m` exactly when
   * `m` is `n`.
   */
  lemma DeletingRunTakesOnlyItsArtefacts(sensor: string, n: nat, m: nat, suffix: string)
    requires IsArtefactSuffix(suffix)
    ensures Related(Stem(NewRunName(sensor, n)), Stem(NewRunName(sensor, m)) + suffix) <==> n == m
  {
    RunStem(sensor, n);
    RunStem(sensor, m);
    RelatedDigits(RunPrefix(sensor), NatToString(n), NatToString(m), suffix);
    ParseNatToString(n);
    ParseNatToString(m);
  }

  /** Under a common prefix, digit strings followed by an artefact suffix. */
  lemma RelatedDigits(p: string, d: string, e: string, suffix: string)
    requires AllDigits(d) && AllDigits(e) && IsArtefactSuffix(suffix)
    ensures Related(p + d, p + e + suffix) <==> d == e
  {
    ArtefactSuffixShape(suffix);
    if d == e {
      ArtefactsAreRelated(p + d, suffix);
    }
    if Related(p + d, p + e + suffix) {
      assert p + e + suffix == p + (e + suffix) && p + d + "_" == p + (d + "_");
      StartsWithDropHead(p, e + suffix, d + "_");
      DigitsBeforeUnderscore(d, e, suffix);
    }
  }

  // ---------------------------------------------------------------------------------------
  // process_all
  // ---------------------------------------------------------------------------------------

  /** A file system: its folders, the names in each folder, and the table in each CSV file. */
  datatype Disk = Disk(dirs: set<string>, listing: map<string, seq<string>>, read: string -> Table)

  /** `os.listdir(d)`. */
  function ListDir(disk: Disk, d: string): seq<string>
  {
    if d in disk.listing then disk.listing[d] else []
  }

  /** `sorted(names)`. */
  function SortedNames(names: seq<string>): (r: seq<string>)
    ensures multiset(r) == multiset(names)
  {
    SortBy(names, StrLe)
  }

  /** `sorted` orders the names throughout. */
  lemma SortedNamesOrdered(names: seq<string>)
    ensures OrderedBy(SortedNames(names), StrLe)
  {
    StrLeIsTotalOrder();
    OrderedFromSorted(SortBy(names, StrLe), StrLe);
  }

  lemma StrLeIsTotalOrder()
    ensures Total(StrLe) && Transitive(StrLe)
  {
    forall a, b ensures StrLe(a, b) || StrLe(b, a) {
      StrLeTotal(a, b);
    }
    forall a, b, c | StrLe(a, b) && StrLe(b, c) ensures StrLe(a, c) {
      StrLeTransitive(a, b, c);
    }
  }

  /** `os.path.isdir(os.path.join(d, name))`. */
  function IsFolderIn(dirs: set<string>, d: string): string -> bool
  {
    name => Join(d, name) in dirs
  }

  /** The names `n` of `names`, in order, for which `join(d, n)` is a folder. */
  function Folders(dirs: set<string>, d: string, names: seq<string>): seq<string>
  {
    Filter(names, IsFolderIn(dirs, d))
  }

  /** `fname.lower().endswith('.csv')`, with ASCII case folding. */
  predicate IsCsvName(fname: string)
  {
    |fname| >= 4 && forall i :: 0 <= i < 4 ==> LowerAscii(fname[|fname| - 4 + i]) == ".csv"[i]
  }

  /** The names of `names`, in order, that `process_all` hands to `process_file`. */
  function CsvNames(names: seq<string>): seq<string>
  {
    Filter(names, IsCsvName)
  }

  /** Every run the acquisition writes is picked up, whatever the case of its extension. */
  lemma RunFilesAreCsv(sensor: string, n: nat)
    ensures IsCsvName(NewRunName(sensor, n))
    ensures IsCsvName("run.CSV") && !IsCsvName("run.csv.bak")
  {
    var f := NewRunName(sensor, n);
    assert f[|f| - 4..] == ".csv";
    assert f[|f| - 4] == '.';
    assert LowerAscii("run.csv.bak"[8]) == 'b' != ".csv"[1];
  }

  /** One call of `process_file`: the CSV path and the sensor's output folder. */
  datatype Job = Job(csvPath: string, outDir: string)

  /** The calls made for the entries `names` of folder `dir`: one per CSV name, in order. */
  function CsvJobs(dir: string, outDir: string, names: seq<string>): seq<Job>
  {
    if names == [] then []
    else
      var n := |names| - 1;
      CsvJobs(dir, outDir, names[..n]) + (if IsCsvName(names[n]) then [Job(Join(dir, names[n]), outDir)] else [])
  }

  /** The calls for a prefix of the entries come first among the calls for all of them. */
  lemma {:induction false} CsvJobsPrefix(dir: string, outDir: string, names: seq<string>, k: nat)
    requires k <= |names|
    ensures CsvJobs(dir, outDir, names[..k]) <= CsvJobs(dir, outDir, names)
  {
    if k < |names| {
      var n := |names| - 1;
      assert names[..n][..k] == names[..k];
      CsvJobsPrefix(dir, outDir, names[..n], k);
    } else {
      assert names[..k] == names;
    }
  }

  /** One more entry adds its call when it is a CSV name. */
  lemma CsvJobsStep(dir: string, outDir: string, names: seq<string>, i: nat)
    requires i < |names|
    ensures CsvJobs(dir, outDir, names[..i + 1]) == CsvJobs(dir, outDir, names[..i]) +
      (if IsCsvName(names[i]) then [Job(Join(dir, names[i]), outDir)] else [])
    ensures CsvJobs(dir, outDir, names[..i + 1]) <= CsvJobs(dir, outDir, names)
  {
    assert names[..i + 1][..i] == names[..i];
    CsvJobsPrefix(dir, outDir, names, i + 1);
  }

  /** The calls for a folder's entries are its CSV names joined onto the folder, in order. */
  lemma {:induction false} CsvJobsNames(dir: string, outDir: string, names: seq<string>)
    ensures |CsvJobs(dir, outDir, names)| == |CsvNames(names)|
    ensures forall i :: 0 <= i < |CsvNames(names)| ==>
      CsvJobs(dir, outDir, names)[i] == Job(Join(dir, CsvNames(names)[i]), outDir)
  {
    if names != [] {
      var n := |names| - 1;
      CsvJobsNames(dir, outDir, names[..n]);
    }
  }

  lemma {:induction false} CsvJobsMembers(dir: string, outDir: string, names: seq<string>, job: Job)
    ensures job in CsvJobs(dir, outDir, names) <==>
      exists name :: name in names && IsCsvName(name) && job == Job(Join(dir, name), outDir)
  {
    if names != [] {
      var n := |names| - 1;
      CsvJobsMembers(dir, outDir, names[..n], job);
      assert names == names[..n] + [names[n]];
    }
  }

  /** The entries of a sensor folder that `process_all` hands to `process_file`, in order. */
  function FolderCsvNames(disk: Disk, dataDir: string, sensor: string): seq<string>
  {
    CsvNames(SortedNames(ListDir(disk, Join(dataDir, sensor))))
  }

  /** The calls made for one sensor folder, in order. */
  function FolderJobs(disk: Disk, dataDir: string, outputDir: string, sensor: string): seq<Job>
  {
    CsvJobs(Join(dataDir, sensor), Join(outputDir, sensor), SortedNames(ListDir(disk, Join(dataDir, sensor))))
  }

  /**
   * The calls for a sensor folder process its CSV entries in sorted order, each written into
   * the sensor's output folder.
   */
  lemma FolderJobsSpec(disk: Disk, dataDir: string, outputDir: string, sensor: string)
    ensures var names, jobs := FolderCsvNames(disk, dataDir, sensor), FolderJobs(disk, dataDir, outputDir, sensor);
      OrderedBy(names, StrLe) && |jobs| == |names| &&
      forall i :: 0 <= i < |jobs| ==> jobs[i] == Job(Join(Join(dataDir, sensor), names[i]), Join(outputDir, sensor))
  {
    var entries := SortedNames(ListDir(disk, Join(dataDir, sensor)));
    SortedNamesOrdered(ListDir(disk, Join(dataDir, sensor)));
    FilterOrdered(entries, IsCsvName, StrLe);
    CsvJobsNames(Join(dataDir, sensor), Join(outputDir, sensor), entries);
  }

  /** The calls made for each sensor folder. */
  function FolderJobsIn(disk: Disk, dataDir: string, outputDir: string): string -> seq<Job>
  {
    sensor => FolderJobs(disk, dataDir, outputDir, sensor)
  }

  /** The calls made for the sensor folders `sensors`, one folder after the other. */
  function Jobs(perFolder: string -> seq<Job>, sensors: seq<string>): seq<Job>
  {
    if sensors == [] then []
    else Jobs(perFolder, sensors[..|sensors| - 1]) + perFolder(sensors[|sensors| - 1])
  }

  /** The sensor folders of the data folder, in the order `process_all` visits them. */
  function SensorFolders(disk: Disk, dataDir: string): seq<string>
  {
    Folders(disk.dirs, dataDir, SortedNames(ListDir(disk, dataDir)))
  }

  /** The calls made for those of the entries `entries` of the data folder that are folders. */
  function SensorJobs(disk: Disk, dataDir: string, outputDir: string, entries: seq<string>): seq<Job>
  {
    Jobs(FolderJobsIn(disk, dataDir, outputDir), Folders(disk.dirs, dataDir, entries))
  }

  /** Every call `process_all(dataDir, outputDir)` makes when no call fails. */
  function Plan(disk: Disk, dataDir: string, outputDir: string): seq<Job>
  {
    SensorJobs(disk, dataDir, outputDir, SortedNames(ListDir(disk, dataDir)))
  }

  /** The sensor folders are visited in sorted order. */
  lemma SensorFoldersOrdered(disk: Disk, dataDir: string)
    ensures OrderedBy(SensorFolders(disk, dataDir), StrLe)
  {
    SortedNamesOrdered(ListDir(disk, dataDir));
    FilterOrdered(SortedNames(ListDir(disk, dataDir)), IsFolderIn(disk.dirs, dataDir), StrLe);
  }

  lemma {:induction false} JobsMembers(perFolder: string -> seq<Job>, sensors: seq<string>, job: Job)
    ensures job in Jobs(perFolder, sensors) <==> exists sensor :: sensor in sensors && job in perFolder(sensor)
  {
    if sensors != [] {
      var n := |sensors| - 1;
      JobsMembers(perFolder, sensors[..n], job);
      assert sensors == sensors[..n] + [sensors[n]];
    }
  }

  /**
   * `process_all` calls `process_file` exactly on the entries `sensor/name` of the data folder
   * where `sensor` is a folder and `name` ends in `.csv` in any case, writing into the
   * sensor's output folder.
   */
  lemma PlanSelects(disk: Disk, dataDir: string, outputDir: string, job: Job)
    ensures job in Plan(disk, dataDir, outputDir) <==>
      exists sensor, name ::
        sensor in ListDir(disk, dataDir) && Join(dataDir, sensor) in disk.dirs &&
        name in ListDir(disk, Join(dataDir, sensor)) && IsCsvName(name) &&
        job == Job(Join(Join(dataDir, sensor), name), Join(outputDir, sensor))
  {
    JobsMembers(FolderJobsIn(disk, dataDir, outputDir), SensorFolders(disk, dataDir), job);
    FilterMembers(SortedNames(ListDir(disk, dataDir)), IsFolderIn(disk.dirs, dataDir));
    forall sensor
      ensures sensor in SensorFolders(disk, dataDir) <==>
        sensor in ListDir(disk, dataDir) && Join(dataDir, sensor) in disk.dirs
      ensures job in FolderJobs(disk, dataDir, outputDir, sensor) <==>
        exists name :: name in ListDir(disk, Join(dataDir, sensor)) && IsCsvName(name) &&
          job == Job(Join(Join(dataDir, sensor), name), Join(outputDir, sensor))
    {
      assert sensor in SortedNames(ListDir(disk, dataDir)) <==> sensor in multiset(ListDir(disk, dataDir));
      var inner := ListDir(disk, Join(dataDir, sensor));
      CsvJobsMembers(Join(dataDir, sensor), Join(outputDir, sensor), SortedNames(inner), job);
      forall name ensures name in SortedNames(inner) <==> name in inner {
        assert name in SortedNames(inner) <==> name in multiset(inner);
      }
    }
  }

  /** The outcome of `process_all`. */
  datatype BatchOutcome =
    | NoDataDir  // the data folder does not exist: an error message and exit status 1
    | Finished(made: seq<string>, reports: seq<Report>)
    | Aborted(made: seq<string>, reports: seq<Report>, failed: Job, error: ProcessError)

  /** What `process_file` yields for each call. */
  function Run(disk: Disk, num: Numerics): Job -> Result<Report, ProcessError>
  {
    (job: Job) => Processed(job.csvPath, job.outDir, disk.read(job.csvPath), num)
  }

  /** The first `|reports|` calls of `jobs` succeeded with these reports. */
  predicate Succeeded(run: Job -> Result<Report, ProcessError>, jobs: seq<Job>, reports: seq<Report>)
  {
    |reports| <= |jobs| && forall k :: 0 <= k < |reports| ==> run(jobs[k]) == Success(reports[k])
  }

  /** A failed call, and why. */
  datatype Halt = Halt(job: Job, error: ProcessError)

  /** The calls of `jobs` succeeded with `reports` until the next one failed as `halt` says. */
  predicate Failed(run: Job -> Result<Report, ProcessError>, jobs: seq<Job>, reports: seq<Report>, halt: Halt)
  {
    |reports| < |jobs| && halt.job == jobs[|reports|] && run(halt.job) == Failure(halt.error)
  }

  /**
   * The inner loop of `process_all` over one sensor folder: every CSV name in sorted order is
   * processed, and the first failure ends the loop.
   */
  method ProcessFolder(disk: Disk, num: Numerics, dataDir: string, outputDir: string, sensor: string)
    returns (reports: seq<Report>, halt: Option<Halt>)
    ensures Succeeded(Run(disk, num), FolderJobs(disk, dataDir, outputDir, sensor), reports)
    ensures halt.None? ==> |reports| == |FolderJobs(disk, dataDir, outputDir, sensor)|
    ensures halt.Some? ==> Failed(Run(disk, num), FolderJobs(disk, dataDir, outputDir, sensor), reports, halt.value)
    ensures halt.Some? ==> halt.value.job.outDir == Join(outputDir, sensor)
  {
    var sensorPath := Join(dataDir, sensor);
    var sensorOut := Join(outputDir, sensor);
    var names := SortedNames(ListDir(disk, sensorPath));
    reports := [];
    for i := 0 to |names|
      invariant |reports| == |CsvJobs(sensorPath, sensorOut, names[..i])|
      invariant Succeeded(Run(disk, num), CsvJobs(sensorPath, sensorOut, names[..i]), reports)
    {
      ghost var done := CsvJobs(sensorPath, sensorOut, names[..i]);
      CsvJobsStep(sensorPath, sensorOut, names, i);
      if IsCsvName(names[i]) {
        var job := Job(Join(sensorPath, names[i]), sensorOut);
        var r := ProcessFile(job.csvPath, job.outDir, disk.read(job.csvPath), num);
        if r.Failure? {
          SucceededPrefix(Run(disk, num), done + [job], CsvJobs(sensorPath, sensorOut, names), reports);
          return reports, Some(Halt(job, r.error));
        }
        reports := reports + [r.value];
      }
    }
    assert names[..|names|] == names;
    halt := None;
  }

  /** Successful calls at the head of a plan stay successful when the plan grows. */
  lemma SucceededPrefix(run: Job -> Result<Report, ProcessError>, jobs: seq<Job>, more: seq<Job>, reports: seq<Report>)
    requires Succeeded(run, jobs, reports) && jobs <= more
    ensures Succeeded(run, more, reports)
  {
    assert forall k :: 0 <= k < |jobs| ==> jobs[k] == more[k];
  }

  /** The folders `process_all` creates: the output folder, then one per sensor folder. */
  function Created(outputDir: string, sensors: seq<string>): seq<string>
  {
    if sensors == [] then [outputDir]
    else Created(outputDir, sensors[..|sensors| - 1]) + [Join(outputDir, sensors[|sensors| - 1])]
  }

  /** The output folder comes first, and each sensor folder's output folder follows in order. */
  lemma {:induction false} CreatedSpec(outputDir: string, sensors: seq<string>)
    ensures |Created(outputDir, sensors)| == |sensors| + 1 && Created(outputDir, sensors)[0] == outputDir
    ensures forall i :: 0 <= i < |sensors| ==> Created(outputDir, sensors)[i + 1] == Join(outputDir, sensors[i])
  {
    if sensors != [] {
      var n := |sensors| - 1;
      CreatedSpec(outputDir, sensors[..n]);
      var c := Created(outputDir, sensors[..n]);
      assert Created(outputDir, sensors) == c + [Join(outputDir, sensors[n])];
      forall i | 0 <= i < n
        ensures Created(outputDir, sensors)[i + 1] == Join(outputDir, sensors[i])
      {
        assert c[i + 1] == Join(outputDir, sensors[..n][i]);
      }
    }
  }

  /** The folders created for a prefix of the sensor folders come first. */
  lemma {:induction false} CreatedPrefix(outputDir: string, a: seq<string>, b: seq<string>)
    requires a <= b
    ensures Created(outputDir, a) <= Created(outputDir, b)
    decreases |b|
  {
    if |a| < |b| {
      var n := |b| - 1;
      assert a <= b[..n];
      CreatedPrefix(outputDir, a, b[..n]);
    } else {
      assert a == b;
    }
  }

  lemma {:induction false} JobsPrefix(perFolder: string -> seq<Job>, a: seq<string>, b: seq<string>)
    requires a <= b
    ensures Jobs(perFolder, a) <= Jobs(perFolder, b)
    decreases |b|
  {
    if |a| < |b| {
      var n := |b| - 1;
      assert a <= b[..n];
      JobsPrefix(perFolder, a, b[..n]);
    } else {
      assert a == b;
    }
  }

  /** One more sensor folder adds its calls at the end. */
  lemma JobsLast(perFolder: string -> seq<Job>, sensors: seq<string>, sensor: string)
    ensures Jobs(perFolder, sensors + [sensor]) == Jobs(perFolder, sensors) + perFolder(sensor)
  {
    assert (sensors + [sensor])[..|sensors|] == sensors;
  }

  /** One more sensor folder adds its output folder at the end. */
  lemma CreatedLast(outputDir: string, sensors: seq<string>, sensor: string)
    ensures Created(outputDir, sensors + [sensor]) == Created(outputDir, sensors) + [Join(outputDir, sensor)]
  {
    assert (sensors + [sensor])[..|sensors|] == sensors;
  }

  /** One more entry of the data folder is kept exactly when it names a folder. */
  lemma FoldersStep(dirs: set<string>, dataDir: string, entries: seq<string>, i: nat)
    requires i < |entries|
    ensures Folders(dirs, dataDir, entries[..i + 1]) ==
      Folders(dirs, dataDir, entries[..i]) + (if Join(dataDir, entries[i]) in dirs then [entries[i]] else [])
    ensures Folders(dirs, dataDir, entries[..i + 1]) <= Folders(dirs, dataDir, entries)
  {
    assert entries[..i + 1][..i] == entries[..i];
    FilterAppend(entries[..i + 1], entries[i + 1..], IsFolderIn(dirs, dataDir));
    assert entries[..i + 1] + entries[i + 1..] == entries;
  }

  /**
   * The calls of one folder, run after the successful calls `a` of a plan that continues with
   * them, extend the successful prefix of the plan, and a failure among them is the plan's.
   */
  lemma FolderInPlan(run: Job -> Result<Report, ProcessError>, plan: seq<Job>, a: seq<Job>, b: seq<Job>,
                     ra: seq<Report>, rb: seq<Report>, halt: Option<Halt>)
    requires a + b <= plan
    requires Succeeded(run, plan, ra) && |ra| == |a|
    requires Succeeded(run, b, rb)
    requires halt.None? ==> |rb| == |b|
    requires halt.Some? ==> Failed(run, b, rb, halt.value)
    ensures Succeeded(run, plan, ra + rb)
    ensures halt.None? ==> |ra + rb| == |a + b|
    ensures halt.Some? ==> Failed(run, plan, ra + rb, halt.value)
  {
    forall k | |ra| <= k < |ra + rb|
      ensures run(plan[k]) == Success((ra + rb)[k])
    {
      assert plan[k] == (a + b)[k] == b[k - |a|];
    }
    if halt.Some? {
      assert plan[|ra + rb|] == (a + b)[|a| + |rb|] == b[|rb|];
    }
  }

  /**
   * When the folder of `sensor` aborts the batch, the folders made so far end with its output
   * folder, after at least the output folder itself, and come first among all to be made.
   */
  lemma AbortedMade(outputDir: string, before: seq<string>, sensor: string, sensors: seq<string>)
    requires before + [sensor] <= sensors
    ensures |Created(outputDir, before) + [Join(outputDir, sensor)]| >= 2
    ensures Created(outputDir, before) + [Join(outputDir, sensor)] <= Created(outputDir, sensors)
  {
    CreatedSpec(outputDir, before);
    CreatedLast(outputDir, before, sensor);
    CreatedPrefix(outputDir, before + [sensor], sensors);
  }

  /**
   * What a batch that found its data folder reports: when it finished, every call of `plan`
   * succeeded and every folder of `created` was made; when it aborted, the calls of `plan`
   * before `failed` succeeded, `failed` failed with `error`, and the folders made are those of
   * `created` up to the output folder of the failed call's sensor.
   */
  predicate Reached(run: Job -> Result<Report, ProcessError>, plan: seq<Job>, created: seq<string>, outcome: BatchOutcome)
  {
    match outcome
    case NoDataDir => false
    case Finished(made, reports) =>
      Succeeded(run, plan, reports) && |reports| == |plan| && made == created
    case Aborted(made, reports, failed, error) =>
      Succeeded(run, plan, reports) && Failed(run, plan, reports, Halt(failed, error)) &&
      |made| >= 2 && made[|made| - 1] == failed.outDir && made <= created
  }

  /**
   * `process_all(dataDir, outputDir)`: without a data folder it stops with an error; otherwise
   * it creates the output folder and one output folder per sensor folder, and calls
   * `process_file` on every job of the plan in order. Nothing catches an exception, so the
   * first failing call ends the batch, after the calls before it have written their files.
   */
  method ProcessAll(disk: Disk, num: Numerics, dataDir: string, outputDir: string)
    returns (outcome: BatchOutcome)
    ensures outcome.NoDataDir? <==> dataDir !in disk.dirs
    ensures dataDir in disk.dirs ==>
      Reached(Run(disk, num), Plan(disk, dataDir, outputDir), Created(outputDir, SensorFolders(disk, dataDir)), outcome)
  {
    if dataDir !in disk.dirs {
      return NoDataDir;
    }
    var entries := SortedNames(ListDir(disk, dataDir));
    outcome := ProcessSensors(disk, num, dataDir, outputDir, entries);
  }

  /**
   * The outer loop of `process_all` over the sorted entries of the data folder: each entry
   * that is a folder gets its output folder and then the inner loop over its files.
   */
  method ProcessSensors(disk: Disk, num: Numerics, dataDir: string, outputDir: string, entries: seq<string>)
    returns (outcome: BatchOutcome)
    ensures Reached(Run(disk, num), SensorJobs(disk, dataDir, outputDir, entries),
      Created(outputDir, Folders(disk.dirs, dataDir, entries)), outcome)
  {
    ghost var run := Run(disk, num);
    ghost var perFolder := FolderJobsIn(disk, dataDir, outputDir);
    ghost var sensors := Folders(disk.dirs, dataDir, entries);
    ghost var plan := Jobs(perFolder, sensors);
    var made: seq<string> := [outputDir];
    var reports: seq<Report> := [];
    assert entries[..0] == [];
    for i := 0 to |entries|
      invariant Folders(disk.dirs, dataDir, entries[..i]) <= sensors
      invariant Jobs(perFolder, Folders(disk.dirs, dataDir, entries[..i])) <= plan
      invariant |reports| == |Jobs(perFolder, Folders(disk.dirs, dataDir, entries[..i]))|
      invariant Succeeded(run, plan, reports)
      invariant made == Created(outputDir, Folders(disk.dirs, dataDir, entries[..i]))
    {
      ghost var before := Folders(disk.dirs, dataDir, entries[..i]);
      ghost var next := Folders(disk.dirs, dataDir, entries[..i + 1]);
      FoldersStep(disk.dirs, dataDir, entries, i);
      JobsPrefix(perFolder, next, sensors);
      if Join(dataDir, entries[i]) in disk.dirs {
        JobsLast(perFolder, before, entries[i]);
        CreatedLast(outputDir, before, entries[i]);
        made := made + [Join(outputDir, entries[i])];
        var done, failure := ProcessFolder(disk, num, dataDir, outputDir, entries[i]);
        FolderInPlan(run, plan, Jobs(perFolder, before), perFolder(entries[i]), reports, done, failure);
        if failure.Some? {
          AbortedMade(outputDir, before, entries[i], sensors);
          return Aborted(made, reports + done, failure.value.job, failure.value.error);
        }
        reports := reports + done;
      } else {
        assert next == before;
      }
    }
    assert entries[..|entries|] == entries;
    outcome := Finished(made, reports);
  }
}
