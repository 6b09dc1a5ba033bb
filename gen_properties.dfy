/**
 * The signal generator property interface between the front end and the
 * drivers: the start/stop toggle, and loading arbitrary waveform data from
 * a CSV file, whose path the front end passes as a file URL. The file's
 * existence and the rows the CSV reader yields are parameters; Python's
 * `float()` is the `parse` parameter.
 */
module GenProperties {
  import opened Common
  import TG = TiepieGen
  import TK = TektronixGen

  // ---------------------------------------------------------------------
  // The file path

  /** `s.split(sep, maxsplit=1)`: the text before and after the first separator, or the whole text. */
  function SplitOnce(s: string, sep: string): (parts: seq<string>)
    requires sep != []
    ensures 1 <= |parts| <= 2
  {
    match Find(s, sep)
    case None => [s]
    case Some(i) => [s[..i], s[i + |sep|..]]
  }

  /**
   * The path `_arb_data_thread` opens: what follows the first `:\` (a
   * drive letter, as after `file:///C:\`), else what follows the first `:`
   * (as after `file:`), else the whole path.
   */
  function FilePath(path: string): (file: string)
  {
    var parts := SplitOnce(path, ":\\");
    if |parts| < 2 then
      var parts2 := SplitOnce(parts[0], ":");
      if |parts2| >= 2 then parts2[1] else parts2[0]
    else parts[1]
  }

  /** The separator splits once, at its first occurrence, and the pieces join back to the text. */
  lemma SplitOnceSpec(s: string, sep: string)
    requires sep != []
    ensures |SplitOnce(s, sep)| == 2 <==> exists j :: At(s, sep, j)
    ensures |SplitOnce(s, sep)| == 2 ==>
      var i := |SplitOnce(s, sep)[0]|;
      At(s, sep, i) && (forall j :: 0 <= j < i ==> !At(s, sep, j)) && SplitOnce(s, sep)[1] == s[i + |sep|..]
    ensures Join(SplitOnce(s, sep), sep) == s
  {
    FindSpec(s, sep);
    match Find(s, sep)
    case None =>
    case Some(i) =>
      assert s[i..i + |sep|] == sep;
      assert s[..i] + sep + s[i + |sep|..] == s;
  }

  /**
   * The opened file is what follows the first `:\` when there is one, else
   * what follows the first `:` when there is one, else the whole path; in
   * every case a tail of the path.
   */
  lemma FilePathSpec(path: string)
    ensures exists k :: 0 <= k <= |path| && FilePath(path) == path[k..]
    ensures forall i :: At(path, ":\\", i) && (forall j :: 0 <= j < i ==> !At(path, ":\\", j)) ==>
      FilePath(path) == path[i + 2..]
    ensures (forall j :: !At(path, ":\\", j)) ==>
      forall i :: At(path, ":", i) && (forall j :: 0 <= j < i ==> !At(path, ":", j)) ==>
        FilePath(path) == path[i + 1..]
    ensures (forall j :: !At(path, ":\\", j) && !At(path, ":", j)) ==> FilePath(path) == path
  {
    SplitOnceSpec(path, ":\\");
    SplitOnceSpec(path, ":");
    FindSpec(path, ":\\");
    FindSpec(path, ":");
    match Find(path, ":\\")
    case Some(i) =>
      assert FilePath(path) == path[i + 2..];
      forall i' | At(path, ":\\", i') && (forall j :: 0 <= j < i' ==> !At(path, ":\\", j))
        ensures i' == i
      {
      }
    case None =>
      match Find(path, ":")
      case Some(i) =>
        assert FilePath(path) == path[i + 1..];
        forall i' | At(path, ":", i') && (forall j :: 0 <= j < i' ==> !At(path, ":", j))
          ensures i' == i
        {
        }
      case None =>
        assert FilePath(path) == path[0..];
  }

  /** `file[-4:] == '.csv'`, with Python's slice of a text shorter than four characters. */
  predicate IsCsv(file: string)
  {
    (if |file| >= 4 then file[|file| - 4..] else file) == ".csv"
  }

  /** Only names ending in `.csv` pass. */
  lemma IsCsvSpec(file: string)
    ensures IsCsv(file) <==> exists stem :: file == stem + ".csv"
  {
    if IsCsv(file) {
      assert file == file[..|file| - 4] + ".csv";
    }
    if exists stem :: file == stem + ".csv" {
      var stem :| file == stem + ".csv";
      assert file[|file| - 4..] == ".csv";
    }
  }

  // ---------------------------------------------------------------------
  // Decoding the CSV rows

  /** One field as a number; a field that does not parse counts as 0. */
  function ValueOr0(field: string, parse: string -> Option<real>): real
  {
    match parse(field)
    case None => 0.0
    case Some(x) => x
  }

  /** A row's first field as a number; an empty row counts as 0. */
  function FirstFieldOr0(row: seq<string>, parse: string -> Option<real>): real
  {
    if row == [] then 0.0 else ValueOr0(row[0], parse)
  }

  /**
   * The waveform a CSV file holds: a first row with several fields is the
   * waveform; otherwise the file is a column with a header, whose first
   * fields after the header are the waveform. An empty file holds none.
   */
  function CsvValues(rows: seq<seq<string>>, parse: string -> Option<real>): (vs: seq<real>)
    ensures rows == [] ==> vs == []
    ensures rows != [] && |rows[0]| > 1 ==>
      |vs| == |rows[0]| && forall i :: 0 <= i < |vs| ==> vs[i] == ValueOr0(rows[0][i], parse)
    ensures rows != [] && |rows[0]| <= 1 ==>
      |vs| == |rows| - 1 && forall i :: 0 <= i < |vs| ==> vs[i] == FirstFieldOr0(rows[i + 1], parse)
  {
    if rows == [] then []
    else if |rows[0]| > 1 then seq(|rows[0]|, i requires 0 <= i < |rows[0]| => ValueOr0(rows[0][i], parse))
    else seq(|rows| - 1, i requires 0 <= i < |rows| - 1 => FirstFieldOr0(rows[i + 1], parse))
  }

  /**
   * The reading loop of `_arb_data_thread`: assume a row until the first
   * row proves to have one field, then collect every row's first field and
   * drop the header at the end.
   */
  method ReadCsv(rows: seq<seq<string>>, parse: string -> Option<real>) returns (inputData: seq<real>)
    ensures inputData == CsvValues(rows, parse)
  {
    var rowMajor := true;
    inputData := [];
    var i := 0;
    while i < |rows|
      invariant 0 <= i <= |rows|
      invariant rowMajor ==> i == 0 && inputData == []
      invariant !rowMajor ==> i >= 1 && |rows[0]| <= 1 && |inputData| == i
      invariant !rowMajor ==> forall k :: 0 <= k < i ==> inputData[k] == FirstFieldOr0(rows[k], parse)
    {
      var row := rows[i];
      if rowMajor {
        if |row| > 1 {
          var j := 0;
          while j < |row|
            invariant 0 <= j <= |row| && |inputData| == j
            invariant forall k :: 0 <= k < j ==> inputData[k] == ValueOr0(row[k], parse)
          {
            inputData := inputData + [ValueOr0(row[j], parse)];
            j := j + 1;
          }
          break;
        } else {
          rowMajor := false;
        }
      }
      inputData := inputData + [FirstFieldOr0(row, parse)];
      i := i + 1;
    }
    if !rowMajor {
      inputData := inputData[1..];
    }
  }

  /** A column of one header and `n` values yields the `n` values. */
  lemma ColumnDropsHeader(header: string, column: seq<string>, parse: string -> Option<real>)
    ensures CsvValues([[header]] + seq(|column|, i requires 0 <= i < |column| => [column[i]]), parse)
      == seq(|column|, i requires 0 <= i < |column| => ValueOr0(column[i], parse))
  {
    var rows := [[header]] + seq(|column|, i requires 0 <= i < |column| => [column[i]]);
    assert |rows[0]| == 1;
    assert forall i :: 0 <= i < |column| ==> rows[i + 1] == [column[i]];
  }

  // ---------------------------------------------------------------------
  // Accesses

  /**
   * `_arb_data_thread` on a TiePie generator channel: only an existing
   * `.csv` file is read; its waveform goes to the channel's setter, and the
   * preview graph is refreshed (`graphUpdate`) exactly when the setter
   * accepts it.
   */
  method ArbDataAccess(channel: TG.TiepieGenChannel, path: string, fileExists: bool, rows: seq<seq<string>>,
                       parse: string -> Option<real>) returns (graphUpdate: bool)
    requires channel.Valid()
    modifies channel`rawArb, channel`preview, channel.hw`arbData
    ensures channel.Valid()
    ensures !(fileExists && IsCsv(FilePath(path))) ==>
      !graphUpdate && channel.rawArb == old(channel.rawArb) && channel.hw.arbData == old(channel.hw.arbData)
      && channel.preview == old(channel.preview)
    ensures fileExists && IsCsv(FilePath(path)) ==>
      var data := CsvValues(rows, parse);
      (graphUpdate <==>
        channel.hw.controllable && channel.hw.s.sigType == "arbitrary" && |data| >= channel.hw.lim.arbLenMin)
      && (graphUpdate ==> channel.rawArb == data[..MinNat(|data|, channel.hw.lim.arbLenMax)])
      && (!graphUpdate ==> channel.rawArb == old(channel.rawArb) && channel.preview == old(channel.preview))
  {
    graphUpdate := false;
    var file := FilePath(path);
    if fileExists && IsCsv(file) {
      var inputData := ReadCsv(rows, parse);
      graphUpdate := channel.SetArbData(inputData);
    }
  }

  /**
   * `_start_n_stop_thread` on a TiePie generator: start when not running,
   * stop otherwise, and report whether it now runs. Nothing changes while
   * the instrument is not controllable.
   */
  method StartNStopTiepie(gen: TG.TiepieGen) returns (running: bool)
    modifies gen`running, gen.hw`generating
    ensures running == gen.IsRunning()
    ensures !old(gen.running) ==> (running <==> gen.hw.controllable && gen.SomeEnabled())
    ensures old(gen.running) ==> (running <==> !gen.hw.controllable)
  {
    if !gen.IsRunning() {
      var _ := gen.Start();
    } else {
      var _ := gen.Stop();
    }
    running := gen.IsRunning();
  }

  /** `_start_n_stop_thread` on a Tektronix generator: it always reports running. */
  method StartNStopTektronix(gen: TK.TektronixGen) returns (running: bool)
    ensures running
  {
    if !gen.IsRunning() {
      var _ := gen.Start();
    } else {
      var _ := gen.Stop();
    }
    running := gen.IsRunning();
  }
}
