/**
 * The profile analysis scripts (analysis/analysis.py, analysis/profile.py):
 * each profile file is folded line by line into a map from symbol to TSC
 * ticks, one map per (configuration, query); the table of those maps is then
 * split into the symbols that reach 5e8 ticks in some query and the rest,
 * which are summed into an `other` column. Reading files and plotting are
 * not modelled: a file is given as its lines.
 */
module Profile {
  import opened Text

  // ---------------------------------------------------------------------------
  // Errors

  /** The exception a line raises, with the 0-based index of that line. */
  datatype PyError =
    | IndexError(line: nat)   // fewer than five tokens: tokens[4] does not exist
    | ValueError(line: nat)   // tokens[1] is not an integer literal

  datatype Result<+T> = Ok(value: T) | Err(error: PyError)
  {
    predicate IsFailure() { Err? }

    function PropagateFailure<U>(): Result<U>
      requires Err?
    {
      Err(error)
    }

    function Extract(): T
      requires Ok?
    {
      value
    }
  }

  // ---------------------------------------------------------------------------
  // Lines

  /** What one profile line contributes: tokens[4] gains int(tokens[1]) ticks. */
  datatype Entry = Entry(symbol: string, ticks: int)

  /**
   * One line: split on whitespace; tokens[4] is looked up before tokens[1] is
   * converted, so a short line is an IndexError whatever its second token.
   */
  function ParseLine(line: string, index: nat): (r: Result<Entry>)
    ensures r.Err? <==> |Split(line)| < 5 || ParseInt(Split(line)[1]).None?
    ensures r.Err? ==> (r.error == IndexError(index) <==> |Split(line)| < 5)
    ensures r.Err? ==> r.error.line == index
    ensures r.Ok? ==> r.value.symbol == Split(line)[4] && Some(r.value.ticks) == ParseInt(Split(line)[1])
  {
    var tokens := Split(line);
    if |tokens| < 5 then Err(IndexError(index))
    else
      match ParseInt(tokens[1])
      case None => Err(ValueError(index))
      case Some(n) => Ok(Entry(tokens[4], n))
  }

  /** A line written as whitespace-separated tokens, the second an integer, reads back as its entry. */
  lemma ParseLineRoundTrip(tokens: seq<string>, ticks: int, index: nat)
    requires |tokens| >= 5 && tokens[1] == IntToString(ticks)
    requires forall i | 0 <= i < |tokens| :: |tokens[i]| >= 1 && NoSpace(tokens[i])
    ensures ParseLine(Join(tokens, " "), index) == Ok(Entry(tokens[4], ticks))
  {
    SplitJoin(tokens);
    IntToStringRoundTrip(ticks);
  }

  /** Every line in order; the first line that raises ends the read. */
  function ParseLines(lines: seq<string>): (r: Result<seq<Entry>>)
    ensures r.Ok? ==> |r.value| == |lines|
    decreases |lines|
  {
    if lines == [] then Ok([])
    else
      var entries :- ParseLines(lines[..|lines| - 1]);
      var e :- ParseLine(lines[|lines| - 1], |lines| - 1);
      Ok(entries + [e])
  }

  /** The entries are the lines' entries, line by line. */
  lemma {:induction false} ParseLinesAt(lines: seq<string>, i: nat)
    requires ParseLines(lines).Ok? && i < |lines|
    ensures ParseLine(lines[i], i) == Ok(ParseLines(lines).value[i])
    decreases |lines|
  {
    var front := lines[..|lines| - 1];
    if i < |front| {
      ParseLinesAt(front, i);
    }
  }

  /** Reading stops at the first line that raises: its error is the read's error. */
  lemma {:induction false} ParseLinesFirstError(lines: seq<string>, i: nat)
    requires i < |lines| && ParseLines(lines[..i]).Ok? && ParseLine(lines[i], i).Err?
    ensures ParseLines(lines) == Err(ParseLine(lines[i], i).error)
    decreases |lines|
  {
    var front := lines[..|lines| - 1];
    if i == |lines| - 1 {
      assert front == lines[..i];
    } else {
      assert front[..i] == lines[..i];
      ParseLinesFirstError(front, i);
    }
  }

  // ---------------------------------------------------------------------------
  // The fold

  /** defaultdict(int) lookup: a missing symbol counts as 0. */
  function Get(m: map<string, int>, k: string): int
  {
    if k in m then m[k] else 0
  }

  /** `profile[symbol] += ticks` on a defaultdict(int). */
  function Add(m: map<string, int>, e: Entry): (m': map<string, int>)
    ensures m'.Keys == m.Keys + {e.symbol}
    ensures m'[e.symbol] == Get(m, e.symbol) + e.ticks
    ensures forall k | k in m && k != e.symbol :: m'[k] == m[k]
  {
    m[e.symbol := Get(m, e.symbol) + e.ticks]
  }

  /** The profile after adding every entry in order to an empty defaultdict. */
  function Accumulate(entries: seq<Entry>): map<string, int>
    decreases |entries|
  {
    if entries == [] then map[] else Add(Accumulate(entries[..|entries| - 1]), entries[|entries| - 1])
  }

  /** A file's profile, or the exception its first bad line raises. */
  function ProfileOf(lines: seq<string>): (r: Result<map<string, int>>)
    ensures r.Ok? <==> ParseLines(lines).Ok?
    ensures r.Err? ==> r.error == ParseLines(lines).error
  {
    var entries :- ParseLines(lines);
    Ok(Accumulate(entries))
  }

  /**
   * The loop over a file's lines, updating the defaultdict in place: the
   * profile it builds is the fold of the file's entries.
   */
  method ReadProfile(lines: seq<string>) returns (r: Result<map<string, int>>)
    ensures r == ProfileOf(lines)
  {
    var profile: map<string, int> := map[];
    for i := 0 to |lines|
      invariant ParseLines(lines[..i]).Ok?
      invariant profile == Accumulate(ParseLines(lines[..i]).value)
    {
      assert lines[..i + 1][..i] == lines[..i];
      var tokens := Split(lines[i]);
      if |tokens| < 5 {
        ParseLinesFirstError(lines, i);
        return Err(IndexError(i));
      }
      var ticks := ParseInt(tokens[1]);
      if ticks.None? {
        ParseLinesFirstError(lines, i);
        return Err(ValueError(i));
      }
      var symbol := tokens[4];
      var current := if symbol in profile then profile[symbol] else 0;
      profile := profile[symbol := current + ticks.value];
    }
    assert lines[..|lines|] == lines;
    r := Ok(profile);
  }

  // ---------------------------------------------------------------------------
  // What the fold keeps

  /** The ticks of all entries. */
  function Ticks(entries: seq<Entry>): int
    decreases |entries|
  {
    if entries == [] then 0 else Ticks(entries[..|entries| - 1]) + entries[|entries| - 1].ticks
  }

  /** The ticks of the entries for one symbol. */
  function SymbolTicks(entries: seq<Entry>, symbol: string): int
    decreases |entries|
  {
    if entries == [] then 0
    else
      var e := entries[|entries| - 1];
      SymbolTicks(entries[..|entries| - 1], symbol) + if e.symbol == symbol then e.ticks else 0
  }

  /** Some entry is for the symbol. */
  predicate Mentions(entries: seq<Entry>, symbol: string)
  {
    exists i | 0 <= i < |entries| :: entries[i].symbol == symbol
  }

  /**
   * The profile holds exactly the symbols that occur, each with the ticks of
   * its own entries.
   */
  lemma {:induction false} AccumulateAt(entries: seq<Entry>, symbol: string)
    ensures symbol in Accumulate(entries) <==> Mentions(entries, symbol)
    ensures Get(Accumulate(entries), symbol) == SymbolTicks(entries, symbol)
    decreases |entries|
  {
    if entries != [] {
      var front := entries[..|entries| - 1];
      var e := entries[|entries| - 1];
      AccumulateAt(front, symbol);
      if Mentions(front, symbol) {
        var i :| 0 <= i < |front| && front[i].symbol == symbol;
        assert entries[i].symbol == symbol;
      }
      if Mentions(entries, symbol) && e.symbol != symbol {
        var i :| 0 <= i < |entries| && entries[i].symbol == symbol;
        assert front[i].symbol == symbol;
      }
    }
  }

  /** Two additions to a defaultdict commute. */
  lemma AddCommutes(m: map<string, int>, a: Entry, b: Entry)
    ensures Add(Add(m, a), b) == Add(Add(m, b), a)
  {
    var x := Add(Add(m, a), b);
    var y := Add(Add(m, b), a);
    forall k | k in x
      ensures x[k] == y[k]
    {
    }
  }

  /** Swapping two adjacent lines does not change the profile. */
  lemma {:induction false} AccumulateSwap(p: seq<Entry>, a: Entry, b: Entry, s: seq<Entry>)
    ensures Accumulate(p + [a, b] + s) == Accumulate(p + [b, a] + s)
    decreases |s|
  {
    var x := p + [a, b] + s;
    var y := p + [b, a] + s;
    if s == [] {
      assert x[..|x| - 1] == p + [a] && x[|x| - 1] == b;
      assert y[..|y| - 1] == p + [b] && y[|y| - 1] == a;
      assert (p + [a])[..|p|] == p && (p + [b])[..|p|] == p;
      assert Accumulate(x) == Add(Add(Accumulate(p), a), b);
      assert Accumulate(y) == Add(Add(Accumulate(p), b), a);
      AddCommutes(Accumulate(p), a, b);
    } else {
      var s' := s[..|s| - 1];
      assert x[..|x| - 1] == p + [a, b] + s' && x[|x| - 1] == s[|s| - 1];
      assert y[..|y| - 1] == p + [b, a] + s' && y[|y| - 1] == s[|s| - 1];
      AccumulateSwap(p, a, b, s');
    }
  }

  /** The sum of a map's values, taken in any order. */
  ghost function MapSum(m: map<string, int>): int
    decreases |m.Keys|
  {
    if m.Keys == {} then 0
    else
      var k :| k in m.Keys;
      assert (m - {k}).Keys < m.Keys;
      m[k] + MapSum(m - {k})
  }

  /** Any key can be taken out first. */
  lemma {:induction false} MapSumRemove(m: map<string, int>, k: string)
    requires k in m
    ensures MapSum(m) == m[k] + MapSum(m - {k})
    decreases |m.Keys|
  {
    var j :| j in m.Keys && MapSum(m) == m[j] + MapSum(m - {j});
    if j != k {
      assert (m - {j}).Keys < m.Keys && (m - {k}).Keys < m.Keys;
      MapSumRemove(m - {j}, k);
      MapSumRemove(m - {k}, j);
      assert m - {j} - {k} == m - {k} - {j};
    }
  }

  /** The profile's ticks add up to the ticks of all the file's lines. */
  lemma {:induction false} AccumulateSum(entries: seq<Entry>)
    ensures MapSum(Accumulate(entries)) == Ticks(entries)
    decreases |entries|
  {
    if entries != [] {
      var front := entries[..|entries| - 1];
      var e := entries[|entries| - 1];
      var m := Accumulate(front);
      var m' := Add(m, e.(ticks := e.ticks));
      AccumulateSum(front);
      MapSumRemove(m', e.symbol);
      assert m' - {e.symbol} == m - {e.symbol};
      if e.symbol in m {
        MapSumRemove(m, e.symbol);
      } else {
        assert m - {e.symbol} == m;
      }
    }
  }

  // ---------------------------------------------------------------------------
  // The per-configuration tables

  /** The two build configurations, in the order the scripts visit them. */
  const Configs: seq<string> := ["vanilla", "bloom"]

  /** The thirteen Star Schema Benchmark query names analysis.py reads. */
  const QueryNames: seq<string> := ["1.1", "1.2", "1.3", "2.1", "2.2", "2.3", "3.1", "3.2", "3.3", "3.4", "4.1", "4.2", "4.3"]

  const ProfileDir := "data/ssb/c220g5/profiles/"

  /** The file analysis.py reads for a configuration and a query name. */
  function AnalysisPath(config: string, name: string): string
  {
    ProfileDir + config + "/Q" + name + ".txt"
  }

  /** The file profile.py reads for a configuration and a query. */
  function QueryPath(config: string, query: string): string
  {
    ProfileDir + config + "/" + query + ".txt"
  }

  /** Under one configuration, different query names are read from different files. */
  lemma AnalysisPathInjective(config: string, n1: string, n2: string)
    requires AnalysisPath(config, n1) == AnalysisPath(config, n2)
    ensures n1 == n2
  {
    var head := ProfileDir + config + "/Q";
    assert AnalysisPath(config, n1) == head + n1 + ".txt";
    assert AnalysisPath(config, n2) == head + n2 + ".txt";
    assert n1 == AnalysisPath(config, n1)[|head|..|head| + |n1|];
    assert |n1| == |n2|;
  }

  /**
   * One configuration's `data`: the names in order, each mapped to the profile
   * of the file `path(config, name)`; the first file with a bad line raises.
   */
  function DataOf(config: string, names: seq<string>, path: (string, string) -> string, files: string -> seq<string>)
    : Result<map<string, map<string, int>>>
    decreases |names|
  {
    if names == [] then Ok(map[])
    else
      var data :- DataOf(config, names[..|names| - 1], path, files);
      var name := names[|names| - 1];
      var profile :- ProfileOf(files(path(config, name)));
      Ok(data[name := profile])
  }

  /** Every name's file reads without raising. */
  predicate AllRead(config: string, names: seq<string>, path: (string, string) -> string, files: string -> seq<string>)
  {
    forall j | 0 <= j < |names| :: ProfileOf(files(path(config, names[j]))).Ok?
  }

  lemma AllReadSnoc(config: string, names: seq<string>, path: (string, string) -> string, files: string -> seq<string>)
    requires names != []
    ensures AllRead(config, names, path, files) <==>
      AllRead(config, names[..|names| - 1], path, files) && ProfileOf(files(path(config, names[|names| - 1]))).Ok?
  {
    var front := names[..|names| - 1];
    assert forall j | 0 <= j < |front| :: names[j] == front[j];
  }

  /** `data` is missing only when some name's file raises. */
  lemma {:induction false} DataOfOk(config: string, names: seq<string>, path: (string, string) -> string, files: string -> seq<string>)
    ensures DataOf(config, names, path, files).Ok? <==> AllRead(config, names, path, files)
    decreases |names|
  {
    if names != [] {
      DataOfOk(config, names[..|names| - 1], path, files);
      AllReadSnoc(config, names, path, files);
    }
  }

  /**
   * `data` has a row for every name and no other, each row the profile of that
   * name's file.
   */
  lemma {:induction false} DataOfRows(config: string, names: seq<string>, path: (string, string) -> string, files: string -> seq<string>, data: map<string, map<string, int>>)
    requires DataOf(config, names, path, files) == Ok(data)
    ensures forall k :: k in data <==> k in names
    ensures forall j | 0 <= j < |names| :: ProfileOf(files(path(config, names[j]))) == Ok(data[names[j]])
    decreases |names|
  {
    if names != [] {
      var front := names[..|names| - 1];
      var name := names[|names| - 1];
      var rows := DataOf(config, front, path, files).value;
      DataOfRows(config, front, path, files, rows);
      assert data == rows[name := ProfileOf(files(path(config, name))).value];
      assert forall k :: k in names <==> k in front || k == name;
      forall j | 0 <= j < |names|
        ensures ProfileOf(files(path(config, names[j]))) == Ok(data[names[j]])
      {
        if j < |front| {
          assert names[j] == front[j];
        }
      }
    }
  }

  /** The loop over one configuration's names, filling `data` in place. */
  method CollectData(config: string, names: seq<string>, path: (string, string) -> string, files: string -> seq<string>)
    returns (r: Result<map<string, map<string, int>>>)
    ensures r == DataOf(config, names, path, files)
  {
    var data: map<string, map<string, int>> := map[];
    for i := 0 to |names|
      invariant DataOf(config, names[..i], path, files) == Ok(data)
    {
      assert names[..i + 1][..i] == names[..i];
      var profile := ReadProfile(files(path(config, names[i])));
      if profile.Err? {
        DataOfStops(config, names, path, files, i + 1);
        return Err(profile.error);
      }
      data := data[names[i] := profile.value];
    }
    assert names[..|names|] == names;
    r := Ok(data);
  }

  /** Once a prefix of the names raises, so does the whole list, with the same error. */
  lemma {:induction false} DataOfStops(config: string, names: seq<string>, path: (string, string) -> string, files: string -> seq<string>, n: nat)
    requires n <= |names| && DataOf(config, names[..n], path, files).Err?
    ensures DataOf(config, names, path, files) == DataOf(config, names[..n], path, files)
    decreases |names|
  {
    if n < |names| {
      assert names[..|names| - 1][..n] == names[..n];
      DataOfStops(config, names[..|names| - 1], path, files, n);
    } else {
      assert names[..n] == names;
    }
  }

  /**
   * The outer loop over configurations: each configuration's `data` in turn;
   * the first file with a bad line ends the script.
   */
  method RunConfigs(configs: seq<string>, names: seq<string>, path: (string, string) -> string, files: string -> seq<string>)
    returns (r: Result<seq<map<string, map<string, int>>>>)
    ensures r.Ok? <==> forall c | 0 <= c < |configs| :: DataOf(configs[c], names, path, files).Ok?
    ensures r.Ok? ==> |r.value| == |configs|
    ensures r.Ok? ==> forall c | 0 <= c < |configs| :: DataOf(configs[c], names, path, files) == Ok(r.value[c])
    ensures r.Err? ==> exists c | 0 <= c < |configs| :: DataOf(configs[c], names, path, files) == Err(r.error)
  {
    var tables: seq<map<string, map<string, int>>> := [];
    for c := 0 to |configs|
      invariant |tables| == c
      invariant forall d | 0 <= d < c :: DataOf(configs[d], names, path, files) == Ok(tables[d])
    {
      var data := CollectData(configs[c], names, path, files);
      if data.Err? {
        return Err(data.error);
      }
      tables := tables + [data.value];
    }
    r := Ok(tables);
  }

  /** analysis.py: both configurations, the thirteen query names, files named Q<name>.txt. */
  method Analysis(files: string -> seq<string>) returns (r: Result<seq<map<string, map<string, int>>>>)
    ensures r.Ok? <==> forall c | 0 <= c < |Configs| :: DataOf(Configs[c], QueryNames, AnalysisPath, files).Ok?
    ensures r.Ok? ==> |r.value| == |Configs|
    ensures r.Ok? ==> forall c | 0 <= c < |Configs| :: DataOf(Configs[c], QueryNames, AnalysisPath, files) == Ok(r.value[c])
  {
    r := RunConfigs(Configs, QueryNames, AnalysisPath, files);
  }

  /**
   * profile.py: both configurations, the queries of its `util` module (which is
   * not part of this model, so they are a parameter), files named <query>.txt.
   */
  method ProfileQueries(queries: seq<string>, files: string -> seq<string>) returns (r: Result<seq<map<string, map<string, int>>>>)
    ensures r.Ok? <==> forall c | 0 <= c < |Configs| :: DataOf(Configs[c], queries, QueryPath, files).Ok?
    ensures r.Ok? ==> |r.value| == |Configs|
    ensures r.Ok? ==> forall c | 0 <= c < |Configs| :: DataOf(Configs[c], queries, QueryPath, files) == Ok(r.value[c])
  {
    r := RunConfigs(Configs, queries, QueryPath, files);
  }

  // ---------------------------------------------------------------------------
  // The threshold split

  /** The column threshold: 5e8 TSC ticks. */
  const Threshold: int := 500000000

  /** The symbols of a table: the union of its rows' keys (a missing entry is NaN). */
  function Columns(rows: seq<map<string, int>>): (cols: set<string>)
    ensures forall i | 0 <= i < |rows| :: rows[i].Keys <= cols
    decreases |rows|
  {
    if rows == [] then {} else Columns(rows[..|rows| - 1]) + rows[|rows| - 1].Keys
  }

  /** `df.max(axis=0)` for one column: the largest entry it holds, skipping NaN. */
  function ColumnMax(rows: seq<map<string, int>>, c: string): (r: Option<int>)
    ensures r.Some? <==> c in Columns(rows)
    decreases |rows|
  {
    if rows == [] then None
    else
      var front := rows[..|rows| - 1];
      var last := rows[|rows| - 1];
      var m := ColumnMax(front, c);
      if c !in last then m
      else if m.Some? && m.value >= last[c] then m
      else Some(last[c])
  }

  /** ColumnMax is the maximum: no entry of the column exceeds it, and some entry equals it. */
  lemma {:induction false} ColumnMaxIsMax(rows: seq<map<string, int>>, c: string)
    requires c in Columns(rows)
    ensures forall i | 0 <= i < |rows| && c in rows[i] :: rows[i][c] <= ColumnMax(rows, c).value
    ensures exists i | 0 <= i < |rows| :: c in rows[i] && rows[i][c] == ColumnMax(rows, c).value
    decreases |rows|
  {
    var front := rows[..|rows| - 1];
    var last := rows[|rows| - 1];
    if c in Columns(front) {
      ColumnMaxIsMax(front, c);
      var i :| 0 <= i < |front| && c in front[i] && front[i][c] == ColumnMax(front, c).value;
      assert rows[i] == front[i];
    }
    forall i | 0 <= i < |rows| && c in rows[i]
      ensures rows[i][c] <= ColumnMax(rows, c).value
    {
      if i < |front| {
        assert rows[i] == front[i];
      }
    }
  }

  /** df0's columns: every entry below the threshold. */
  function SmallColumns(rows: seq<map<string, int>>): (small: set<string>)
    ensures small <= Columns(rows)
    ensures forall c | c in small :: forall i | 0 <= i < |rows| && c in rows[i] :: rows[i][c] < Threshold
  {
    forall c | c in Columns(rows) {
      ColumnMaxIsMax(rows, c);
    }
    set c | c in Columns(rows) && ColumnMax(rows, c).value < Threshold
  }

  /** df1's columns: some entry at or above the threshold. */
  function LargeColumns(rows: seq<map<string, int>>): (large: set<string>)
    ensures large <= Columns(rows)
    ensures forall c | c in large :: exists i | 0 <= i < |rows| :: c in rows[i] && rows[i][c] >= Threshold
  {
    forall c | c in Columns(rows) {
      ColumnMaxIsMax(rows, c);
    }
    set c | c in Columns(rows) && ColumnMax(rows, c).value >= Threshold
  }

  /** Every symbol lands in exactly one of df0 and df1. */
  lemma SplitPartitions(rows: seq<map<string, int>>)
    ensures SmallColumns(rows) !! LargeColumns(rows)
    ensures SmallColumns(rows) + LargeColumns(rows) == Columns(rows)
  {
    forall c | c in Columns(rows)
      ensures c in SmallColumns(rows) + LargeColumns(rows)
    {
      var m := ColumnMax(rows, c);
    }
  }

  /** A row restricted to some columns. */
  function Restrict(row: map<string, int>, cols: set<string>): (part: map<string, int>)
    ensures part.Keys == row.Keys * cols
    ensures forall k | k in part :: part[k] == row[k]
  {
    map k | k in row && k in cols :: row[k]
  }

  /** `df0.sum(axis=1)`: each row's sum over the df0 columns, NaN counted as 0. */
  ghost function Other(rows: seq<map<string, int>>): (other: seq<int>)
    ensures |other| == |rows|
  {
    OtherOf(rows, SmallColumns(rows))
  }

  ghost function OtherOf(rows: seq<map<string, int>>, small: set<string>): (other: seq<int>)
    ensures |other| == |rows|
    decreases |rows|
  {
    if rows == [] then []
    else OtherOf(rows[..|rows| - 1], small) + [MapSum(Restrict(rows[|rows| - 1], small))]
  }

  lemma {:induction false} OtherOfAt(rows: seq<map<string, int>>, small: set<string>, i: nat)
    requires i < |rows|
    ensures OtherOf(rows, small)[i] == MapSum(Restrict(rows[i], small))
    decreases |rows|
  {
    if i < |rows| - 1 {
      OtherOfAt(rows[..|rows| - 1], small, i);
    }
  }

  /** `df1.assign(other=...)`: a row's df1 entries, plus the other column. */
  ghost function Df1Row(rows: seq<map<string, int>>, i: nat): map<string, int>
    requires i < |rows|
  {
    Restrict(rows[i], LargeColumns(rows))["other" := Other(rows)[i]]
  }

  /** A row without some columns. */
  function Exclude(row: map<string, int>, cols: set<string>): (part: map<string, int>)
    ensures part.Keys == row.Keys - cols
    ensures forall k | k in part :: part[k] == row[k]
  {
    map k | k in row && k !in cols :: row[k]
  }

  /** Taking a key out of a row takes it out of the part that holds it and leaves the other part alone. */
  lemma RemoveFromParts(m: map<string, int>, cols: set<string>, k: string)
    ensures k in cols ==> Restrict(m - {k}, cols) == Restrict(m, cols) - {k} && Exclude(m - {k}, cols) == Exclude(m, cols)
    ensures k !in cols ==> Restrict(m - {k}, cols) == Restrict(m, cols) && Exclude(m - {k}, cols) == Exclude(m, cols) - {k}
  {
  }

  /** Splitting a map's keys in two splits its sum in two. */
  lemma {:induction false} MapSumSplit(m: map<string, int>, cols: set<string>)
    ensures MapSum(Restrict(m, cols)) + MapSum(Exclude(m, cols)) == MapSum(m)
    decreases |m.Keys|
  {
    if m.Keys != {} {
      var k :| k in m;
      var rest := m - {k};
      assert rest.Keys < m.Keys;
      MapSumSplit(rest, cols);
      MapSumRemove(m, k);
      RemoveFromParts(m, cols, k);
      if k in cols {
        MapSumRemove(Restrict(m, cols), k);
      } else {
        MapSumRemove(Exclude(m, cols), k);
      }
    }
  }

  /** Adding a new key adds its value to the sum. */
  lemma MapSumInsert(m: map<string, int>, k: string, v: int)
    requires k !in m
    ensures MapSum(m[k := v]) == v + MapSum(m)
  {
    MapSumRemove(m[k := v], k);
    assert m[k := v] - {k} == m;
  }

  /** A row without its df0 columns is its df1 part. */
  lemma ExcludeSmall(rows: seq<map<string, int>>, i: nat)
    requires i < |rows|
    ensures Exclude(rows[i], SmallColumns(rows)) == Restrict(rows[i], LargeColumns(rows))
  {
    SplitPartitions(rows);
    assert rows[i].Keys <= Columns(rows);
  }

  /**
   * The stacked bar keeps each query's total: a df1 row's entries plus its
   * `other` add up to the whole row, as long as no symbol of df1 is itself
   * named "other" (assign would overwrite that column).
   */
  lemma RowTotalKept(rows: seq<map<string, int>>, i: nat)
    requires i < |rows| && "other" !in LargeColumns(rows)
    ensures MapSum(Df1Row(rows, i)) == MapSum(rows[i])
  {
    var small := SmallColumns(rows);
    OtherOfAt(rows, small, i);
    MapSumSplit(rows[i], small);
    ExcludeSmall(rows, i);
    MapSumInsert(Restrict(rows[i], LargeColumns(rows)), "other", Other(rows)[i]);
  }
}
