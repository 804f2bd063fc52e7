/** The loader (app.py:34-62): every file of the data folder whose name ends in
    `csv` is read and filed under one of four lists by the words in its name;
    each list is then concatenated into one table. Listing the folder and
    parsing the CSV text are I/O: the folder is given here as a sequence of
    files, each with its name and its parsed rows. */
module Loader {
  import opened Outcome
  import opened Records

  /** `sub` occurs somewhere in `s`: the meaning of Python's `sub in s`. */
  ghost predicate Occurs(sub: string, s: string)
  {
    exists i :: MatchesAt(sub, s, i)
  }

  /** `sub` is the slice of `s` that starts at position `i`. */
  ghost predicate MatchesAt(sub: string, s: string, i: int)
  {
    0 <= i && i + |sub| <= |s| && s[i..i + |sub|] == sub
  }

  /** Python's `sub in s`, checked position by position from the left. */
  function Contains(s: string, sub: string): (r: bool)
    ensures r <==> Occurs(sub, s)
  {
    if |s| < |sub| then
      false
    else if s[..|sub|] == sub then
      assert MatchesAt(sub, s, 0);
      true
    else
      OccursPastHead(s, sub);
      Contains(s[1..], sub)
  }

  /** When `sub` does not start `s`, it occurs in `s` exactly when it occurs
      in `s` without its first character. */
  lemma OccursPastHead(s: string, sub: string)
    requires |sub| <= |s| && s[..|sub|] != sub
    ensures Occurs(sub, s) <==> Occurs(sub, s[1..])
  {
    if Occurs(sub, s) {
      var i :| MatchesAt(sub, s, i);
      assert s[..|sub|] == s[0..0 + |sub|];
      assert i != 0;
      assert s[1..][i - 1..i - 1 + |sub|] == s[i..i + |sub|] by {
        assert s[1..][i - 1..i - 1 + |sub|] == s[i..][..|sub|];
      }
      assert MatchesAt(sub, s[1..], i - 1);
    }
    if Occurs(sub, s[1..]) {
      var i :| MatchesAt(sub, s[1..], i);
      assert s[i + 1..i + 1 + |sub|] == sub;
      assert MatchesAt(sub, s, i + 1);
    }
  }

  /** `file[-3:] == 'csv'`. A slice from `-3` of a shorter string is the whole
      string, which then cannot equal the three letters. */
  function EndsCsv(name: string): (r: bool)
    ensures r <==> |name| >= 3 && name[|name| - 3..] == "csv"
  {
    var from := if |name| < 3 then 0 else |name| - 3;
    name[from..] == "csv"
  }

  /** The four lists: `frames_net_in`, `frames_net_out`, `frames_in`,
      `frames_out`. */
  datatype Bucket = NetIn | NetOut | GrossIn | GrossOut

  predicate IsNet(b: Bucket)
  {
    b == NetIn || b == NetOut
  }

  predicate IsIncome(b: Bucket)
  {
    b == NetIn || b == GrossIn
  }

  /** What the loop does with one file: skip it, file it, or raise `NameError`. */
  datatype Verdict = Skip | Into(bucket: Bucket) | Reject

  /** The decision of app.py:42-56 for one file name. `'net'` picks the net
      lists, and `'in'` is checked before `'out'`, so a name holding both words
      is income. */
  function Classify(name: string): (r: Verdict)
    ensures r.Skip? <==> !EndsCsv(name)
    ensures r.Reject? <==> EndsCsv(name) && !Occurs("in", name) && !Occurs("out", name)
    ensures r.Into? ==> (IsNet(r.bucket) <==> Occurs("net", name))
    ensures r.Into? ==> (IsIncome(r.bucket) <==> Occurs("in", name))
  {
    if !EndsCsv(name) then Skip
    else if Contains(name, "net") then
      if Contains(name, "in") then Into(NetIn)
      else if Contains(name, "out") then Into(NetOut)
      else Reject
    else
      if Contains(name, "in") then Into(GrossIn)
      else if Contains(name, "out") then Into(GrossOut)
      else Reject
  }

  /** One file of the data folder, already parsed. */
  datatype CsvFile = CsvFile(name: string, rows: Table)

  /** Why loading fails: a `.csv` name with neither word, or a list left
      empty, which `pd.concat` refuses. */
  datatype LoadError = NameError(file: string) | NothingToConcatenate(bucket: Bucket)

  /** The tables of the files filed under `b`, in folder order. */
  function FramesOf(files: seq<CsvFile>, b: Bucket): (r: seq<Table>)
    ensures |r| <= |files|
  {
    if files == [] then []
    else
      var last := files[|files| - 1];
      FramesOf(files[..|files| - 1], b) + (if Classify(last.name) == Into(b) then [last.rows] else [])
  }

  /** The first file whose name the loop rejects, if any. */
  function FirstRejected(files: seq<CsvFile>): (r: Option<nat>)
    ensures r.None? <==> forall i :: 0 <= i < |files| ==> !Classify(files[i].name).Reject?
    ensures r.Some? ==> r.value < |files| && Classify(files[r.value].name).Reject?
    ensures r.Some? ==> forall i :: 0 <= i < r.value ==> !Classify(files[i].name).Reject?
  {
    if files == [] then None
    else if Classify(files[0].name).Reject? then Some(0)
    else
      assert forall i :: 1 <= i < |files| ==> files[i] == files[1..][i - 1];
      match FirstRejected(files[1..])
      case None => None
      case Some(i) => Some(i + 1)
  }

  /** `row` is a row of one of the frames. */
  ghost predicate InSome(frames: seq<Table>, row: Record)
  {
    exists k :: 0 <= k < |frames| && row in frames[k]
  }

  lemma {:induction false} FirstRejectedAt(files: seq<CsvFile>, i: nat)
    requires i < |files| && Classify(files[i].name).Reject?
    requires forall j :: 0 <= j < i ==> !Classify(files[j].name).Reject?
    ensures FirstRejected(files) == Some(i)
  {
    if i > 0 {
      FirstRejectedAt(files[1..], i - 1);
    }
  }

  /** `pd.concat(frames, axis=0)`: the rows of every frame, in list order. */
  function Concat(frames: seq<Table>): (r: Table)
    ensures forall row :: row in r <==> InSome(frames, row)
  {
    if frames == [] then []
    else
      var init := frames[..|frames| - 1];
      var r := Concat(init) + frames[|frames| - 1];
      assert forall k :: 0 <= k < |init| ==> init[k] == frames[k];
      r
  }

  /** What the loader produces from a folder: the first rejected name raises,
      then the four lists are concatenated in the order net income, net
      expenditure, gross income, gross expenditure. */
  function Loaded(files: seq<CsvFile>): (r: Result<Tables, LoadError>)
    ensures r.Err? && r.error.NothingToConcatenate? ==>
      FirstRejected(files).None? && FramesOf(files, r.error.bucket) == []
  {
    match FirstRejected(files)
    case Some(i) => Err(NameError(files[i].name))
    case None =>
      if FramesOf(files, NetIn) == [] then Err(NothingToConcatenate(NetIn))
      else if FramesOf(files, NetOut) == [] then Err(NothingToConcatenate(NetOut))
      else if FramesOf(files, GrossIn) == [] then Err(NothingToConcatenate(GrossIn))
      else if FramesOf(files, GrossOut) == [] then Err(NothingToConcatenate(GrossOut))
      else Ok(Tables(Concat(FramesOf(files, NetIn)), Concat(FramesOf(files, NetOut)),
                     Concat(FramesOf(files, GrossIn)), Concat(FramesOf(files, GrossOut))))
  }

  /** Loading succeeds exactly when no name is rejected and every one of the
      four lists receives at least one file. */
  lemma LoadedSucceeds(files: seq<CsvFile>)
    ensures Loaded(files).Ok? ==> FirstRejected(files).None? && forall b :: FramesOf(files, b) != []
    ensures FirstRejected(files).None? && (forall b :: FramesOf(files, b) != []) ==> Loaded(files).Ok?
  {
    if FirstRejected(files).None? && forall b :: FramesOf(files, b) != [] {
      assert FramesOf(files, NetIn) != [] && FramesOf(files, NetOut) != [];
      assert FramesOf(files, GrossIn) != [] && FramesOf(files, GrossOut) != [];
      assert Loaded(files).Ok?;
    }
    if Loaded(files).Ok? {
      assert FirstRejected(files).None?;
      assert FramesOf(files, NetIn) != [] && FramesOf(files, NetOut) != [];
      assert FramesOf(files, GrossIn) != [] && FramesOf(files, GrossOut) != [];
      forall b ensures FramesOf(files, b) != [] {
        match b
        case NetIn =>
        case NetOut =>
        case GrossIn =>
        case GrossOut =>
      }
    }
  }

  /** The loop of app.py:41-62: appends each file's table to its list, raises
      on the first rejected name, then concatenates the four lists. */
  method Load(files: seq<CsvFile>) returns (r: Result<Tables, LoadError>)
    ensures r == Loaded(files)
  {
    var netIn: seq<Table> := [];
    var netOut: seq<Table> := [];
    var grossIn: seq<Table> := [];
    var grossOut: seq<Table> := [];
    var i := 0;
    while i < |files|
      invariant 0 <= i <= |files|
      invariant forall j :: 0 <= j < i ==> !Classify(files[j].name).Reject?
      invariant netIn == FramesOf(files[..i], NetIn)
      invariant netOut == FramesOf(files[..i], NetOut)
      invariant grossIn == FramesOf(files[..i], GrossIn)
      invariant grossOut == FramesOf(files[..i], GrossOut)
    {
      assert files[..i + 1][..i] == files[..i];
      var verdict := Classify(files[i].name);
      match verdict {
        case Skip =>
        case Into(b) =>
          match b {
            case NetIn => netIn := netIn + [files[i].rows];
            case NetOut => netOut := netOut + [files[i].rows];
            case GrossIn => grossIn := grossIn + [files[i].rows];
            case GrossOut => grossOut := grossOut + [files[i].rows];
          }
        case Reject =>
          FirstRejectedAt(files, i);
          return Err(NameError(files[i].name));
      }
      i := i + 1;
    }
    assert files[..i] == files;
    if netIn == [] {
      return Err(NothingToConcatenate(NetIn));
    }
    if netOut == [] {
      return Err(NothingToConcatenate(NetOut));
    }
    if grossIn == [] {
      return Err(NothingToConcatenate(GrossIn));
    }
    if grossOut == [] {
      return Err(NothingToConcatenate(GrossOut));
    }
    r := Ok(Tables(Concat(netIn), Concat(netOut), Concat(grossIn), Concat(grossOut)));
  }

  /** The loaded table that collects bucket `b`. */
  function TableFor(t: Tables, b: Bucket): Table
  {
    match b
    case NetIn => t.netIn
    case NetOut => t.netOut
    case GrossIn => t.grossIn
    case GrossOut => t.grossOut
  }

  /** `row` is a row of some file that the loop files under `b`. */
  ghost predicate FiledRow(files: seq<CsvFile>, b: Bucket, row: Record)
  {
    exists i :: 0 <= i < |files| && Classify(files[i].name) == Into(b) && row in files[i].rows
  }

  lemma {:induction false} FramesOfRows(files: seq<CsvFile>, b: Bucket, row: Record)
    ensures InSome(FramesOf(files, b), row) <==> FiledRow(files, b, row)
  {
    if files != [] {
      var init := files[..|files| - 1];
      var last := files[|files| - 1];
      FramesOfRows(init, b, row);
      var fi := FramesOf(init, b);
      if Classify(last.name) == Into(b) {
        InSomeSnoc(fi, last.rows, row);
      } else {
        assert FramesOf(files, b) == fi;
      }
      FiledRowSnoc(files, b, row);
    }
  }

  lemma InSomeSnoc(frames: seq<Table>, t: Table, row: Record)
    ensures InSome(frames + [t], row) <==> InSome(frames, row) || row in t
  {
    var more := frames + [t];
    if InSome(more, row) {
      var k :| 0 <= k < |more| && row in more[k];
      if k < |frames| {
        assert more[k] == frames[k];
      }
    }
    if InSome(frames, row) {
      var k :| 0 <= k < |frames| && row in frames[k];
      assert more[k] == frames[k];
    }
    assert more[|frames|] == t;
  }

  lemma FiledRowSnoc(files: seq<CsvFile>, b: Bucket, row: Record)
    requires files != []
    ensures FiledRow(files, b, row) <==>
      FiledRow(files[..|files| - 1], b, row) || (Classify(files[|files| - 1].name) == Into(b) && row in files[|files| - 1].rows)
  {
    var init := files[..|files| - 1];
    if FiledRow(files, b, row) {
      var i :| 0 <= i < |files| && Classify(files[i].name) == Into(b) && row in files[i].rows;
      if i < |init| {
        assert init[i] == files[i];
      }
    }
    if FiledRow(init, b, row) {
      var i :| 0 <= i < |init| && Classify(init[i].name) == Into(b) && row in init[i].rows;
      assert init[i] == files[i];
    }
  }

  /** Nothing is lost and nothing is invented: after a successful load, the
      table of bucket `b` holds exactly the rows of the files filed under `b`. */
  lemma LoadedRows(files: seq<CsvFile>, b: Bucket, row: Record)
    requires Loaded(files).Ok?
    ensures row in TableFor(Loaded(files).value, b) <==> FiledRow(files, b, row)
  {
    FramesOfRows(files, b, row);
    LoadedConcat(files, b);
  }

  /** A loaded table is the concatenation of its bucket's frames. */
  lemma LoadedConcat(files: seq<CsvFile>, b: Bucket)
    requires Loaded(files).Ok?
    ensures TableFor(Loaded(files).value, b) == Concat(FramesOf(files, b))
  {
  }

  /** Concatenating one more frame appends its rows, in their order, after
      the rows of the frames before it. */
  lemma ConcatAppend(frames: seq<Table>, t: Table)
    ensures Concat(frames + [t]) == Concat(frames) + t
  {
    assert (frames + [t])[..|frames|] == frames;
  }

  /** The rows of the files filed under `b`, file after file in folder order,
      each file's rows in their own order. */
  function FiledTable(files: seq<CsvFile>, b: Bucket): Table
  {
    if files == [] then []
    else
      var last := files[|files| - 1];
      FiledTable(files[..|files| - 1], b) + (if Classify(last.name) == Into(b) then last.rows else [])
  }

  /** How many times `row` occurs in the files filed under `b`, counted file
      by file. */
  function FiledCount(files: seq<CsvFile>, b: Bucket, row: Record): nat
  {
    if files == [] then 0
    else
      (if Classify(files[0].name) == Into(b) then multiset(files[0].rows)[row] else 0)
        + FiledCount(files[1..], b, row)
  }

  /** Concatenating the collected frames gives the filed rows in folder order. */
  lemma {:induction false} ConcatFramesOf(files: seq<CsvFile>, b: Bucket)
    ensures Concat(FramesOf(files, b)) == FiledTable(files, b)
  {
    if files != [] {
      var init := files[..|files| - 1];
      var last := files[|files| - 1];
      ConcatFramesOf(init, b);
      if Classify(last.name) == Into(b) {
        ConcatAppend(FramesOf(init, b), last.rows);
      } else {
        assert FramesOf(files, b) == FramesOf(init, b);
      }
    }
  }

  /** The filed rows hold every row as often as the files filed under `b`
      hold it together. */
  lemma {:induction false} FiledTableCount(files: seq<CsvFile>, b: Bucket, row: Record)
    ensures multiset(FiledTable(files, b))[row] == FiledCount(files, b, row)
    decreases |files|
  {
    if files != [] {
      var init := files[..|files| - 1];
      FiledTableCount(init, b, row);
      FiledCountSnoc(files, b, row);
    }
  }

  /** Counting file by file from the front agrees with counting the last file
      after all the others. */
  lemma {:induction false} FiledCountSnoc(files: seq<CsvFile>, b: Bucket, row: Record)
    requires files != []
    ensures FiledCount(files, b, row) ==
      FiledCount(files[..|files| - 1], b, row)
        + (if Classify(files[|files| - 1].name) == Into(b) then multiset(files[|files| - 1].rows)[row] else 0)
    decreases |files|
  {
    if |files| > 1 {
      assert files[1..][..|files[1..]| - 1] == files[..|files| - 1][1..];
      FiledCountSnoc(files[1..], b, row);
    }
  }

  /** After a successful load, the table of bucket `b` is exactly the rows of
      the files filed under `b`, in folder order, and holds every row as often
      as those files hold it together: a row present twice is loaded twice. */
  lemma LoadedTable(files: seq<CsvFile>, b: Bucket, row: Record)
    requires Loaded(files).Ok?
    ensures TableFor(Loaded(files).value, b) == FiledTable(files, b)
    ensures multiset(TableFor(Loaded(files).value, b))[row] == FiledCount(files, b, row)
  {
    ConcatFramesOf(files, b);
    FiledTableCount(files, b, row);
    LoadedConcat(files, b);
  }

  /** Loading fails with `NameError` exactly when some `.csv` name holds
      neither `in` nor `out`, and names the first such file. */
  lemma LoadedNameError(files: seq<CsvFile>)
    ensures (exists i :: 0 <= i < |files| && Classify(files[i].name).Reject?)
        <==> Loaded(files).Err? && Loaded(files).error.NameError?
    ensures Loaded(files).Err? && Loaded(files).error.NameError? ==>
        exists i :: 0 <= i < |files| && Classify(files[i].name).Reject? && Loaded(files).error.file == files[i].name
          && forall j :: 0 <= j < i ==> !Classify(files[j].name).Reject?
  {
  }

  lemma {:induction false} FirstRejectedAppend(files: seq<CsvFile>, f: CsvFile)
    requires !Classify(f.name).Reject?
    ensures FirstRejected(files + [f]) == FirstRejected(files)
  {
    if files == [] {
      assert files + [f] == [f];
    } else {
      assert (files + [f])[1..] == files[1..] + [f];
      FirstRejectedAppend(files[1..], f);
    }
  }

  /** A file whose name does not end in `csv` changes nothing. */
  lemma LoadedSkips(files: seq<CsvFile>, f: CsvFile)
    requires !EndsCsv(f.name)
    ensures Loaded(files + [f]) == Loaded(files)
  {
    var more := files + [f];
    assert more[..|more| - 1] == files;
    assert Classify(f.name) == Skip;
    forall b ensures FramesOf(more, b) == FramesOf(files, b) {
      assert FramesOf(more, b) == FramesOf(files, b) + [];
    }
    FirstRejectedAppend(files, f);
  }
}
