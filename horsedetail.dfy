/**
 * The detail-page extraction of hkjc_scraper/horse_detail.py: the horse ID and
 * the international rating, past runs from the race-result tables of the
 * horse page, the profile text from two-column table rows, the horse name,
 * and the injury records of the veterinary records page.  The page is given
 * as values: its tables, its text, the texts of the elements the name and
 * rating selectors find, its title and the first table of the veterinary page.
 *
 * When the tables give no past run, the source means to fall back on
 * `race: position` pairs in the page text, but as written its read of the
 * page text always raises (horse_detail.py:308), so that fallback never yields
 * a record.  The model states the fallback as intended over a page text that
 * is None exactly when the read raises; PastRunsAsWritten and
 * FallbackDiscrepancy state what the program as written does.
 */
module HorseDetail {
  import opened Strings
  import opened Normalize
  import opened Dom
  import opened Selectors
  import opened Models
  import RaceCard

  // ---------------------------------------------------------------------------
  // Header map and cell lookup

  /** `header_mapping` (horse_detail.py:199-201 and 248-250): each header text to its column, a
      later column with the same text overwriting; empty texts are keys too. */
  function HeaderIndex(headers: seq<string>): map<string, nat>
  {
    if |headers| == 0 then map[]
    else HeaderIndex(headers[..|headers| - 1])[headers[|headers| - 1] := |headers| - 1]
  }

  /** An alias `_get_cell_value` can read: a header of the map whose column lies inside the row. */
  function Usable(cells: seq<string>, m: map<string, nat>): string -> bool
  {
    alias => alias in m && m[alias] < |cells|
  }

  /** `_get_cell_value`, horse_detail.py:524-531. */
  function CellValue(cells: seq<string>, m: map<string, nat>, aliases: seq<string>): string
  {
    if |aliases| == 0 then ""
    else if aliases[0] in m && m[aliases[0]] < |cells| then CellText(cells[m[aliases[0]]])
    else CellValue(cells, m, aliases[1..])
  }

  // ---------------------------------------------------------------------------
  // Race-result tables

  /** The two kinds of race-result table. */
  datatype Kind = Comprehensive | Basic

  const ComprehensiveIndicators: seq<string> :=
    ["場次", "名次", "日期", "馬場", "跑道", "賽道", "途程", "場地狀況", "賽事班次", "檔位", "評分",
     "練馬師", "騎師", "頭馬距離", "獨贏賠率", "實際負磅", "沿途走位", "完成時間", "排位體重", "配備"]

  const BasicIndicators: seq<string> :=
    ["日期", "場地", "途程", "檔位", "負磅", "騎師", "名次", "時間", "配備", "評分", "獨贏"]

  /** The header names tried for each PastRunRecord field, in the record's field order
      (horse_detail.py:214-234 and 263-273); a basic table leaves the last six fields "". */
  function FieldAliases(kind: Kind): (r: seq<seq<string>>)
    ensures |r| == 17
  {
    match kind
    case Comprehensive =>
      [["日期", "Date"], ["馬場", "跑道", "賽道", "場地", "Venue"], ["途程", "Distance"],
       ["檔位", "Barrier"], ["實際負磅", "負磅", "Weight"], ["騎師", "Jockey"], ["名次", "Position"],
       ["完成時間", "時間", "Time"], ["配備", "Equipment"], ["評分", "Rating"],
       ["獨贏賠率", "獨贏", "Odds"], ["場地狀況", "Track Condition"], ["賽事班次", "Class"],
       ["頭馬距離", "Distance to Winner"], ["沿途走位", "Running Position"],
       ["排位體重", "Barrier Weight"], ["練馬師", "Trainer"]]
    case Basic =>
      [["日期", "Date"], ["場地", "Venue"], ["途程", "Distance"], ["檔位", "Barrier"],
       ["負磅", "Weight"], ["騎師", "Jockey"], ["名次", "Position"], ["時間", "Time"],
       ["配備", "Equipment"], ["評分", "Rating"], ["獨贏", "Odds"], [], [], [], [], [], []]
  }

  /** The record read from one row, field by field. */
  function RecordOf(cells: seq<string>, m: map<string, nat>, aliases: seq<seq<string>>): PastRunRecord
    requires |aliases| == 17
  {
    PastRunRecord(
      CellValue(cells, m, aliases[0]), CellValue(cells, m, aliases[1]), CellValue(cells, m, aliases[2]),
      CellValue(cells, m, aliases[3]), CellValue(cells, m, aliases[4]), CellValue(cells, m, aliases[5]),
      CellValue(cells, m, aliases[6]), CellValue(cells, m, aliases[7]), CellValue(cells, m, aliases[8]),
      CellValue(cells, m, aliases[9]), CellValue(cells, m, aliases[10]), CellValue(cells, m, aliases[11]),
      CellValue(cells, m, aliases[12]), CellValue(cells, m, aliases[13]), CellValue(cells, m, aliases[14]),
      CellValue(cells, m, aliases[15]), CellValue(cells, m, aliases[16]))
  }

  /** The record is kept (horse_detail.py:237 and 277). */
  predicate Meaningful(kind: Kind, r: PastRunRecord)
  {
    match kind
    case Comprehensive => r.raceDate != "" || r.position != "" || r.jockey != ""
    case Basic => r.raceDate != "" || r.venue != "" || r.position != ""
  }

  /** The fewest cells a data row needs (horse_detail.py:209 and 258). */
  function MinCells(kind: Kind, headers: seq<string>): nat
  {
    match kind
    case Comprehensive => 10
    case Basic => |headers|
  }

  /** The records the data rows yield, in order. */
  function RowsRuns(kind: Kind, headers: seq<string>, m: map<string, nat>, rows: seq<Row>): seq<PastRunRecord>
  {
    if |rows| == 0 then []
    else
      var cells := rows[|rows| - 1].cells;
      var r := RecordOf(cells, m, FieldAliases(kind));
      RowsRuns(kind, headers, m, rows[..|rows| - 1]) +
        (if |cells| >= MinCells(kind, headers) && Meaningful(kind, r) then [r] else [])
  }

  /** The records of a table of the given kind: its header row gives the header map, and only
      `rows[1:7]` are read. */
  function TableRuns(table: Table, kind: Kind): seq<PastRunRecord>
    requires |table.rows| >= 2
  {
    var headers := Texts(table.rows[0].cells);
    RowsRuns(kind, headers, HeaderIndex(headers), table.rows[1..Min(7, |table.rows|)])
  }

  /** Some header contains the indicator as a plain substring. */
  predicate InSomeHeader(indicator: string, headers: seq<string>)
  {
    exists k :: 0 <= k < |headers| && Contains(headers[k], indicator)
  }

  /** How many of the indicators occur in the headers (horse_detail.py:186-193). */
  function IndicatorCount(indicators: seq<string>, headers: seq<string>): (n: nat)
    ensures n <= |indicators|
  {
    if |indicators| == 0 then 0
    else
      IndicatorCount(indicators[..|indicators| - 1], headers) +
        (if InSomeHeader(indicators[|indicators| - 1], headers) then 1 else 0)
  }

  /** horse_detail.py:195 and 244: comprehensive at eight of its indicators, otherwise basic at
      three of its own, otherwise not a race-result table. */
  function Classify(headers: seq<string>): Option<Kind>
  {
    if IndicatorCount(ComprehensiveIndicators, headers) >= 8 then Some(Comprehensive)
    else if IndicatorCount(BasicIndicators, headers) >= 3 then Some(Basic)
    else None
  }

  function Classifier(): seq<string> -> Option<Kind>
  {
    headers => Classify(headers)
  }

  /** The kind of a table under a classification of header rows; a table with fewer than two rows is
      skipped (horse_detail.py:171). */
  function KindOf(table: Table, classify: seq<string> -> Option<Kind>): (r: Option<Kind>)
    ensures r.Some? ==> |table.rows| >= 2
  {
    if |table.rows| < 2 then None else classify(Texts(table.rows[0].cells))
  }

  /** The table scan of horse_detail.py:168-289 from table `i` on, with `runs` gathered so far: a
      basic table ends the scan once some record has been gathered.  The scraper classifies with
      `Classifier()`; the properties below hold for any classification. */
  function ScanFrom(tables: seq<Table>, i: nat, runs: seq<PastRunRecord>,
                    classify: seq<string> -> Option<Kind>): seq<PastRunRecord>
    decreases |tables| - i
  {
    if i >= |tables| then runs
    else match KindOf(tables[i], classify)
      case None => ScanFrom(tables, i + 1, runs, classify)
      case Some(kind) =>
        var next := runs + TableRuns(tables[i], kind);
        if kind == Basic && next != [] then next else ScanFrom(tables, i + 1, next, classify)
  }

  // ---------------------------------------------------------------------------
  // The page-text fallback

  /** The end of the run of characters satisfying `q` that starts at `i`. */
  function RunEnd(s: string, i: nat, q: char -> bool): (j: nat)
    requires i <= |s|
    ensures i <= j <= |s| && (j == |s| || !q(s[j]))
    ensures forall k :: i <= k < j ==> q(s[k])
    decreases |s| - i
  {
    if i == |s| || !q(s[i]) then i else RunEnd(s, i + 1, q)
  }

  function IsDigitChar(): char -> bool { c => IsDigit(c) }

  function IsSpaceChar(): char -> bool { c => IsSpace(c) }

  /** A match of `(\d+):\s*(\d+)` starting at `i`: its two groups and where it ends. */
  function RaceResultAt(s: string, i: nat): (r: Option<(string, string, nat)>)
    requires i <= |s|
    ensures r.Some? ==> i < r.value.2 <= |s|
  {
    var j := RunEnd(s, i, IsDigitChar());
    if j == i || j == |s| || s[j] != ':' then None
    else
      var k := RunEnd(s, j + 1, IsSpaceChar());
      var e := RunEnd(s, k, IsDigitChar());
      if e == k then None else Some((s[i..j], s[k..e], e))
  }

  /** `re.findall(r'(\d+):\s*(\d+)', s)` from position `i`: the matches, left to right, none
      overlapping. */
  function FindAll(s: string, i: nat): seq<(string, string)>
    requires i <= |s|
    decreases |s| - i
  {
    if i == |s| then []
    else match RaceResultAt(s, i)
      case Some((a, b, e)) => [(a, b)] + FindAll(s, e)
      case None => FindAll(s, i + 1)
  }

  /** Python's `xs[-n:]`. */
  function Last<T>(xs: seq<T>, n: nat): (r: seq<T>)
    ensures |r| <= n && |r| <= |xs|
  {
    if |xs| <= n then xs else xs[|xs| - n..]
  }

  /** One record per match, holding the match's second group as the position. */
  function PositionRuns(matches: seq<(string, string)>): seq<PastRunRecord>
  {
    if |matches| == 0 then []
    else PositionRuns(matches[..|matches| - 1]) + [PositionOnly(matches[|matches| - 1].1)]
  }

  /** `_parse_past_runs_from_profile_text`, horse_detail.py:302-349; a page text of None stands for
      a read that raised, which the function turns into []. */
  function FallbackRuns(pageText: Option<string>): seq<PastRunRecord>
  {
    match pageText
    case None => []
    case Some(text) => PositionRuns(Last(FindAll(text, 0), 6))
  }

  /** `_scrape_past_runs_from_main_page`, horse_detail.py:159-300. */
  function PastRuns(tables: seq<Table>, pageText: Option<string>): seq<PastRunRecord>
  {
    var runs := ScanFrom(tables, 0, [], Classifier());
    if runs == [] then FallbackRuns(pageText) else runs
  }

  method ScrapePastRunsFromMainPage(tables: seq<Table>, pageText: Option<string>)
    returns (runs: seq<PastRunRecord>)
    ensures runs == PastRuns(tables, pageText)
  {
    runs := ScanTables(tables, Classifier());
    if runs == [] {
      runs := ParsePastRunsFromText(pageText);
    }
  }

  /** The table loop of horse_detail.py:168-289, under the classification `classify`. */
  method ScanTables(tables: seq<Table>, classify: seq<string> -> Option<Kind>) returns (runs: seq<PastRunRecord>)
    ensures runs == ScanFrom(tables, 0, [], classify)
  {
    ghost var scanned := ScanFrom(tables, 0, [], classify);
    runs := [];
    var i := 0;
    while i < |tables|
      invariant 0 <= i <= |tables|
      invariant ScanFrom(tables, i, runs, classify) == scanned
      decreases |tables| - i
    {
      var kind, found := ReadTable(tables[i], classify);
      if kind.Some? {
        if kind.value == Basic && runs + found != [] {
          ScanStops(tables, i, runs, kind.value, found, classify);
          runs := runs + found;
          break;
        }
        ScanGoesOn(tables, i, runs, kind.value, found, classify);
        runs := runs + found;
      } else {
        ScanSkips(tables, i, runs, classify);
      }
      i := i + 1;
    }
    if i == |tables| {
      ScanEnd(tables, i, runs, classify);
    }
  }

  /** One table of the loop: skipped when it has fewer than two rows, otherwise classified by its
      header row and, when it is a past-run table, read (horse_detail.py:170-287). */
  method ReadTable(table: Table, classify: seq<string> -> Option<Kind>) returns (kind: Option<Kind>, found: seq<PastRunRecord>)
    ensures kind == KindOf(table, classify)
    ensures kind.Some? ==> found == TableRuns(table, kind.value)
  {
    kind := None;
    found := [];
    if |table.rows| >= 2 {
      var headers := AllTexts(table.rows[0].cells);
      kind := classify(headers);
      if kind.Some? {
        found := TableRecords(table, headers, kind.value);
      }
    }
  }

  lemma ScanEnd(tables: seq<Table>, i: nat, runs: seq<PastRunRecord>, classify: seq<string> -> Option<Kind>)
    requires i >= |tables|
    ensures ScanFrom(tables, i, runs, classify) == runs
  {
  }

  /** A table that is not a past-run table is passed over. */
  lemma ScanSkips(tables: seq<Table>, i: nat, runs: seq<PastRunRecord>, classify: seq<string> -> Option<Kind>)
    requires i < |tables| && KindOf(tables[i], classify).None?
    ensures ScanFrom(tables, i, runs, classify) == ScanFrom(tables, i + 1, runs, classify)
  {
  }

  /** A basic table ends the scan once some record has been gathered. */
  lemma ScanStops(tables: seq<Table>, i: nat, runs: seq<PastRunRecord>, kind: Kind,
                  found: seq<PastRunRecord>, classify: seq<string> -> Option<Kind>)
    requires i < |tables| && KindOf(tables[i], classify) == Some(kind)
    requires found == TableRuns(tables[i], kind) && kind == Basic && runs + found != []
    ensures ScanFrom(tables, i, runs, classify) == runs + found
  {
  }

  /** Otherwise the records of a past-run table are gathered and the scan goes on. */
  lemma ScanGoesOn(tables: seq<Table>, i: nat, runs: seq<PastRunRecord>, kind: Kind,
                   found: seq<PastRunRecord>, classify: seq<string> -> Option<Kind>)
    requires i < |tables| && KindOf(tables[i], classify) == Some(kind)
    requires found == TableRuns(tables[i], kind) && !(kind == Basic && runs + found != [])
    ensures ScanFrom(tables, i, runs, classify) == ScanFrom(tables, i + 1, runs + found, classify)
  {
  }


  /** The header map and the row loop for one table. */
  method TableRecords(table: Table, headers: seq<string>, kind: Kind) returns (found: seq<PastRunRecord>)
    requires |table.rows| >= 2 && headers == Texts(table.rows[0].cells)
    ensures found == TableRuns(table, kind)
  {
    var m := BuildHeaderIndex(headers);
    found := CollectRuns(kind, headers, m, table.rows[1..Min(7, |table.rows|)]);
  }

  /** horse_detail.py:199-201. */
  method BuildHeaderIndex(headers: seq<string>) returns (m: map<string, nat>)
    ensures m == HeaderIndex(headers)
  {
    m := map[];
    var c := 0;
    while c < |headers|
      invariant 0 <= c <= |headers|
      invariant m == HeaderIndex(headers[..c])
    {
      assert headers[..c + 1][..c] == headers[..c];
      m := m[headers[c] := c];
      c := c + 1;
    }
    assert headers[..c] == headers;
  }

  /** The row loop of horse_detail.py:206-240 and 255-280. */
  method CollectRuns(kind: Kind, headers: seq<string>, m: map<string, nat>, dataRows: seq<Row>)
    returns (found: seq<PastRunRecord>)
    ensures found == RowsRuns(kind, headers, m, dataRows)
  {
    found := [];
    var k := 0;
    while k < |dataRows|
      invariant 0 <= k <= |dataRows|
      invariant found == RowsRuns(kind, headers, m, dataRows[..k])
    {
      var cells := dataRows[k].cells;
      var added: seq<PastRunRecord> := [];
      if |cells| >= MinCells(kind, headers) {
        var r := RecordOf(cells, m, FieldAliases(kind));
        if Meaningful(kind, r) {
          added := [r];
        }
      }
      CollectStep(kind, headers, m, dataRows, k, found, added);
      found := found + added;
      k := k + 1;
    }
    assert dataRows[..k] == dataRows;
  }

  lemma CollectStep(kind: Kind, headers: seq<string>, m: map<string, nat>, dataRows: seq<Row>, k: nat,
                    found: seq<PastRunRecord>, added: seq<PastRunRecord>)
    requires k < |dataRows| && found == RowsRuns(kind, headers, m, dataRows[..k])
    requires added == (var cells := dataRows[k].cells; var r := RecordOf(cells, m, FieldAliases(kind));
                       if |cells| >= MinCells(kind, headers) && Meaningful(kind, r) then [r] else [])
    ensures found + added == RowsRuns(kind, headers, m, dataRows[..k + 1])
  {
    assert dataRows[..k + 1][..k] == dataRows[..k];
    RowsRunsStep(kind, headers, m, dataRows[..k + 1]);
  }

  method ParsePastRunsFromText(pageText: Option<string>) returns (runs: seq<PastRunRecord>)
    ensures runs == FallbackRuns(pageText)
  {
    runs := [];
    if pageText.None? {
      return;
    }
    var recent := Last(FindAll(pageText.value, 0), 6);
    var k := 0;
    while k < |recent|
      invariant 0 <= k <= |recent|
      invariant runs == PositionRuns(recent[..k])
    {
      assert recent[..k + 1][..k] == recent[..k];
      runs := runs + [PositionOnly(recent[k].1)];
      k := k + 1;
    }
    assert recent[..k] == recent;
  }

  // ---------------------------------------------------------------------------
  // Properties of the past-run extraction

  /** The header map holds exactly the header texts, each at the last column that carries it. */
  lemma {:induction false} HeaderIndexSpec(headers: seq<string>)
    ensures var m := HeaderIndex(headers);
      (forall h :: h in m <==> h in headers) &&
      (forall h :: h in m ==>
        m[h] < |headers| && headers[m[h]] == h && forall c :: m[h] < c < |headers| ==> headers[c] != h)
  {
    if |headers| > 0 {
      var init := headers[..|headers| - 1];
      HeaderIndexSpec(init);
      assert headers == init + [headers[|headers| - 1]];
    }
  }

  /** The value read is the text under the first alias that is a header and whose column lies in
      the row, and "" when there is none. */
  lemma {:induction false} CellValueFirstUsable(cells: seq<string>, m: map<string, nat>, aliases: seq<string>)
    ensures CellValue(cells, m, aliases) ==
      match FirstIndex(aliases, Usable(cells, m))
      case None => ""
      case Some(k) => CellText(cells[m[aliases[k]]])
  {
    if |aliases| > 0 && !Usable(cells, m)(aliases[0]) {
      CellValueFirstUsable(cells, m, aliases[1..]);
    }
  }

  /** The record is read from one of the rows with enough cells. */
  ghost predicate ReadFromRow(kind: Kind, headers: seq<string>, m: map<string, nat>, rows: seq<Row>, rec: PastRunRecord)
  {
    exists k :: 0 <= k < |rows| && |rows[k].cells| >= MinCells(kind, headers) &&
                rec == RecordOf(rows[k].cells, m, FieldAliases(kind))
  }

  /** At most one record per data row; each is kept by the row filter of its kind and is read from a
      row with enough cells. */
  lemma {:induction false} RowsRunsSpec(kind: Kind, headers: seq<string>, m: map<string, nat>, rows: seq<Row>)
    ensures var r := RowsRuns(kind, headers, m, rows);
      |r| <= |rows| &&
      forall j :: 0 <= j < |r| ==> Meaningful(kind, r[j]) && ReadFromRow(kind, headers, m, rows, r[j])
  {
    if |rows| > 0 {
      var init := rows[..|rows| - 1];
      RowsRunsSpec(kind, headers, m, init);
      var front := RowsRuns(kind, headers, m, init);
      var r := RowsRuns(kind, headers, m, rows);
      RowsRunsStep(kind, headers, m, rows);
      forall j | 0 <= j < |r|
        ensures Meaningful(kind, r[j]) && ReadFromRow(kind, headers, m, rows, r[j])
      {
        if j < |front| {
          assert r[j] == front[j];
          ReadFromLonger(kind, headers, m, rows, r[j]);
        } else {
          LastRowRead(kind, headers, m, rows, j);
        }
      }
    }
  }

  lemma RowsRunsStep(kind: Kind, headers: seq<string>, m: map<string, nat>, rows: seq<Row>)
    requires |rows| > 0
    ensures var last := rows[|rows| - 1].cells;
      var rec := RecordOf(last, m, FieldAliases(kind));
      RowsRuns(kind, headers, m, rows) == RowsRuns(kind, headers, m, rows[..|rows| - 1]) +
        (if |last| >= MinCells(kind, headers) && Meaningful(kind, rec) then [rec] else [])
  {
  }

  lemma ReadFromLonger(kind: Kind, headers: seq<string>, m: map<string, nat>, rows: seq<Row>, rec: PastRunRecord)
    requires |rows| > 0 && ReadFromRow(kind, headers, m, rows[..|rows| - 1], rec)
    ensures ReadFromRow(kind, headers, m, rows, rec)
  {
    var k :| 0 <= k < |rows| - 1 && |rows[..|rows| - 1][k].cells| >= MinCells(kind, headers) &&
             rec == RecordOf(rows[..|rows| - 1][k].cells, m, FieldAliases(kind));
    assert rows[k] == rows[..|rows| - 1][k];
  }

  lemma LastRowRead(kind: Kind, headers: seq<string>, m: map<string, nat>, rows: seq<Row>, j: nat)
    requires |rows| > 0 && |RowsRuns(kind, headers, m, rows[..|rows| - 1])| <= j < |RowsRuns(kind, headers, m, rows)|
    ensures Meaningful(kind, RowsRuns(kind, headers, m, rows)[j])
    ensures ReadFromRow(kind, headers, m, rows, RowsRuns(kind, headers, m, rows)[j])
  {
    RowsRunsStep(kind, headers, m, rows);
    if |rows[|rows| - 1].cells| >= MinCells(kind, headers) {
      LastRowWitness(kind, headers, m, rows);
    }
  }

  lemma LastRowWitness(kind: Kind, headers: seq<string>, m: map<string, nat>, rows: seq<Row>)
    requires |rows| > 0 && |rows[|rows| - 1].cells| >= MinCells(kind, headers)
    ensures ReadFromRow(kind, headers, m, rows, RecordOf(rows[|rows| - 1].cells, m, FieldAliases(kind)))
  {
  }

  /** A table gives at most six records, all kept by its kind's filter. */
  lemma TableRunsSpec(table: Table, kind: Kind)
    requires |table.rows| >= 2
    ensures |TableRuns(table, kind)| <= 6
    ensures forall j :: 0 <= j < |TableRuns(table, kind)| ==> Meaningful(kind, TableRuns(table, kind)[j])
  {
    var headers := Texts(table.rows[0].cells);
    RowsRunsSpec(kind, headers, HeaderIndex(headers), table.rows[1..Min(7, |table.rows|)]);
  }

  /** The scan only appends, ... */
  lemma {:induction false} ScanFromGrows(tables: seq<Table>, i: nat, runs: seq<PastRunRecord>,
      classify: seq<string> -> Option<Kind>)
    ensures runs <= ScanFrom(tables, i, runs, classify)
    decreases |tables| - i
  {
    if i < |tables| {
      if KindOf(tables[i], classify).None? {
        ScanFromGrows(tables, i + 1, runs, classify);
      } else {
        var next := runs + TableRuns(tables[i], KindOf(tables[i], classify).value);
        ScanFromGrows(tables, i + 1, next, classify);
        assert runs <= next;
      }
    }
  }

  /** ... at most six records per table. */
  lemma {:induction false} ScanFromBound(tables: seq<Table>, i: nat, runs: seq<PastRunRecord>,
      classify: seq<string> -> Option<Kind>)
    requires i <= |tables|
    ensures |ScanFrom(tables, i, runs, classify)| <= |runs| + 6 * (|tables| - i)
    decreases |tables| - i
  {
    if i < |tables| {
      if KindOf(tables[i], classify).None? {
        ScanFromBound(tables, i + 1, runs, classify);
      } else {
        var kind := KindOf(tables[i], classify).value;
        TableRunsSpec(tables[i], kind);
        var next := runs + TableRuns(tables[i], kind);
        ScanFromBound(tables, i + 1, next, classify);
      }
    }
  }

  /** Every record the scan appends is kept by one of the two row filters. */
  lemma {:induction false} ScanFromKept(tables: seq<Table>, i: nat, runs: seq<PastRunRecord>,
      classify: seq<string> -> Option<Kind>)
    ensures var r := ScanFrom(tables, i, runs, classify);
      forall j :: |runs| <= j < |r| ==> Meaningful(Comprehensive, r[j]) || Meaningful(Basic, r[j])
    decreases |tables| - i
  {
    if i < |tables| {
      if KindOf(tables[i], classify).None? {
        assert ScanFrom(tables, i, runs, classify) == ScanFrom(tables, i + 1, runs, classify);
        ScanFromKept(tables, i + 1, runs, classify);
      } else {
        var kind := KindOf(tables[i], classify).value;
        TableRunsSpec(tables[i], kind);
        var found := TableRuns(tables[i], kind);
        var next := runs + found;
        assert forall j :: |runs| <= j < |next| ==> next[j] == found[j - |runs|];
        ScanFromKept(tables, i + 1, next, classify);
        ScanFromGrows(tables, i + 1, next, classify);
        var r := ScanFrom(tables, i, runs, classify);
        assert r == next || r == ScanFrom(tables, i + 1, next, classify);
        assert forall j :: |runs| <= j < |next| && j < |r| ==> r[j] == next[j];
      }
    }
  }

  /** A basic table, once the list is not empty, ends the scan: tables after it are never read. */
  lemma BasicTableEndsScan(tables: seq<Table>, more: seq<Table>, classify: seq<string> -> Option<Kind>)
    requires |tables| > 0 && KindOf(tables[|tables| - 1], classify) == Some(Basic)
    requires ScanFrom(tables, 0, [], classify) != []
    ensures ScanFrom(tables + more, 0, [], classify) == ScanFrom(tables, 0, [], classify)
  {
    ScanPrefix(tables, more, 0, [], classify);
  }

  lemma {:induction false} ScanPrefix(tables: seq<Table>, more: seq<Table>, i: nat, runs: seq<PastRunRecord>,
      classify: seq<string> -> Option<Kind>)
    requires i < |tables| && KindOf(tables[|tables| - 1], classify) == Some(Basic)
    requires ScanFrom(tables, i, runs, classify) != []
    ensures ScanFrom(tables + more, i, runs, classify) == ScanFrom(tables, i, runs, classify)
    decreases |tables| - i
  {
    assert (tables + more)[i] == tables[i];
    var kind := KindOf(tables[i], classify);
    if kind.None? {
      assert ScanFrom(tables, i, runs, classify) == ScanFrom(tables, i + 1, runs, classify);
      assert ScanFrom(tables + more, i, runs, classify) == ScanFrom(tables + more, i + 1, runs, classify);
      if i + 1 < |tables| {
        ScanPrefix(tables, more, i + 1, runs, classify);
      }
    } else {
      var next := runs + TableRuns(tables[i], kind.value);
      if !(kind.value == Basic && next != []) {
        assert ScanFrom(tables, i, runs, classify) == ScanFrom(tables, i + 1, next, classify);
        assert ScanFrom(tables + more, i, runs, classify) == ScanFrom(tables + more, i + 1, next, classify);
        if i + 1 < |tables| {
          ScanPrefix(tables, more, i + 1, next, classify);
        }
      }
    }
  }

  /** The records of comprehensive tables, table after table, passing over tables with fewer than
      two rows. */
  function ComprehensiveRuns(tables: seq<Table>): seq<PastRunRecord>
  {
    if |tables| == 0 then []
    else if |tables[0].rows| < 2 then ComprehensiveRuns(tables[1..])
    else TableRuns(tables[0], Comprehensive) + ComprehensiveRuns(tables[1..])
  }

  /** Comprehensive tables never end the scan: the records of all of them accumulate, so the list can
      hold more than six. */
  lemma {:induction false} ComprehensiveTablesAccumulate(tables: seq<Table>, i: nat, runs: seq<PastRunRecord>,
      classify: seq<string> -> Option<Kind>)
    requires i <= |tables|
    requires forall k :: 0 <= k < |tables| ==> KindOf(tables[k], classify) == Some(Comprehensive)
    ensures ScanFrom(tables, i, runs, classify) == runs + ComprehensiveRuns(tables[i..])
    decreases |tables| - i
  {
    if i < |tables| {
      var rest := tables[i..];
      assert rest[0] == tables[i] && rest[1..] == tables[i + 1..];
      assert KindOf(tables[i], classify) == Some(Comprehensive);
      var found := TableRuns(tables[i], Comprehensive);
      ComprehensiveStep(rest);
      ComprehensiveTablesAccumulate(tables, i + 1, runs + found, classify);
      AppendAssoc(runs, found, ComprehensiveRuns(rest[1..]));
    } else {
      assert tables[i..] == [];
    }
  }

  lemma AppendAssoc<T>(a: seq<T>, b: seq<T>, c: seq<T>)
    ensures a + b + c == a + (b + c)
  {
  }

  lemma ComprehensiveStep(rest: seq<Table>)
    requires |rest| > 0 && |rest[0].rows| >= 2
    ensures ComprehensiveRuns(rest) == TableRuns(rest[0], Comprehensive) + ComprehensiveRuns(rest[1..])
  {
  }

  /** Without headers a table is never a race-result table. */
  lemma NoHeadersNoRaceTable()
    ensures Classify([]) == None
  {
    NoIndicatorsFound(ComprehensiveIndicators);
    NoIndicatorsFound(BasicIndicators);
  }

  lemma {:induction false} NoIndicatorsFound(indicators: seq<string>)
    ensures IndicatorCount(indicators, []) == 0
  {
    if |indicators| > 0 {
      NoIndicatorsFound(indicators[..|indicators| - 1]);
    }
  }

  /** A match is two non-empty digit runs joined by ':' and whitespace, and it is the text it spans. */
  lemma RaceResultAtSpec(s: string, i: nat)
    requires i <= |s|
    ensures var r := RaceResultAt(s, i);
      r.Some? ==>
        r.value.0 != "" && AllDigits(r.value.0) && r.value.1 != "" && AllDigits(r.value.1) &&
        exists w :: (forall k :: 0 <= k < |w| ==> IsSpace(w[k])) &&
                    s[i..r.value.2] == r.value.0 + ":" + w + r.value.1
  {
    var r := RaceResultAt(s, i);
    if r.Some? {
      var j := RunEnd(s, i, IsDigitChar());
      var k := RunEnd(s, j + 1, IsSpaceChar());
      var e := r.value.2;
      var w := s[j + 1..k];
      assert forall c :: 0 <= c < |w| ==> IsSpace(w[c]) by {
        forall c | 0 <= c < |w| ensures IsSpace(w[c]) {
          assert IsSpaceChar()(s[j + 1 + c]);
        }
      }
      assert forall c :: 0 <= c < |r.value.0| ==> IsDigit(r.value.0[c]) by {
        forall c | 0 <= c < |r.value.0| ensures IsDigit(r.value.0[c]) {
          assert IsDigitChar()(s[i + c]);
        }
      }
      assert forall c :: 0 <= c < |r.value.1| ==> IsDigit(r.value.1[c]) by {
        forall c | 0 <= c < |r.value.1| ensures IsDigit(r.value.1[c]) {
          assert IsDigitChar()(s[k + c]);
        }
      }
      assert s[i..e] == s[i..j] + ":" + w + s[k..e];
    }
  }

  /** Every pair is two non-empty digit runs. */
  predicate DigitPairs(ms: seq<(string, string)>)
  {
    forall k :: 0 <= k < |ms| ==> ms[k].0 != "" && AllDigits(ms[k].0) && ms[k].1 != "" && AllDigits(ms[k].1)
  }

  /** Every pair found is two non-empty digit runs. */
  lemma {:induction false} FindAllDigits(s: string, i: nat)
    requires i <= |s|
    ensures DigitPairs(FindAll(s, i))
    decreases |s| - i
  {
    if i < |s| {
      RaceResultAtSpec(s, i);
      var r := RaceResultAt(s, i);
      if r.Some? {
        FindAllDigits(s, r.value.2);
        assert FindAll(s, i) == [(r.value.0, r.value.1)] + FindAll(s, r.value.2);
      } else {
        FindAllDigits(s, i + 1);
        assert FindAll(s, i) == FindAll(s, i + 1);
      }
    }
  }

  /** The search finds nothing exactly when no position from `i` on starts a match. */
  lemma {:induction false} FindAllEmptyIff(s: string, i: nat)
    requires i <= |s|
    ensures FindAll(s, i) == [] <==> forall j :: i <= j < |s| ==> RaceResultAt(s, j).None?
    decreases |s| - i
  {
    if i < |s| && RaceResultAt(s, i).None? {
      FindAllEmptyIff(s, i + 1);
    }
  }

  /** One record per match, in order, with only the position set. */
  lemma {:induction false} PositionRunsSpec(matches: seq<(string, string)>)
    ensures |PositionRuns(matches)| == |matches|
    ensures forall k :: 0 <= k < |matches| ==> PositionRuns(matches)[k] == PositionOnly(matches[k].1)
  {
    if |matches| > 0 {
      PositionRunsSpec(matches[..|matches| - 1]);
    }
  }

  /** The fallback gives the positions of the last six matches, in page order, each a non-empty digit
      run in an otherwise empty record. */
  lemma FallbackSpec(text: string)
    ensures var runs := FallbackRuns(Some(text));
      var recent := Last(FindAll(text, 0), 6);
      |runs| == |recent| <= 6 &&
      forall k :: 0 <= k < |runs| ==>
        runs[k] == PositionOnly(recent[k].1) && recent[k].1 != "" && AllDigits(recent[k].1)
  {
    var ms := FindAll(text, 0);
    var recent := Last(ms, 6);
    PositionRunsSpec(recent);
    FindAllDigits(text, 0);
    LastDigitPairs(ms, recent);
  }

  /** As horse_detail.py:308 is written, `page.inner_text()` is called without the selector that
      Playwright's `Page.inner_text` requires, so reading the page text raises on every page and the
      handler at horse_detail.py:346 returns [].  The program therefore always supplies a page text
      of None, and its past runs are those of the table scan alone. */
  lemma PastRunsAsWritten(tables: seq<Table>)
    ensures PastRuns(tables, None) == ScanFrom(tables, 0, [], Classifier())
  {
  }

  /** On a page without race tables whose text holds "843: 06", the program as written stores no
      past run, while the fallback as intended reads the position 06. */
  lemma FallbackDiscrepancy()
    ensures PastRuns([], None) == []
    ensures PastRuns([], Some("843: 06")) == [PositionOnly("06")]
  {
    var s := "843: 06";
    assert RunEnd(s, 0, IsDigitChar()) == 3;
    assert RunEnd(s, 4, IsSpaceChar()) == 5;
    assert RunEnd(s, 5, IsDigitChar()) == 7;
    assert s[3] == ':' && s[0..3] == "843" && s[5..7] == "06";
    assert RaceResultAt(s, 0) == Some(("843", "06", 7));
    assert FindAll(s, 0) == [("843", "06")];
  }

  lemma LastDigitPairs(ms: seq<(string, string)>, recent: seq<(string, string)>)
    requires DigitPairs(ms) && recent == Last(ms, 6)
    ensures DigitPairs(recent)
  {
    forall k | 0 <= k < |recent| ensures recent[k] == ms[|ms| - |recent| + k] { }
  }

  // ---------------------------------------------------------------------------
  // Injury records of the veterinary records page

  /** The row of the horse (horse_detail.py:453-469): at least five cells, the name in the row's
      joined text, the name cell equal to it, and a date and a description. */
  predicate OwnerRow(name: string, row: Row)
  {
    |row.cells| >= 5 && Contains(Join(Texts(row.cells), " "), name) &&
    CellText(row.cells[1]) == name && CellText(row.cells[2]) != "" && CellText(row.cells[3]) != ""
  }

  function IsOwnerRow(name: string): Row -> bool
  {
    (row: Row) => OwnerRow(name, row)
  }

  /** A row continuing the horse's records (horse_detail.py:484-490): at least five cells, an empty
      name cell, and a first cell that holds '/' or only digits. */
  predicate IsContinuation(row: Row)
  {
    |row.cells| >= 5 && CellText(row.cells[1]) == "" && CellText(row.cells[0]) != "" &&
    ('/' in CellText(row.cells[0]) || AllDigits(CellText(row.cells[0])))
  }

  /** The records of the continuation rows from `j` on, up to the first row that is not one; a row
      without a description adds nothing. */
  function ContinuationRecords(rows: seq<Row>, j: nat): seq<InjuryRecord>
    decreases |rows| - j
  {
    if j >= |rows| || !IsContinuation(rows[j]) then []
    else RowRecord(rows[j]) + ContinuationRecords(rows, j + 1)
  }

  /** The record of one continuation row: its first cell as the date and its third as the
      description, or nothing when the description is empty (horse_detail.py:492-501). */
  function RowRecord(row: Row): seq<InjuryRecord>
    requires |row.cells| >= 3
  {
    var description := CellText(row.cells[2]);
    if description != "" then [InjuryRecord(CellText(row.cells[0]), description)] else []
  }

  /** The record of the first row of the horse: its date and description cells. */
  function OwnerRecord(row: Row): InjuryRecord
    requires |row.cells| >= 4
  {
    InjuryRecord(CellText(row.cells[2]), CellText(row.cells[3]))
  }

  /** The row scan: the record of the first row of the horse and those of the rows continuing it. */
  function InjuryScan(name: string, rows: seq<Row>): (r: seq<InjuryRecord>)
    ensures |r| <= |rows|
    ensures forall k :: 0 <= k < |r| ==> r[k].date != "" && r[k].description != ""
  {
    var found := FirstIndex(rows, IsOwnerRow(name));
    if found.None? then []
    else
      var i := found.value;
      OwnerRowFields(name, rows[i]);
      OwnerBlockComplete(rows, i);
      [OwnerRecord(rows[i])] + ContinuationRecords(rows, i + 1)
  }

  /** `_scrape_injuries_from_separate_page`, horse_detail.py:421-522: nothing without a horse name
      or without a table on the veterinary records page. */
  function Injuries(name: Option<string>, vetTable: Option<Table>): seq<InjuryRecord>
  {
    if name.None? || name.value == "" || vetTable.None? then [] else InjuryScan(name.value, vetTable.value.rows)
  }

  method ScrapeInjuries(name: Option<string>, vetTable: Option<Table>) returns (injuries: seq<InjuryRecord>)
    ensures injuries == Injuries(name, vetTable)
  {
    if name.None? || name.value == "" || vetTable.None? {
      return [];
    }
    injuries := ScanInjuryRows(name.value, vetTable.value.rows);
  }

  /** The loops of horse_detail.py:446-511: the search for the horse's row, then the scan of the
      rows after it. */
  method ScanInjuryRows(name: string, rows: seq<Row>) returns (injuries: seq<InjuryRecord>)
    ensures injuries == InjuryScan(name, rows)
  {
    var found := FindOwnerRow(name, rows);
    if found.None? {
      return [];
    }
    var i := found.value;
    InjuryScanFirst(name, rows, i);
    injuries := [OwnerRecord(rows[i])];
    injuries := AppendContinuations(rows, i + 1, injuries);
  }

  /** `" ".join(...)` of the normalized cell texts (horse_detail.py:456). */
  method RowText(cells: seq<string>) returns (text: string)
    ensures text == Join(Texts(cells), " ")
  {
    var texts := AllTexts(cells);
    text := Join(texts, " ");
  }

  /** The tests of horse_detail.py:453-469 on one row. */
  method CheckOwnerRow(name: string, row: Row) returns (owner: bool)
    ensures owner == OwnerRow(name, row)
  {
    var cells := row.cells;
    if |cells| < 5 {
      return false;
    }
    var rowText := RowText(cells);
    if !Contains(rowText, name) {
      return false;
    }
    owner := CellText(cells[1]) == name && CellText(cells[2]) != "" && CellText(cells[3]) != "";
  }

  /** The outer row loop, up to the first row of the horse. */
  method FindOwnerRow(name: string, rows: seq<Row>) returns (found: Option<nat>)
    ensures found == FirstIndex(rows, IsOwnerRow(name))
  {
    var i := 0;
    while i < |rows|
      invariant 0 <= i <= |rows|
      invariant NoneSatisfy(rows[..i], IsOwnerRow(name))
    {
      var owner := CheckOwnerRow(name, rows[i]);
      if owner {
        FirstIndexAt(rows, IsOwnerRow(name), i);
        return Some(i);
      }
      NoneSatisfyStep(rows, IsOwnerRow(name), i);
      i := i + 1;
    }
    NoOwnerRow(name, rows);
    return None;
  }

  lemma NoOwnerRow(name: string, rows: seq<Row>)
    requires NoneSatisfy(rows[..|rows|], IsOwnerRow(name))
    ensures FirstIndex(rows, IsOwnerRow(name)) == None
  {
    assert rows[..|rows|] == rows;
  }

  /** The `while j < len(rows)` loop of horse_detail.py:479-509. */
  method AppendContinuations(rows: seq<Row>, start: nat, prefix: seq<InjuryRecord>)
    returns (injuries: seq<InjuryRecord>)
    ensures injuries == prefix + ContinuationRecords(rows, start)
  {
    injuries := prefix;
    var j := start;
    while j < |rows| && IsContinuation(rows[j])
      invariant start <= j
      invariant injuries + ContinuationRecords(rows, j) == prefix + ContinuationRecords(rows, start)
      decreases |rows| - j
    {
      var description := CellText(rows[j].cells[2]);
      var added := if description != "" then [InjuryRecord(CellText(rows[j].cells[0]), description)] else [];
      ContinuationStep(rows, j, injuries, added);
      injuries := injuries + added;
      j := j + 1;
    }
  }

  lemma ContinuationStep(rows: seq<Row>, j: nat, done: seq<InjuryRecord>, added: seq<InjuryRecord>)
    requires j < |rows| && IsContinuation(rows[j]) && added == RowRecord(rows[j])
    ensures done + ContinuationRecords(rows, j) == (done + added) + ContinuationRecords(rows, j + 1)
  {
  }

  // ---------------------------------------------------------------------------
  // The horse name

  /** Python's `title.split(sep)[0]`: the part before the first `sep`. */
  function BeforeSeparator(title: string, sep: string): (r: string)
    ensures r <= title
  {
    if |title| < |sep| then title
    else if title[..|sep|] == sep then ""
    else [title[0]] + BeforeSeparator(title[1..], sep)
  }

  /** A usable name element: found, and its text non-empty and shorter than 20 characters
      (horse_detail.py:548-550). */
  function IsNameText(): Option<string> -> bool
  {
    (raw: Option<string>) => raw.Some? && CellText(raw.value) != "" && |CellText(raw.value)| < 20
  }

  /** The fallback on the page title (horse_detail.py:555-560): a title holding 馬匹資料 gives the
      stripped part before the first " - ". */
  function TitleName(title: string): Option<string>
  {
    if Contains(title, "馬匹資料") then Some(Strip(BeforeSeparator(title, " - "))) else None
  }

  /** `_extract_horse_name_from_page`, horse_detail.py:533-565.  The candidates are the raw texts of
      the elements the selectors `h1`, `.horse-name`, `.title` and `title` find, None where none is
      found; `title` is the page title. */
  function HorseName(candidates: seq<Option<string>>, title: string): Option<string>
  {
    match FirstIndex(candidates, IsNameText())
    case Some(k) => Some(CellText(candidates[k].value))
    case None => TitleName(title)
  }

  method ExtractHorseName(candidates: seq<Option<string>>, title: string) returns (name: Option<string>)
    ensures name == HorseName(candidates, title)
  {
    var k := FirstNameElement(candidates);
    if k.Some? {
      return Some(CellText(candidates[k.value].value));
    }
    if title != "" && Contains(title, "馬匹資料") {
      name := Some(Strip(BeforeSeparator(title, " - ")));
    } else {
      name := None;
    }
  }

  /** The selector loop of horse_detail.py:544-552. */
  method FirstNameElement(candidates: seq<Option<string>>) returns (found: Option<nat>)
    ensures found == FirstIndex(candidates, IsNameText())
  {
    var k := 0;
    while k < |candidates|
      invariant 0 <= k <= |candidates|
      invariant NoneSatisfy(candidates[..k], IsNameText())
    {
      var raw := candidates[k];
      if raw.Some? {
        var text := CellText(raw.value);
        if text != "" && |text| < 20 {
          FirstIndexAt(candidates, IsNameText(), k);
          return Some(k);
        }
      }
      NoneSatisfyStep(candidates, IsNameText(), k);
      k := k + 1;
    }
    assert candidates[..k] == candidates;
    return None;
  }

  // ---------------------------------------------------------------------------
  // The profile text

  /** The part a row adds (horse_detail.py:399-406): `key: value` for a row of at least two cells
      whose first two texts are non-empty, the key shorter than ten characters. */
  function ProfilePart(row: Row): Option<string>
  {
    if |row.cells| < 2 then None
    else
      var key := CellText(row.cells[0]);
      var value := CellText(row.cells[1]);
      if key != "" && value != "" && |key| < 10 then Some(key + ": " + value) else None
  }

  /** The parts of the rows, in order. */
  function RowParts(rows: seq<Row>): seq<string>
  {
    if |rows| == 0 then []
    else
      var part := ProfilePart(rows[|rows| - 1]);
      RowParts(rows[..|rows| - 1]) + (if part.Some? then [part.value] else [])
  }

  /** The parts of the tables, in table order then row order. */
  function ProfileParts(tables: seq<Table>): seq<string>
  {
    if |tables| == 0 then [] else ProfileParts(tables[..|tables| - 1]) + RowParts(tables[|tables| - 1].rows)
  }

  /** The table half of `_scrape_profile_from_main_page` (horse_detail.py:393-417): the parts joined
      with " | ", or "" when there are none. */
  function Profile(tables: seq<Table>): string
  {
    var parts := ProfileParts(tables);
    if parts == [] then "" else Join(parts, " | ")
  }

  method ScrapeProfile(tables: seq<Table>) returns (profile: string)
    ensures profile == Profile(tables)
  {
    var parts := [];
    var t := 0;
    while t < |tables|
      invariant 0 <= t <= |tables|
      invariant parts == ProfileParts(tables[..t])
    {
      assert tables[..t + 1][..t] == tables[..t];
      parts := AppendRowParts(parts, tables[t].rows);
      t := t + 1;
    }
    assert tables[..t] == tables;
    if parts != [] {
      profile := Join(parts, " | ");
    } else {
      profile := "";
    }
  }

  /** The row loop for one table. */
  method AppendRowParts(parts: seq<string>, rows: seq<Row>) returns (r: seq<string>)
    ensures r == parts + RowParts(rows)
  {
    r := parts;
    var k := 0;
    while k < |rows|
      invariant 0 <= k <= |rows|
      invariant r == parts + RowParts(rows[..k])
    {
      assert rows[..k + 1][..k] == rows[..k];
      var cells := rows[k].cells;
      if |cells| >= 2 {
        var key := CellText(cells[0]);
        var value := CellText(cells[1]);
        if key != "" && value != "" && |key| < 10 {
          r := r + [key + ": " + value];
        }
      }
      k := k + 1;
    }
    assert rows[..k] == rows;
  }

  // ---------------------------------------------------------------------------
  // The international rating

  /** The index of the first digit of `s` at or after `i`. */
  function FirstDigit(s: string, i: nat): (p: Option<nat>)
    requires i <= |s|
    ensures p.Some? ==>
      i <= p.value < |s| && IsDigit(s[p.value]) && forall k :: i <= k < p.value ==> !IsDigit(s[k])
    ensures p.None? ==> forall k :: i <= k < |s| ==> !IsDigit(s[k])
    decreases |s| - i
  {
    if i == |s| then None
    else if IsDigit(s[i]) then Some(i)
    else FirstDigit(s, i + 1)
  }

  /** `re.search(r'(\d+)', s).group(1)`: the leftmost run of digits, taken whole; None without a
      match. */
  function DigitRun(s: string): (r: Option<string>)
    ensures r.Some? ==> |r.value| > 0 && AllDigits(r.value)
  {
    match FirstDigit(s, 0)
    case Some(p) =>
      var e := RunEnd(s, p, IsDigitChar());
      assert forall k :: p <= k < e ==> IsDigit(s[k]);
      Some(s[p..e])
    case None => None
  }

  /** A found element whose text yields a rating. */
  function HasRating(): Option<string> -> bool
  {
    (text: Option<string>) => text.Some? && DigitRun(text.value).Some?
  }

  /** `_find_international_rating`, horse_detail.py:129-157.  `texts` holds, for the selectors
      `text=國際評分`, `text=International Rating`, `.international-rating` and
      `.rating-international` in this order, the inner text of the element each finds, None where
      it finds none or reading it raises (both of which the loop passes over). */
  function Rating(texts: seq<Option<string>>): (r: Option<string>)
    ensures r.Some? ==> |r.value| > 0 && AllDigits(r.value)
  {
    match FirstIndex(texts, HasRating())
    case Some(k) => DigitRun(texts[k].value)
    case None => None
  }

  /** The selector loop of horse_detail.py:140-151. */
  method FindInternationalRating(texts: seq<Option<string>>) returns (rating: Option<string>)
    ensures rating == Rating(texts)
  {
    var k := 0;
    while k < |texts|
      invariant 0 <= k <= |texts|
      invariant NoneSatisfy(texts[..k], HasRating())
    {
      var text := texts[k];
      if text.Some? {
        var found := DigitRun(text.value);
        if found.Some? {
          FirstIndexAt(texts, HasRating(), k);
          return found;
        }
      }
      NoneSatisfyStep(texts, HasRating(), k);
      k := k + 1;
    }
    assert texts[..k] == texts;
    return None;
  }

  /** The digit run is the first digit of the text and every digit after it up to the first
      non-digit; there is none exactly when the text holds no digit. */
  lemma DigitRunSpec(s: string)
    ensures DigitRun(s).None? <==> forall k :: 0 <= k < |s| ==> !IsDigit(s[k])
    ensures DigitRun(s).Some? ==>
      exists p, e :: 0 <= p < e <= |s| && DigitRun(s).value == s[p..e] &&
        (forall k :: 0 <= k < p ==> !IsDigit(s[k])) && (e == |s| || !IsDigit(s[e]))
  {
    match FirstDigit(s, 0)
    case Some(p) =>
      var e := RunEnd(s, p, IsDigitChar());
      assert e == |s| || !IsDigitChar()(s[e]);
      assert IsDigitChar()(s[p]);
      assert DigitRun(s).value == s[p..e];
    case None =>
  }

  /** The rating comes from the first element whose text holds a digit, as its first digit run;
      there is no rating exactly when no found element's text holds a digit. */
  lemma RatingSpec(texts: seq<Option<string>>)
    ensures Rating(texts).None? <==>
      forall k :: 0 <= k < |texts| && texts[k].Some? ==> DigitRun(texts[k].value).None?
    ensures Rating(texts).Some? ==>
      exists k :: 0 <= k < |texts| && texts[k].Some? && Rating(texts) == DigitRun(texts[k].value) &&
        forall j :: 0 <= j < k && texts[j].Some? ==> DigitRun(texts[j].value).None?
  {
    match FirstIndex(texts, HasRating())
    case Some(k) =>
      assert HasRating()(texts[k]);
      forall j | 0 <= j < k && texts[j].Some? ensures DigitRun(texts[j].value).None? {
        assert !HasRating()(texts[j]);
      }
    case None =>
      forall j | 0 <= j < |texts| && texts[j].Some? ensures DigitRun(texts[j].value).None? {
        assert !HasRating()(texts[j]);
      }
  }

  // ---------------------------------------------------------------------------
  // The details dict

  /** What the scraper reads from a detail page once it has loaded: the URL the page ended on, its
      tables, its text (None when reading it raised, as it always does for the call as written at
      horse_detail.py:308), the raw texts of the name elements and of the
      rating elements, its title and the first table of the veterinary records page. */
  datatype DetailPage = DetailPage(
    url: string, tables: seq<Table>, text: Option<string>, nameCandidates: seq<Option<string>>,
    ratingTexts: seq<Option<string>>, title: string, vetTable: Option<Table>)

  const RatingKey := Scalar(InternationalRating)

  /** `_extract_basic_info`, horse_detail.py:73-92: the horse ID of the page URL when it yields a
      non-empty one, and the international rating when one is found. */
  function BasicInfo(url: string, ratingTexts: seq<Option<string>>): Kwargs
  {
    var id := RaceCard.ExtractHorseId(url);
    var rating := Rating(ratingTexts);
    var info: Kwargs := if id.Some? && id.value != "" then map[HorseIdKey := Text(id.value)] else map[];
    if rating.Some? && rating.value != "" then info[RatingKey := Text(rating.value)] else info
  }

  method ExtractBasicInfo(url: string, ratingTexts: seq<Option<string>>) returns (info: Kwargs)
    ensures info == BasicInfo(url, ratingTexts)
  {
    info := map[];
    var id := RaceCard.ExtractHorseId(url);
    if id.Some? && id.value != "" {
      info := info[HorseIdKey := Text(id.value)];
    }
    var rating := FindInternationalRating(ratingTexts);
    if rating.Some? && rating.value != "" {
      info := info[RatingKey := Text(rating.value)];
    }
  }

  /** The dict `scrape_horse_details` builds (horse_detail.py:29-71): empty for an empty URL. */
  function Details(detailUrl: string, page: DetailPage): Kwargs
  {
    if detailUrl == "" then map[]
    else
      BasicInfo(page.url, page.ratingTexts)
        [PastRunsKey := List(RunItems(PastRuns(page.tables, page.text)))]
        [ProfileKey := Text(Profile(page.tables))]
        [InjuriesKey := List(InjuryItems(Injuries(HorseName(page.nameCandidates, page.title), page.vetTable)))]
  }

  method ScrapeHorseDetails(detailUrl: string, page: DetailPage) returns (details: Kwargs)
    ensures details == Details(detailUrl, page)
  {
    if detailUrl == "" {
      return map[];
    }
    details := ExtractBasicInfo(page.url, page.ratingTexts);
    var runs := ScrapePastRunsFromMainPage(page.tables, page.text);
    details := details[PastRunsKey := List(RunItems(runs))];
    var profile := ScrapeProfile(page.tables);
    details := details[ProfileKey := Text(profile)];
    var name := ExtractHorseName(page.nameCandidates, page.title);
    var injuries := ScrapeInjuries(name, page.vetTable);
    details := details[InjuriesKey := List(InjuryItems(injuries))];
  }

  // ---------------------------------------------------------------------------
  // Properties of the injury scan, the name, the profile and the details dict

  /** Each part of a join occurs in the joined text. */
  lemma {:induction false} JoinHasPart(parts: seq<string>, sep: string, k: nat)
    requires k < |parts|
    ensures Contains(Join(parts, sep), parts[k])
  {
    if |parts| == 1 || k == 0 {
      ContainsAt(parts[k], parts[k], 0);
      if |parts| > 1 {
        ContainsInConcat([], parts[0], sep + Join(parts[1..], sep), parts[0]);
        assert [] + parts[0] + (sep + Join(parts[1..], sep)) == Join(parts, sep);
      }
    } else {
      JoinHasPart(parts[1..], sep, k - 1);
      ContainsInConcat(parts[0] + sep, Join(parts[1..], sep), [], parts[k]);
      assert parts[0] + sep + Join(parts[1..], sep) + [] == Join(parts, sep);
    }
  }

  /** The row-text test of horse_detail.py:458 never rejects a row: a row whose name cell equals the
      name always holds the name in its joined text. */
  lemma OwnerRowByCells(name: string, row: Row)
    ensures OwnerRow(name, row) <==>
      |row.cells| >= 5 && CellText(row.cells[1]) == name && CellText(row.cells[2]) != "" &&
      CellText(row.cells[3]) != ""
  {
    if |row.cells| >= 5 {
      JoinHasPart(Texts(row.cells), " ", 1);
    }
  }

  /** Continuation records have a non-empty date that holds '/' or only digits and a non-empty
      description; there is at most one per row. */
  lemma {:induction false} ContinuationRecordsSpec(rows: seq<Row>, j: nat)
    requires j <= |rows|
    ensures var r := ContinuationRecords(rows, j);
      |r| <= |rows| - j &&
      forall k :: 0 <= k < |r| ==>
        r[k].date != "" && r[k].description != "" && ('/' in r[k].date || AllDigits(r[k].date))
    decreases |rows| - j
  {
    if j < |rows| && IsContinuation(rows[j]) {
      ContinuationRecordsSpec(rows, j + 1);
    }
  }

  /** The first row that does not continue the block ends the scan: rows after it are never read. */
  lemma {:induction false} ContinuationsIgnoreLaterRows(rows: seq<Row>, more: seq<Row>, j: nat, e: nat)
    requires j <= e < |rows| && !IsContinuation(rows[e])
    ensures ContinuationRecords(rows + more, j) == ContinuationRecords(rows, j)
    decreases e - j
  {
    assert (rows + more)[j] == rows[j];
    if j < e && IsContinuation(rows[j]) {
      ContinuationsIgnoreLaterRows(rows, more, j + 1, e);
    }
  }

  /** The scan finds nothing exactly when no row is the horse's. */
  lemma InjuryScanEmptyIff(name: string, rows: seq<Row>)
    ensures InjuryScan(name, rows) == [] <==> forall i :: 0 <= i < |rows| ==> !OwnerRow(name, rows[i])
  {
    if FirstIndex(rows, IsOwnerRow(name)).None? {
      assert forall i :: 0 <= i < |rows| ==> !IsOwnerRow(name)(rows[i]);
    }
  }

  /** The first record is that of the first row of the horse: its date and description cells. */
  lemma InjuryScanFirst(name: string, rows: seq<Row>, i: nat)
    requires i < |rows| && OwnerRow(name, rows[i])
    requires forall k :: 0 <= k < i ==> !OwnerRow(name, rows[k])
    ensures InjuryScan(name, rows) ==
      [InjuryRecord(CellText(rows[i].cells[2]), CellText(rows[i].cells[3]))] + ContinuationRecords(rows, i + 1)
  {
    FirstIndexAt(rows, IsOwnerRow(name), i);
  }

  /** The first row of the horse and the rows continuing it give records with a date and a
      description, at most one per row. */
  lemma OwnerBlockComplete(rows: seq<Row>, i: nat)
    requires i < |rows| && |rows[i].cells| >= 4
    requires OwnerRecord(rows[i]).date != "" && OwnerRecord(rows[i]).description != ""
    ensures var r := [OwnerRecord(rows[i])] + ContinuationRecords(rows, i + 1);
      |r| <= |rows| - i && forall k :: 0 <= k < |r| ==> r[k].date != "" && r[k].description != ""
  {
    var rest := ContinuationRecords(rows, i + 1);
    ContinuationsNonEmpty(rows, i + 1);
    RecordsNonEmpty(OwnerRecord(rows[i]), rest, [OwnerRecord(rows[i])] + rest, |rows| - i);
  }

  lemma OwnerRowFields(name: string, row: Row)
    requires IsOwnerRow(name)(row)
    ensures |row.cells| >= 5 && OwnerRecord(row).date != "" && OwnerRecord(row).description != ""
  {
  }

  lemma ContinuationsNonEmpty(rows: seq<Row>, j: nat)
    requires j <= |rows|
    ensures var r := ContinuationRecords(rows, j);
      |r| < |rows| - j + 1 && forall k :: 0 <= k < |r| ==> r[k].date != "" && r[k].description != ""
  {
    ContinuationRecordsSpec(rows, j);
  }

  lemma RecordsNonEmpty(first: InjuryRecord, rest: seq<InjuryRecord>, all: seq<InjuryRecord>, bound: nat)
    requires all == [first] + rest && |rest| < bound
    requires first.date != "" && first.description != ""
    requires forall k :: 0 <= k < |rest| ==> rest[k].date != "" && rest[k].description != ""
    ensures |all| <= bound && forall k :: 0 <= k < |all| ==> all[k].date != "" && all[k].description != ""
  {
  }

  /** The separator occurs at `k` of `s`. */
  predicate SeparatorAt(s: string, sep: string, k: int)
  {
    0 <= k && k + |sep| <= |s| && s[k..k + |sep|] == sep
  }

  /** Dropping the first character moves every occurrence one place to the left. */
  lemma SeparatorShift(s: string, sep: string, k: int)
    requires 0 < k && |s| > 0
    ensures SeparatorAt(s, sep, k) <==> SeparatorAt(s[1..], sep, k - 1)
  {
    if k + |sep| <= |s| {
      assert s[1..][k - 1..k - 1 + |sep|] == s[k..k + |sep|];
    }
  }

  /** The part before the separator ends where its first occurrence starts, or is the whole title. */
  lemma {:induction false} BeforeSeparatorSpec(title: string, sep: string)
    ensures var r := BeforeSeparator(title, sep);
      (forall k :: 0 <= k < |r| ==> !SeparatorAt(title, sep, k)) &&
      (r == title || SeparatorAt(title, sep, |r|))
  {
    if |title| >= |sep| && title[..|sep|] != sep {
      var rest := BeforeSeparator(title[1..], sep);
      BeforeSeparatorSpec(title[1..], sep);
      var r := BeforeSeparator(title, sep);
      assert r == [title[0]] + rest;
      forall k | 0 <= k < |r|
        ensures !SeparatorAt(title, sep, k)
      {
        if k > 0 {
          SeparatorShift(title, sep, k);
        }
      }
      if r != title {
        SeparatorShift(title, sep, |r|);
      }
    }
  }

  /** A name from the selectors is normalized, non-empty and shorter than 20 characters; without one
      the title gives a name exactly when it holds 馬匹資料. */
  lemma HorseNameSpec(candidates: seq<Option<string>>, title: string)
    ensures var name := HorseName(candidates, title);
      (FirstIndex(candidates, IsNameText()).Some? ==>
        name.Some? && name.value != "" && |name.value| < 20 && IsNormalized(name.value)) &&
      (FirstIndex(candidates, IsNameText()).None? ==>
        (name.Some? <==> Contains(title, "馬匹資料")))
  {
    var found := FirstIndex(candidates, IsNameText());
    if found.Some? {
      assert IsNameText()(candidates[found.value]);
      NormalizeTextSpec(candidates[found.value].value);
    }
  }

  /** The title of the example at horse_detail.py:557 gives the name before " - ". */
  lemma TitleNameExample()
    ensures BeforeSeparator("友得盈 - 馬匹資料", " - ") == "友得盈"
  {
    var t := "友得盈 - 馬匹資料";
    assert t[..3] != " - " && t[1..][..3] != " - " && t[2..][..3] != " - ";
    assert t[3..][..3] == " - ";
  }

  /** Every part is non-empty. */
  lemma {:induction false} RowPartsSpec(rows: seq<Row>)
    ensures forall k :: 0 <= k < |RowParts(rows)| ==> RowParts(rows)[k] != ""
    ensures RowParts(rows) == [] <==> forall r :: 0 <= r < |rows| ==> ProfilePart(rows[r]).None?
  {
    if |rows| > 0 {
      RowPartsSpec(rows[..|rows| - 1]);
      var part := ProfilePart(rows[|rows| - 1]);
      if part.Some? {
        assert |part.value| >= 2;
      }
      assert forall r :: 0 <= r < |rows| - 1 ==> rows[..|rows| - 1][r] == rows[r];
    }
  }

  lemma {:induction false} ProfilePartsSpec(tables: seq<Table>)
    ensures forall k :: 0 <= k < |ProfileParts(tables)| ==> ProfileParts(tables)[k] != ""
    ensures ProfileParts(tables) == [] <==>
      forall t, r :: 0 <= t < |tables| && 0 <= r < |tables[t].rows| ==> ProfilePart(tables[t].rows[r]).None?
  {
    if |tables| > 0 {
      var init := tables[..|tables| - 1];
      var last := tables[|tables| - 1].rows;
      ProfilePartsSpec(init);
      RowPartsSpec(last);
      NoPartSplit(tables, init, last);
      NonEmptyConcat(ProfileParts(init), RowParts(last), ProfileParts(tables));
    }
  }

  /** The rows of all the tables yield no part exactly when those of the tables before the last and
      those of the last do not. */
  lemma NoPartSplit(tables: seq<Table>, init: seq<Table>, last: seq<Row>)
    requires |tables| > 0 && init == tables[..|tables| - 1] && last == tables[|tables| - 1].rows
    ensures (forall t, r :: 0 <= t < |tables| && 0 <= r < |tables[t].rows| ==> ProfilePart(tables[t].rows[r]).None?) <==>
      (forall t, r :: 0 <= t < |init| && 0 <= r < |init[t].rows| ==> ProfilePart(init[t].rows[r]).None?) &&
      (forall r :: 0 <= r < |last| ==> ProfilePart(last[r]).None?)
  {
    assert forall t :: 0 <= t < |init| ==> init[t] == tables[t];
  }

  /** Joining two lists of non-empty strings. */
  lemma NonEmptyConcat(a: seq<string>, b: seq<string>, c: seq<string>)
    requires c == a + b
    requires forall k :: 0 <= k < |a| ==> a[k] != ""
    requires forall k :: 0 <= k < |b| ==> b[k] != ""
    ensures forall k :: 0 <= k < |c| ==> c[k] != ""
    ensures c == [] <==> a == [] && b == []
  {
  }

  /** The profile is empty exactly when no row of any table is a short key with a value. */
  lemma ProfileEmptyIff(tables: seq<Table>)
    ensures Profile(tables) == "" <==>
      forall t, r :: 0 <= t < |tables| && 0 <= r < |tables[t].rows| ==> ProfilePart(tables[t].rows[r]).None?
  {
    ProfilePartsSpec(tables);
    JoinEmpty(ProfileParts(tables), " | ");
  }

  /** A basic-info dict: text values for the horse ID and the international rating. */
  predicate InfoShape(info: Kwargs)
  {
    info.Keys <= {HorseIdKey, RatingKey} && forall f :: f in info ==> info[f].Text?
  }

  /** A detail dict of this shape: the basic info, then past runs, profile and injuries. */
  function DetailDict(info: Kwargs, runs: seq<PastRunRecord>, profile: string, injuries: seq<InjuryRecord>): Kwargs
  {
    info[PastRunsKey := List(RunItems(runs))][ProfileKey := Text(profile)][InjuriesKey := List(InjuryItems(injuries))]
  }

  /** Laid over a race-card entry, such a dict gives the record its past runs, injuries and profile,
      and every field the basic info holds; every other field keeps the entry's value or default,
      and `detail_url` is the entry's. */
  lemma MergeDetailDict(topline: Kwargs, info: Kwargs, runs: seq<PastRunRecord>, profile: string,
                        injuries: seq<InjuryRecord>)
    requires InfoShape(info)
    requires forall f :: f in topline ==> topline[f].Text? && (f in ScalarFieldSet || f == DetailUrlKey)
    ensures FromToplineAndDetail(topline, DetailDict(info, runs, profile, injuries)).Some?
    ensures var t := FromToplineAndDetail(topline, DetailDict(info, runs, profile, injuries)).value;
      t.horse.pastRuns == runs && t.horse.injuries == injuries &&
      t.horse.scalars[ProfileKey] == profile &&
      (forall f :: f in info ==> t.horse.scalars[f] == info[f].text) &&
      (forall f :: f in ScalarFieldSet && f != ProfileKey && f !in info ==>
        t.horse.scalars[f] == if f in topline then topline[f].text else Default(f)) &&
      t.detailUrl == (if DetailUrlKey in topline then Some(topline[DetailUrlKey].text) else None)
  {
    DetailDictShape(info, runs, profile, injuries);
    MergeAcceptable(topline, info, runs, profile, injuries);
    MergeShaped(topline, info, DetailDict(info, runs, profile, injuries), runs, profile, injuries);
  }

  /** The same, for any dict of the detail dict's shape. */
  lemma MergeShaped(topline: Kwargs, info: Kwargs, detail: Kwargs, runs: seq<PastRunRecord>, profile: string,
                    injuries: seq<InjuryRecord>)
    requires InfoShape(info)
    requires forall f :: f in topline ==> topline[f].Text?
    requires detail.Keys == info.Keys + {PastRunsKey, ProfileKey, InjuriesKey}
    requires detail[PastRunsKey] == List(RunItems(runs)) && detail[ProfileKey] == Text(profile) &&
      detail[InjuriesKey] == List(InjuryItems(injuries))
    requires forall f :: f in info ==> detail[f] == info[f]
    requires Acceptable(topline + detail)
    ensures FromToplineAndDetail(topline, detail).Some?
    ensures var t := FromToplineAndDetail(topline, detail).value;
      t.horse.pastRuns == runs && t.horse.injuries == injuries &&
      t.horse.scalars[ProfileKey] == profile &&
      (forall f :: f in info ==> t.horse.scalars[f] == info[f].text) &&
      (forall f :: f in ScalarFieldSet && f != ProfileKey && f !in info ==>
        t.horse.scalars[f] == if f in topline then topline[f].text else Default(f)) &&
      t.detailUrl == (if DetailUrlKey in topline then Some(topline[DetailUrlKey].text) else None)
  {
    var kw := topline + detail;
    ListKeysAreNotScalars();
    MergedUrl(topline, detail, kw);
    MergedLists(topline, detail, kw, runs, injuries);
    MergedScalars(topline, info, detail, kw, profile);
  }

  /** The same, for any dict of the detail dict's shape: the record validates and keeps the entry's
      `detail_url`, ... */
  lemma MergedUrl(topline: Kwargs, detail: Kwargs, kw: Kwargs)
    requires forall f :: f in topline ==> topline[f].Text?
    requires DetailUrlKey !in detail && kw == topline + detail && Acceptable(kw)
    ensures FromToplineAndDetail(topline, detail) == BuildTopline(kw) && BuildTopline(kw).Some?
    ensures Build(kw).Some? && BuildTopline(kw).value.horse == Build(kw).value
    ensures BuildTopline(kw).value.detailUrl ==
      if DetailUrlKey in topline then Some(topline[DetailUrlKey].text) else None
  {
    assert DetailUrlKey in kw ==> kw[DetailUrlKey] == topline[DetailUrlKey];
    ToplineWhenAcceptable(kw);
  }

  /** ... takes the lists of the dict, ... */
  lemma MergedLists(topline: Kwargs, detail: Kwargs, kw: Kwargs, runs: seq<PastRunRecord>, injuries: seq<InjuryRecord>)
    requires PastRunsKey in detail && InjuriesKey in detail
    requires PastRunsOf(detail[PastRunsKey]) == Some(runs) && InjuriesOf(detail[InjuriesKey]) == Some(injuries)
    requires kw == topline + detail && Acceptable(kw)
    ensures Build(kw).Some? && Build(kw).value.pastRuns == runs && Build(kw).value.injuries == injuries
  {
    OverlaidLists(topline, detail, kw);
  }

  /** ... and takes the profile and the basic info from the dict and every other field from the
      entry. */
  lemma MergedScalars(topline: Kwargs, info: Kwargs, detail: Kwargs, kw: Kwargs, profile: string)
    requires InfoShape(info)
    requires forall f :: f in topline ==> topline[f].Text?
    requires detail.Keys == info.Keys + {PastRunsKey, ProfileKey, InjuriesKey}
    requires detail[ProfileKey] == Text(profile) && forall f :: f in info ==> detail[f] == info[f]
    requires kw == topline + detail && Acceptable(kw)
    ensures Build(kw).Some?
    ensures var h := Build(kw).value;
      ProfileKey in h.scalars && h.scalars[ProfileKey] == profile &&
      (forall f :: f in info ==> f in h.scalars && h.scalars[f] == info[f].text) &&
      (forall f :: f in ScalarFieldSet && f != ProfileKey && f !in info ==>
        f in h.scalars && h.scalars[f] == if f in topline then topline[f].text else Default(f))
  {
    OverlaidField(topline, detail, kw, ProfileKey);
    MergedInfo(topline, info, detail, kw);
    MergedEntryFields(topline, info, detail, kw);
  }

  /** The basic-info fields come from the dict. */
  lemma MergedInfo(topline: Kwargs, info: Kwargs, detail: Kwargs, kw: Kwargs)
    requires InfoShape(info)
    requires forall f :: f in topline ==> topline[f].Text?
    requires forall f :: f in info ==> f in detail && detail[f] == info[f]
    requires kw == topline + detail && Acceptable(kw)
    ensures Build(kw).Some?
    ensures forall f :: f in info ==> f in Build(kw).value.scalars && Build(kw).value.scalars[f] == info[f].text
  {
    assert HorseIdKey in ScalarFieldSet && RatingKey in ScalarFieldSet;
    forall f | f in info
      ensures f in Build(kw).value.scalars && Build(kw).value.scalars[f] == info[f].text
    {
      OverlaidField(topline, detail, kw, f);
    }
  }

  /** The fields the dict does not hold come from the entry. */
  lemma MergedEntryFields(topline: Kwargs, info: Kwargs, detail: Kwargs, kw: Kwargs)
    requires forall f :: f in topline ==> topline[f].Text?
    requires detail.Keys == info.Keys + {PastRunsKey, ProfileKey, InjuriesKey}
    requires kw == topline + detail && Acceptable(kw)
    ensures Build(kw).Some?
    ensures forall f :: f in ScalarFieldSet && f != ProfileKey && f !in info ==>
      f in Build(kw).value.scalars &&
      Build(kw).value.scalars[f] == if f in topline then topline[f].text else Default(f)
  {
    ListKeysAreNotScalars();
    forall f | f in ScalarFieldSet && f != ProfileKey && f !in info
      ensures f in Build(kw).value.scalars &&
              Build(kw).value.scalars[f] == if f in topline then topline[f].text else Default(f)
    {
      OverlaidField(topline, detail, kw, f);
      assert f !in detail;
    }
  }

  /** The keys and values of such a dict. */
  lemma DetailDictShape(info: Kwargs, runs: seq<PastRunRecord>, profile: string, injuries: seq<InjuryRecord>)
    requires InfoShape(info)
    ensures var d := DetailDict(info, runs, profile, injuries);
      d.Keys == info.Keys + {PastRunsKey, ProfileKey, InjuriesKey} &&
      d[PastRunsKey] == List(RunItems(runs)) && d[ProfileKey] == Text(profile) &&
      d[InjuriesKey] == List(InjuryItems(injuries)) &&
      (forall f :: f in info ==> d[f] == info[f])
  {
    ListKeysAreNotScalars();
  }

  /** Laid over such an entry, such a dict validates. */
  lemma MergeAcceptable(topline: Kwargs, info: Kwargs, runs: seq<PastRunRecord>, profile: string,
                        injuries: seq<InjuryRecord>)
    requires InfoShape(info)
    requires forall f :: f in topline ==> topline[f].Text? && (f in ScalarFieldSet || f == DetailUrlKey)
    ensures Acceptable(topline + DetailDict(info, runs, profile, injuries))
  {
    ListKeysAreNotScalars();
    var detail := DetailDict(info, runs, profile, injuries);
    DetailDictShape(info, runs, profile, injuries);
    var kw := topline + detail;
    forall f | f in kw && f != InjuriesKey && f != PastRunsKey
      ensures kw[f].Text?
    {
      if f in detail {
        assert kw[f] == detail[f];
      }
    }
    assert kw[InjuriesKey] == List(InjuryItems(injuries)) && kw[PastRunsKey] == List(RunItems(runs));
    AcceptableWhenTexts(kw);
  }

  /** The basic info holds the horse ID exactly when the URL yields a non-empty one, and the
      international rating exactly when one is found, both as text. */
  lemma BasicInfoShape(url: string, ratingTexts: seq<Option<string>>)
    ensures var info := BasicInfo(url, ratingTexts);
      InfoShape(info) &&
      (HorseIdKey in info <==> RaceCard.ExtractHorseId(url).Some? && RaceCard.ExtractHorseId(url).value != "") &&
      (HorseIdKey in info ==> info[HorseIdKey].text == RaceCard.ExtractHorseId(url).value) &&
      (RatingKey in info <==> Rating(ratingTexts).Some?) &&
      (RatingKey in info ==> info[RatingKey].text == Rating(ratingTexts).value)
  {
  }

  /** What the details of a horse page make of a race-card entry (main.py:174-182): its past runs,
      injuries and profile are the page's, its horse ID the page URL's when that yields one, its
      international rating the page's when one is found (overriding the race card's), and every
      other field is the entry's. */
  lemma DetailsMerge(topline: Kwargs, detailUrl: string, page: DetailPage)
    requires detailUrl != ""
    requires forall f :: f in topline ==> topline[f].Text? && (f in ScalarFieldSet || f == DetailUrlKey)
    ensures FromToplineAndDetail(topline, Details(detailUrl, page)).Some?
    ensures var t := FromToplineAndDetail(topline, Details(detailUrl, page)).value;
      var info := BasicInfo(page.url, page.ratingTexts);
      t.horse.pastRuns == PastRuns(page.tables, page.text) &&
      t.horse.injuries == Injuries(HorseName(page.nameCandidates, page.title), page.vetTable) &&
      t.horse.scalars[ProfileKey] == Profile(page.tables) &&
      (HorseIdKey in info ==> t.horse.scalars[HorseIdKey] == info[HorseIdKey].text) &&
      t.horse.scalars[RatingKey] == (match Rating(page.ratingTexts)
        case Some(r) => r
        case None => if RatingKey in topline then topline[RatingKey].text else Default(RatingKey)) &&
      (forall f :: f in ScalarFieldSet && f != ProfileKey && f !in info ==>
        t.horse.scalars[f] == if f in topline then topline[f].text else Default(f)) &&
      t.detailUrl == (if DetailUrlKey in topline then Some(topline[DetailUrlKey].text) else None)
  {
    var runs := PastRuns(page.tables, page.text);
    var profile := Profile(page.tables);
    var injuries := Injuries(HorseName(page.nameCandidates, page.title), page.vetTable);
    var info := BasicInfo(page.url, page.ratingTexts);
    assert Details(detailUrl, page) == DetailDict(info, runs, profile, injuries);
    BasicInfoShape(page.url, page.ratingTexts);
    MergeDetailDict(topline, info, runs, profile, injuries);
    assert RatingKey in ScalarFieldSet && RatingKey != ProfileKey;
  }
}
