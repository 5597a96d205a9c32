/**
 * The table and link helpers of `SelectorHelper` in hkjc_scraper/selectors.py,
 * over the page snapshot of module Dom.  A Playwright query that raised is a
 * `None` in the list of query results; exceptions raised inside the helpers
 * themselves come only from the browser and are not modelled.
 */
module Selectors {
  import opened Strings
  import opened Normalize
  import opened Dom
  import opened HeaderMatch

  // ---------------------------------------------------------------------------
  // Cell texts

  /** The texts of a list of cells, each read with `CellText`. */
  function Texts(cells: seq<string>): (r: seq<string>)
    ensures |r| == |cells| && forall i :: 0 <= i < |r| ==> r[i] == CellText(cells[i])
  {
    if |cells| == 0 then [] else Texts(cells[..|cells| - 1]) + [CellText(cells[|cells| - 1])]
  }

  /** The texts of the cells that are not empty once normalized (selectors.py:68-72). */
  function NonEmptyTexts(cells: seq<string>): (r: seq<string>)
    ensures |r| <= |cells|
    ensures forall i :: 0 <= i < |r| ==> r[i] != "" && IsNormalized(r[i])
  {
    if |cells| == 0 then []
    else
      var rest := NonEmptyTexts(cells[..|cells| - 1]);
      var text := CellText(cells[|cells| - 1]);
      if text == "" then rest
      else
        NormalizeTextSpec(cells[|cells| - 1]);
        rest + [text]
  }

  // ---------------------------------------------------------------------------
  // _table_has_headers

  /** The cells `_table_has_headers` reads: every `th`, else the cells of the first row. */
  function HeaderCells(table: Table): seq<string>
  {
    if |table.thCells| > 0 then table.thCells
    else if |table.rows| > 0 then table.rows[0].cells
    else []
  }

  predicate MatchesSome(expected: string, texts: seq<string>)
  {
    exists j :: 0 <= j < |texts| && HeaderMatches(expected, texts[j])
  }

  /** How many entries of `expected` match at least one text; each entry counts once. */
  function CountMatched(expected: seq<string>, texts: seq<string>): nat
  {
    if |expected| == 0 then 0
    else CountMatched(expected[..|expected| - 1], texts) + (if MatchesSome(expected[|expected| - 1], texts) then 1 else 0)
  }

  /** `_table_has_headers(table, expected)` (selectors.py:53-87). */
  predicate HasHeaders(table: Table, expected: seq<string>)
  {
    CountMatched(expected, NonEmptyTexts(HeaderCells(table))) >= 3
  }

  method TableHasHeaders(table: Table, expected: seq<string>) returns (found: bool)
    ensures found == HasHeaders(table, expected)
  {
    var cells := table.thCells;
    if |cells| == 0 && |table.rows| > 0 {
      cells := table.rows[0].cells;
    }
    if |cells| == 0 {
      CountMatchedNoTexts(expected);
      return false;
    }
    var texts := HeaderTexts(cells);
    var count := CountFound(expected, texts);
    found := count >= 3;
  }

  /** The loop at selectors.py:68-72. */
  method HeaderTexts(cells: seq<string>) returns (texts: seq<string>)
    ensures texts == NonEmptyTexts(cells)
  {
    texts := [];
    var k := 0;
    while k < |cells|
      invariant 0 <= k <= |cells|
      invariant texts == NonEmptyTexts(cells[..k])
    {
      var text := CellText(cells[k]);
      if text != "" {
        texts := texts + [text];
      }
      assert cells[..k + 1][..k] == cells[..k];
      k := k + 1;
    }
    assert cells[..k] == cells;
  }

  /** The counting loop at selectors.py:75-80. */
  method CountFound(expected: seq<string>, texts: seq<string>) returns (count: nat)
    ensures count == CountMatched(expected, texts)
  {
    count := 0;
    var n := 0;
    while n < |expected|
      invariant 0 <= n <= |expected|
      invariant count == CountMatched(expected[..n], texts)
    {
      var j := 0;
      ghost var hit := false;
      while j < |texts|
        invariant 0 <= j <= |texts|
        invariant forall i :: 0 <= i < j ==> !HeaderMatches(expected[n], texts[i])
        invariant !hit && count == CountMatched(expected[..n], texts)
      {
        if HeaderMatches(expected[n], texts[j]) {
          count, hit := count + 1, true;
          break;
        }
        j := j + 1;
      }
      assert hit <==> MatchesSome(expected[n], texts);
      assert expected[..n + 1][..n] == expected[..n];
      n := n + 1;
    }
    assert expected[..n] == expected;
  }

  lemma {:induction false} CountMatchedBound(expected: seq<string>, texts: seq<string>)
    ensures CountMatched(expected, texts) <= |expected|
  {
    if |expected| > 0 {
      CountMatchedBound(expected[..|expected| - 1], texts);
    }
  }

  /** Fewer than three expected labels can never reach the threshold of three. */
  lemma FewLabelsNeverQualify(table: Table, expected: seq<string>)
    requires |expected| < 3
    ensures !HasHeaders(table, expected)
  {
    CountMatchedBound(expected, NonEmptyTexts(HeaderCells(table)));
  }

  /** A table whose header cells are all empty never qualifies, although an empty text would match
      every label: the empty texts are dropped first. */
  lemma {:induction false} EmptyHeadersNeverQualify(table: Table, expected: seq<string>)
    requires forall i :: 0 <= i < |HeaderCells(table)| ==> CellText(HeaderCells(table)[i]) == ""
    ensures !HasHeaders(table, expected)
  {
    var cells := HeaderCells(table);
    NoTextsFromEmptyCells(cells);
    CountMatchedNoTexts(expected);
  }

  lemma {:induction false} NoTextsFromEmptyCells(cells: seq<string>)
    requires forall i :: 0 <= i < |cells| ==> CellText(cells[i]) == ""
    ensures NonEmptyTexts(cells) == []
  {
    if |cells| > 0 {
      NoTextsFromEmptyCells(cells[..|cells| - 1]);
    }
  }

  lemma {:induction false} CountMatchedNoTexts(expected: seq<string>)
    ensures CountMatched(expected, []) == 0
  {
    if |expected| > 0 {
      CountMatchedNoTexts(expected[..|expected| - 1]);
    }
  }

  // ---------------------------------------------------------------------------
  // First-match searches over query results

  /** The elements of the queries that did not raise, in query order then document order. */
  function Flatten<T>(results: seq<Option<seq<T>>>): seq<T>
  {
    if |results| == 0 then []
    else Flatten(results[..|results| - 1]) + (match results[|results| - 1] case Some(xs) => xs case None => [])
  }

  ghost predicate NoneSatisfy<T>(xs: seq<T>, q: T -> bool)
  {
    forall j :: 0 <= j < |xs| ==> !q(xs[j])
  }

  /** The index of the first element satisfying `q`. */
  function FirstIndex<T>(xs: seq<T>, q: T -> bool): (r: Option<nat>)
    ensures r.Some? ==> r.value < |xs| && q(xs[r.value]) && forall j :: 0 <= j < r.value ==> !q(xs[j])
    ensures r.None? ==> forall j :: 0 <= j < |xs| ==> !q(xs[j])
  {
    if |xs| == 0 then None
    else if q(xs[0]) then Some(0)
    else match FirstIndex(xs[1..], q)
      case Some(i) => Some(i + 1)
      case None => None
  }

  /** The first element satisfying `q`. */
  function First<T>(xs: seq<T>, q: T -> bool): Option<T>
  {
    match FirstIndex(xs, q)
    case Some(i) => Some(xs[i])
    case None => None
  }

  lemma {:induction false} FirstIndexAt<T>(xs: seq<T>, q: T -> bool, i: nat)
    requires i < |xs| && q(xs[i]) && NoneSatisfy(xs[..i], q)
    ensures FirstIndex(xs, q) == Some(i)
  {
    if i > 0 {
      assert forall j :: 0 <= j < i ==> xs[..i][j] == xs[j];
      assert xs[1..][..i - 1] == xs[..i][1..];
      FirstIndexAt(xs[1..], q, i - 1);
    }
  }

  lemma {:induction false} FlattenAppend<T>(a: seq<Option<seq<T>>>, b: seq<Option<seq<T>>>)
    ensures Flatten(a + b) == Flatten(a) + Flatten(b)
    decreases |b|
  {
    if |b| > 0 {
      var b' := b[..|b| - 1];
      assert (a + b)[..|a + b| - 1] == a + b';
      FlattenAppend(a, b');
    } else {
      assert a + b == a;
    }
  }

  /** When nothing before position `k` of query result `g` satisfies `q` and that element does, it is
      the first element of the flattened results that does. */
  lemma FirstInGroupAt<T>(results: seq<Option<seq<T>>>, q: T -> bool, g: nat, k: nat)
    requires g < |results| && results[g].Some? && k < |results[g].value|
    requires NoneSatisfy(Flatten(results[..g]), q)
    requires forall j :: 0 <= j < k ==> !q(results[g].value[j])
    requires q(results[g].value[k])
    ensures First(Flatten(results), q) == Some(results[g].value[k])
  {
    var before := Flatten(results[..g]);
    var all := Flatten(results);
    FlattenAround(results, g);
    NoneBefore(before, results[g].value, Flatten(results[g + 1..]), all, q, k);
    FirstIndexAt(all, q, |before| + k);
  }

  /** The flattened results around query result `g`. */
  lemma FlattenAround<T>(results: seq<Option<seq<T>>>, g: nat)
    requires g < |results| && results[g].Some?
    ensures Flatten(results) == Flatten(results[..g]) + results[g].value + Flatten(results[g + 1..])
  {
    assert results[..g + 1][..g] == results[..g];
    FlattenAppend(results[..g + 1], results[g + 1..]);
    assert results[..g + 1] + results[g + 1..] == results;
  }

  lemma NoneBefore<T>(before: seq<T>, mid: seq<T>, rest: seq<T>, all: seq<T>, q: T -> bool, k: nat)
    requires all == before + mid + rest && k < |mid|
    requires NoneSatisfy(before, q) && forall j :: 0 <= j < k ==> !q(mid[j])
    ensures |before| + k < |all| && all[|before| + k] == mid[k] && NoneSatisfy(all[..|before| + k], q)
  {
    var prefix := all[..|before| + k];
    forall j | 0 <= j < |prefix|
      ensures !q(prefix[j])
    {
      assert prefix[j] == all[j];
      if j < |before| {
        assert all[j] == before[j];
      } else {
        assert all[j] == mid[j - |before|];
      }
    }
  }

  // ---------------------------------------------------------------------------
  // find_table_by_headers

  /** `_table_has_headers` with the labels fixed, as a test on tables. */
  function Qualifies(expected: seq<string>): Table -> bool
  {
    t => HasHeaders(t, expected)
  }

  /** The table `find_table_by_headers` returns, given the results of the queries for each table
      selector followed by the result of the query for every `table`: the first table, in query
      order then document order, that has the headers. */
  function FoundTable(results: seq<Option<seq<Table>>>, expected: seq<string>): Option<Table>
  {
    First(Flatten(results), Qualifies(expected))
  }

  /** selectors.py:19-51. */
  method FindTableByHeaders(selectorResults: seq<Option<seq<Table>>>, allTables: Option<seq<Table>>,
                            expected: seq<string>)
    returns (table: Option<Table>)
    ensures table == FoundTable(selectorResults + [allTables], expected)
  {
    table := SearchResults(selectorResults + [allTables], expected);
  }

  /** The loop over the query results in order, selectors.py:28-48. */
  method SearchResults(results: seq<Option<seq<Table>>>, expected: seq<string>) returns (table: Option<Table>)
    ensures table == First(Flatten(results), Qualifies(expected))
  {
    ghost var q := Qualifies(expected);
    var g := 0;
    while g < |results|
      invariant 0 <= g <= |results|
      invariant NoneSatisfy(Flatten(results[..g]), q)
    {
      var k: Option<nat> := None;
      if results[g].Some? {
        k := FirstWithHeaders(results[g].value, expected);
      }
      if k.Some? {
        table := FoundInGroup(results, q, g, k.value);
        return;
      }
      GroupMissed(results, q, g);
      g := g + 1;
    }
    FirstNoneInAll(results, q);
    table := None;
  }

  /** The element at index `k` of query result `g`, the first one satisfying `q` overall. */
  method FoundInGroup<T>(results: seq<Option<seq<T>>>, ghost q: T -> bool, g: nat, k: nat) returns (x: Option<T>)
    requires g < |results| && NoneSatisfy(Flatten(results[..g]), q)
    requires results[g].Some? && FirstIndex(results[g].value, q) == Some(k)
    ensures x == First(Flatten(results), q)
  {
    FirstInGroupAt(results, q, g, k);
    x := Some(results[g].value[k]);
  }

  /** The loop over one query's tables, selectors.py:32-35 and 43-46. */
  method FirstWithHeaders(tables: seq<Table>, expected: seq<string>) returns (k: Option<nat>)
    ensures k == FirstIndex(tables, Qualifies(expected))
  {
    var i := 0;
    while i < |tables|
      invariant 0 <= i <= |tables|
      invariant NoneSatisfy(tables[..i], Qualifies(expected))
    {
      var qualifies := TableHasHeaders(tables[i], expected);
      if qualifies {
        FirstIndexAt(tables, Qualifies(expected), i);
        return Some(i);
      }
      NoneSatisfyStep(tables, Qualifies(expected), i);
      i := i + 1;
    }
    assert tables[..i] == tables;
    FirstNone(tables, Qualifies(expected));
    return None;
  }

  lemma NoneSatisfyStep<T>(xs: seq<T>, q: T -> bool, i: nat)
    requires i < |xs| && NoneSatisfy(xs[..i], q) && !q(xs[i])
    ensures NoneSatisfy(xs[..i + 1], q)
  {
    assert xs[..i + 1] == xs[..i] + [xs[i]];
  }

  lemma FirstNone<T>(xs: seq<T>, q: T -> bool)
    requires NoneSatisfy(xs, q)
    ensures First(xs, q) == None
  {
  }

  /** Query result `g` holds no element satisfying `q`, or is missing. */
  lemma GroupMissed<T>(results: seq<Option<seq<T>>>, q: T -> bool, g: nat)
    requires g < |results| && NoneSatisfy(Flatten(results[..g]), q)
    requires results[g].Some? ==> FirstIndex(results[g].value, q).None?
    ensures NoneSatisfy(Flatten(results[..g + 1]), q)
  {
    FlattenStep(results, q, g);
  }

  lemma FirstNoneInAll<T>(results: seq<Option<seq<T>>>, q: T -> bool)
    requires NoneSatisfy(Flatten(results[..|results|]), q)
    ensures First(Flatten(results), q) == None
  {
    assert results[..|results|] == results;
  }

  lemma FlattenStep<T>(results: seq<Option<seq<T>>>, q: T -> bool, g: nat)
    requires g < |results|
    requires NoneSatisfy(Flatten(results[..g]), q)
    requires results[g].Some? ==> NoneSatisfy(results[g].value, q)
    ensures NoneSatisfy(Flatten(results[..g + 1]), q)
  {
    assert results[..g + 1][..g] == results[..g];
  }

  /** What the search promises: a table is returned only if it has the headers, every table before
      it lacks them, and None means that no table of any query that did not raise has them. */
  lemma FoundTableIsFirst(results: seq<Option<seq<Table>>>, expected: seq<string>)
    ensures var tables := Flatten(results);
      match FoundTable(results, expected)
      case Some(t) => exists i :: 0 <= i < |tables| && tables[i] == t && HasHeaders(t, expected) &&
                                  forall j :: 0 <= j < i ==> !HasHeaders(tables[j], expected)
      case None => forall j :: 0 <= j < |tables| ==> !HasHeaders(tables[j], expected)
  {
    var q := Qualifies(expected);
    var tables := Flatten(results);
    var r := FirstIndex(tables, q);
    if r.Some? {
      assert tables[r.value] == FoundTable(results, expected).value;
    }
  }

  // ---------------------------------------------------------------------------
  // get_header_column_map

  /** Whether a label matches a header text, as a test on labels. */
  function MatchesText(text: string): string -> bool
  {
    l => HeaderMatches(l, text)
  }

  /** The first expected label, in list order, that matches `text`. */
  function FirstMatch(expected: seq<string>, text: string): Option<string>
  {
    First(expected, MatchesText(text))
  }

  /** The map `get_header_column_map` builds from the texts of the header row, given the label each
      text maps to: each non-empty text maps its label to its column, a later column overwriting an
      earlier one. */
  function MapColumns(texts: seq<string>, labelOf: string -> Option<string>): map<string, nat>
  {
    if |texts| == 0 then map[]
    else
      var m := MapColumns(texts[..|texts| - 1], labelOf);
      var text := texts[|texts| - 1];
      if text == "" then m
      else match labelOf(text)
        case Some(l) => m[l := |texts| - 1]
        case None => m
  }

  function LabelOf(expected: seq<string>): string -> Option<string>
  {
    text => FirstMatch(expected, text)
  }

  function ColumnMapOf(texts: seq<string>, expected: seq<string>): map<string, nat>
  {
    MapColumns(texts, LabelOf(expected))
  }

  /** selectors.py:124-156: the header row is the first `tr`. */
  function HeaderColumnMap(table: Table, expected: seq<string>): map<string, nat>
  {
    if |table.rows| == 0 then map[] else ColumnMapOf(Texts(table.rows[0].cells), expected)
  }

  /** One more header cell: a non-empty text with a matching label maps that label to its column. */
  lemma ColumnMapStep(texts: seq<string>, expected: seq<string>, col: nat)
    requires col < |texts|
    ensures ColumnMapOf(texts[..col + 1], expected) ==
      if texts[col] == "" || FirstMatch(expected, texts[col]).None? then ColumnMapOf(texts[..col], expected)
      else ColumnMapOf(texts[..col], expected)[FirstMatch(expected, texts[col]).value := col]
  {
    assert texts[..col + 1][..col] == texts[..col];
  }

  method GetHeaderColumnMap(table: Table, expected: seq<string>) returns (columnMap: map<string, nat>)
    ensures columnMap == HeaderColumnMap(table, expected)
  {
    columnMap := map[];
    if |table.rows| == 0 {
      return;
    }
    var cells := table.rows[0].cells;
    ghost var texts := Texts(cells);
    var col := 0;
    while col < |cells|
      invariant 0 <= col <= |cells|
      invariant columnMap == ColumnMapOf(texts[..col], expected)
    {
      ColumnMapStep(texts, expected, col);
      var text := CellText(cells[col]);
      if text != "" {
        var matched := FirstMatchingLabel(expected, text);
        if matched.Some? {
          columnMap := columnMap[matched.value := col];
        }
      }
      col := col + 1;
    }
    assert texts[..col] == texts;
  }

  /** The label loop at selectors.py:147-151. */
  method FirstMatchingLabel(expected: seq<string>, text: string) returns (found: Option<string>)
    ensures found == FirstMatch(expected, text)
  {
    var n := 0;
    while n < |expected|
      invariant 0 <= n <= |expected|
      invariant NoneSatisfy(expected[..n], MatchesText(text))
    {
      if HeaderMatches(expected[n], text) {
        FirstIndexAt(expected, MatchesText(text), n);
        return Some(expected[n]);
      }
      NoneSatisfyStep(expected, MatchesText(text), n);
      n := n + 1;
    }
    assert expected[..n] == expected;
    FirstNone(expected, MatchesText(text));
    return None;
  }

  /** Every entry of the map is right: its column lies in the row and has a non-empty text whose
      label is the key, and no later column has that label. */
  lemma {:induction false} MapColumnsSound(texts: seq<string>, labelOf: string -> Option<string>)
    ensures var m := MapColumns(texts, labelOf);
      forall l :: l in m ==>
        && m[l] < |texts| && texts[m[l]] != "" && labelOf(texts[m[l]]) == Some(l)
        && forall c :: m[l] < c < |texts| && texts[c] != "" ==> labelOf(texts[c]) != Some(l)
  {
    if |texts| > 0 {
      var init := texts[..|texts| - 1];
      MapColumnsSound(init, labelOf);
      var m, m0 := MapColumns(texts, labelOf), MapColumns(init, labelOf);
      forall l | l in m
        ensures m[l] < |texts| && texts[m[l]] != "" && labelOf(texts[m[l]]) == Some(l)
        ensures forall c :: m[l] < c < |texts| && texts[c] != "" ==> labelOf(texts[c]) != Some(l)
      {
        if m[l] < |init| {
          assert l in m0 && m0[l] == m[l] && texts[m[l]] == init[m[l]];
          forall c | m[l] < c < |texts| && texts[c] != "" ensures labelOf(texts[c]) != Some(l) {
            if c < |init| { assert texts[c] == init[c]; }
          }
        }
      }
    }
  }

  /** Every non-empty text with a label puts that label in the map, at its own column or a later one. */
  lemma {:induction false} MapColumnsComplete(texts: seq<string>, labelOf: string -> Option<string>)
    ensures var m := MapColumns(texts, labelOf);
      forall c :: 0 <= c < |texts| && texts[c] != "" && labelOf(texts[c]).Some? ==>
        labelOf(texts[c]).value in m && m[labelOf(texts[c]).value] >= c
  {
    if |texts| > 0 {
      MapColumnsComplete(texts[..|texts| - 1], labelOf);
      MapColumnsSound(texts[..|texts| - 1], labelOf);
    }
  }

  lemma FirstMatchIn(expected: seq<string>, text: string)
    ensures FirstMatch(expected, text).Some? ==>
      FirstMatch(expected, text).value in expected && HeaderMatches(FirstMatch(expected, text).value, text)
  {
  }

  /** For the header map: every key is an expected label; its column holds a non-empty header text
      whose first matching label, in list order, is the key, and no later column's text has that
      first match, so the column kept is the last one; every non-empty header text with a matching
      label is accounted for at its own column or a later one. */
  lemma ColumnMapSpec(texts: seq<string>, expected: seq<string>)
    ensures var m := ColumnMapOf(texts, expected);
      && (forall l :: l in m ==>
            && l in expected && m[l] < |texts| && texts[m[l]] != ""
            && FirstMatch(expected, texts[m[l]]) == Some(l)
            && forall c :: m[l] < c < |texts| && texts[c] != "" ==> FirstMatch(expected, texts[c]) != Some(l))
      && (forall c :: 0 <= c < |texts| && texts[c] != "" && FirstMatch(expected, texts[c]).Some? ==>
            FirstMatch(expected, texts[c]).value in m && m[FirstMatch(expected, texts[c]).value] >= c)
  {
    var f := LabelOf(expected);
    MapColumnsSound(texts, f);
    MapColumnsComplete(texts, f);
    var m := ColumnMapOf(texts, expected);
    forall l | l in m
      ensures l in expected
    {
      FirstMatchIn(expected, texts[m[l]]);
    }
  }

  /** No two labels share a column. */
  lemma ColumnMapInjective(texts: seq<string>, expected: seq<string>, l1: string, l2: string)
    requires var m := ColumnMapOf(texts, expected); l1 in m && l2 in m && m[l1] == m[l2]
    ensures l1 == l2
  {
    MapColumnsSound(texts, LabelOf(expected));
  }

  // ---------------------------------------------------------------------------
  // get_cell_by_header

  /** selectors.py:158-178: the normalized text of the row's cell in the header's column, or "" when
      the header is not mapped or the row is too short. */
  function GetCellByHeader(row: Row, header: string, columnMap: map<string, nat>): (r: string)
    ensures IsNormalized(r)
    ensures header !in columnMap || columnMap[header] >= |row.cells| ==> r == ""
  {
    if header in columnMap && columnMap[header] < |row.cells| then
      NormalizeTextSpec(row.cells[columnMap[header]]);
      CellText(row.cells[columnMap[header]])
    else ""
  }

  /** With the map of a header row, the cell read under a label is the one in the last column whose
      header's first matching label it is. */
  lemma CellUnderHeader(headerTexts: seq<string>, expected: seq<string>, row: Row, header: string)
    requires header in ColumnMapOf(headerTexts, expected)
    ensures var c := ColumnMapOf(headerTexts, expected)[header];
      c < |headerTexts| && FirstMatch(expected, headerTexts[c]) == Some(header) &&
      (forall d :: c < d < |headerTexts| && headerTexts[d] != "" ==> FirstMatch(expected, headerTexts[d]) != Some(header)) &&
      GetCellByHeader(row, header, ColumnMapOf(headerTexts, expected)) == (if c < |row.cells| then CellText(row.cells[c]) else "")
  {
    MapColumnsSound(headerTexts, LabelOf(expected));
  }

  // ---------------------------------------------------------------------------
  // find_tab_by_text

  /** Whether some target text matches the normalized text of a tab. */
  function TabMatches(targets: seq<string>): string -> bool
  {
    tab => exists t :: t in targets && HeaderMatches(t, CellText(tab))
  }

  /** selectors.py:180-203: the first tab, in selector order then document order, whose text matches
      one of the targets; the tabs are given by their raw texts, one list per selector query, None
      where the query raised. */
  function FindTabByText(results: seq<Option<seq<string>>>, targets: seq<string>): Option<string>
  {
    First(Flatten(results), TabMatches(targets))
  }

  /** A tab whose text is empty matches any target, because "" is contained in every string: when it
      comes first it is the tab found (selectors.py:193-195 do not drop empty texts). */
  lemma EmptyTabIsFound(results: seq<Option<seq<string>>>, targets: seq<string>)
    requires |targets| > 0
    requires |Flatten(results)| > 0 && CellText(Flatten(results)[0]) == ""
    ensures FindTabByText(results, targets) == Some(Flatten(results)[0])
  {
    EmptyMatchesEverything(targets[0]);
    assert TabMatches(targets)(Flatten(results)[0]);
    assert Flatten(results)[..0] == [];
    FirstIndexAt(Flatten(results), TabMatches(targets), 0);
  }

  /** The tab found matches a target, and None means no tab matched any. */
  lemma FoundTabMatches(results: seq<Option<seq<string>>>, targets: seq<string>)
    ensures match FindTabByText(results, targets)
      case Some(tab) => tab in Flatten(results) && exists t :: t in targets && HeaderMatches(t, CellText(tab))
      case None => forall tab :: tab in Flatten(results) ==> forall t :: t in targets ==> !HeaderMatches(t, CellText(tab))
  {
    var xs := Flatten(results);
    var q := TabMatches(targets);
    match FirstIndex(xs, q)
    case Some(i) =>
      assert q(xs[i]);
    case None =>
      forall tab | tab in xs
        ensures forall t :: t in targets ==> !HeaderMatches(t, CellText(tab))
      {
        var i :| 0 <= i < |xs| && xs[i] == tab;
        assert !q(xs[i]);
      }
  }

  // ---------------------------------------------------------------------------
  // extract_table_data

  function Min(a: int, b: int): int { if a <= b then a else b }

  function Max(a: int, b: int): int { if a >= b then a else b }

  /** Python's `xs[:n]`: a negative `n` counts from the end. */
  function TakePrefix<T>(xs: seq<T>, n: int): (r: seq<T>)
    ensures r <= xs
  {
    if n >= 0 then xs[..Min(n, |xs|)] else xs[..Max(0, |xs| + n)]
  }

  /** `rows[:max_rows]` when `max_rows` is truthy (None and 0 leave the rows alone). */
  function LimitRows(rows: seq<Row>, maxRows: Option<int>): seq<Row>
  {
    if maxRows.Some? && maxRows.value != 0 then TakePrefix(rows, maxRows.value) else rows
  }

  /** The dict of one row over the texts of its first `n` cells: a later column with the same header
      overwrites. */
  function RowDictUpTo(headers: seq<string>, values: seq<string>, n: nat): map<string, string>
    requires n <= |headers| && n <= |values|
  {
    if n == 0 then map[] else RowDictUpTo(headers, values, n - 1)[headers[n - 1] := values[n - 1]]
  }

  /** The dict of one row: the cells beyond the header count are ignored (selectors.py:289-294). */
  function RowDict(headers: seq<string>, cells: seq<string>): map<string, string>
  {
    RowDictUpTo(headers, Texts(cells), Min(|headers|, |cells|))
  }

  /** The dicts of the rows, dropping the empty ones (selectors.py:287-297). */
  function DataRows(headers: seq<string>, rows: seq<Row>): (r: seq<map<string, string>>)
    ensures |r| <= |rows|
  {
    if |rows| == 0 then []
    else
      var d := RowDict(headers, rows[|rows| - 1].cells);
      DataRows(headers, rows[..|rows| - 1]) + (if d == map[] then [] else [d])
  }

  /** selectors.py:261-302: the headers are the texts of the first row, empty ones included. */
  function TableData(table: Table, maxRows: Option<int>): seq<map<string, string>>
  {
    if |table.rows| == 0 then []
    else DataRows(Texts(table.rows[0].cells), LimitRows(table.rows[1..], maxRows))
  }

  method ExtractTableData(table: Table, maxRows: Option<int>) returns (data: seq<map<string, string>>)
    ensures data == TableData(table, maxRows)
  {
    data := [];
    if |table.rows| == 0 {
      return;
    }
    var headers := AllTexts(table.rows[0].cells);
    var rows := table.rows[1..];
    if maxRows.Some? && maxRows.value != 0 {
      rows := TakePrefix(rows, maxRows.value);
    }
    data := CollectRows(headers, rows);
  }

  /** The row loop at selectors.py:287-297. */
  method CollectRows(headers: seq<string>, rows: seq<Row>) returns (data: seq<map<string, string>>)
    ensures data == DataRows(headers, rows)
  {
    data := [];
    var r := 0;
    while r < |rows|
      invariant 0 <= r <= |rows|
      invariant data == DataRows(headers, rows[..r])
    {
      assert rows[..r + 1][..r] == rows[..r];
      var rowData := RowData(headers, rows[r].cells);
      if rowData != map[] {
        data := data + [rowData];
      }
      r := r + 1;
    }
    assert rows[..r] == rows;
  }

  /** The header loop at selectors.py:276-280, which keeps the empty texts. */
  method AllTexts(cells: seq<string>) returns (texts: seq<string>)
    ensures texts == Texts(cells)
  {
    texts := [];
    var k := 0;
    while k < |cells|
      invariant 0 <= k <= |cells|
      invariant texts == Texts(cells[..k])
    {
      assert cells[..k + 1][..k] == cells[..k];
      texts := texts + [CellText(cells[k])];
      k := k + 1;
    }
    assert cells[..k] == cells;
  }

  /** The cell loop at selectors.py:289-294. */
  method RowData(headers: seq<string>, cells: seq<string>) returns (rowData: map<string, string>)
    ensures rowData == RowDict(headers, cells)
  {
    rowData := map[];
    var i := 0;
    while i < |cells|
      invariant 0 <= i <= |cells|
      invariant rowData == RowDictUpTo(headers, Texts(cells), Min(i, |headers|))
    {
      if i < |headers| {
        RowDictStep(headers, cells, i);
        rowData := rowData[headers[i] := CellText(cells[i])];
      }
      i := i + 1;
    }
  }

  lemma RowDictStep(headers: seq<string>, cells: seq<string>, i: nat)
    requires i < |headers| && i < |cells|
    ensures RowDictUpTo(headers, Texts(cells), i + 1) == RowDictUpTo(headers, Texts(cells), i)[headers[i] := CellText(cells[i])]
  {
  }

  /** A truthy `max_rows` bounds the number of dicts; there is never more than one per data row. */
  lemma TableDataBound(table: Table, maxRows: Option<int>)
    ensures |table.rows| > 0 ==> |TableData(table, maxRows)| <= |table.rows| - 1
    ensures maxRows.Some? && maxRows.value > 0 ==> |TableData(table, maxRows)| <= maxRows.value
  {
  }

  /** A row's dict has exactly the headers of its first `min(headers, cells)` columns as keys, each
      holding the text of the last such column with that header. */
  lemma {:induction false} RowDictContents(headers: seq<string>, values: seq<string>, n: nat)
    requires n <= |headers| && n <= |values|
    ensures var d := RowDictUpTo(headers, values, n);
      && (forall i :: 0 <= i < n ==> headers[i] in d)
      && (forall h :: h in d ==> exists i :: 0 <= i < n && headers[i] == h && d[h] == values[i] &&
                                           forall j :: i < j < n ==> headers[j] != h)
  {
    if n > 0 {
      RowDictContents(headers, values, n - 1);
      var prev := RowDictUpTo(headers, values, n - 1);
      var d := RowDictUpTo(headers, values, n);
      forall h | h in d
        ensures exists i :: 0 <= i < n && headers[i] == h && d[h] == values[i] &&
                            forall j :: i < j < n ==> headers[j] != h
      {
        if h != headers[n - 1] {
          assert h in prev && d[h] == prev[h];
          var i :| 0 <= i < n - 1 && headers[i] == h && prev[h] == values[i] &&
                   forall j :: i < j < n - 1 ==> headers[j] != h;
          assert forall j :: i < j < n ==> headers[j] != h;
        } else {
          assert headers[n - 1] == h && d[h] == values[n - 1];
        }
      }
    }
  }

  /** A row is dropped exactly when it has no cells or the header row has none. */
  lemma RowDroppedIff(headers: seq<string>, cells: seq<string>)
    ensures RowDict(headers, cells) == map[] <==> |headers| == 0 || |cells| == 0
  {
    var n := Min(|headers|, |cells|);
    RowDictContents(headers, Texts(cells), n);
    if n > 0 {
      assert headers[0] in RowDict(headers, cells);
    }
  }

  // ---------------------------------------------------------------------------
  // find_horse_links

  /** The href test of selectors.py:316 (the same one `_find_horse_detail_link` uses). */
  predicate IsHorseHref(href: string)
  {
    Contains(href, "Horse.aspx") || Contains(href, "horse")
  }

  predicate IsHorseLink(link: Link)
  {
    link.href.Some? && link.href.value != "" && IsHorseHref(link.href.value)
  }

  /** The (text, href) pairs of the first horse link of each row, in row order. */
  function HorseLinksOf(rows: seq<Row>): (r: seq<(string, string)>)
    ensures |r| <= |rows|
    ensures forall k :: 0 <= k < |r| ==> r[k].1 != "" && IsHorseHref(r[k].1) && IsNormalized(r[k].0)
  {
    if |rows| == 0 then []
    else
      var front := HorseLinksOf(rows[..|rows| - 1]);
      match First(rows[|rows| - 1].links, IsHorseLink)
      case Some(l) => NormalizeTextSpec(l.text); front + [(CellText(l.text), l.href.value)]
      case None => front
  }

  /** selectors.py:304-324: the header row is skipped. */
  method FindHorseLinks(table: Table) returns (links: seq<(string, string)>)
    ensures links == HorseLinksOf(if |table.rows| == 0 then [] else table.rows[1..])
  {
    var rows := if |table.rows| == 0 then [] else table.rows[1..];
    links := [];
    var r := 0;
    while r < |rows|
      invariant 0 <= r <= |rows|
      invariant links == HorseLinksOf(rows[..r])
    {
      assert rows[..r + 1][..r] == rows[..r];
      var link := FirstHorseLink(rows[r].links);
      if link.Some? {
        links := links + [(CellText(link.value.text), link.value.href.value)];
      }
      r := r + 1;
    }
    assert rows[..r] == rows;
  }

  /** The link loop of one row, selectors.py:313-319. */
  method FirstHorseLink(rowLinks: seq<Link>) returns (link: Option<Link>)
    ensures link == First(rowLinks, IsHorseLink)
  {
    var n := 0;
    while n < |rowLinks|
      invariant 0 <= n <= |rowLinks|
      invariant NoneSatisfy(rowLinks[..n], IsHorseLink)
    {
      var href := rowLinks[n].href;
      if href.Some? && href.value != "" && IsHorseHref(href.value) {
        FirstIndexAt(rowLinks, IsHorseLink, n);
        return Some(rowLinks[n]);
      }
      NoneSatisfyStep(rowLinks, IsHorseLink, n);
      n := n + 1;
    }
    assert rowLinks[..n] == rowLinks;
    FirstNone(rowLinks, IsHorseLink);
    return None;
  }
}
