/**
 * `RaceCardScraper` of hkjc_scraper/racecard.py: locate the race table on a
 * race card page, map its header row to the expected labels, and turn every
 * data row into a ToplineData — the cells under the mapped headers, the row's
 * horse detail link made absolute, and the horse ID parsed out of that link.
 */
module RaceCard {
  import opened Strings
  import opened Dom
  import opened Selectors
  import opened Models

  /** EXPECTED_HEADERS of hkjc_scraper/constants.py:13-32. */
  const ExpectedHeaders: seq<string> :=
    ["編號", "馬名", "排位體重", "負磅", "評分", "馬齡", "6次近績", "練馬師", "優先參賽次序", "配備",
     "騎師", "讓磅", "獨贏", "位置", "練馬師喜好", "馬匹編號", "國際評分"]

  /** The table header each schema field is read from, racecard.py:112-129, in order. */
  const FieldMapping: seq<(string, Key)> :=
    [("編號", Scalar(HorseNo)), ("馬名", HorseNameKey), ("排位體重", Scalar(Draw)), ("負磅", Scalar(Weight)),
     ("評分", Scalar(Rating)), ("馬齡", Scalar(Age)), ("6次近績", Scalar(LastSixRuns)), ("練馬師", Scalar(Trainer)),
     ("優先參賽次序", TrainerPreferenceKey), ("配備", Scalar(Gear)), ("騎師", Scalar(Jockey)), ("讓磅", Scalar(Allowance)),
     ("獨贏", Scalar(WinOdds)), ("位置", Scalar(PlaceOdds)), ("馬匹編號", Scalar(HorseCode)),
     ("國際評分", Scalar(InternationalRating))]

  const SiteOrigin := "https://racing.hkjc.com"

  // ---------------------------------------------------------------------------
  // _extract_horse_id_from_url

  /** The four patterns of racecard.py:184-205, in the order they are tried. */
  datatype Pattern =
    | HorseIdCode    // HorseId=([A-Z0-9_]+)
    | HorseIdNumber  // HorseId=(\d+)
    | HorsePath      // /horse/(\d+)/
    | HorseIdQuery   // horse_id=(\d+)

  function Tag(p: Pattern): (t: string)
    ensures |t| >= 7
  {
    match p
    case HorseIdCode => "HorseId="
    case HorseIdNumber => "HorseId="
    case HorsePath => "/horse/"
    case HorseIdQuery => "horse_id="
  }

  predicate IdChar(c: char) { 'A' <= c <= 'Z' || IsDigit(c) || c == '_' }

  /** The character class of the captured group. */
  predicate InClass(p: Pattern, c: char)
  {
    if p == HorseIdCode then IdChar(c) else IsDigit(c)
  }

  /** The length of the longest run of class characters starting at `i`. */
  function RunLength(s: string, i: nat, p: Pattern): (n: nat)
    requires i <= |s|
    ensures i + n <= |s|
    ensures forall k :: i <= k < i + n ==> InClass(p, s[k])
    ensures i + n == |s| || !InClass(p, s[i + n])
    decreases |s| - i
  {
    if i < |s| && InClass(p, s[i]) then 1 + RunLength(s, i + 1, p) else 0
  }

  /** The pattern matches at position `i`: its literal, a non-empty group, and for the path pattern
      a '/' right after the group (a shorter group would end before a digit, never before '/'). */
  predicate MatchAt(s: string, p: Pattern, i: nat)
  {
    i + |Tag(p)| <= |s| && s[i..i + |Tag(p)|] == Tag(p) &&
    var n := RunLength(s, i + |Tag(p)|, p);
    n >= 1 && (p == HorsePath ==> i + |Tag(p)| + n < |s| && s[i + |Tag(p)| + n] == '/')
  }

  /** Whether the pattern matches at a position, as a test on positions. */
  function MatchesAt(s: string, p: Pattern): nat -> bool
  {
    (i: nat) => MatchAt(s, p, i)
  }

  /** The first position in `i..n` passing `q`. */
  function FirstFrom(n: nat, q: nat -> bool, i: nat): (r: Option<nat>)
    ensures r.Some? ==> i <= r.value < n && q(r.value) && forall k :: i <= k < r.value ==> !q(k)
    ensures r.None? ==> forall k :: i <= k < n ==> !q(k)
    decreases n - i
  {
    if i >= n then None else if q(i) then Some(i) else FirstFrom(n, q, i + 1)
  }

  /** `re.search`: the leftmost match. */
  function Search(s: string, p: Pattern): (r: Option<nat>)
    ensures r.Some? ==> MatchAt(s, p, r.value) && forall k :: 0 <= k < r.value ==> !MatchAt(s, p, k)
    ensures r.None? ==> forall k :: 0 <= k ==> !MatchAt(s, p, k)
  {
    var r := FirstFrom(|s|, MatchesAt(s, p), 0);
    assert forall k :: 0 <= k < |s| ==> MatchesAt(s, p)(k) == MatchAt(s, p, k);
    assert forall k :: |s| <= k ==> !MatchAt(s, p, k);
    r
  }

  /** `match.group(1)` of a match at `i`. */
  function Group(s: string, p: Pattern, i: nat): (g: string)
    requires MatchAt(s, p, i)
    ensures |g| >= 1 && forall k :: 0 <= k < |g| ==> InClass(p, g[k])
  {
    var j := i + |Tag(p)|;
    s[j..j + RunLength(s, j, p)]
  }

  /** `parts[-1]` of `s.split('_')` when there are several parts, else `s`: the text after the last '_'. */
  function LastSegment(s: string): (r: string)
    ensures |r| <= |s| && r == s[|s| - |r|..]
    ensures forall k :: 0 <= k < |r| ==> r[k] != '_'
    ensures |r| < |s| ==> s[|s| - |r| - 1] == '_'
  {
    if |s| == 0 || s[|s| - 1] == '_' then ""
    else LastSegment(s[..|s| - 1]) + [s[|s| - 1]]
  }

  /** racecard.py:177-211 (and the same function at horse_detail.py:94-127). */
  function ExtractHorseId(url: string): (r: Option<string>)
    ensures r.Some? ==> forall k :: 0 <= k < |r.value| ==> r.value[k] != '_'
  {
    match Search(url, HorseIdCode)
    case Some(i) => Some(LastSegment(Group(url, HorseIdCode, i)))
    case None =>
      match Search(url, HorseIdNumber)
      case Some(i) => Some(Group(url, HorseIdNumber, i))
      case None =>
        match Search(url, HorsePath)
        case Some(i) => Some(Group(url, HorsePath, i))
        case None =>
          match Search(url, HorseIdQuery)
          case Some(i) => Some(Group(url, HorseIdQuery, i))
          case None => None
  }

  // ---------------------------------------------------------------------------
  // _find_horse_detail_link

  /** racecard.py:168-169: a site-relative href is prefixed with the site's origin. */
  function Absolute(href: string): (r: string)
    ensures |href| > 0 && href[0] == '/' ==> r == SiteOrigin + href
    ensures !(|href| > 0 && href[0] == '/') ==> r == href
  {
    if |href| > 0 && href[0] == '/' then SiteOrigin + href else href
  }

  /** racecard.py:159-175: the first link of the row whose href names a horse page, made absolute. */
  function DetailLink(row: Row): Option<string>
  {
    match First(row.links, IsHorseLink)
    case Some(link) => Some(Absolute(link.href.value))
    case None => None
  }

  method FindHorseDetailLink(row: Row) returns (url: Option<string>)
    ensures url == DetailLink(row)
  {
    var link := FirstHorseLink(row.links);
    if link.Some? {
      var href := link.value.href.value;
      if |href| > 0 && href[0] == '/' {
        href := SiteOrigin + href;
      }
      return Some(href);
    }
    return None;
  }

  // ---------------------------------------------------------------------------
  // _extract_horse_data

  /** The dict the mapping loop builds from the first `mapping` entries. */
  function MappedFields(row: Row, columnMap: map<string, nat>, mapping: seq<(string, Key)>): Kwargs
  {
    if |mapping| == 0 then map[]
    else
      var (header, field) := mapping[|mapping| - 1];
      MappedFields(row, columnMap, mapping[..|mapping| - 1])
        [field := Text(if header in columnMap then GetCellByHeader(row, header, columnMap) else "")]
  }

  /** racecard.py:140-141: the trainer preference defaults to "1" when the loop did not set it. */
  function WithPreference(data: Kwargs): Kwargs
  {
    if TrainerPreferenceKey !in data then data[TrainerPreferenceKey := Text("1")] else data
  }

  /** racecard.py:144-150: the detail link, when there is one, and the horse ID parsed from it, when
      that is not empty. */
  function WithLink(data: Kwargs, link: Option<string>): Kwargs
  {
    match link
    case None => data
    case Some(url) =>
      if url == "" then data
      else
        var withUrl := data[DetailUrlKey := Text(url)];
        match ExtractHorseId(url)
        case Some(id) => if id != "" then withUrl[HorseIdKey := Text(id)] else withUrl
        case None => withUrl
  }

  /** The keyword arguments `_extract_horse_data` passes to ToplineData (racecard.py:109-150). */
  function HorseDataOf(row: Row, columnMap: map<string, nat>): Kwargs
  {
    RowArgs(row, columnMap, FieldMapping)
  }

  /** The arguments built with a given field mapping. */
  function RowArgs(row: Row, columnMap: map<string, nat>, mapping: seq<(string, Key)>): Kwargs
  {
    WithLink(WithPreference(MappedFields(row, columnMap, mapping)), DetailLink(row))
  }

  function RowTopline(row: Row, columnMap: map<string, nat>): Option<ToplineData>
  {
    BuildTopline(HorseDataOf(row, columnMap))
  }

  /** racecard.py:100-157. */
  method ExtractHorseData(row: Row, columnMap: map<string, nat>) returns (horse: Option<ToplineData>)
    ensures horse == RowTopline(row, columnMap)
  {
    var data := MapFields(row, columnMap, FieldMapping);
    if TrainerPreferenceKey !in data {
      data := data[TrainerPreferenceKey := Text("1")];
    }
    var url := FindHorseDetailLink(row);
    data := AddLink(data, url);
    horse := BuildTopline(data);
  }

  /** The mapping loop, racecard.py:132-137. */
  method MapFields(row: Row, columnMap: map<string, nat>, mapping: seq<(string, Key)>) returns (data: Kwargs)
    ensures data == MappedFields(row, columnMap, mapping)
  {
    data := map[];
    var k := 0;
    while k < |mapping|
      invariant 0 <= k <= |mapping|
      invariant data == MappedFields(row, columnMap, mapping[..k])
    {
      assert mapping[..k + 1][..k] == mapping[..k];
      var (header, field) := mapping[k];
      if header in columnMap {
        data := data[field := Text(GetCellByHeader(row, header, columnMap))];
      } else {
        data := data[field := Text("")];
      }
      k := k + 1;
    }
    assert mapping[..k] == mapping;
  }

  method AddLink(data: Kwargs, url: Option<string>) returns (r: Kwargs)
    ensures r == WithLink(data, url)
  {
    r := data;
    if url.Some? && url.value != "" {
      r := r[DetailUrlKey := Text(url.value)];
      var id := ExtractHorseId(url.value);
      LinkCases(data, url.value, id);
      if id.Some? && id.value != "" {
        r := r[HorseIdKey := Text(id.value)];
      }
    }
  }

  lemma LinkCases(data: Kwargs, link: string, id: Option<string>)
    requires link != "" && id == ExtractHorseId(link)
    ensures WithLink(data, Some(link)) ==
      if id.Some? && id.value != "" then data[DetailUrlKey := Text(link)][HorseIdKey := Text(id.value)]
      else data[DetailUrlKey := Text(link)]
  {
  }

  // ---------------------------------------------------------------------------
  // _scrape_race_table

  /** One ToplineData per row that yields one, in row order. */
  function ToplinesOf(rows: seq<Row>, columnMap: map<string, nat>): (r: seq<ToplineData>)
    ensures |r| <= |rows|
  {
    if |rows| == 0 then []
    else
      var front := ToplinesOf(rows[..|rows| - 1], columnMap);
      match RowTopline(rows[|rows| - 1], columnMap)
      case Some(h) => front + [h]
      case None => front
  }

  /** racecard.py:61-98, given the table query results `find_table_by_headers` sees. */
  function RaceTableOf(results: seq<Option<seq<Table>>>): seq<ToplineData>
  {
    match FoundTable(results, ExpectedHeaders)
    case None => []
    case Some(table) =>
      var columnMap := HeaderColumnMap(table, ExpectedHeaders);
      if |columnMap| == 0 then [] else ToplinesOf(if |table.rows| == 0 then [] else table.rows[1..], columnMap)
  }

  method ScrapeRaceTable(selectorResults: seq<Option<seq<Table>>>, allTables: Option<seq<Table>>)
    returns (horses: seq<ToplineData>)
    ensures horses == RaceTableOf(selectorResults + [allTables])
  {
    var table := FindTableByHeaders(selectorResults, allTables, ExpectedHeaders);
    if table.None? {
      return [];
    }
    var columnMap := GetHeaderColumnMap(table.value, ExpectedHeaders);
    if |columnMap| == 0 {
      return [];
    }
    var rows := if |table.value.rows| == 0 then [] else table.value.rows[1..];
    horses := ExtractRows(rows, columnMap);
  }

  /** The row loop, racecard.py:82-92. */
  method ExtractRows(rows: seq<Row>, columnMap: map<string, nat>) returns (horses: seq<ToplineData>)
    ensures horses == ToplinesOf(rows, columnMap)
  {
    horses := [];
    var r := 0;
    while r < |rows|
      invariant 0 <= r <= |rows|
      invariant horses == ToplinesOf(rows[..r], columnMap)
    {
      assert rows[..r + 1][..r] == rows[..r];
      var horse := ExtractHorseData(rows[r], columnMap);
      if horse.Some? {
        horses := horses + [horse.value];
      }
      r := r + 1;
    }
    assert rows[..r] == rows;
  }

  // ---------------------------------------------------------------------------
  // Properties of the horse ID

  /** A run of class characters up to the end of the string is taken whole. */
  lemma {:induction false} RunToEnd(s: string, i: nat, p: Pattern)
    requires i <= |s|
    requires forall k :: i <= k < |s| ==> InClass(p, s[k])
    ensures RunLength(s, i, p) == |s| - i
    decreases |s| - i
  {
    if i < |s| {
      RunToEnd(s, i + 1, p);
    }
  }

  /** The segment after the last '_' of `a + "_" + b`, when `b` has none, is `b`. */
  lemma {:induction false} SegmentAfterUnderscore(a: string, b: string)
    requires forall k :: 0 <= k < |b| ==> b[k] != '_'
    ensures LastSegment(a + "_" + b) == b
  {
    var s := a + "_" + b;
    if |b| > 0 {
      var b' := b[..|b| - 1];
      assert s[..|s| - 1] == a + "_" + b';
      SegmentAfterUnderscore(a, b');
      assert b' + [b[|b| - 1]] == b;
    } else {
      assert s[|s| - 1] == '_';
    }
  }

  /** A code group at the very start of the URL. */
  lemma CodeAtStart(url: string, code: string)
    requires url == "HorseId=" + code && |code| >= 1
    requires forall k :: 0 <= k < |code| ==> IdChar(code[k])
    ensures ExtractHorseId(url) == Some(LastSegment(code))
  {
    assert url[0..8] == "HorseId=";
    RunToEnd(url, 8, HorseIdCode);
    assert MatchAt(url, HorseIdCode, 0);
    assert Group(url, HorseIdCode, 0) == code;
  }

  /** A code of '_'-separated segments gives its last segment: "HorseId=HK_2024_K106" gives "K106"
      (racecard.py:183), with `front` = "HK_2024" and `last` = "K106". */
  lemma SegmentedCode(url: string, front: string, last: string)
    requires url == "HorseId=" + front + "_" + last
    requires forall k :: 0 <= k < |front| ==> IdChar(front[k])
    requires forall k :: 0 <= k < |last| ==> IdChar(last[k]) && last[k] != '_'
    ensures ExtractHorseId(url) == Some(last)
  {
    var code := front + "_" + last;
    assert url == "HorseId=" + code;
    forall k | 0 <= k < |code|
      ensures IdChar(code[k])
    {
      if k > |front| {
        assert code[k] == last[k - |front| - 1];
      }
    }
    CodeAtStart(url, code);
    SegmentAfterUnderscore(front, last);
  }

  /** "HK_2024_K106" splits into "HK_2024" and "K106". */
  lemma HorseIdExample()
    ensures LastSegment("HK_2024_K106") == "K106"
  {
    var code := "HK_2024_K106";
    var front, last := code[..7], code[8..];
    assert code == front + "_" + last;
    assert last == "K106";
    SegmentAfterUnderscore(front, last);
  }

  /** A code ending in '_' gives the empty ID, which `_extract_horse_data` then does not store. */
  lemma TrailingUnderscore(url: string, front: string)
    requires url == "HorseId=" + front + "_"
    requires forall k :: 0 <= k < |front| ==> IdChar(front[k])
    ensures ExtractHorseId(url) == Some("")
  {
    assert url == "HorseId=" + front + "_" + "";
    SegmentedCode(url, front, "");
  }

  /** The numeric `HorseId=` pattern never decides: wherever it matches, the code pattern matches. */
  lemma NumericPatternUnreachable(url: string)
    ensures Search(url, HorseIdCode).None? ==> Search(url, HorseIdNumber).None?
  {
    if Search(url, HorseIdCode).None? && Search(url, HorseIdNumber).Some? {
      var i := Search(url, HorseIdNumber).value;
      var j := i + 8;
      assert IdChar(url[j]);
      assert RunLength(url, j, HorseIdCode) >= 1;
      assert MatchAt(url, HorseIdCode, i);
      assert false;
    }
  }

  /** There is an ID exactly when one of the patterns occurs; an ID from the path or query pattern
      is all digits, and one from the code pattern is the last '_'-separated segment of its group. */
  lemma HorseIdSpec(url: string)
    ensures ExtractHorseId(url).None? <==>
      forall i :: !MatchAt(url, HorseIdCode, i) && !MatchAt(url, HorsePath, i) && !MatchAt(url, HorseIdQuery, i)
    ensures Search(url, HorseIdCode).Some? ==>
      ExtractHorseId(url) == Some(LastSegment(Group(url, HorseIdCode, Search(url, HorseIdCode).value)))
    ensures Search(url, HorseIdCode).None? && ExtractHorseId(url).Some? ==>
      (|ExtractHorseId(url).value| >= 1 && forall k :: 0 <= k < |ExtractHorseId(url).value| ==> IsDigit(ExtractHorseId(url).value[k]))
  {
    NumericPatternUnreachable(url);
  }

  // ---------------------------------------------------------------------------
  // Properties of the row record

  /** No two entries of the mapping write the same schema field. */
  lemma FieldTargetsDistinct()
    ensures forall i, j :: 0 <= i < j < |FieldMapping| ==> FieldMapping[i].1 != FieldMapping[j].1
  {
  }

  /** The mapping loop writes only the schema fields it names, each to a text. */
  lemma {:induction false} MappedFieldsKeys(row: Row, columnMap: map<string, nat>, mapping: seq<(string, Key)>)
    ensures forall f :: f in MappedFields(row, columnMap, mapping) ==>
      MappedFields(row, columnMap, mapping)[f].Text? && exists k :: 0 <= k < |mapping| && mapping[k].1 == f
  {
    if |mapping| > 0 {
      var front := mapping[..|mapping| - 1];
      MappedFieldsKeys(row, columnMap, front);
      forall f | f in MappedFields(row, columnMap, front)
        ensures exists k :: 0 <= k < |mapping| && mapping[k].1 == f
      {
        var k :| 0 <= k < |front| && front[k].1 == f;
        assert mapping[k] == front[k];
      }
    }
  }

  /** When the targets are distinct, each target holds the cell read under its own header. */
  lemma {:induction false} MappedFieldsAt(row: Row, columnMap: map<string, nat>, mapping: seq<(string, Key)>, k: nat)
    requires k < |mapping|
    requires forall i, j :: 0 <= i < j < |mapping| ==> mapping[i].1 != mapping[j].1
    ensures mapping[k].1 in MappedFields(row, columnMap, mapping)
    ensures MappedFields(row, columnMap, mapping)[mapping[k].1] == Text(GetCellByHeader(row, mapping[k].0, columnMap))
  {
    if k < |mapping| - 1 {
      var front := mapping[..|mapping| - 1];
      assert front[k] == mapping[k];
      MappedFieldsAt(row, columnMap, front, k);
    }
  }

  /** A field mapping whose targets are distinct string fields other than the horse ID, one of them
      the trainer preference. */
  ghost predicate GoodMapping(mapping: seq<(string, Key)>)
  {
    (forall i, j :: 0 <= i < j < |mapping| ==> mapping[i].1 != mapping[j].1) &&
    (forall k :: 0 <= k < |mapping| ==> mapping[k].1 in ScalarFieldSet && mapping[k].1 != HorseIdKey) &&
    (exists k :: 0 <= k < |mapping| && mapping[k].1 == TrainerPreferenceKey)
  }

  /** The mapping of racecard.py:112-129 is one. */
  lemma FieldMappingGood()
    ensures GoodMapping(FieldMapping)
    ensures FieldMapping[8] == ("優先參賽次序", TrainerPreferenceKey)
  {
    FieldTargetsDistinct();
    forall k | 0 <= k < |FieldMapping|
      ensures FieldMapping[k].1 in ScalarFieldSet
    {
    }
    assert FieldMapping[8].1 == TrainerPreferenceKey;
  }

  /** The mapping loop writes texts, to the targets of the mapping only. */
  lemma MappedKeys(row: Row, columnMap: map<string, nat>, mapping: seq<(string, Key)>)
    requires GoodMapping(mapping)
    ensures var mapped := MappedFields(row, columnMap, mapping);
      (forall f :: f in mapped ==> mapped[f].Text? && f in ScalarFieldSet) &&
      HorseIdKey !in mapped && DetailUrlKey !in mapped && TrainerPreferenceKey in mapped
  {
    ListKeysAreNotScalars();
    MappedFieldsKeys(row, columnMap, mapping);
    var k :| 0 <= k < |mapping| && mapping[k].1 == TrainerPreferenceKey;
    MappedFieldsAt(row, columnMap, mapping, k);
  }

  /** Adding the link sets `detail_url` to a non-empty link, and the horse ID to a non-empty ID parsed
      from it, and changes nothing else. */
  lemma WithLinkFields(data: Kwargs, link: Option<string>)
    ensures var r := WithLink(data, link);
      (forall f :: f in r && f != DetailUrlKey && f != HorseIdKey ==> f in data && r[f] == data[f]) &&
      (forall f :: f in data ==> f in r) &&
      ((forall f :: f in data ==> data[f].Text?) ==> forall f :: f in r ==> r[f].Text?) &&
      (DetailUrlKey in r <==> DetailUrlKey in data || (link.Some? && link.value != "")) &&
      (link.Some? && link.value != "" ==> r[DetailUrlKey] == Text(link.value)) &&
      (HorseIdKey !in data ==>
        (HorseIdKey in r <==> link.Some? && link.value != "" && ExtractHorseId(link.value).Some? &&
                              ExtractHorseId(link.value).value != "") &&
        (HorseIdKey in r ==> r[HorseIdKey] == Text(ExtractHorseId(link.value).value)))
  {
  }

  /** The detail link, when there is one, is not empty. */
  lemma DetailLinkNonEmpty(row: Row)
    ensures DetailLink(row).Some? ==> DetailLink(row).value != ""
  {
    var first := First(row.links, IsHorseLink);
    if first.Some? {
      var i := FirstIndex(row.links, IsHorseLink).value;
      assert IsHorseLink(row.links[i]);
    }
  }

  /** The arguments of a row: texts for string fields and `detail_url` only; each mapped field holds
      the cell under its header; `detail_url` is the detail link; the horse ID is a non-empty ID
      parsed from that link, or absent. */
  lemma RowArguments(row: Row, columnMap: map<string, nat>, mapping: seq<(string, Key)>)
    requires GoodMapping(mapping)
    ensures var kw := RowArgs(row, columnMap, mapping);
      (forall f :: f in kw ==> kw[f].Text? && (f in ScalarFieldSet || f == DetailUrlKey)) &&
      (forall k :: 0 <= k < |mapping| ==>
        mapping[k].1 in kw && kw[mapping[k].1] == Text(GetCellByHeader(row, mapping[k].0, columnMap))) &&
      (DetailUrlKey in kw <==> DetailLink(row).Some?) &&
      (DetailUrlKey in kw ==> kw[DetailUrlKey] == Text(DetailLink(row).value)) &&
      (HorseIdKey in kw <==> DetailLink(row).Some? && ExtractHorseId(DetailLink(row).value).Some? &&
                             ExtractHorseId(DetailLink(row).value).value != "") &&
      (HorseIdKey in kw ==> kw[HorseIdKey] == Text(ExtractHorseId(DetailLink(row).value).value))
  {
    var mapped := MappedFields(row, columnMap, mapping);
    var link := DetailLink(row);
    var kw := WithLink(mapped, link);
    MappedKeys(row, columnMap, mapping);
    forall k | 0 <= k < |mapping|
      ensures mapping[k].1 in mapped
      ensures mapped[mapping[k].1] == Text(GetCellByHeader(row, mapping[k].0, columnMap))
    {
      MappedFieldsAt(row, columnMap, mapping, k);
    }
    assert WithPreference(mapped) == mapped;
    WithLinkFields(mapped, link);
    DetailLinkNonEmpty(row);
    forall k | 0 <= k < |mapping|
      ensures kw[mapping[k].1] == mapped[mapping[k].1]
    {
      assert mapping[k].1 != DetailUrlKey;
    }
  }

  /** The ToplineData of a row under a good mapping. */
  lemma RowToplineFor(row: Row, columnMap: map<string, nat>, mapping: seq<(string, Key)>)
    requires GoodMapping(mapping)
    ensures BuildTopline(RowArgs(row, columnMap, mapping)).Some?
    ensures var t := BuildTopline(RowArgs(row, columnMap, mapping)).value;
      (forall k :: 0 <= k < |mapping| ==>
        mapping[k].1 in t.horse.scalars && t.horse.scalars[mapping[k].1] == GetCellByHeader(row, mapping[k].0, columnMap)) &&
      t.detailUrl == DetailLink(row) &&
      HorseIdKey in t.horse.scalars && t.horse.scalars[HorseIdKey] ==
        (if DetailLink(row).Some? && ExtractHorseId(DetailLink(row).value).Some?
         then ExtractHorseId(DetailLink(row).value).value else "") &&
      t.horse.injuries == [] && t.horse.pastRuns == []
  {
    var kw := RowArgs(row, columnMap, mapping);
    RowArguments(row, columnMap, mapping);
    TextArguments(kw);
    var t := BuildTopline(kw).value;
    forall k | 0 <= k < |mapping|
      ensures t.horse.scalars[mapping[k].1] == GetCellByHeader(row, mapping[k].0, columnMap)
    {
      assert t.horse.scalars[mapping[k].1] == kw[mapping[k].1].text;
    }
    assert Default(HorseIdKey) == "";
  }

  /** Every data row yields a ToplineData: each mapped field holds the cell under its header ("" when
      the header is not mapped), so the trainer preference is never the model's default "1" unless
      the cell reads "1"; `detail_url` is the row's detail link when there is one; the horse ID comes
      from that link, and is "" when there is no link or no ID; the lists are empty. */
  lemma RowToplineFields(row: Row, columnMap: map<string, nat>)
    ensures RowTopline(row, columnMap).Some?
    ensures var t := RowTopline(row, columnMap).value;
      (forall k :: 0 <= k < |FieldMapping| ==>
        FieldMapping[k].1 in t.horse.scalars && t.horse.scalars[FieldMapping[k].1] == GetCellByHeader(row, FieldMapping[k].0, columnMap)) &&
      TrainerPreferenceKey in t.horse.scalars &&
      t.horse.scalars[TrainerPreferenceKey] == GetCellByHeader(row, "優先參賽次序", columnMap) &&
      t.detailUrl == DetailLink(row) &&
      HorseIdKey in t.horse.scalars && t.horse.scalars[HorseIdKey] ==
        (if DetailLink(row).Some? && ExtractHorseId(DetailLink(row).value).Some?
         then ExtractHorseId(DetailLink(row).value).value else "") &&
      t.horse.injuries == [] && t.horse.pastRuns == []
  {
    FieldMappingGood();
    RowToplineFor(row, columnMap, FieldMapping);
  }

  lemma RowToplineSome(row: Row, columnMap: map<string, nat>)
    ensures RowTopline(row, columnMap).Some?
  {
    FieldMappingGood();
    RowToplineFor(row, columnMap, FieldMapping);
  }

  /** The rows after the header each give one record, in table order. */
  lemma {:induction false} ToplinesOfEveryRow(rows: seq<Row>, columnMap: map<string, nat>)
    ensures |ToplinesOf(rows, columnMap)| == |rows|
    ensures forall i :: 0 <= i < |rows| ==> Some(ToplinesOf(rows, columnMap)[i]) == RowTopline(rows[i], columnMap)
  {
    ToplinesLength(rows, columnMap);
    forall i | 0 <= i < |rows|
      ensures Some(ToplinesOf(rows, columnMap)[i]) == RowTopline(rows[i], columnMap)
    {
      ToplineAt(rows, columnMap, i);
    }
  }

  lemma {:induction false} ToplinesLength(rows: seq<Row>, columnMap: map<string, nat>)
    ensures |ToplinesOf(rows, columnMap)| == |rows|
  {
    if |rows| > 0 {
      ToplinesLength(rows[..|rows| - 1], columnMap);
      ToplinesStep(rows, columnMap);
    }
  }

  lemma {:induction false} ToplineAt(rows: seq<Row>, columnMap: map<string, nat>, i: nat)
    requires i < |rows|
    ensures i < |ToplinesOf(rows, columnMap)| && Some(ToplinesOf(rows, columnMap)[i]) == RowTopline(rows[i], columnMap)
  {
    var front := rows[..|rows| - 1];
    ToplinesStep(rows, columnMap);
    ToplinesLength(front, columnMap);
    if i < |front| {
      ToplineAt(front, columnMap, i);
      assert rows[i] == front[i];
      assert ToplinesOf(rows, columnMap)[i] == ToplinesOf(front, columnMap)[i];
    } else {
      assert i == |front|;
    }
  }

  lemma ToplinesStep(rows: seq<Row>, columnMap: map<string, nat>)
    requires |rows| > 0
    ensures RowTopline(rows[|rows| - 1], columnMap).Some?
    ensures ToplinesOf(rows, columnMap) ==
      ToplinesOf(rows[..|rows| - 1], columnMap) + [RowTopline(rows[|rows| - 1], columnMap).value]
  {
    RowToplineSome(rows[|rows| - 1], columnMap);
  }

  /** `_scrape_race_table` gives [] when no table has the headers or the header row maps no label, and
      otherwise one ToplineData per row after the header row, in table order. */
  lemma RaceTableSpec(results: seq<Option<seq<Table>>>)
    ensures var found := FoundTable(results, ExpectedHeaders);
      (found.None? ==> RaceTableOf(results) == []) &&
      (found.Some? && |HeaderColumnMap(found.value, ExpectedHeaders)| == 0 ==> RaceTableOf(results) == []) &&
      (found.Some? && |HeaderColumnMap(found.value, ExpectedHeaders)| > 0 ==>
        |RaceTableOf(results)| == |found.value.rows| - 1 &&
        forall i :: 0 <= i < |RaceTableOf(results)| ==>
          Some(RaceTableOf(results)[i]) == RowTopline(found.value.rows[i + 1], HeaderColumnMap(found.value, ExpectedHeaders)))
  {
    var found := FoundTable(results, ExpectedHeaders);
    if found.Some? {
      var table := found.value;
      var columnMap := HeaderColumnMap(table, ExpectedHeaders);
      if |columnMap| > 0 {
        assert |table.rows| > 0;
        var rows := table.rows[1..];
        ToplinesOfEveryRow(rows, columnMap);
        forall i | 0 <= i < |rows|
          ensures rows[i] == table.rows[i + 1]
        {
        }
      }
    }
  }
}
