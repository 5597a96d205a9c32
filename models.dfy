/**
 * The pydantic records of hkjc_scraper/models.py.
 *
 * A model is built from keyword arguments, a map from field names to Python
 * values.  Every value that is given first passes through the `"*"` validator
 * `convert_to_string` (None becomes "", lists and dicts stay as they are,
 * anything else becomes its `str()`), and must then have the field's type, or
 * construction fails with a validation error.  A field that is not given takes
 * its default, which the validator never sees.  Keys that name no field are
 * ignored.
 */
module Models {
  import opened Strings

  datatype InjuryRecord = InjuryRecord(date: string, description: string)

  datatype PastRunRecord = PastRunRecord(
    raceDate: string, venue: string, distance: string, barrier: string, weight: string,
    jockey: string, position: string, time: string, equipment: string, rating: string,
    odds: string, trackCondition: string, raceClass: string, distanceToWinner: string,
    runningPosition: string, barrierWeight: string, trainer: string)

  /** A past run with every field at its default "" except the finishing position. */
  function PositionOnly(position: string): (r: PastRunRecord)
    ensures r.position == position && r.raceDate == "" && r.venue == "" && r.jockey == ""
  {
    PastRunRecord("", "", "", "", "", "", position, "", "", "", "", "", "", "", "", "", "")
  }

  /** An element of a list argument: an injury or past-run record (or the dict that validates to it). */
  datatype Item = Injury(injury: InjuryRecord) | PastRun(run: PastRunRecord)

  /** A Python value passed as a keyword argument. */
  datatype Value =
    | Null
    | Text(text: string)
    | Int(n: int)
    | Bool(b: bool)
    | Other(rendered: string)            // any other object, e.g. a float, with the text of its `str()`
    | List(items: seq<Item>)
    | Dict(entries: map<string, string>)

  /** The string fields shared by ToplineData and HorseRecord, models.py:42-63 and 93-112, in
      declaration order; FieldName gives each one's Python name. */
  datatype Field =
    | HorseNo | HorseId | HorseName | HorseCode | LastSixRuns | Draw | Weight | Jockey | Trainer
    | WinOdds | PlaceOdds | Rating | InternationalRating | Gear | Allowance | TrainerPreference | Age
    | Profile

  function FieldName(f: Field): string
  {
    match f
    case HorseNo => "馬號"                 case HorseId => "馬匹ID"       case HorseName => "馬名"
    case HorseCode => "馬匹編號"           case LastSixRuns => "最近6輪"  case Draw => "排位"
    case Weight => "負磅"                  case Jockey => "騎師"          case Trainer => "練馬師"
    case WinOdds => "獨贏"                 case PlaceOdds => "位置"       case Rating => "當前評分"
    case InternationalRating => "國際評分" case Gear => "配備"            case Allowance => "讓磅"
    case TrainerPreference => "練馬師喜好" case Age => "馬齡"            case Profile => "馬匹基本資料"
  }

  /** A keyword argument name: a string field, the list fields 傷病記錄 and 往績紀錄, `detail_url`, or
      any other name. */
  datatype Key = Scalar(field: Field) | InjuriesKey | PastRunsKey | DetailUrlKey | OtherKey(name: string)

  type Kwargs = map<Key, Value>

  const HorseIdKey := Scalar(HorseId)
  const HorseNameKey := Scalar(HorseName)
  const TrainerPreferenceKey := Scalar(TrainerPreference)
  const ProfileKey := Scalar(Profile)

  /** The keys of the string fields. */
  const ScalarFieldSet: set<Key> :=
    {Scalar(HorseNo), HorseIdKey, HorseNameKey, Scalar(HorseCode), Scalar(LastSixRuns), Scalar(Draw),
     Scalar(Weight), Scalar(Jockey), Scalar(Trainer), Scalar(WinOdds), Scalar(PlaceOdds), Scalar(Rating),
     Scalar(InternationalRating), Scalar(Gear), Scalar(Allowance), TrainerPreferenceKey, Scalar(Age), ProfileKey}

  /** Every field name of HorseRecord. */
  const HorseFieldSet: set<Key> := ScalarFieldSet + {InjuriesKey, PastRunsKey}

  /** The default of a string field: "1" for the trainer preference, "" for the rest. */
  function Default(field: Key): string
  {
    if field == TrainerPreferenceKey then "1" else ""
  }

  /** A HorseRecord: its string fields by name, and its two record lists. */
  datatype HorseRecord = HorseRecord(scalars: map<Key, string>, injuries: seq<InjuryRecord>,
                                     pastRuns: seq<PastRunRecord>)

  /** A ToplineData: the fields of a HorseRecord and the optional detail page URL. */
  datatype ToplineData = ToplineData(horse: HorseRecord, detailUrl: Option<string>)

  /** A record has exactly the string fields of the schema. */
  predicate WellFormed(h: HorseRecord)
  {
    h.scalars.Keys == ScalarFieldSet
  }

  // ---------------------------------------------------------------------------
  // Validation

  /** `convert_to_string`, models.py:68-76 and 114-122. */
  function ConvertToString(v: Value): (r: Value)
    ensures r.Text? <==> !(v.List? || v.Dict?)
    ensures !r.Text? ==> r == v
  {
    match v
    case Null => Text("")
    case Text(s) => Text(s)
    case Int(n) => Text(IntToString(n))
    case Bool(b) => Text(if b then "True" else "False")
    case Other(s) => Text(s)
    case List(_) => v
    case Dict(_) => v
  }

  /** A given value for a `str` field: its converted text, or None for a validation error. */
  function StrOf(v: Value): (r: Option<string>)
    ensures r.Some? <==> !(v.List? || v.Dict?)
  {
    var c := ConvertToString(v);
    if c.Text? then Some(c.text) else None
  }

  /** A given value for `List[InjuryRecord]`: a list of injury records only. */
  function InjuriesOf(v: Value): (r: Option<seq<InjuryRecord>>)
    ensures r.Some? ==> v.List? && |r.value| == |v.items|
  {
    var c := ConvertToString(v);
    if c.List? && forall i :: 0 <= i < |c.items| ==> c.items[i].Injury? then
      Some(seq(|c.items|, i requires 0 <= i < |c.items| && c.items[i].Injury? => c.items[i].injury))
    else None
  }

  /** A given value for `List[PastRunRecord]`: a list of past-run records only. */
  function PastRunsOf(v: Value): (r: Option<seq<PastRunRecord>>)
    ensures r.Some? ==> v.List? && |r.value| == |v.items|
  {
    var c := ConvertToString(v);
    if c.List? && forall i :: 0 <= i < |c.items| ==> c.items[i].PastRun? then
      Some(seq(|c.items|, i requires 0 <= i < |c.items| && c.items[i].PastRun? => c.items[i].run))
    else None
  }

  /** The value a string field takes: the converted argument, or the default when not given. */
  function ScalarField(kw: Kwargs, field: Key): Option<string>
  {
    if field in kw then StrOf(kw[field]) else Some(Default(field))
  }

  function InjuriesField(kw: Kwargs): Option<seq<InjuryRecord>>
  {
    if InjuriesKey in kw then InjuriesOf(kw[InjuriesKey]) else Some([])
  }

  function PastRunsField(kw: Kwargs): Option<seq<PastRunRecord>>
  {
    if PastRunsKey in kw then PastRunsOf(kw[PastRunsKey]) else Some([])
  }

  /** Every field of HorseRecord validates. */
  predicate Acceptable(kw: Kwargs)
  {
    (forall f :: f in ScalarFieldSet ==> ScalarField(kw, f).Some?)
    && InjuriesField(kw).Some? && PastRunsField(kw).Some?
  }

  /** `HorseRecord(**kw)`: the record, or None for a validation error. */
  function Build(kw: Kwargs): (r: Option<HorseRecord>)
    ensures r.Some? <==> Acceptable(kw)
    ensures r.Some? ==> WellFormed(r.value)
  {
    if Acceptable(kw) then
      Some(HorseRecord(map f | f in ScalarFieldSet :: ScalarField(kw, f).value,
                       InjuriesField(kw).value, PastRunsField(kw).value))
    else None
  }

  /** `ToplineData(**kw)`: the same fields, and `detail_url`, which is None when not given. */
  function BuildTopline(kw: Kwargs): (r: Option<ToplineData>)
    ensures r.Some? ==> Build(kw) == Some(r.value.horse)
  {
    match Build(kw)
    case None => None
    case Some(h) =>
      if DetailUrlKey !in kw then Some(ToplineData(h, None))
      else match StrOf(kw[DetailUrlKey])
        case None => None
        case Some(url) => Some(ToplineData(h, Some(url)))
  }

  /** A list of injury records as a list argument. */
  function InjuryItems(injuries: seq<InjuryRecord>): (r: seq<Item>)
    ensures InjuriesOf(List(r)) == Some(injuries)
  {
    var items := seq(|injuries|, i requires 0 <= i < |injuries| => Injury(injuries[i]));
    assert InjuriesOf(List(items)).value == injuries;
    items
  }

  /** A list of past-run records as a list argument. */
  function RunItems(runs: seq<PastRunRecord>): (r: seq<Item>)
    ensures PastRunsOf(List(r)) == Some(runs)
  {
    var items := seq(|runs|, i requires 0 <= i < |runs| => PastRun(runs[i]));
    assert PastRunsOf(List(items)).value == runs;
    items
  }

  /** `model_dump()` of a HorseRecord. */
  function Dump(h: HorseRecord): (r: Kwargs)
    ensures r.Keys == h.scalars.Keys + {InjuriesKey, PastRunsKey}
  {
    (map f | f in h.scalars :: Text(h.scalars[f]))
      [InjuriesKey := List(InjuryItems(h.injuries))]
      [PastRunsKey := List(RunItems(h.pastRuns))]
  }

  /** `model_dump()` of a ToplineData, whose `detail_url` of None dumps as None. */
  function DumpTopline(t: ToplineData): (r: Kwargs)
    ensures r.Keys == Dump(t.horse).Keys + {DetailUrlKey}
  {
    Dump(t.horse)[DetailUrlKey := if t.detailUrl.Some? then Text(t.detailUrl.value) else Null]
  }

  /** `ToplineData.from_topline_and_detail`, models.py:78-87: the detail dict laid over a copy of the topline dict. */
  function FromToplineAndDetail(topline: Kwargs, detail: Kwargs): (r: Option<ToplineData>)
    ensures r.Some? ==> WellFormed(r.value.horse)
  {
    BuildTopline(topline + detail)
  }

  /** `HorseRecord.from_topline_data`, models.py:124-127. */
  function FromToplineData(t: ToplineData): (r: Option<HorseRecord>)
    ensures r.Some? ==> WellFormed(r.value)
  {
    Build(DumpTopline(t))
  }

  /** The JSON array `save_checkpoint` writes (utils.py:151): one dump per record, in order. */
  function SaveCheckpoint(horses: seq<HorseRecord>): (r: seq<Kwargs>)
    ensures |r| == |horses|
  {
    seq(|horses|, i requires 0 <= i < |horses| => Dump(horses[i]))
  }

  /** `load_checkpoint` on a parsed file (utils.py:179-184): every entry rebuilt, or [] when any fails. */
  function LoadCheckpoint(data: seq<Kwargs>): (r: seq<HorseRecord>)
    ensures r == [] || |r| == |data|
  {
    if forall i :: 0 <= i < |data| ==> Build(data[i]).Some? then
      seq(|data|, i requires 0 <= i < |data| && Build(data[i]).Some? => Build(data[i]).value)
    else []
  }

  // ---------------------------------------------------------------------------
  // Properties

  /** A record built with no arguments holds the defaults: "1" for the trainer preference, "" for
      every other string field, and empty lists (tests/test_parsing_unit.py:106-109). */
  lemma Defaults()
    ensures Build(map[]).Some?
    ensures var h := Build(map[]).value;
      h.injuries == [] && h.pastRuns == [] && h.scalars[TrainerPreferenceKey] == "1" &&
      forall f :: f in ScalarFieldSet && f != TrainerPreferenceKey ==> h.scalars[f] == ""
  {
  }

  /** The validator is a no-op on its own output. */
  lemma ConvertIdempotent(v: Value)
    ensures ConvertToString(ConvertToString(v)) == ConvertToString(v)
  {
  }

  /** The conversions of tests/test_parsing_unit.py:129-140 and of None. */
  lemma ConversionExamples()
    ensures StrOf(Int(1)) == Some("1") && StrOf(Other("85.5")) == Some("85.5")
    ensures StrOf(Null) == Some("") && StrOf(Text("Test Horse")) == Some("Test Horse")
    ensures StrOf(Bool(true)) == Some("True") && StrOf(Int(-3)) == Some("-3")
  {
    assert NatToString(1) == [DigitChar(1)] == "1";
    assert NatToString(3) == [DigitChar(3)] == "3";
    assert IntToString(-3) == "-" + "3" == "-3";
  }

  /** Two argument maps give the same fields. */
  ghost predicate SameFields(kw1: Kwargs, kw2: Kwargs)
  {
    (forall f :: f in ScalarFieldSet ==> ScalarField(kw1, f) == ScalarField(kw2, f))
    && InjuriesField(kw1) == InjuriesField(kw2) && PastRunsField(kw1) == PastRunsField(kw2)
  }

  /** Only the fields matter to the record. */
  lemma BuildFromFields(kw1: Kwargs, kw2: Kwargs)
    requires SameFields(kw1, kw2)
    ensures Build(kw1) == Build(kw2)
  {
    if Acceptable(kw1) {
      assert Acceptable(kw2);
      ScalarsAgree(kw1, kw2, ScalarFieldSet);
    }
  }

  lemma ScalarsAgree(kw1: Kwargs, kw2: Kwargs, fields: set<Key>)
    requires forall f :: f in fields ==> ScalarField(kw1, f).Some? && ScalarField(kw1, f) == ScalarField(kw2, f)
    ensures (map f | f in fields :: ScalarField(kw1, f).value) == (map f | f in fields :: ScalarField(kw2, f).value)
  {
  }


  /** Keys that name no field have no effect on the record. */
  lemma IgnoresExtraKeys(kw: Kwargs)
    ensures Build(kw) == Build(map k | k in kw && k in HorseFieldSet :: kw[k])
  {
    var kw' := map k | k in kw && k in HorseFieldSet :: kw[k];
    forall f | f in ScalarFieldSet
      ensures ScalarField(kw, f) == ScalarField(kw', f)
    {
      assert f in HorseFieldSet;
    }
    assert InjuriesKey in HorseFieldSet && PastRunsKey in HorseFieldSet;
    BuildFromFields(kw, kw');
  }

  lemma ListKeysAreNotScalars()
    ensures InjuriesKey !in ScalarFieldSet && PastRunsKey !in ScalarFieldSet && DetailUrlKey !in ScalarFieldSet
  {
  }

  /** Arguments whose values are texts, except for valid lists under the list fields, validate. */
  lemma AcceptableWhenTexts(kw: Kwargs)
    requires forall f :: f in kw && f != InjuriesKey && f != PastRunsKey ==> kw[f].Text?
    requires InjuriesField(kw).Some? && PastRunsField(kw).Some?
    ensures Acceptable(kw)
  {
    ListKeysAreNotScalars();
  }

  /** Each field of a record built from valid arguments, one at a time. */
  lemma BuiltField(kw: Kwargs, f: Key)
    requires Acceptable(kw) && f in ScalarFieldSet
    ensures Build(kw).Some? && f in Build(kw).value.scalars && Build(kw).value.scalars[f] == ScalarField(kw, f).value
  {
  }

  /** One field of a record built from a dict laid over another. */
  lemma OverlaidField(topline: Kwargs, detail: Kwargs, kw: Kwargs, f: Key)
    requires kw == topline + detail && Acceptable(kw) && f in ScalarFieldSet
    ensures Build(kw).Some? && f in Build(kw).value.scalars
    ensures Build(kw).value.scalars[f] ==
      if f in detail then StrOf(detail[f]).value else if f in topline then StrOf(topline[f]).value else Default(f)
  {
    BuiltField(kw, f);
  }

  /** The lists of a record built from a dict laid over another that gives them. */
  lemma OverlaidLists(topline: Kwargs, detail: Kwargs, kw: Kwargs)
    requires kw == topline + detail && Acceptable(kw) && PastRunsKey in detail && InjuriesKey in detail
    ensures Build(kw).Some?
    ensures Build(kw).value.pastRuns == PastRunsOf(detail[PastRunsKey]).value
    ensures Build(kw).value.injuries == InjuriesOf(detail[InjuriesKey]).value
  {
    assert kw[PastRunsKey] == detail[PastRunsKey] && kw[InjuriesKey] == detail[InjuriesKey];
  }

  /** Valid fields and a text `detail_url`, when given, make a ToplineData carrying that text. */
  lemma ToplineWhenAcceptable(kw: Kwargs)
    requires Acceptable(kw) && (DetailUrlKey in kw ==> kw[DetailUrlKey].Text?)
    ensures BuildTopline(kw).Some?
    ensures BuildTopline(kw).value.detailUrl == if DetailUrlKey in kw then Some(kw[DetailUrlKey].text) else None
  {
  }

  /** Rebuilding a record from its dump gives the record back. */
  lemma DumpRoundTrip(h: HorseRecord)
    requires WellFormed(h)
    ensures Build(Dump(h)) == Some(h)
  {
    ListKeysAreNotScalars();
    var kw := Dump(h);
    forall f | f in ScalarFieldSet
      ensures ScalarField(kw, f) == Some(h.scalars[f])
    {
      assert kw[f] == Text(h.scalars[f]);
    }
    assert kw[InjuriesKey] == List(InjuryItems(h.injuries));
    assert kw[PastRunsKey] == List(RunItems(h.pastRuns));
    assert Build(kw).value.scalars == h.scalars;
  }

  /** Saving well-formed records and loading them back gives the same records, in the same order. */
  lemma CheckpointRoundTrip(horses: seq<HorseRecord>)
    requires forall i :: 0 <= i < |horses| ==> WellFormed(horses[i])
    ensures LoadCheckpoint(SaveCheckpoint(horses)) == horses
  {
    var data := SaveCheckpoint(horses);
    forall i | 0 <= i < |data|
      ensures Build(data[i]) == Some(horses[i])
    {
      DumpRoundTrip(horses[i]);
    }
  }

  /** A checkpoint loads entry by entry, or not at all when any entry fails validation. */
  lemma LoadAllOrNothing(data: seq<Kwargs>)
    ensures var r := LoadCheckpoint(data);
      (r == [] && (data == [] || exists i :: 0 <= i < |data| && Build(data[i]).None?)) ||
      (|r| == |data| && forall i :: 0 <= i < |data| ==> Build(data[i]) == Some(r[i]))
  {
  }

  /** `from_topline_and_detail`: a field given in the detail dict takes the detail value, any
      other given field the topline value, and a field given in neither its default. */
  lemma DetailOverridesTopline(topline: Kwargs, detail: Kwargs)
    requires FromToplineAndDetail(topline, detail).Some?
    ensures var h := FromToplineAndDetail(topline, detail).value.horse;
      (forall f :: f in ScalarFieldSet ==>
        h.scalars[f] == (if f in detail then StrOf(detail[f]).value
                         else if f in topline then StrOf(topline[f]).value else Default(f))) &&
      h.injuries == (if InjuriesKey in detail then InjuriesOf(detail[InjuriesKey]).value
                     else if InjuriesKey in topline then InjuriesOf(topline[InjuriesKey]).value else []) &&
      h.pastRuns == (if PastRunsKey in detail then PastRunsOf(detail[PastRunsKey]).value
                     else if PastRunsKey in topline then PastRunsOf(topline[PastRunsKey]).value else [])
  {
    var kw := topline + detail;
    assert Build(kw).Some?;
    forall f | f in ScalarFieldSet
      ensures ScalarField(kw, f).Some?
    {
    }
  }

  /** An explicit `detail_url=None` is turned into "" by the validator, not kept as None. */
  lemma ExplicitNoneUrlBecomesEmpty(kw: Kwargs)
    requires BuildTopline(kw[DetailUrlKey := Null]).Some?
    ensures BuildTopline(kw[DetailUrlKey := Null]).value.detailUrl == Some("")
  {
  }

  /** A `detail_url` argument has no effect on the record. */
  lemma DetailUrlIgnored(kw: Kwargs, v: Value)
    ensures Build(kw[DetailUrlKey := v]) == Build(kw)
  {
    ListKeysAreNotScalars();
    UnrelatedKeyUpdated(kw, DetailUrlKey, v);
    BuildFromFields(kw[DetailUrlKey := v], kw);
  }

  /** Setting a key that names no field leaves the fields as they were. */
  lemma UnrelatedKeyUpdated(kw: Kwargs, k: Key, v: Value)
    requires k !in ScalarFieldSet && k != InjuriesKey && k != PastRunsKey
    ensures SameFields(kw[k := v], kw)
  {
    OtherKeyUpdated(kw, k, v, ScalarFieldSet);
  }

  /** Setting a key outside a set of fields leaves those fields as they were. */
  lemma OtherKeyUpdated(kw: Kwargs, k: Key, v: Value, fields: set<Key>)
    requires k !in fields
    ensures forall f :: f in fields ==> ScalarField(kw[k := v], f) == ScalarField(kw, f)
  {
  }

  /** `from_topline_data` keeps every shared field and drops `detail_url`. */
  lemma FromToplineDataKeepsFields(t: ToplineData)
    requires WellFormed(t.horse)
    ensures FromToplineData(t) == Some(t.horse)
  {
    DumpRoundTrip(t.horse);
    DetailUrlIgnored(Dump(t.horse), if t.detailUrl.Some? then Text(t.detailUrl.value) else Null);
  }

  /** A checkpoint record rebuilt as a ToplineData from its dump with `detail_url` set to None. */
  function CheckpointTopline(h: HorseRecord): Option<ToplineData>
  {
    BuildTopline(Dump(h)[DetailUrlKey := Null])
  }

  /** The resume rebuild of main.py:149-152: a checkpoint record dumped with `detail_url` set to
      None becomes a ToplineData with the same fields and a `detail_url` of "". */
  lemma ResumeRebuild(h: HorseRecord)
    requires WellFormed(h)
    ensures CheckpointTopline(h) == Some(ToplineData(h, Some("")))
  {
    DumpRoundTrip(h);
    DetailUrlIgnored(Dump(h), Null);
  }

  /** Arguments that are all texts, for string fields and `detail_url` only, always validate: each
      given field takes its text, each other one its default. */
  lemma TextArguments(kw: Kwargs)
    requires forall f :: f in kw ==> kw[f].Text? && (f in ScalarFieldSet || f == DetailUrlKey)
    ensures BuildTopline(kw).Some?
    ensures var t := BuildTopline(kw).value;
      (forall f :: f in ScalarFieldSet ==> t.horse.scalars[f] == if f in kw then kw[f].text else Default(f)) &&
      t.horse.injuries == [] && t.horse.pastRuns == [] &&
      t.detailUrl == (if DetailUrlKey in kw then Some(kw[DetailUrlKey].text) else None)
  {
    ListKeysAreNotScalars();
    assert InjuriesKey !in kw && PastRunsKey !in kw;
    assert Acceptable(kw);
  }

  /** A string field given as text keeps that text. */
  lemma GivenFieldKept(kw: Kwargs, f: Key, text: string)
    requires Acceptable(kw) && f in ScalarFieldSet && f in kw && kw[f] == Text(text)
    ensures Build(kw).Some? && f in Build(kw).value.scalars && Build(kw).value.scalars[f] == text
  {
    BuiltField(kw, f);
  }

  /** A string field not given takes its default. */
  lemma MissingFieldDefaults(kw: Kwargs, f: Key)
    requires Acceptable(kw) && f in ScalarFieldSet && f !in kw
    ensures Build(kw).Some? && f in Build(kw).value.scalars && Build(kw).value.scalars[f] == Default(f)
  {
    BuiltField(kw, f);
  }

  /** The arguments of the record of tests/test_parsing_unit.py:113-120, the two dicts already
      validated to their records. */
  ghost predicate ExampleArguments(kw: Kwargs)
  {
    kw.Keys == {Scalar(HorseNo), HorseNameKey, Scalar(Jockey), Scalar(Trainer), InjuriesKey, PastRunsKey} &&
    kw[Scalar(HorseNo)] == Text("1") && kw[HorseNameKey] == Text("Test Horse") &&
    kw[Scalar(Jockey)] == Text("Test Jockey") && kw[Scalar(Trainer)] == Text("Test Trainer") &&
    kw[InjuriesKey] == List([Injury(InjuryRecord("2025-01-01", "Test injury"))]) &&
    kw[PastRunsKey] == List([PastRun(PastRunRecord("2025-01-01", "HV", "", "", "", "", "1", "", "", "", "", "",
                                                   "", "", "", "", ""))])
  }

  /** That record keeps the given number and name. */
  lemma RecordExampleGiven(kw: Kwargs)
    requires ExampleArguments(kw)
    ensures var h := Build(kw);
      h.Some? && h.value.scalars[Scalar(HorseNo)] == "1" && h.value.scalars[HorseNameKey] == "Test Horse"
  {
    AcceptableWhenTexts(kw);
    GivenFieldKept(kw, Scalar(HorseNo), "1");
    GivenFieldKept(kw, HorseNameKey, "Test Horse");
  }

  /** That record holds the given injury and past run, and defaults the horse id to "". */
  lemma RecordExampleRest(kw: Kwargs)
    requires ExampleArguments(kw)
    ensures var h := Build(kw);
      h.Some? && h.value.scalars[HorseIdKey] == "" && |h.value.injuries| == 1 &&
      h.value.injuries[0].date == "2025-01-01" && |h.value.pastRuns| == 1 && h.value.pastRuns[0].venue == "HV"
  {
    ExampleAcceptable(kw);
    MissingFieldDefaults(kw, HorseIdKey);
    ExampleLists(kw);
  }

  /** The arguments of that record validate. */
  lemma ExampleAcceptable(kw: Kwargs)
    requires ExampleArguments(kw)
    ensures Acceptable(kw) && HorseIdKey !in kw
  {
    forall f | f in kw && f != InjuriesKey && f != PastRunsKey
      ensures kw[f].Text?
    {
      assert f == Scalar(HorseNo) || f == HorseNameKey || f == Scalar(Jockey) || f == Scalar(Trainer);
    }
    ExampleListsValidate(kw);
    assert HorseIdKey !in kw;
    AcceptableWhenTexts(kw);
  }

  lemma ExampleListsValidate(kw: Kwargs)
    requires ExampleArguments(kw)
    ensures InjuriesField(kw).Some? && PastRunsField(kw).Some?
  {
    var injuries := kw[InjuriesKey];
    var runs := kw[PastRunsKey];
    assert ConvertToString(injuries) == injuries && ConvertToString(runs) == runs;
    assert injuries.items[0].Injury? && runs.items[0].PastRun?;
  }

  /** The two lists of that record, as validated. */
  lemma ExampleLists(kw: Kwargs)
    requires ExampleArguments(kw) && Acceptable(kw)
    ensures Build(kw).Some?
    ensures Build(kw).value.injuries == InjuriesOf(kw[InjuriesKey]).value
    ensures Build(kw).value.pastRuns == PastRunsOf(kw[PastRunsKey]).value
    ensures |Build(kw).value.injuries| == 1 && Build(kw).value.injuries[0].date == "2025-01-01"
    ensures |Build(kw).value.pastRuns| == 1 && Build(kw).value.pastRuns[0].venue == "HV"
  {
    assert kw[InjuriesKey].items[0].injury.date == "2025-01-01";
    assert kw[PastRunsKey].items[0].run.venue == "HV";
  }

  /** A list where a string is expected, or a string where a list is expected, fails validation. */
  lemma WrongTypesRejected(kw: Kwargs, items: seq<Item>)
    ensures Build(kw[HorseNameKey := List(items)]).None?
    ensures Build(kw[InjuriesKey := Text("none")]).None?
  {
    assert !ScalarField(kw[HorseNameKey := List(items)], HorseNameKey).Some?;
  }
}
