/**
 * The `main` command of hkjc_scraper/main.py: the argument gate, the checkpoint
 * load, the race card or the resume rebuild as the list of entries, and the
 * loop over the entries that fetches each horse's page, merges its details
 * into the entry and stores the record, writing a checkpoint every
 * `checkpoint_interval` entries.
 *
 * The browser is not modelled.  What it would return is given: the parsed
 * checkpoint file, the outcome of scraping the race card, and for each entry
 * the outcome of `scrape_horse_details` on its detail URL, which is the dict
 * HorseDetail.Details builds from the page or an exception.  The checkpoint writes are recorded
 * as the list of record lists saved, in order; the final output is the record
 * list written at the end.
 */
module Crawl {
  import opened Strings
  import opened Models
  import Validate

  /** The inputs of one run: `--date` and `--course` as typed, `--raceno` as the integer click reads
      from it (None when its text is not an integer), `--checkpoint` ("" when not given, which Python
      treats like None), and `checkpoint_interval` of the configuration. */
  datatype Args = Args(date: string, course: string, raceno: Option<int>, checkpoint: string, interval: int)

  /** `scrape_horse_details` on an entry's URL: the dict it returns (HorseDetail.Details of the page),
      an exception (caught for that entry alone), or a KeyboardInterrupt (which ends the run). */
  datatype Fetch = Fetched(details: Kwargs) | Failed | Interrupted

  /** Scraping the race card: its entries, or an exception or interrupt, both of which end the run. */
  datatype Card = Entries(entries: seq<ToplineData>) | CardFailed | CardInterrupted

  /** One entry's effect: the records after it, whether a checkpoint was written, and whether the
      run was interrupted. */
  datatype Step = Step(horses: seq<HorseRecord>, saved: bool, interrupted: bool)

  /** The loop's effect: the records, the checkpoints written, and whether it was interrupted. */
  datatype Run = Run(horses: seq<HorseRecord>, saves: seq<seq<HorseRecord>>, interrupted: bool)

  /** How `main` ends: its exit status, the records written to `--out` (None when nothing is
      written), and every checkpoint written, in order. */
  datatype Exit = Exit(status: int, output: Option<seq<HorseRecord>>, saves: seq<seq<HorseRecord>>)

  // ---------------------------------------------------------------------------
  // The specification of the run

  /** `click.Choice(["HV", "ST"], case_sensitive=False)` (main.py:40-45): the choice the text names,
      compared without regard to case, or None for click's usage error.  click compares the
      case-folded texts, which on these letters agrees with comparing the upper-cased ones. */
  function CourseChoice(course: string): (c: Option<string>)
    ensures c.Some? <==> Validate.ValidateCourse(course)
    ensures c.Some? ==> c.value in Validate.ValidCourses && Validate.ValidateCourse(c.value)
  {
    var upper := Validate.Upper(course);
    assert Validate.Upper("HV") == "HV" && Validate.Upper("ST") == "ST";
    if upper == "HV" then Some("HV") else if upper == "ST" then Some("ST") else None
  }

  /** click converts `--course` and `--raceno` before `main` runs (main.py:40-51); a value it cannot
      convert ends the program with a usage error. */
  predicate ClickAccepts(args: Args)
  {
    CourseChoice(args.course).Some? && args.raceno.Some?
  }

  /** The gate of main.py:99-110, on the values click hands `main`. */
  predicate ValidArgs(args: Args)
  {
    ClickAccepts(args) &&
    Validate.ValidateDateFormat(args.date) && Validate.ValidateCourse(CourseChoice(args.course).value) &&
    Validate.ValidateRaceNumber(args.raceno.value)
  }

  /** Entry `i` already has its details from the checkpoint (main.py:168-171). */
  predicate Done(args: Args, horses: seq<HorseRecord>, i: nat)
  {
    args.checkpoint != "" && i < |horses| && horses[i].injuries != [] && horses[i].pastRuns != []
  }

  /** The entry has a detail URL to fetch (main.py:174). */
  predicate HasUrl(entry: ToplineData)
  {
    entry.detailUrl.Some? && entry.detailUrl.value != ""
  }

  /** `HorseRecord(**merged_data)` with the details laid over the entry's dump (main.py:178-182). */
  function Merged(entry: ToplineData, details: Kwargs): Option<HorseRecord>
  {
    Build(DumpTopline(entry) + details)
  }

  /** Replace entry `i`, or append when the list is shorter (main.py:185-188). */
  function Store(horses: seq<HorseRecord>, i: nat, h: HorseRecord): seq<HorseRecord>
  {
    if i < |horses| then horses[i := h] else horses + [h]
  }

  /** A checkpoint is written after entry `i` (main.py:193-194): a path is set and `i + 1` is a
      multiple of the interval.  An interval of 0 raises ZeroDivisionError, caught for the entry. */
  predicate CheckpointDue(args: Args, i: nat)
  {
    args.checkpoint != "" && args.interval != 0 && (i + 1) % args.interval == 0
  }

  /** One turn of the loop, main.py:166-202. */
  function StepOf(args: Args, horses: seq<HorseRecord>, i: nat, entry: ToplineData, fetch: Fetch): Step
  {
    if Done(args, horses, i) then Step(horses, false, false)
    else if !HasUrl(entry) then Step(horses, CheckpointDue(args, i), false)
    else if fetch.Interrupted? then Step(horses, false, true)
    else if fetch.Failed? then Step(horses, false, false)
    else
      var merged := Merged(entry, fetch.details);
      if merged.None? then Step(horses, false, false)
      else Step(Store(horses, i, merged.value), CheckpointDue(args, i), false)
  }

  /** The loop from entry `i` on, with the records and the checkpoints so far. */
  function CrawlFrom(args: Args, entries: seq<ToplineData>, fetch: nat -> Fetch, i: nat,
                 horses: seq<HorseRecord>, saves: seq<seq<HorseRecord>>): Run
    decreases |entries| - i
  {
    if i >= |entries| then Run(horses, saves, false)
    else
      var s := StepOf(args, horses, i, entries[i], fetch(i));
      if s.interrupted then Run(horses, saves, true)
      else CrawlFrom(args, entries, fetch, i + 1, s.horses, if s.saved then saves + [s.horses] else saves)
  }

  /** The resume rebuild of main.py:148-152 from record `i` on: each record dumped with a
      `detail_url` of None and validated as a ToplineData; None when one fails to validate. */
  function ResumeFrom(horses: seq<HorseRecord>, i: nat, acc: seq<ToplineData>): Option<seq<ToplineData>>
    decreases |horses| - i
  {
    if i >= |horses| then Some(acc)
    else
      var t := CheckpointTopline(horses[i]);
      if t.None? then None else ResumeFrom(horses, i + 1, acc + [t.value])
  }

  /** The records the checkpoint file yields (main.py:124-127): none without a path or a readable
      file.  `stored` is the parsed file, None when it does not exist or cannot be read. */
  function Loaded(args: Args, stored: Option<seq<Kwargs>>): seq<HorseRecord>
  {
    if args.checkpoint != "" && stored.Some? then LoadCheckpoint(stored.value) else []
  }

  /** The handlers of main.py:214-227: save the records to the checkpoint when a path is set, and
      exit with status 1. */
  function Abort(args: Args, horses: seq<HorseRecord>, saves: seq<seq<HorseRecord>>): Exit
  {
    Exit(1, None, if args.checkpoint != "" then saves + [horses] else saves)
  }

  /** The loop over the entries and the final output (main.py:155-206). */
  function Finish(args: Args, entries: seq<ToplineData>, fetch: nat -> Fetch, horses: seq<HorseRecord>): Exit
  {
    var run := CrawlFrom(args, entries, fetch, 0, horses, []);
    if run.interrupted then Abort(args, run.horses, run.saves) else Exit(0, Some(run.horses), run.saves)
  }

  /** `main`, main.py:78-227. */
  function Scrape(args: Args, stored: Option<seq<Kwargs>>, card: Card, fetch: nat -> Fetch): Exit
  {
    if !ClickAccepts(args) then Exit(2, None, [])
    else if !ValidArgs(args) then Exit(1, None, [])
    else
      var loaded := Loaded(args, stored);
      if loaded == [] then
        if card.Entries? then Finish(args, card.entries, fetch, []) else Abort(args, [], [])
      else
        var entries := ResumeFrom(loaded, 0, []);
        if entries.None? then Abort(args, loaded, []) else Finish(args, entries.value, fetch, loaded)
  }

  // ---------------------------------------------------------------------------
  // The run, step by step

  /** One entry of the loop. */
  method ProcessEntry(args: Args, horses: seq<HorseRecord>, i: nat, entry: ToplineData, fetch: Fetch)
    returns (step: Step)
    ensures step == StepOf(args, horses, i, entry, fetch)
  {
    if Done(args, horses, i) {
      return Step(horses, false, false);
    }
    var next := horses;
    if HasUrl(entry) {
      if fetch.Interrupted? {
        return Step(horses, false, true);
      }
      if fetch.Failed? {
        return Step(horses, false, false);
      }
      var merged := Build(DumpTopline(entry) + fetch.details);
      if merged.None? {
        return Step(horses, false, false);
      }
      if i < |horses| {
        next := horses[i := merged.value];
      } else {
        next := horses + [merged.value];
      }
    }
    var saved := false;
    if args.checkpoint != "" {
      if args.interval == 0 {
        return Step(next, false, false);
      }
      saved := (i + 1) % args.interval == 0;
    }
    return Step(next, saved, false);
  }

  /** The loop over the entries, main.py:165-202. */
  method CrawlEntries(args: Args, entries: seq<ToplineData>, fetch: nat -> Fetch, start: seq<HorseRecord>)
    returns (run: Run)
    ensures run == CrawlFrom(args, entries, fetch, 0, start, [])
  {
    var horses := start;
    var saves: seq<seq<HorseRecord>> := [];
    var i := 0;
    while i < |entries|
      invariant i <= |entries|
      invariant CrawlFrom(args, entries, fetch, i, horses, saves) == CrawlFrom(args, entries, fetch, 0, start, [])
      decreases |entries| - i
    {
      var step := ProcessEntry(args, horses, i, entries[i], fetch(i));
      if step.interrupted {
        CrawlStops(args, entries, fetch, i, horses, saves, step);
        return Run(horses, saves, true);
      }
      CrawlGoesOn(args, entries, fetch, i, horses, saves, step);
      horses := step.horses;
      if step.saved {
        saves := saves + [horses];
      }
      i := i + 1;
    }
    return Run(horses, saves, false);
  }

  /** The resume rebuild, main.py:148-152. */
  method RebuildEntries(horses: seq<HorseRecord>) returns (entries: Option<seq<ToplineData>>)
    ensures entries == ResumeFrom(horses, 0, [])
  {
    var acc: seq<ToplineData> := [];
    var i := 0;
    while i < |horses|
      invariant i <= |horses|
      invariant ResumeFrom(horses, i, acc) == ResumeFrom(horses, 0, [])
      decreases |horses| - i
    {
      var t := CheckpointTopline(horses[i]);
      if t.None? {
        return None;
      }
      acc := acc + [t.value];
      i := i + 1;
    }
    return Some(acc);
  }

  /** `main`. */
  method RunScraper(args: Args, stored: Option<seq<Kwargs>>, card: Card, fetch: nat -> Fetch)
    returns (exit: Exit)
    ensures exit == Scrape(args, stored, card, fetch)
  {
    if CourseChoice(args.course).None? || args.raceno.None? {
      return Exit(2, None, []);
    }
    var course := CourseChoice(args.course).value;
    if !Validate.ValidateDateFormat(args.date) || !Validate.ValidateCourse(course) ||
       !Validate.ValidateRaceNumber(args.raceno.value) {
      return Exit(1, None, []);
    }
    var horses := Loaded(args, stored);
    var entries: seq<ToplineData>;
    if horses == [] {
      if !card.Entries? {
        return Abort(args, horses, []);
      }
      entries := card.entries;
    } else {
      var rebuilt := RebuildEntries(horses);
      if rebuilt.None? {
        return Abort(args, horses, []);
      }
      entries := rebuilt.value;
    }
    var run := CrawlEntries(args, entries, fetch, horses);
    if run.interrupted {
      return Abort(args, run.horses, run.saves);
    }
    return Exit(0, Some(run.horses), run.saves);
  }

  // ---------------------------------------------------------------------------
  // Properties

  predicate AllWellFormed(horses: seq<HorseRecord>)
  {
    forall k :: 0 <= k < |horses| ==> WellFormed(horses[k])
  }

  /** One entry touches at most its own record: the list never shrinks, grows by at most one (an
      append, only when it is shorter than `i + 1`), and a skipped entry changes nothing. */
  lemma StepShape(args: Args, horses: seq<HorseRecord>, i: nat, entry: ToplineData, fetch: Fetch)
    ensures var s := StepOf(args, horses, i, entry, fetch);
      |horses| <= |s.horses| <= |horses| + 1 &&
      (|s.horses| > |horses| ==> i >= |horses|) &&
      (forall k :: 0 <= k < |horses| && k != i ==> s.horses[k] == horses[k]) &&
      (Done(args, horses, i) ==> s == Step(horses, false, false))
  {
  }

  /** The records change only when the page was fetched and the merge validated; then the merged
      record is stored at the entry's place. */
  lemma StepChangesOnFetch(args: Args, horses: seq<HorseRecord>, i: nat, entry: ToplineData, fetch: Fetch)
    ensures var s := StepOf(args, horses, i, entry, fetch);
      s.horses != horses ==>
        !Done(args, horses, i) && HasUrl(entry) && fetch.Fetched? && Merged(entry, fetch.details).Some? &&
        s.horses == Store(horses, i, Merged(entry, fetch.details).value)
  {
  }

  /** Storing a well-formed record keeps the list well-formed. */
  lemma StoreWellFormed(horses: seq<HorseRecord>, i: nat, h: HorseRecord)
    requires AllWellFormed(horses) && WellFormed(h)
    ensures AllWellFormed(Store(horses, i, h))
  {
  }

  /** Well-formed records stay well-formed. */
  lemma StepWellFormed(args: Args, horses: seq<HorseRecord>, i: nat, entry: ToplineData, fetch: Fetch)
    requires AllWellFormed(horses)
    ensures AllWellFormed(StepOf(args, horses, i, entry, fetch).horses)
  {
    var s := StepOf(args, horses, i, entry, fetch);
    StepChangesOnFetch(args, horses, i, entry, fetch);
    if s.horses != horses {
      StoreWellFormed(horses, i, Merged(entry, fetch.details).value);
    }
  }

  /** The checkpoint cadence: a checkpoint is written after entry `i` exactly when a path is set,
      the entry was not skipped, nothing was raised, and `i + 1` is a multiple of the interval. */
  lemma CheckpointCadence(args: Args, horses: seq<HorseRecord>, i: nat, entry: ToplineData, fetch: Fetch)
    ensures StepOf(args, horses, i, entry, fetch).saved <==>
      args.checkpoint != "" && !Done(args, horses, i) &&
      (!HasUrl(entry) || (fetch.Fetched? && Merged(entry, fetch.details).Some?)) &&
      args.interval != 0 && (i + 1) % args.interval == 0
    ensures StepOf(args, horses, i, entry, fetch).interrupted <==>
      !Done(args, horses, i) && HasUrl(entry) && fetch.Interrupted?
  {
  }

  /** Over the loop the list never shrinks and grows by at most one per entry. */
  lemma {:induction false} CrawlLength(args: Args, entries: seq<ToplineData>, fetch: nat -> Fetch, i: nat,
                                       horses: seq<HorseRecord>, saves: seq<seq<HorseRecord>>)
    requires i <= |entries|
    ensures var r := CrawlFrom(args, entries, fetch, i, horses, saves);
      |horses| <= |r.horses| <= |horses| + (|entries| - i)
    decreases |entries| - i
  {
    if i < |entries| {
      var s := StepOf(args, horses, i, entries[i], fetch(i));
      StepShape(args, horses, i, entries[i], fetch(i));
      if s.interrupted {
        CrawlStops(args, entries, fetch, i, horses, saves, s);
      } else {
        CrawlGoesOn(args, entries, fetch, i, horses, saves, s);
        CrawlLength(args, entries, fetch, i + 1, s.horses, if s.saved then saves + [s.horses] else saves);
      }
    }
  }

  /** An interrupt ends the loop with the records and checkpoints so far. */
  lemma CrawlStops(args: Args, entries: seq<ToplineData>, fetch: nat -> Fetch, i: nat,
                   horses: seq<HorseRecord>, saves: seq<seq<HorseRecord>>, s: Step)
    requires i < |entries| && s == StepOf(args, horses, i, entries[i], fetch(i)) && s.interrupted
    ensures CrawlFrom(args, entries, fetch, i, horses, saves) == Run(horses, saves, true)
  {
  }

  /** Otherwise the loop goes on with the step's records, and its records as a checkpoint when one
      was written. */
  lemma CrawlGoesOn(args: Args, entries: seq<ToplineData>, fetch: nat -> Fetch, i: nat,
                    horses: seq<HorseRecord>, saves: seq<seq<HorseRecord>>, s: Step)
    requires i < |entries| && s == StepOf(args, horses, i, entries[i], fetch(i)) && !s.interrupted
    ensures CrawlFrom(args, entries, fetch, i, horses, saves) ==
      CrawlFrom(args, entries, fetch, i + 1, s.horses, if s.saved then saves + [s.horses] else saves)
  {
  }

  /** A checkpoint is written only when a path is set. */
  lemma StepSavesWithPath(args: Args, horses: seq<HorseRecord>, i: nat, entry: ToplineData, fetch: Fetch)
    ensures StepOf(args, horses, i, entry, fetch).saved ==> args.checkpoint != ""
  {
  }

  /** Over the loop the checkpoints so far are kept, and none is written without a path. */
  lemma {:induction false} CrawlSaves(args: Args, entries: seq<ToplineData>, fetch: nat -> Fetch, i: nat,
                                      horses: seq<HorseRecord>, saves: seq<seq<HorseRecord>>)
    ensures var r := CrawlFrom(args, entries, fetch, i, horses, saves);
      saves <= r.saves && (args.checkpoint == "" ==> r.saves == saves)
    decreases |entries| - i
  {
    if i < |entries| {
      var s := StepOf(args, horses, i, entries[i], fetch(i));
      StepSavesWithPath(args, horses, i, entries[i], fetch(i));
      if !s.interrupted {
        var saves' := if s.saved then saves + [s.horses] else saves;
        CrawlSaves(args, entries, fetch, i + 1, s.horses, saves');
        assert saves <= saves';
      }
    }
  }

  /** The records before entry `i`, and every record complete in the checkpoint, are kept. */
  lemma {:induction false} CrawlKeeps(args: Args, entries: seq<ToplineData>, fetch: nat -> Fetch, i: nat,
                                      horses: seq<HorseRecord>, saves: seq<seq<HorseRecord>>)
    ensures var r := CrawlFrom(args, entries, fetch, i, horses, saves);
      |horses| <= |r.horses| &&
      forall k :: 0 <= k < |horses| && (k < i || Done(args, horses, k)) ==> r.horses[k] == horses[k]
    decreases |entries| - i
  {
    if i < |entries| {
      var s := StepOf(args, horses, i, entries[i], fetch(i));
      StepShape(args, horses, i, entries[i], fetch(i));
      if !s.interrupted {
        CrawlKeeps(args, entries, fetch, i + 1, s.horses, if s.saved then saves + [s.horses] else saves);
        forall k | i < k < |horses| && Done(args, horses, k)
          ensures Done(args, s.horses, k)
        {
          assert s.horses[k] == horses[k];
        }
      }
    }
  }

  /** Well-formed records stay well-formed, in the list and in every checkpoint. */
  lemma {:induction false} CrawlWellFormed(args: Args, entries: seq<ToplineData>, fetch: nat -> Fetch, i: nat,
                                           horses: seq<HorseRecord>, saves: seq<seq<HorseRecord>>)
    requires AllWellFormed(horses) && forall j :: 0 <= j < |saves| ==> AllWellFormed(saves[j])
    ensures var r := CrawlFrom(args, entries, fetch, i, horses, saves);
      AllWellFormed(r.horses) && forall j :: 0 <= j < |r.saves| ==> AllWellFormed(r.saves[j])
    decreases |entries| - i
  {
    if i < |entries| {
      var s := StepOf(args, horses, i, entries[i], fetch(i));
      StepWellFormed(args, horses, i, entries[i], fetch(i));
      if !s.interrupted {
        CrawlWellFormed(args, entries, fetch, i + 1, s.horses, if s.saved then saves + [s.horses] else saves);
      }
    }
  }

  /** A well-formed record is rebuilt as itself with a `detail_url` of "". */
  lemma ResumeStep(horses: seq<HorseRecord>, i: nat, acc: seq<ToplineData>)
    requires i < |horses| && WellFormed(horses[i])
    ensures ResumeFrom(horses, i, acc) == ResumeFrom(horses, i + 1, acc + [ToplineData(horses[i], Some(""))])
  {
    ResumeRebuild(horses[i]);
  }

  /** Each record as a ToplineData with a `detail_url` of "". */
  function Unlinked(horses: seq<HorseRecord>): (r: seq<ToplineData>)
    ensures |r| == |horses|
    ensures forall k :: 0 <= k < |horses| ==> r[k].horse == horses[k] && !HasUrl(r[k])
  {
    if horses == [] then [] else [ToplineData(horses[0], Some(""))] + Unlinked(horses[1..])
  }

  /** The resume rebuild gives every well-formed record back, in order, with a `detail_url` of "". */
  lemma {:induction false} ResumeFromSpec(horses: seq<HorseRecord>, i: nat, acc: seq<ToplineData>)
    requires i <= |horses| && AllWellFormed(horses)
    ensures ResumeFrom(horses, i, acc) == Some(acc + Unlinked(horses[i..]))
    decreases |horses| - i
  {
    if i < |horses| {
      var acc' := acc + [ToplineData(horses[i], Some(""))];
      ResumeStep(horses, i, acc);
      ResumeFromSpec(horses, i + 1, acc');
      UnlinkedStep(horses, i, acc);
    } else {
      assert horses[i..] == [];
      assert acc + Unlinked(horses[i..]) == acc;
    }
  }

  lemma UnlinkedStep(horses: seq<HorseRecord>, i: nat, acc: seq<ToplineData>)
    requires i < |horses|
    ensures acc + [ToplineData(horses[i], Some(""))] + Unlinked(horses[i + 1..]) == acc + Unlinked(horses[i..])
  {
    assert horses[i..][1..] == horses[i + 1..];
  }

  /** Without a detail URL no page is fetched and no record changes. */
  lemma {:induction false} CrawlWithoutUrls(args: Args, entries: seq<ToplineData>, fetch: nat -> Fetch, i: nat,
                                            horses: seq<HorseRecord>, saves: seq<seq<HorseRecord>>)
    requires forall k :: i <= k < |entries| ==> !HasUrl(entries[k])
    ensures var r := CrawlFrom(args, entries, fetch, i, horses, saves);
      r.horses == horses && !r.interrupted
    decreases |entries| - i
  {
    if i < |entries| {
      var s := StepOf(args, horses, i, entries[i], fetch(i));
      assert s.horses == horses && !s.interrupted;
      CrawlWithoutUrls(args, entries, fetch, i + 1, horses, if s.saved then saves + [s.horses] else saves);
    }
  }

  /** Loaded records are well-formed. */
  lemma LoadedWellFormed(args: Args, stored: Option<seq<Kwargs>>)
    ensures AllWellFormed(Loaded(args, stored))
  {
  }

  /** The resume rebuild of well-formed records gives entries without a detail URL. */
  lemma ResumedEntriesHaveNoUrl(horses: seq<HorseRecord>)
    requires AllWellFormed(horses)
    ensures ResumeFrom(horses, 0, []).Some?
    ensures forall k :: 0 <= k < |ResumeFrom(horses, 0, []).value| ==> !HasUrl(ResumeFrom(horses, 0, []).value[k])
  {
    ResumeFromSpec(horses, 0, []);
  }

  /** A resumed run fetches no page: the rebuilt entries have a `detail_url` of "", so the run ends
      with status 0 and writes out exactly the records it loaded (main.py:148-152 and 174). */
  lemma ResumeFetchesNothing(args: Args, stored: Option<seq<Kwargs>>, card: Card, fetch: nat -> Fetch)
    requires ValidArgs(args) && Loaded(args, stored) != []
    ensures Scrape(args, stored, card, fetch).status == 0
    ensures Scrape(args, stored, card, fetch).output == Some(Loaded(args, stored))
  {
    var loaded := Loaded(args, stored);
    LoadedWellFormed(args, stored);
    ResumedEntriesHaveNoUrl(loaded);
    var entries := ResumeFrom(loaded, 0, []).value;
    CrawlWithoutUrls(args, entries, fetch, 0, loaded, []);
    assert Scrape(args, stored, card, fetch) == Finish(args, entries, fetch, loaded);
  }

  /** The records and the interrupt do not depend on the checkpoints written before. */
  lemma {:induction false} CrawlIgnoresSaves(args: Args, entries: seq<ToplineData>, fetch: nat -> Fetch, i: nat,
                                             horses: seq<HorseRecord>, s1: seq<seq<HorseRecord>>,
                                             s2: seq<seq<HorseRecord>>)
    ensures CrawlFrom(args, entries, fetch, i, horses, s1).horses == CrawlFrom(args, entries, fetch, i, horses, s2).horses
    ensures CrawlFrom(args, entries, fetch, i, horses, s1).interrupted ==
            CrawlFrom(args, entries, fetch, i, horses, s2).interrupted
    decreases |entries| - i
  {
    if i < |entries| {
      var s := StepOf(args, horses, i, entries[i], fetch(i));
      if !s.interrupted {
        CrawlIgnoresSaves(args, entries, fetch, i + 1, s.horses,
                          if s.saved then s1 + [s.horses] else s1, if s.saved then s2 + [s.horses] else s2);
      }
    }
  }

  /** An entry without a detail URL passes the records on unchanged. */
  lemma NoUrlPassesOn(args: Args, entries: seq<ToplineData>, fetch: nat -> Fetch, i: nat, horses: seq<HorseRecord>)
    requires i < |entries| && !HasUrl(entries[i])
    ensures CrawlFrom(args, entries, fetch, i, horses, []).horses == CrawlFrom(args, entries, fetch, i + 1, horses, []).horses
  {
    var s := StepOf(args, horses, i, entries[i], fetch(i));
    assert s.horses == horses && !s.interrupted;
    CrawlIgnoresSaves(args, entries, fetch, i + 1, horses, if s.saved then [] + [s.horses] else [], []);
  }

  /** An entry not yet done whose page is fetched and merges into `h` stores `h` at its place. */
  lemma FetchedStep(args: Args, horses: seq<HorseRecord>, i: nat, entry: ToplineData, fetch: Fetch, h: HorseRecord)
    requires !Done(args, horses, i) && HasUrl(entry) && fetch.Fetched? && Merged(entry, fetch.details) == Some(h)
    ensures StepOf(args, horses, i, entry, fetch).horses == Store(horses, i, h)
    ensures !StepOf(args, horses, i, entry, fetch).interrupted
  {
  }

  /** The second entry's page is fetched and merged into `h`. */
  lemma SecondEntryStored(args: Args, entries: seq<ToplineData>, fetch: nat -> Fetch, h: HorseRecord)
    requires |entries| == 2 && HasUrl(entries[1]) && fetch(1).Fetched? && Merged(entries[1], fetch(1).details) == Some(h)
    ensures CrawlFrom(args, entries, fetch, 1, [], []).horses == [h]
  {
    FetchedStep(args, [], 1, entries[1], fetch(1), h);
  }

  /** On a fresh run an entry whose detail URL is missing adds nothing, so the records of later
      entries shift down: here the record of the second entry lands at index 0 (main.py:174-188). */
  lemma FreshRunShifts(args: Args, e0: ToplineData, e1: ToplineData, fetch: nat -> Fetch, h: HorseRecord)
    requires !HasUrl(e0) && HasUrl(e1) && fetch(1).Fetched? && Merged(e1, fetch(1).details) == Some(h)
    ensures CrawlFrom(args, [e0, e1], fetch, 0, [], []).horses == [h]
  {
    NoUrlPassesOn(args, [e0, e1], fetch, 0, []);
    SecondEntryStored(args, [e0, e1], fetch, h);
  }

  /** The exits after the gate: status 0 with the output, or 1 with a last checkpoint when a path
      is set; no checkpoint without a path; every checkpoint well-formed. */
  predicate ProperExit(args: Args, e: Exit)
  {
    (e.status == 0 || e.status == 1) && (e.output.Some? <==> e.status == 0) &&
    (e.status == 1 && args.checkpoint != "" ==> e.saves != []) &&
    (args.checkpoint == "" ==> e.saves == []) &&
    forall j :: 0 <= j < |e.saves| ==> AllWellFormed(e.saves[j])
  }

  lemma FinishExit(args: Args, entries: seq<ToplineData>, fetch: nat -> Fetch, horses: seq<HorseRecord>)
    requires AllWellFormed(horses)
    ensures ProperExit(args, Finish(args, entries, fetch, horses))
  {
    CrawlSaves(args, entries, fetch, 0, horses, []);
    CrawlWellFormed(args, entries, fetch, 0, horses, []);
  }

  lemma ScrapeExit(args: Args, stored: Option<seq<Kwargs>>, card: Card, fetch: nat -> Fetch)
    requires ValidArgs(args)
    ensures ProperExit(args, Scrape(args, stored, card, fetch))
  {
    var loaded := Loaded(args, stored);
    LoadedWellFormed(args, stored);
    if loaded == [] {
      if card.Entries? {
        FinishExit(args, card.entries, fetch, []);
      }
    } else {
      ResumeFromSpec(loaded, 0, []);
      FinishExit(args, ResumeFrom(loaded, 0, []).value, fetch, loaded);
    }
  }

  /** How a run ends: a course or race number click cannot convert exits 2, and an invalid date or
      race number exits 1, both before anything is read or written; otherwise the run exits 0 with
      the output written, or 1 with nothing written but, when a path is set, a last checkpoint
      holding the records of that moment.  Without a path no checkpoint is written, and every
      checkpoint written loads back to the records it holds. */
  lemma ExitSpec(args: Args, stored: Option<seq<Kwargs>>, card: Card, fetch: nat -> Fetch)
    ensures var e := Scrape(args, stored, card, fetch);
      (e.status == 0 || e.status == 1 || e.status == 2) &&
      (e.output.Some? <==> e.status == 0) &&
      (e.status == 2 <==> !ClickAccepts(args)) &&
      (!ValidArgs(args) ==> e.status != 0 && e.saves == []) &&
      (ValidArgs(args) && e.status == 1 && args.checkpoint != "" ==> e.saves != []) &&
      (args.checkpoint == "" ==> e.saves == []) &&
      (forall j :: 0 <= j < |e.saves| ==> LoadCheckpoint(SaveCheckpoint(e.saves[j])) == e.saves[j])
  {
    var e := Scrape(args, stored, card, fetch);
    if ValidArgs(args) {
      ScrapeExit(args, stored, card, fetch);
      forall j | 0 <= j < |e.saves|
        ensures LoadCheckpoint(SaveCheckpoint(e.saves[j])) == e.saves[j]
      {
        CheckpointRoundTrip(e.saves[j]);
      }
    }
  }

  /** Once click has accepted `--course`, the course check of `main` (main.py:104-106) always
      passes, so no course makes the run exit 1. */
  lemma CourseGatePasses(args: Args)
    requires ClickAccepts(args)
    ensures ValidArgs(args) <==>
      Validate.ValidateDateFormat(args.date) && Validate.ValidateRaceNumber(args.raceno.value)
  {
  }
}
