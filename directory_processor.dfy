/**
 * `process_directory`: visit the files of each supported extension in turn,
 * parse each base name, and count successes and failures.
 *
 * File enumeration is given as input: `globbed[k]` holds the base names that
 * the directory listing returned for the k-th extension pattern, in listing
 * order. Setting a file's times is an oracle, `updateOk(name, dt)`, standing
 * for the boolean result of `update_file_modification_time`. A `ValueError`
 * raised while parsing is not caught anywhere, so it ends the scan: the
 * outcome is then `Aborted`, and no tally is returned.
 */
module DirectoryProcessor {
  import opened Calendar
  import opened FilenameParser

  /** The glob patterns, in the order the outer loop visits them. */
  const FILE_EXTENSIONS: seq<string> := ["*.mp4", "*.mov", "*.avi", "*.mkv", "*.jpg"]

  datatype Tally = Tally(success: nat, failure: nat)

  /** A finished scan's counts, or the `ValueError` that escaped it. */
  datatype Outcome = Completed(tally: Tally) | Aborted(name: string, error: CalendarError)

  /** The file was parsed to a timestamp and its times were set. */
  predicate Updated(name: string, updateOk: (string, DateTime) -> bool)
  {
    var r := ParseFilename(name);
    r.Found? && updateOk(name, r.dt)
  }

  /**
   * One file of the inner loop: a timestamp whose update succeeds counts as a
   * success; a failed update and a name without a token count as failures;
   * an out-of-range token raises.
   */
  function Visit(t: Tally, name: string, updateOk: (string, DateTime) -> bool): (r: Outcome)
    ensures r.Aborted? <==> ParseFilename(name).Invalid?
    ensures r.Aborted? ==> r.name == name && r.error == ParseFilename(name).error
    ensures r.Completed? && Updated(name, updateOk) ==> r.tally == Tally(t.success + 1, t.failure)
    ensures r.Completed? && !Updated(name, updateOk) ==> r.tally == Tally(t.success, t.failure + 1)
  {
    match ParseFilename(name)
    case Found(dt) =>
      if updateOk(name, dt) then Completed(Tally(t.success + 1, t.failure))
      else Completed(Tally(t.success, t.failure + 1))
    case NotFound => Completed(Tally(t.success, t.failure + 1))
    case Invalid(e) => Aborted(name, e)
  }

  /** The scan from tally `t` over `names`, visited from first to last. */
  function Scan(t: Tally, names: seq<string>, updateOk: (string, DateTime) -> bool): Outcome
    decreases |names|
  {
    if names == [] then Completed(t)
    else
      match Visit(t, names[0], updateOk)
      case Completed(t') => Scan(t', names[1..], updateOk)
      case Aborted(name, e) => Aborted(name, e)
  }

  /** The listing's groups, one after another. */
  function Flatten(groups: seq<seq<string>>): seq<string>
    decreases |groups|
  {
    if groups == [] then [] else groups[0] + Flatten(groups[1..])
  }

  /** The number of names whose timestamp was found and applied. */
  function CountUpdated(names: seq<string>, updateOk: (string, DateTime) -> bool): nat
    decreases |names|
  {
    if names == [] then 0
    else (if Updated(names[0], updateOk) then 1 else 0) + CountUpdated(names[1..], updateOk)
  }

  /**
   * `process_directory(directory, verbose)`. The verbosity level only selects
   * what is printed, and the outcome does not depend on it.
   */
  method ProcessDirectory(globbed: seq<seq<string>>, verbose: nat,
                          updateOk: (string, DateTime) -> bool) returns (r: Outcome)
    requires |globbed| == |FILE_EXTENSIONS|
    ensures r == Scan(Tally(0, 0), Flatten(globbed), updateOk)
  {
    var successCount: nat, failureCount: nat := 0, 0;
    ghost var total := Scan(Tally(0, 0), Flatten(globbed), updateOk);
    for k := 0 to |FILE_EXTENSIONS|
      invariant Scan(Tally(successCount, failureCount), Flatten(globbed[k..]), updateOk) == total
    {
      assert Flatten(globbed[k..]) == globbed[k] + Flatten(globbed[k + 1..]) by {
        assert globbed[k..][1..] == globbed[k + 1..];
      }
      ScanAppend(Tally(successCount, failureCount), globbed[k], Flatten(globbed[k + 1..]), updateOk);
      var outcome := ProcessFiles(globbed[k], successCount, failureCount, updateOk);
      match outcome
      case Completed(t) =>
        successCount, failureCount := t.success, t.failure;
      case Aborted(_, _) =>
        return outcome;
    }
    return Completed(Tally(successCount, failureCount));
  }

  /**
   * The inner loop of `process_directory` over the files one pattern
   * matched, starting from the counts so far: the scan of those files.
   */
  method ProcessFiles(names: seq<string>, successCount0: nat, failureCount0: nat,
                      updateOk: (string, DateTime) -> bool) returns (r: Outcome)
    ensures r == Scan(Tally(successCount0, failureCount0), names, updateOk)
  {
    var successCount, failureCount := successCount0, failureCount0;
    for j := 0 to |names|
      invariant Scan(Tally(successCount, failureCount), names[j..], updateOk)
             == Scan(Tally(successCount0, failureCount0), names, updateOk)
    {
      var name := names[j];
      ghost var before := Tally(successCount, failureCount);
      assert names[j..][0] == name && names[j..][1..] == names[j + 1..];
      var dt := ParseFilename(name);
      match dt {
        case Found(timestamp) =>
          if updateOk(name, timestamp) {
            successCount := successCount + 1;
          } else {
            failureCount := failureCount + 1;
          }
        case NotFound =>
          failureCount := failureCount + 1;
        case Invalid(e) =>
          ScanInvalid(before, names[j..], updateOk, e);
          return Aborted(name, e);
      }
      ScanAdvances(before, names[j..], updateOk, Tally(successCount, failureCount));
    }
    return Completed(Tally(successCount, failureCount));
  }

  /** Scanning two lists one after the other is scanning their concatenation. */
  lemma {:induction false} ScanAppend(t: Tally, names: seq<string>, later: seq<string>,
                                      updateOk: (string, DateTime) -> bool)
    decreases |names|
    ensures Scan(t, names + later, updateOk)
         == match Scan(t, names, updateOk)
            case Completed(t') => Scan(t', later, updateOk)
            case Aborted(name, e) => Aborted(name, e)
  {
    if names == [] {
      assert names + later == later;
    } else {
      assert (names + later)[0] == names[0] && (names + later)[1..] == names[1..] + later;
      match Visit(t, names[0], updateOk)
      case Completed(t') => ScanAppend(t', names[1..], later, updateOk);
      case Aborted(_, _) =>
    }
  }

  /** A first file that leaves tally `t'` lets the scan go on from `t'` over the rest. */
  lemma ScanAdvances(t: Tally, names: seq<string>, updateOk: (string, DateTime) -> bool, t': Tally)
    requires names != [] && Visit(t, names[0], updateOk) == Completed(t')
    ensures Scan(t, names, updateOk) == Scan(t', names[1..], updateOk)
  {
  }

  /** A first file with an out-of-range token ends the scan with its name and error. */
  lemma ScanInvalid(t: Tally, names: seq<string>, updateOk: (string, DateTime) -> bool, e: CalendarError)
    requires names != [] && ParseFilename(names[0]) == Invalid(e)
    ensures Scan(t, names, updateOk) == Aborted(names[0], e)
  {
  }

  /** Every visited file adds exactly one to exactly one counter. */
  lemma {:induction false} ScanCountsEveryFile(t: Tally, names: seq<string>,
                                               updateOk: (string, DateTime) -> bool)
    requires Scan(t, names, updateOk).Completed?
    decreases |names|
    ensures var u := Scan(t, names, updateOk).tally;
      u.success + u.failure == t.success + t.failure + |names|
  {
    if names != [] {
      ScanCountsEveryFile(Visit(t, names[0], updateOk).tally, names[1..], updateOk);
    }
  }

  /** The success count grows by exactly the files whose timestamp was found and applied. */
  lemma {:induction false} ScanCountsSuccesses(t: Tally, names: seq<string>,
                                               updateOk: (string, DateTime) -> bool)
    requires Scan(t, names, updateOk).Completed?
    decreases |names|
    ensures Scan(t, names, updateOk).tally.success == t.success + CountUpdated(names, updateOk)
  {
    if names != [] {
      ScanCountsSuccesses(Visit(t, names[0], updateOk).tally, names[1..], updateOk);
    }
  }

  /** The scan aborts exactly when some name holds an out-of-range token, and
      then it reports the first such name and its error. */
  lemma {:induction false} ScanAbortsAtFirstInvalid(t: Tally, names: seq<string>,
                                                    updateOk: (string, DateTime) -> bool)
    ensures Scan(t, names, updateOk).Aborted? <==>
      exists i :: 0 <= i < |names| && ParseFilename(names[i]).Invalid?
    ensures Scan(t, names, updateOk).Aborted? ==>
      exists i :: 0 <= i < |names|
        && ParseFilename(names[i]).Invalid?
        && Scan(t, names, updateOk) == Aborted(names[i], ParseFilename(names[i]).error)
        && forall j :: 0 <= j < i ==> !ParseFilename(names[j]).Invalid?
    decreases |names|
  {
    if names != [] {
      match Visit(t, names[0], updateOk)
      case Aborted(_, _) =>
        assert ParseFilename(names[0]).Invalid?;
      case Completed(t') =>
        ScanAbortsAtFirstInvalid(t', names[1..], updateOk);
        if Scan(t, names, updateOk).Aborted? {
          var i :| 0 <= i < |names[1..]|
            && ParseFilename(names[1..][i]).Invalid?
            && Scan(t', names[1..], updateOk) == Aborted(names[1..][i], ParseFilename(names[1..][i]).error)
            && forall j :: 0 <= j < i ==> !ParseFilename(names[1..][j]).Invalid?;
          assert forall j :: 0 <= j < i + 1 ==> !ParseFilename(names[j]).Invalid? by {
            forall j | 0 <= j < i + 1
              ensures !ParseFilename(names[j]).Invalid?
            {
              if j > 0 {
                assert names[j] == names[1..][j - 1];
              }
            }
          }
        } else {
          forall i | 0 <= i < |names|
            ensures !ParseFilename(names[i]).Invalid?
          {
            if i > 0 {
              assert names[i] == names[1..][i - 1];
            }
          }
        }
    }
  }

  /** Without an out-of-range token, the scan completes. */
  lemma ScanCompletesWithoutInvalid(names: seq<string>, updateOk: (string, DateTime) -> bool)
    requires forall i :: 0 <= i < |names| ==> !ParseFilename(names[i]).Invalid?
    ensures Scan(Tally(0, 0), names, updateOk).Completed?
  {
    ScanAbortsAtFirstInvalid(Tally(0, 0), names, updateOk);
  }

  /** The tally of a completed run: successes are the files updated, failures
      all the other files. */
  lemma TallyOfCompletedRun(globbed: seq<seq<string>>, updateOk: (string, DateTime) -> bool)
    requires Scan(Tally(0, 0), Flatten(globbed), updateOk).Completed?
    ensures var u := Scan(Tally(0, 0), Flatten(globbed), updateOk).tally;
      && u.success == CountUpdated(Flatten(globbed), updateOk)
      && u.failure == |Flatten(globbed)| - CountUpdated(Flatten(globbed), updateOk)
  {
    ScanCountsEveryFile(Tally(0, 0), Flatten(globbed), updateOk);
    ScanCountsSuccesses(Tally(0, 0), Flatten(globbed), updateOk);
  }

  lemma FlattenDocumentedListing(video1: string, video2: string, video3: string, photo: string)
    ensures Flatten([[video1, video2, video3], [], [], [], [photo]]) == [video1, video2, video3, photo]
  {
    var globbed := [[video1, video2, video3], [], [], [], [photo]];
    assert Flatten(globbed[4..]) == [photo] by {
      assert globbed[4..][1..] == [];
    }
    assert Flatten(globbed[3..]) == [photo] by {
      assert globbed[3..][1..] == globbed[4..];
    }
    assert Flatten(globbed[2..]) == [photo] by {
      assert globbed[2..][1..] == globbed[3..];
    }
    assert Flatten(globbed[1..]) == [photo] by {
      assert globbed[1..][1..] == globbed[2..];
    }
  }

  /**
   * A directory with three videos (two with a token, one without) and one
   * photo with a token, where every update succeeds: three successes and one
   * failure. `PxlExampleAnySuffix`, `LvExampleAnySuffix` and `NoTokenExample`
   * give names of each kind.
   */
  lemma DocumentedDirectory(video1: string, video2: string, video3: string, photo: string)
    requires ParseFilename(video1).Found? && ParseFilename(video2).Found?
    requires ParseFilename(video3) == NotFound && ParseFilename(photo).Found?
    ensures Scan(Tally(0, 0), Flatten([[video1, video2, video3], [], [], [], [photo]]),
                 (name: string, dt: DateTime) => true)
         == Completed(Tally(3, 1))
  {
    var ok := (name: string, dt: DateTime) => true;
    var names := [video1, video2, video3, photo];
    FlattenDocumentedListing(video1, video2, video3, photo);
    assert Updated(video1, ok) && Updated(video2, ok) && !Updated(video3, ok) && Updated(photo, ok);
    assert Scan(Tally(3, 1), names[4..], ok) == Completed(Tally(3, 1));
    assert Scan(Tally(2, 1), names[3..], ok) == Completed(Tally(3, 1)) by {
      assert Visit(Tally(2, 1), photo, ok) == Completed(Tally(3, 1));
    }
    assert Scan(Tally(2, 0), names[2..], ok) == Completed(Tally(3, 1)) by {
      assert Visit(Tally(2, 0), video3, ok) == Completed(Tally(2, 1));
    }
    assert Scan(Tally(1, 0), names[1..], ok) == Completed(Tally(3, 1)) by {
      assert Visit(Tally(1, 0), video2, ok) == Completed(Tally(2, 0));
    }
    assert Visit(Tally(0, 0), video1, ok) == Completed(Tally(1, 0));
  }
}
