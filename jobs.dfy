/**
 * The jobs of one run of the depth-map program (`struct cmd`) and how main
 * obtains them: from the command line when it has five arguments, from a
 * list file when it has one, and otherwise not at all (the usage message
 * and `exit(-1)`).
 *
 * The list file is read with `fscanf(f, "%s %s %s %d %d\n", ...)` until it
 * returns EOF. The three string buffers and the `cmd` that receives the
 * numbers are declared once, outside the loop, so a conversion that fails
 * leaves the value from the previous line in place, and the job is
 * appended all the same.
 */
module Jobs {
  import opened Wrappers
  import opened CText

  /** `struct cmd`. */
  datatype Job = Job(plyName: string, pngName: string, calibFile: string, panel: int, camera: int)

  /**
   * The buffers and `cmd` before the first line is read. The source leaves
   * them uninitialised; the model fixes them to empty names and zeros.
   */
  const Unset: Job := Job("", "", "", 0, 0)

  /** Outcome of one `fscanf` call on the list file. */
  datatype LineScan =
    | AtEnd                                 // EOF: the input ended before the first conversion
    | Line(job: Job, rest: string)          // at least the first name was read; `rest` is left unread

  /** Store a name in field k of a job, the fields counted in the order the format reads them: 0 to 2 are the names. */
  function SetName(job: Job, k: nat, name: string): Job
    requires k < 3
  {
    if k == 0 then job.(plyName := name)
    else if k == 1 then job.(pngName := name)
    else job.(calibFile := name)
  }

  /** Store a number in field 3 (the panel) or 4 (the camera). */
  function SetNumber(job: Job, k: nat, value: int): Job
    requires 3 <= k < 5
  {
    if k == 3 then job.(panel := value) else job.(camera := value)
  }

  /**
   * The conversions of `"%s %s %s %d %d\n"` from the k-th on, each writing
   * its field of `job`. The first conversion that fails ends the call and
   * leaves the remaining fields as they were; an input failure consumes
   * the rest of the input, which is white space. The trailing "\n"
   * directive, reached only when all five conversions succeed, skips
   * white space.
   */
  function ScanFields(s: string, job: Job, k: nat): (r: (Job, string))
    requires k <= 5
    ensures |r.1| <= |s|
    decreases 5 - k
  {
    if k == 5 then (job, SkipSpaces(s))
    else if k < 3 then
      match ScanString(s)
      case None => (job, [])
      case Some((name, rest)) => ScanFields(rest, SetName(job, k, name), k + 1)
    else
      match ScanIntField(s)
      case IntEnd => (job, [])
      case IntMismatch(rest) => (job, rest)
      case IntRead(value, rest) => ScanFields(rest, SetNumber(job, k, value), k + 1)
  }

  /**
   * One `fscanf(f, "%s %s %s %d %d\n", ...)` starting from the field values
   * `prev`: EOF when the input ends before the first name, otherwise the
   * fields as the conversions leave them.
   */
  function ScanLine(s: string, prev: Job): (r: LineScan)
    ensures r.Line? ==> |r.rest| < |s|
  {
    match ScanString(s)
    case None => AtEnd
    case Some((ply, rest)) =>
      ScanStringReadsToken(s);
      var fields := ScanFields(rest, SetName(prev, 0, ply), 1);
      Line(fields.0, fields.1)
  }

  /** The jobs the fscanf loop appends, starting from the field values `prev`. */
  function ScanJobs(s: string, prev: Job): seq<Job>
    decreases |s|
  {
    match ScanLine(s, prev)
    case AtEnd => []
    case Line(job, rest) => [job] + ScanJobs(rest, job)
  }

  /** The `while (fscanf(...) != EOF)` loop of main over the contents of the list file. */
  method ReadJobList(contents: string) returns (jobs: seq<Job>)
    ensures jobs == ScanJobs(contents, Unset)
  {
    jobs := [];
    var input := contents;
    var c := Unset;
    var scan := ScanLine(input, c);
    while scan.Line?
      invariant scan == ScanLine(input, c)
      invariant jobs + ScanJobs(input, c) == ScanJobs(contents, Unset)
      decreases |input|
    {
      ScanJobsLine(input, c, scan.job, scan.rest);
      ConcatAssoc(jobs, [scan.job], ScanJobs(scan.rest, scan.job));
      c := scan.job;
      input := scan.rest;
      jobs := jobs + [c];
      scan := ScanLine(input, c);
    }
    ScanJobsEnd(input, c);
  }

  /** One `fscanf` call that reads a line contributes its job, then the loop goes on from there. */
  lemma ScanJobsLine(s: string, prev: Job, job: Job, rest: string)
    requires ScanLine(s, prev) == Line(job, rest)
    ensures ScanJobs(s, prev) == [job] + ScanJobs(rest, job)
  {
  }

  /** At EOF the loop stops. */
  lemma ScanJobsEnd(s: string, prev: Job)
    requires ScanLine(s, prev) == AtEnd
    ensures ScanJobs(s, prev) == []
  {
  }

  /** How main obtains its jobs. */
  datatype Mode =
    | Single(job: Job)        // five arguments: one job
    | ListFile(path: string)  // one argument: the path of a list file
    | Usage                   // anything else: print the usage and exit with -1

  /** The decision of main on `argv` (program name included, so `|args|` is `argc`). */
  function SelectMode(args: seq<string>): (m: Mode)
    ensures m.Single? <==> |args| == 6
    ensures m.ListFile? <==> |args| == 2
    ensures m.Single? ==> m.job == Job(args[1], args[2], args[3], Atoi(args[4]), Atoi(args[5]))
    ensures m.ListFile? ==> m.path == args[1]
  {
    if |args| == 6 then Single(Job(args[1], args[2], args[3], Atoi(args[4]), Atoi(args[5])))
    else if |args| == 2 then ListFile(args[1])
    else Usage
  }

  /** The five arguments written out for a job with non-negative numbers select exactly that job. */
  lemma SingleJobArgs(program: string, job: Job)
    requires job.panel >= 0 && job.camera >= 0
    ensures SelectMode([program, job.plyName, job.pngName, job.calibFile, NatString(job.panel), NatString(job.camera)])
      == Single(job)
  {
    AtoiNatString(job.panel, []);
    AtoiNatString(job.camera, []);
    assert NatString(job.panel) + [] == NatString(job.panel);
    assert NatString(job.camera) + [] == NatString(job.camera);
  }

  // ----- Writing a list file, and reading it back

  /** A job a list file can hold: every name a token, both numbers non-negative. */
  predicate Listable(job: Job) {
    IsToken(job.plyName) && IsToken(job.pngName) && IsToken(job.calibFile)
    && job.panel >= 0 && job.camera >= 0
  }

  /** The text of field k of a listed job: a name, or a number as `printf("%d")` writes it. */
  function FieldText(job: Job, k: nat): string
    requires k < 5 && job.panel >= 0 && job.camera >= 0
  {
    if k == 0 then job.plyName
    else if k == 1 then job.pngName
    else if k == 2 then job.calibFile
    else if k == 3 then NatString(job.panel)
    else NatString(job.camera)
  }

  /** The end of a list-file line from field k on: each field after a blank, then the newline. */
  function FormatFrom(job: Job, k: nat): string
    requires k <= 5 && job.panel >= 0 && job.camera >= 0
    decreases 5 - k
  {
    if k == 5 then "\n" else " " + FieldText(job, k) + FormatFrom(job, k + 1)
  }

  /** One line of a list file: the three names and the two numbers, blank-separated. */
  function FormatLine(job: Job): string
    requires Listable(job)
  {
    job.plyName + FormatFrom(job, 1)
  }

  /** A list file holding `jobs`, one per line. */
  function FormatJobs(jobs: seq<Job>): string
    requires forall i | 0 <= i < |jobs| :: Listable(jobs[i])
  {
    if jobs == [] then [] else FormatLine(jobs[0]) + FormatJobs(jobs[1..])
  }

  /** The fields of `job` before field k, and those of `prev` from k on. */
  function Upto(job: Job, prev: Job, k: nat): Job {
    Job(if 0 < k then job.plyName else prev.plyName,
        if 1 < k then job.pngName else prev.pngName,
        if 2 < k then job.calibFile else prev.calibFile,
        if 3 < k then job.panel else prev.panel,
        if 4 < k then job.camera else prev.camera)
  }

  /** The conversions from field k on read back the rest of a formatted line. */
  lemma {:induction false} ScanFormatFrom(job: Job, prev: Job, k: nat, rest: string)
    requires Listable(job) && 1 <= k <= 5
    requires StartsUnskippable(rest)
    ensures ScanFields(FormatFrom(job, k) + rest, Upto(job, prev, k), k) == (job, rest)
    decreases 5 - k
  {
    if k == 5 {
      SkipSpacesPrefix("\n", rest);
    } else {
      var t := FormatFrom(job, k + 1) + rest;
      ConcatAssoc(" " + FieldText(job, k), FormatFrom(job, k + 1), rest);
      assert EndsToken(t) by {
        assert t[0] == FormatFrom(job, k + 1)[0];
      }
      ScanFormatField(job, prev, k, t);
      ScanFormatFrom(job, prev, k + 1, rest);
    }
  }

  /** One conversion reads back its blank-prefixed field and stores it. */
  lemma ScanFormatField(job: Job, prev: Job, k: nat, t: string)
    requires Listable(job) && k < 5
    requires EndsToken(t)
    ensures ScanFields(" " + FieldText(job, k) + t, Upto(job, prev, k), k)
         == ScanFields(t, Upto(job, prev, k + 1), k + 1)
  {
    var field := FieldText(job, k);
    if k < 3 {
      ScanStringToken(" ", field, t);
      assert SetName(Upto(job, prev, k), k, field) == Upto(job, prev, k + 1);
      ScanNameStep(" " + field + t, Upto(job, prev, k), k, field, t);
    } else {
      var n := if k == 3 then job.panel else job.camera;
      assert field == NatString(n);
      ScanIntFieldNat(" ", n, t);
      assert SetNumber(Upto(job, prev, k), k, n) == Upto(job, prev, k + 1);
      ScanNumberStep(" " + field + t, Upto(job, prev, k), k, n, t);
    }
  }

  lemma ScanNameStep(s: string, job: Job, k: nat, name: string, t: string)
    requires k < 3 && ScanString(s) == Some((name, t))
    ensures ScanFields(s, job, k) == ScanFields(t, SetName(job, k, name), k + 1)
  {
  }

  lemma ScanNumberStep(s: string, job: Job, k: nat, n: int, t: string)
    requires 3 <= k < 5 && ScanIntField(s) == IntRead(n, t)
    ensures ScanFields(s, job, k) == ScanFields(t, SetNumber(job, k, n), k + 1)
  {
  }

  /** A formatted line is read back whole, whatever the previous fields were. */
  lemma ScanFormatLine(job: Job, rest: string, prev: Job)
    requires Listable(job)
    requires StartsUnskippable(rest)
    ensures ScanLine(FormatLine(job) + rest, prev) == Line(job, rest)
  {
    var t := FormatFrom(job, 1) + rest;
    assert FormatLine(job) + rest == [] + job.plyName + t;
    assert t[0] == ' ';
    ScanStringToken([], job.plyName, t);
    assert SetName(prev, 0, job.plyName) == Upto(job, prev, 1);
    ScanFormatFrom(job, prev, 1, rest);
  }

  /** Listing jobs and reading the list back yields the same jobs: nothing stale shows through. */
  lemma {:induction false} ScanFormatJobs(jobs: seq<Job>, prev: Job)
    requires forall i | 0 <= i < |jobs| :: Listable(jobs[i])
    ensures ScanJobs(FormatJobs(jobs), prev) == jobs
    decreases |jobs|
  {
    if jobs == [] {
      assert ScanLine([], prev) == AtEnd by {
        assert ScanString([]) == None;
      }
      ScanJobsEnd([], prev);
    } else {
      var tail := jobs[1..];
      assert forall i | 0 <= i < |tail| :: Listable(tail[i]) by {
        forall i | 0 <= i < |tail| ensures Listable(tail[i]) {
          assert tail[i] == jobs[i + 1];
        }
      }
      var rest := FormatJobs(tail);
      FormatJobsStart(tail);
      ScanFormatLine(jobs[0], rest, prev);
      ScanJobsLine(FormatJobs(jobs), prev, jobs[0], rest);
      ScanFormatJobs(tail, jobs[0]);
      assert jobs == [jobs[0]] + tail;
    }
  }

  /** A list file starts with a ply name, if with anything. */
  lemma FormatJobsStart(jobs: seq<Job>)
    requires forall i | 0 <= i < |jobs| :: Listable(jobs[i])
    ensures StartsUnskippable(FormatJobs(jobs))
  {
    if jobs != [] {
      assert Listable(jobs[0]);
      assert FormatJobs(jobs)[0] == jobs[0].plyName[0];
    }
  }

  /**
   * A line holding only a name yields a job with that ply name and every
   * other field as the line before left it, and then the list ends.
   */
  lemma ShortLineKeepsFields(name: string, prev: Job)
    requires IsToken(name)
    ensures ScanJobs(name, prev) == [prev.(plyName := name)]
  {
    ScanStringToken([], name, []);
    assert [] + name + [] == name;
    assert ScanString([]) == None;
  }
}
