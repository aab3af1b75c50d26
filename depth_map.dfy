/**
 * The depth-map program as a whole: choose the jobs from the command line,
 * then, for each job in order, load its point cloud, skip the job if that
 * fails, and otherwise build the camera's matrix and write one picture.
 *
 * Rendering and `cv::imwrite` are represented by their inputs: the picture
 * written is recorded with its path, the matrix it was rendered with and
 * the vertex vector uploaded for it. The window, context, framebuffer and
 * shader set-up that precedes the batch is not modelled.
 */
module DepthMap {
  import opened Wrappers
  import opened Calibration
  import opened Matrices
  import opened PointCloud
  import opened ProjectionCache
  import opened Jobs

  /** `(int)(1920*scale)` and `(int)(1080*scale)` with the scale 0.2. */
  const Width: int := 384
  const Height: int := 216

  /** What the program can see of the files it is pointed at. */
  datatype FileSystem = FileSystem(
    plys: string -> PlySource,           // what the rply library makes of each path
    calibs: string -> CalibDoc,          // what JsonCpp makes of each path
    lists: string -> Option<string>)     // the contents of each list file, None when `fopen` fails

  /**
   * One picture written with `cv::imwrite`: its path, the MVP uniform, and
   * the vertex vector uploaded with `glBufferData`. (`glDrawArrays` is asked
   * for as many vertices as the vector has floats, three times the points it
   * holds; what that draws is not modelled.)
   */
  datatype Picture = Picture(path: string, mvp: Mat4, points: seq<real>)

  /** How a run ends. */
  datatype Outcome =
    | UsageExit                          // wrong argument count: usage message, exit status -1
    | NoListFile                         // the list file cannot be opened (`fscanf` on a null stream)
    | Finished(pictures: seq<Picture>)   // every job was attempted; these pictures were written

  /** The paths of the pictures, in the order they were written. */
  function Paths(pictures: seq<Picture>): seq<string>
    decreases |pictures|
  {
    if pictures == [] then [] else Paths(pictures[..|pictures| - 1]) + [pictures[|pictures| - 1].path]
  }

  /** The output paths of the jobs whose point cloud loads, in job order. */
  function ExpectedPaths(jobs: seq<Job>, plys: string -> PlySource): seq<string>
    decreases |jobs|
  {
    if jobs == [] then []
    else
      var last := jobs[|jobs| - 1];
      ExpectedPaths(jobs[..|jobs| - 1], plys) + (if ReadSucceeds(plys(last.plyName)) then [last.pngName] else [])
  }

  /** A picture's uploaded vertex vector: whole triples, each of which passes the crop. */
  predicate Cropped(points: seq<real>) {
    |points| % 3 == 0 && forall p | p in Triples(points) :: Keep(p)
  }

  /**
   * A matrix getMVP can hand to the renderer in this program: the matrix
   * `cache_mvp` starts with, or the matrix of some camera record at the
   * program's image size.
   */
  ghost predicate Rendered(m: Mat4, initial: Mat4) {
    m == initial || exists cam: CameraRecord :: m == ProgramMvp(cam)
  }

  /** getMVP's matrix for a record at the program's image size. */
  function ProgramMvp(cam: CameraRecord): Mat4 {
    Mvp(cam, Width as real, Height as real)
  }

  /** A picture as the batch writes it: a cropped vertex vector uploaded with a matrix getMVP can produce. */
  ghost predicate Drawable(picture: Picture, initial: Mat4) {
    Cropped(picture.points) && Rendered(picture.mvp, initial)
  }

  /** Every matrix the builder has built was for the program's image size. */
  ghost predicate AtProgramSize(builder: Builder)
    reads builder
  {
    builder.builtFrom.Some? ==> builder.builtFrom.value.1 == Width as real && builder.builtFrom.value.2 == Height as real
  }

  /** What one job hands to the next: the partial triple in the point buffer and getMVP's statics. */
  datatype Carry = Carry(pending: seq<real>, cache: Cache)

  /**
   * One pass of the job loop on values. The file's values are fed behind the
   * partial triple; if the read fails nothing is written and the statics are
   * untouched; otherwise getMVP runs at the program's image size and one
   * picture is written with the uploaded vertex vector.
   */
  function JobStep(job: Job, fs: FileSystem, carry: Carry): (Option<Picture>, Carry) {
    var source := fs.plys(job.plyName);
    var values := carry.pending + Delivered(source);
    if !ReadSucceeds(source) then (None, Carry(Leftover(values), carry.cache))
    else
      var (cache, mvp) := Lookup(carry.cache, job.calibFile, fs.calibs, job.panel, job.camera, Width, Height);
      (Some(Picture(job.pngName, mvp, Kept(values))), Carry(Leftover(values), cache))
  }

  /** The pictures of one pass: none or one. */
  function Written(picture: Option<Picture>): seq<Picture> {
    if picture.Some? then [picture.value] else []
  }

  /** The job loop on values: the pictures written, in order, and what is left for a later job. */
  function Batch(jobs: seq<Job>, fs: FileSystem, carry: Carry): (seq<Picture>, Carry)
    decreases |jobs|
  {
    if jobs == [] then ([], carry)
    else
      var (pictures, c) := Batch(jobs[..|jobs| - 1], fs, carry);
      var (picture, c1) := JobStep(jobs[|jobs| - 1], fs, c);
      (pictures + Written(picture), c1)
  }

  /**
   * One pass of the batch loop: `read_ply`; on failure nothing is drawn and
   * the job is skipped; otherwise getMVP at the program's image size, and
   * one picture under the job's output name.
   */
  method RunJob(job: Job, fs: FileSystem, loader: Loader, builder: Builder) returns (picture: Option<Picture>)
    requires loader.Valid() && builder.Valid() && AtProgramSize(builder)
    modifies loader, loader.buf, builder
    ensures loader.Valid() && builder.Valid() && AtProgramSize(builder) && loader.buf == old(loader.buf)
    ensures (picture, Carry(loader.Pending(), builder.Snapshot()))
         == JobStep(job, fs, Carry(old(loader.Pending()), old(builder.Snapshot())))
    ensures loader.vertices == Kept(old(loader.Pending()) + Delivered(fs.plys(job.plyName)))
    ensures picture.Some? <==> ReadSucceeds(fs.plys(job.plyName))
    ensures picture.Some? ==> picture.value.path == job.pngName && Drawable(picture.value, builder.initialMvp)
  {
    ghost var pending := loader.Pending();
    var status := loader.ReadPly(fs.plys(job.plyName));
    if status != 0 {
      return None;
    }
    var mvp := builder.GetMVP(job.calibFile, fs.calibs, job.panel, job.camera, Width, Height);
    assert mvp == builder.cachedMvp;
    CachedRendered(builder);
    KeptCropped(pending + Delivered(fs.plys(job.plyName)));
    picture := Some(Picture(job.pngName, mvp, loader.vertices));
  }

  /** The batch loop of main: every job in order, each skipped or drawn on its own. */
  method RunJobs(jobs: seq<Job>, fs: FileSystem, loader: Loader, builder: Builder) returns (pictures: seq<Picture>)
    requires loader.Valid() && builder.Valid() && AtProgramSize(builder)
    modifies loader, loader.buf, builder
    ensures loader.Valid() && builder.Valid() && AtProgramSize(builder)
    ensures (pictures, Carry(loader.Pending(), builder.Snapshot()))
         == Batch(jobs, fs, Carry(old(loader.Pending()), old(builder.Snapshot())))
    ensures Paths(pictures) == ExpectedPaths(jobs, fs.plys)
    ensures forall i | 0 <= i < |pictures| :: Drawable(pictures[i], builder.initialMvp)
  {
    ghost var start := Carry(loader.Pending(), builder.Snapshot());
    pictures := [];
    for n := 0 to |jobs|
      invariant loader.Valid() && builder.Valid() && AtProgramSize(builder) && loader.buf == old(loader.buf)
      invariant (pictures, Carry(loader.Pending(), builder.Snapshot())) == Batch(jobs[..n], fs, start)
      invariant forall i | 0 <= i < |pictures| :: Drawable(pictures[i], builder.initialMvp)
    {
      assert jobs[..n + 1][..n] == jobs[..n] && jobs[..n + 1][n] == jobs[n];
      var picture := RunJob(jobs[n], fs, loader, builder);
      pictures := pictures + Written(picture);
    }
    assert jobs[..|jobs|] == jobs;
    BatchPaths(jobs, fs, start);
  }

  /** The jobs main runs, when it gets as far as running any. */
  function Commands(args: seq<string>, fs: FileSystem): Option<seq<Job>> {
    match SelectMode(args)
    case Usage => None
    case Single(job) => Some([job])
    case ListFile(path) =>
      match fs.lists(path)
      case None => None
      case Some(contents) => Some(ScanJobs(contents, Unset))
  }

  /**
   * main: select the jobs, then run them with the program's globals in their
   * initial state; `initial` is the value of a default-constructed `glm::mat4`.
   */
  method Run(args: seq<string>, fs: FileSystem, initial: Mat4) returns (outcome: Outcome)
    ensures SelectMode(args).Usage? <==> outcome == UsageExit
    ensures outcome == NoListFile <==> SelectMode(args).ListFile? && fs.lists(args[1]).None?
    ensures outcome.Finished? <==> Commands(args, fs).Some?
    ensures outcome.Finished? ==>
      outcome.pictures == Batch(Commands(args, fs).value, fs, Carry([], InitialCache(initial))).0
    ensures outcome.Finished? ==> Paths(outcome.pictures) == ExpectedPaths(Commands(args, fs).value, fs.plys)
    ensures outcome.Finished? ==> forall i | 0 <= i < |outcome.pictures| :: Drawable(outcome.pictures[i], initial)
  {
    var mode := SelectMode(args);
    var jobs: seq<Job>;
    if mode.Usage? {
      return UsageExit;
    } else if mode.Single? {
      jobs := [mode.job];
    } else {
      var contents := fs.lists(mode.path);
      if contents.None? {
        return NoListFile;
      }
      jobs := ReadJobList(contents.value);
    }
    var loader := new Loader();
    var builder := new Builder(initial);
    var pictures := RunJobs(jobs, fs, loader, builder);
    return Finished(pictures);
  }

  // ----- Properties of the batch

  /** A list file written out from `jobs` makes main run exactly those jobs. */
  lemma ListedCommands(args: seq<string>, fs: FileSystem, jobs: seq<Job>)
    requires |args| == 2
    requires forall i | 0 <= i < |jobs| :: Listable(jobs[i])
    requires fs.lists(args[1]) == Some(FormatJobs(jobs))
    ensures Commands(args, fs) == Some(jobs)
  {
    ScanFormatJobs(jobs, Unset);
  }

  /** The pictures of two batches run one after the other are those of each, in order. */
  lemma {:induction false} ExpectedPathsAppend(a: seq<Job>, b: seq<Job>, plys: string -> PlySource)
    ensures ExpectedPaths(a + b, plys) == ExpectedPaths(a, plys) + ExpectedPaths(b, plys)
    decreases |b|
  {
    if b == [] {
      assert a + b == a;
    } else {
      var init, last := b[..|b| - 1], b[|b| - 1];
      assert (a + b)[..|a + b| - 1] == a + init;
      ExpectedPathsAppend(a, init, plys);
      ConcatAssoc(ExpectedPaths(a, plys), ExpectedPaths(init, plys),
                  if ReadSucceeds(plys(last.plyName)) then [last.pngName] else []);
    }
  }

  /** A job whose point cloud fails to load writes nothing and does not stop the jobs after it. */
  lemma FailedJobIsSkipped(before: seq<Job>, job: Job, after: seq<Job>, plys: string -> PlySource)
    requires !ReadSucceeds(plys(job.plyName))
    ensures ExpectedPaths(before + [job] + after, plys) == ExpectedPaths(before, plys) + ExpectedPaths(after, plys)
  {
    ExpectedPathsAppend(before + [job], after, plys);
    assert (before + [job])[..|before|] == before;
  }

  /** A path is written exactly when some job with a loadable point cloud names it. */
  lemma {:induction false} ExpectedPathsMembers(jobs: seq<Job>, plys: string -> PlySource, path: string)
    ensures path in ExpectedPaths(jobs, plys)
      <==> exists i | 0 <= i < |jobs| :: jobs[i].pngName == path && ReadSucceeds(plys(jobs[i].plyName))
    decreases |jobs|
  {
    if jobs != [] {
      var init := jobs[..|jobs| - 1];
      ExpectedPathsMembers(init, plys, path);
      if exists i | 0 <= i < |init| :: init[i].pngName == path && ReadSucceeds(plys(init[i].plyName)) {
        var i :| 0 <= i < |init| && init[i].pngName == path && ReadSucceeds(plys(init[i].plyName));
        assert jobs[i] == init[i];
      }
      if exists i | 0 <= i < |jobs| :: jobs[i].pngName == path && ReadSucceeds(plys(jobs[i].plyName)) {
        var i :| 0 <= i < |jobs| && jobs[i].pngName == path && ReadSucceeds(plys(jobs[i].plyName));
        if i < |init| {
          assert init[i] == jobs[i];
        }
      }
    }
  }

  /** At most one picture per job. */
  lemma {:induction false} ExpectedPathsLength(jobs: seq<Job>, plys: string -> PlySource)
    ensures |ExpectedPaths(jobs, plys)| <= |jobs|
    decreases |jobs|
  {
    if jobs != [] {
      ExpectedPathsLength(jobs[..|jobs| - 1], plys);
    }
  }

  /** The cached matrix of a builder used only at the program's image size is one the renderer may get. */
  lemma CachedRendered(builder: Builder)
    requires builder.Valid() && AtProgramSize(builder)
    ensures Rendered(builder.cachedMvp, builder.initialMvp)
  {
    if builder.builtFrom.Some? {
      var (cam, w, h) := builder.builtFrom.value;
      assert builder.cachedMvp == ProgramMvp(cam);
    }
  }

  /** The pictures the loop writes go to exactly the outputs of the jobs whose point cloud reads. */
  lemma {:induction false} BatchPaths(jobs: seq<Job>, fs: FileSystem, carry: Carry)
    ensures Paths(Batch(jobs, fs, carry).0) == ExpectedPaths(jobs, fs.plys)
    decreases |jobs|
  {
    if jobs != [] {
      var init, job := jobs[..|jobs| - 1], jobs[|jobs| - 1];
      BatchPaths(init, fs, carry);
      var (pictures, c) := Batch(init, fs, carry);
      var picture := JobStep(job, fs, c).0;
      if picture.Some? {
        assert (pictures + [picture.value])[..|pictures|] == pictures;
      } else {
        assert pictures + [] == pictures;
      }
    }
  }

  /**
   * After a job whose point cloud reads, getMVP's cached key is the job's
   * and its cached matrix is the picture's; after one that fails, getMVP's
   * statics are as they were. Either way the buffer keeps the partial triple.
   */
  lemma JobStepState(job: Job, fs: FileSystem, carry: Carry)
    ensures var (picture, c) := JobStep(job, fs, carry);
      && c.pending == Leftover(carry.pending + Delivered(fs.plys(job.plyName)))
      && (picture.Some? ==> c.cache.key == CameraKey(job.panel, job.camera) && picture.value.mvp == c.cache.mvp)
      && (picture.None? ==> c.cache == carry.cache)
  {
  }

  /** The vertex vector the callback leaves behind is always cropped: whole triples that pass the crop. */
  lemma KeptCropped(s: seq<real>)
    ensures Cropped(Kept(s))
  {
    KeptLength(s);
    forall p | p in Triples(Kept(s)) ensures Keep(p) {
      KeptMembers(s, p);
    }
  }
}
