# depth_map: a verified model of the batch depth-map renderer

`depth_map` renders depth images of a point cloud for the cameras of a multi-camera capture rig. Each run gets a
list of jobs. A job names a PLY point cloud, an output PNG, a JSON calibration file and a (panel, camera)
pair. For every job the program:

1. loads and crops the point cloud (`read_ply` with the callback `vertex_cb`);
2. builds the camera's model-view-projection matrix (`getMVP`), which keeps four static caches;
3. renders the points off-screen and writes one 16-bit PNG.

A job whose point cloud cannot be read is skipped, and the batch goes on.

This project models that core in Dafny and proves properties of the model:

| file | module | what it models |
|---|---|---|
| `wrappers.dfy` | `Wrappers` | `Option` and one sequence lemma |
| `ctext.dfy` | `CText` | the C text routines the program relies on: the `isspace` set, `atoi`, and the `%s`, `%d` and `%02d` conversions of `scanf`, with `printf("%d")` as their inverse |
| `point_cloud.dfy` | `PointCloud` | class `Loader`: `ply_buf`, `ply_buf_c` and `g_vertex_buffer_data` as fields; `vertex_cb` and `read_ply` as methods |
| `calibration.dfy` | `Calibration` | camera records, the `"%02d_%02d"` name key, the `panel*100+camera` key, and the dictionary the load loop fills |
| `matrices.dfy` | `Matrices` | 4×4 matrices; `glm::make_mat4` (column-major) and `glm::transpose`; the `ortho`, `Intrinsic` and `RT` arrays; the MVP and what it does to a point |
| `projection_cache.dfy` | `ProjectionCache` | class `Builder`: getMVP's static variables as fields, getMVP and its load loop as methods, and the `RT_float` fill loop over an array |
| `jobs.dfy` | `Jobs` | `struct cmd`, the choice between one job from the arguments and a list file, and the `fscanf` job-list loop |
| `depth_map.dfy` | `DepthMap` | main: job selection, then the per-job loop of load, skip-or-draw and write |

The model fixes these points of interpretation:

- **A file is a value.** The rply library, JsonCpp and the file system are parameters. A PLY file is what the
  library does with it (`PlySource`). A calibration file is its parsed `cameras` array, or a parse failure
  (`CalibDoc`). A list file is its text, or `None` when `fopen` fails.
- **Coordinates and matrix entries are `real`.** glm matrices are sequences of 16 reals in row-major order.
  `glm::make_mat4` reads its array as columns, so `transpose(make_mat4(a))` is the matrix `a` spells out
  row by row (`TransposeMakeMat4`).
- **The triple buffer carries over.** `read_ply` clears the vertex vector but not `ply_buf_c`. Values left
  over from a read that stopped mid-triple are therefore completed by the next file's first values. Hence
  `ReadPly` is specified against `Pending()`, the buffer it starts from.
- **The cache ignores everything but the key.** getMVP's cache key is `panel*100+camera` alone. A call that
  hits it returns the cached matrix, even when the calibration file or the image size differ.
- **The dictionary outlives its file.** `camera_dict` is never cleared. A key the current file does not list
  renders with the record an earlier file stored under it. Only a key that no file has listed is inserted by
  `camera_dict[key]` as a null JSON value, whose every entry reads as 0; the model inserts `NullRecord` then.
- **Bad list lines still become jobs.** The list-file loop stops only at `EOF`. A line whose conversions fail
  part-way keeps the previous line's values in the fields not yet read, because the buffers and the `cmd`
  live outside the loop. It is appended as a job all the same, and the scan goes on from where that
  conversion stopped.

Four consequences of the code are easy to miss:

- A calibration file that is missing, or fails to parse anywhere except inside a record ahead of its string
  `name`, or a camera the file does not list, does not skip the job. A record cut short after its `name` is
  kept, and its missing entries read as 0. getMVP still caches a matrix under the job's key: from the record an earlier file stored under that key, if any, and
  otherwise from the null record (`Builder.GetMVP`, `ProjectionCache.WithKey`).
- A malformed list line does not end the scan. It is appended with the previous line's values in the fields
  it did not supply, and the scan goes on (`Jobs.ShortLineKeepsFields`).
- `read_ply` does not reset the triple buffer, only the vertex vector (`Loader.ReadPly`).
- `read_ply` fails when the file does not open, when its header does not read, and when its body does not
  read (`PointCloud.ReadSucceeds`).

## Model

| member | source | states |
|---|---|---|
| PointCloud.Loader.VertexCallback | depth_map/main.cpp:47-63 | returns 1 and advances the counter modulo 3; the vertex vector grows by exactly the kept part of the buffered values plus the new one, and the buffer becomes what is left after the last whole triple |
| PointCloud.Loader.constructor | depth_map/main.cpp:43-45 | the globals at program start: an empty vertex vector and an empty triple buffer |
| PointCloud.Keep | depth_map/main.cpp:55 | defines the crop: y < -5 and x²+z² < 45000 |
| PointCloud.Kept | depth_map/main.cpp:51-61 | defines the vertex vector the callback builds from a value stream and an empty buffer: the kept complete triples, flattened, in order |
| PointCloud.Leftover | depth_map/main.cpp:51-54 | defines what the buffer holds after a value stream: the values after its last complete triple |
| PointCloud.Delivered | depth_map/main.cpp:72-77 | defines the values `ply_read` hands to the vertex callback (x, y, z of each vertex in file order): none when the file does not open or its header does not read |
| PointCloud.ReadSucceeds | depth_map/main.cpp:69-79 | defines when `read_ply` returns 0: the file opens, its header reads and `ply_read` succeeds |
| PointCloud.Loader.ReadPly | depth_map/main.cpp:65-80 | returns 0 iff the file opens, its header reads and its body reads; the vertex vector is then the kept triples of the old partial buffer followed by the delivered values, and the buffer keeps their remainder |
| PointCloud.KeptIsFilter | depth_map/main.cpp:53-60 | the triples in the vertex vector are exactly the input's triples that pass the crop, in input order |
| PointCloud.KeptMembers | depth_map/main.cpp:55 | a point is in the vertex vector iff it is an input triple with y < -5 and x²+z² < 45000 |
| PointCloud.FilterMembers | depth_map/main.cpp:55-60 | a point survives the crop iff it was in the input and passes both thresholds |
| PointCloud.KeptLength | depth_map/main.cpp:52-60 | the vertex vector holds whole triples and never more values than the whole triples fed |
| PointCloud.KeptSnoc | depth_map/main.cpp:51-61 | feeding one more value appends only what completing the buffered triple keeps |
| PointCloud.LeftoverSnoc | depth_map/main.cpp:51-54 | the buffer after one more value is the old remainder plus that value, emptied once it makes a triple |
| PointCloud.CropExample | depth_map/main.cpp:55 | of the points (30,-10,40), (30,0,40) and (300,-10,0) only the first is kept |
| CText.SkipSpaces | depth_map/main.cpp:216 | the text left after skipping white space is a suffix that is empty or starts with a non-space |
| CText.IsSpace | depth_map/main.cpp:216 | defines the C-locale `isspace` set that `%s`, `%d` and the white space in the format skip: space, \t, \n, \v, \f, \r |
| CText.ScanString | depth_map/main.cpp:216 | defines `%s`: skip white space, read the run of non-space characters; what it reads and what it leaves make up the text after the skipped white space |
| CText.ScanIntField | depth_map/main.cpp:216 | defines `%d`: skip white space, read a signed decimal number; a read consumes input, a matching failure consumes no more than the input |
| CText.ScanSigned | depth_map/main.cpp:114 | defines the signed-number scan of `%d` and `%02d` within a field width; what it leaves is a suffix of its input, shorter when a number was read |
| CText.Atoi | depth_map/main.cpp:206-207 | defines `atoi`: skip white space and read a signed number, 0 when there is none |
| CText.SkipSpacesSkipsSpaces | depth_map/main.cpp:216 | everything skipped is white space |
| CText.TokenLengthNoSpace | depth_map/main.cpp:216 | the run a `%s` reads contains no white space |
| CText.ScanStringEnd | depth_map/main.cpp:216 | `%s` meets the end of input iff only white space is left |
| CText.ScanStringReadsToken | depth_map/main.cpp:216 | what `%s` reads is non-empty and space-free, and the text after it is empty or starts with white space |
| CText.ScanStringToken | depth_map/main.cpp:216 | after any white space, `%s` reads back exactly a token that ends at white space or the end of input |
| CText.ScanIntFieldEnd | depth_map/main.cpp:216 | `%d` meets the end of input iff only white space is left |
| CText.ScanIntFieldNat | depth_map/main.cpp:216 | after any white space, `%d` reads back a printed natural number that ends at white space or the end of input |
| CText.NatStringValue | depth_map/main.cpp:216 | the decimal digits printed for n have the value n |
| CText.TwoDigitsValue | depth_map/main.cpp:114 | the zero-padded two digits printed for n < 100 have the value n |
| CText.ScanSignedTwoDigits | depth_map/main.cpp:114 | a `%02d` conversion reads back the two digits of n < 100, whatever follows |
| CText.ScanSignedNatString | depth_map/main.cpp:206-207 | the signed-number scan reads back a printed natural number that a non-digit follows |
| CText.AtoiNatString | depth_map/main.cpp:206-207 | `atoi` reads back a printed natural number that a non-digit follows |
| CText.DigitCountPrefix | depth_map/main.cpp:114 | a digit run that a non-digit follows, or that fills the field width, is counted exactly |
| Calibration.Entry | depth_map/main.cpp:125-136 | defines `asFloat` of an array element: its value when present, 0 when absent |
| Calibration.Cameras | depth_map/main.cpp:104-108 | defines the array the load loop visits: the parsed `cameras` records, empty when the parse failed before them or there is no `cameras` member |
| Calibration.CameraKey | depth_map/main.cpp:89 | defines the cache key `panelIdx*100+cameraIdx` |
| Calibration.Store | depth_map/main.cpp:112-115 | defines one pass of the load loop: the record stored under the key its name scans to, nothing stored when the name does not scan |
| Calibration.NameKeyOfCameraName | depth_map/main.cpp:112-115 | a camera name "PP_CC" with panel and camera below 100 scans to the key PP*100+CC, whatever follows it |
| Calibration.NameKey | depth_map/main.cpp:112-115 | defines the key `sscanf(name, "%02d_%02d")` and `pidx*100+cidx` give a record name, None when a conversion fails |
| Calibration.Merge | depth_map/main.cpp:110-121 | defines the dictionary after the load loop has stored each record under its key, in array order |
| Calibration.CameraKeyInjective | depth_map/main.cpp:89-123 | for cameras below 100, equal keys mean the same (panel, camera) pair |
| Calibration.CameraKeyCollision | depth_map/main.cpp:89 | without that bound, (0, 105) and (1, 5) share the cache key |
| Calibration.MergeKeys | depth_map/main.cpp:110-121 | the keys after loading are the old keys plus every key a record name scans to; nothing is removed |
| Calibration.MergeStoresLast | depth_map/main.cpp:110-121 | each key holds the last record of the array whose name scans to it |
| Calibration.MergeKeepsOthers | depth_map/main.cpp:110-121 | a key no record scans to keeps its old record |
| Matrices.MakeMat4 | depth_map/main.cpp:166-174 | defines `glm::make_mat4`: entry (i, j) is `a[4j+i]` (the array read as columns) |
| Matrices.Transpose | depth_map/main.cpp:169-174 | defines `glm::transpose`: entry (i, j) is entry (j, i) |
| Matrices.Mul | depth_map/main.cpp:172-181 | defines the 4×4 product: entry (i, j) is row i times column j |
| Matrices.Apply | depth_map/main.cpp:181 | defines the matrix-vector product: component i is row i times the vector |
| Matrices.OrthoArray | depth_map/main.cpp:156-161 | defines `ortho_float` for l = 0, r = w, b = h, t = 0 and near 0.1, far 1000 |
| Matrices.IntrinsicArray | depth_map/main.cpp:125-128 | defines `Intrinsic_float` from the record's K entries scaled by 0.2 |
| Matrices.PinholeArray | depth_map/main.cpp:162-165 | defines the layout of `Intrinsic_float` for given fx, fy, cx, cy |
| Matrices.RTArray | depth_map/main.cpp:129-138 | defines `RT_float` after its fill loop: R, t and a final row (0, 0, 0, 1) |
| Matrices.ProjectionMatrix | depth_map/main.cpp:166-172 | defines `Projection`: the transposed `make_mat4` of each literal, multiplied |
| Matrices.ViewMatrix | depth_map/main.cpp:174-175 | defines `View`: the transposed `make_mat4` of `RT_float` |
| Matrices.Mvp | depth_map/main.cpp:179-181 | defines `mvp = Projection * View * Model` with the identity as Model |
| Matrices.TransposeMakeMat4 | depth_map/main.cpp:166-174 | transposing `make_mat4` of an array gives the matrix the array spells out row by row |
| Matrices.MulIdentity | depth_map/main.cpp:179-181 | the identity Model factor leaves the product unchanged |
| Matrices.RTArrayLayout | depth_map/main.cpp:129-138 | unfolds `RTArray`: R in the upper left 3×3 block, t in the last column, and (0, 0, 0, 1) as the last row |
| Matrices.ProjectionIsLiteralProduct | depth_map/main.cpp:153-172 | the projection is the ortho literal times the intrinsic literal, both read row by row |
| Matrices.ViewIsRTArray | depth_map/main.cpp:174-175 | the view matrix is the R\|t literal read row by row |
| Matrices.MvpIsLiteralProduct | depth_map/main.cpp:153-181 | the MVP is (ortho · intrinsic) · R\|t, all read row by row |
| Matrices.ApplyMul | depth_map/main.cpp:181 | applying a product applies the right factor, then the left one |
| Matrices.ViewMapsPoint | depth_map/main.cpp:129-175 | the view matrix maps a world point p to the camera-space point R p + t (w = 1) |
| Matrices.ProjectionFactors | depth_map/main.cpp:125-172 | applying getMVP's projection applies the pinhole matrix of the record's intrinsics scaled by 0.2, then the ortho matrix |
| Matrices.ProjectionMapsPoint | depth_map/main.cpp:153-172 | after the perspective divide, a camera-space point with depth z > 0 lands at x = 2(fx·x/z + cx)/w - 1 and y = 1 - 2(fy·y/z + cy)/h, with depth NdcDepth(z) and w = z |
| Matrices.OrthoLayout | depth_map/main.cpp:156-161 | the ortho literal, with l = 0, r = w, b = h and t = 0 substituted |
| Matrices.DepthRange | depth_map/main.cpp:94-165 | the near plane (0.1) maps to depth -1 and the far plane (1000) to +1 |
| Matrices.DepthIncreasing | depth_map/main.cpp:94-165 | normalised depth strictly increases with camera-space depth |
| ProjectionCache.FillRT | depth_map/main.cpp:129-138 | the zero-initialised 16-float array, filled row by row with R and t, then a final 1, is exactly the R\|t layout |
| ProjectionCache.WithKey | depth_map/main.cpp:123 | `camera_dict[key]` leaves the key present; an existing entry is unchanged; a missing one is added as the null record and nothing else changes |
| ProjectionCache.StoreAll | depth_map/main.cpp:110-121 | the load loop leaves the dictionary the records' keys produce, stored in array order |
| ProjectionCache.Loaded | depth_map/main.cpp:98-121 | defines the loading branch on values: the file's records stored on top of the old dictionary |
| ProjectionCache.BuildMvp | depth_map/main.cpp:125-181 | the literals loaded, transposed and multiplied as getMVP does give exactly `Mvp` of the record and size |
| ProjectionCache.Lookup | depth_map/main.cpp:87-186 | defines one getMVP call on the values of its statics: a hit returns them and the cached matrix; a miss loads if the file name changed, looks the key up with `operator[]`, and caches the new MVP under the key |
| ProjectionCache.InitialCache | depth_map/main.cpp:82-85 | defines the four statics' initial values: empty name, empty dictionary, key -1 and the given initial matrix |
| ProjectionCache.LookupRepeated | depth_map/main.cpp:87-92 | right after any call, a call with the same panel and camera returns the same matrix and changes nothing, whatever file and size it passes |
| ProjectionCache.LookupMiss | depth_map/main.cpp:98-123 | a miss leaves the requested key in the dictionary and keeps every old key, caches the key, the file name and the matrix, and returns the MVP of the record now under the key |
| ProjectionCache.Builder.constructor | depth_map/main.cpp:82-85 | empty file name, empty dictionary, key -1, and the given initial matrix as the cached one |
| ProjectionCache.Builder.LoadCalibration | depth_map/main.cpp:98-122 | the file name is remembered and the file's records are stored on top of the dictionary; nothing else changes |
| ProjectionCache.Builder.GetMVP | depth_map/main.cpp:87-186 | a key hit returns the cached matrix and changes nothing; a miss loads the file only if its name differs from the last one, looks the key up (inserting the null record if absent), returns the MVP of that record at the given size, and caches key and matrix; the new statics and the result are `Lookup` of the old statics |
| ProjectionCache.RepeatedCall | depth_map/main.cpp:87-92 | two calls with the same panel and camera return the same matrix, even with a different file and size on the second |
| ProjectionCache.InitialKeyHit | depth_map/main.cpp:84-92 | before any matrix has been built, panel 0 with camera -1 hits the initial key -1 and returns the initial matrix |
| Jobs.SelectMode | depth_map/main.cpp:200-230 | five arguments make one job from the names and the `atoi` of the two numbers; one argument names a list file; any other count is the usage exit |
| Jobs.SingleJobArgs | depth_map/main.cpp:200-209 | the five printed fields of a job with non-negative numbers select exactly that job |
| Jobs.ScanLine | depth_map/main.cpp:216-222 | a call that reads a line consumes input, so the loop ends |
| Jobs.ScanFields | depth_map/main.cpp:216-222 | defines the conversions of `"%s %s %s %d %d\n"` from a given field on: each writes its field, the first failure stops the call with the remaining fields unchanged; it never leaves more input than it got |
| Jobs.ScanJobs | depth_map/main.cpp:214-222 | defines the jobs the loop appends, each from the previous one's fields, until a call meets EOF |
| Jobs.ReadJobList | depth_map/main.cpp:212-223 | the loop appends, in order, the job of every `fscanf` call until the one that returns EOF |
| Jobs.ScanJobsLine | depth_map/main.cpp:216-221 | unfolds `ScanJobs` one step: a call that reads a job appends it and the scan goes on where it stopped, from its fields |
| Jobs.ScanJobsEnd | depth_map/main.cpp:216 | unfolds `ScanJobs` at the end: EOF ends the list |
| Jobs.ScanFormatLine | depth_map/main.cpp:216-221 | a line of three tokens and two non-negative numbers is read back as exactly that job, and the scan stops right after its newline |
| Jobs.ScanFormatJobs | depth_map/main.cpp:212-223 | a list file written one job per line, from jobs whose three names are non-empty tokens without white space and whose panel and camera are non-negative, is read back as exactly those jobs |
| Jobs.ShortLineKeepsFields | depth_map/main.cpp:214-221 | a list holding one lone name yields one job with that name and every other field taken from the previous line |
| DepthMap.RunJob | depth_map/main.cpp:370-420 | one pass of the loop equals `JobStep` on the partial triple and getMVP's statics it starts from: the picture (present iff the cloud reads) has the job's output name, getMVP's matrix and the kept triples of the old partial triple plus the file's values as points; the buffer keeps their remainder and the statics are those getMVP leaves; the picture is drawable |
| DepthMap.RunJobs | depth_map/main.cpp:370-421 | the pictures, the buffer and getMVP's statics the loop leaves are those of `Batch` on the starting state; their paths are the outputs of the jobs whose clouds read, in job order, and each picture is drawable |
| DepthMap.Run | depth_map/main.cpp:197-421 | a wrong argument count exits with the usage message; an unopenable list file stops the run; otherwise the pictures are `Batch` of the selected jobs from an empty buffer and the initial statics, and their paths are those of the jobs whose clouds read |
| DepthMap.Commands | depth_map/main.cpp:199-230 | defines the jobs main runs: the argument job, or the scanned list file; none for the usage exit or an unopenable list |
| DepthMap.ExpectedPaths | depth_map/main.cpp:370-421 | defines the reference list of outputs: the output name of each job whose cloud reads, in job order |
| DepthMap.JobStep | depth_map/main.cpp:370-420 | defines one pass of the loop on values: feed the file behind the partial triple; on a failed read write nothing and keep getMVP's statics; otherwise `Lookup` at 384×216 and one picture of the kept triples |
| DepthMap.Batch | depth_map/main.cpp:370-421 | defines the loop on values: `JobStep` for each job in order, each from the state the previous one left |
| DepthMap.BatchPaths | depth_map/main.cpp:370-421 | the paths of `Batch`'s pictures are `ExpectedPaths` of the jobs, whatever state the batch starts from |
| DepthMap.JobStepState | depth_map/main.cpp:373-379 | unfolds `JobStep`'s new state: after a job whose cloud reads getMVP's key is the job's and its cached matrix is the picture's; after a failed read getMVP's statics are unchanged; in both cases the buffer keeps the remainder of the partial triple plus the file's values |
| DepthMap.ListedCommands | depth_map/main.cpp:210-223 | a list file written one job per line, from jobs whose three names are non-empty tokens without white space and whose panel and camera are non-negative, makes main run exactly those jobs |
| DepthMap.ExpectedPathsAppend | depth_map/main.cpp:370-421 | the outputs of two batches in sequence are those of each, in order |
| DepthMap.FailedJobIsSkipped | depth_map/main.cpp:373-377 | a job whose cloud fails writes nothing, and the jobs after it still run |
| DepthMap.ExpectedPathsMembers | depth_map/main.cpp:370-421 | a path is written iff some job with a readable cloud names it |
| DepthMap.ExpectedPathsLength | depth_map/main.cpp:370-421 | at most one picture per job |
| DepthMap.CachedRendered | depth_map/main.cpp:82-92 | a builder used only at 384×216 caches either the matrix `cache_mvp` started with or the MVP of some record at 384×216 |
| DepthMap.KeptCropped | depth_map/main.cpp:53-60 | the uploaded vertex vector is whole triples, each passing the crop |

## Left out

- Window, context, GLEW, vertex-buffer, texture, framebuffer and shader set-up (main.cpp:232-368). These are
  calls into OpenGL, GLFW and GLEW. Their fatal `exit(-1)` branches are not modelled.
- The two render passes, read-back, vertical flip, 16-bit conversion by 10000 and `cv::imwrite`
  (main.cpp:382-420). A picture is recorded by its path, its MVP uniform and the vertex vector uploaded for it.
  `glDrawArrays` is asked for `g_vertex_buffer_data.size()` vertices (main.cpp:404). That is three times the
  number of points the vector holds. What the GPU then draws is not modelled.
- JsonCpp's type errors. A root that is neither null nor an object, a record without a string `name`
  (including the null element JsonCpp leaves when a file is cut off inside `cameras` ahead of a `name`),
  `K`/`R`/`t` that are neither null nor arrays, and entries that are neither null, boolean nor numbers make
  `operator[]`, `asCString` or `asFloat` fail (main.cpp:108-136). That ends the program, and these documents
  are outside `CalibDoc`. Null values do not fail: `operator[]` turns a null into an object or array and
  `asFloat` reads null as 0, as `Unparsable`, `NullRecord` and `Calibration.Entry` model. A boolean entry
  reads as 1 or 0, and a record holds it as that real.
- The shaders (`shaders/depth.vert`, `.geo`, `.frag`). They are not part of this model, so nothing is proved
  about the depth test.
- `printf`/`fprintf` logging, and the "loading" and "Failed to parse" messages.
- The rply and JsonCpp libraries. Files enter as values (`PlySource`, `CalibDoc`), and the ignored `nvertices`
  and `ntriangles` counts are not modelled.
- Floating point. Coordinates and matrix entries are reals, so the `double`-to-`float` cast in `vertex_cb`
  and all `float` rounding in getMVP are not modelled.
- Integer width. `atoi`, `%d` and `panel*100+camera` act on unbounded integers, so out-of-range values have
  no C `int` overflow.
- Undefined behaviour in the source:
  - A camera name that does not scan leaves `pidx`/`cidx` uninitialised; the model stores nothing for it.
  - The jobs read before the first complete line start from uninitialised buffers; the model uses `Unset`.
  - `fscanf` on a null `FILE*` is modelled as the outcome `NoListFile`.
  - A name longer than 255 characters overflows its buffer; names are unbounded here.
  - `&g_vertex_buffer_data[0]` on an empty vector.
- `ply_close` is skipped when `ply_read_header` fails and when `ply_read` fails (main.cpp:71 and 77). The
  leaked handle has no effect on the model.
- `gen_random_float`, `key_callback` and the commented-out no-patch renderer (main.cpp:30-41, 425 onwards).
  None of them is on the depth-map path.
- CText.ScanIntFieldNat: proves only the read-back of non-negative numbers. A list file with a negative panel
  or camera is scanned by the model, but no round-trip lemma covers it.
- ProjectionCache.Builder.constructor: the initial `cache_mvp` is a default-constructed `glm::mat4`
  (main.cpp:85). Its value depends on the GLM version: the identity up to GLM 0.9.8 or with
  `GLM_FORCE_CTOR_INIT`, and uninitialised (zero for a static) from 0.9.9 on. The model takes it as a
  parameter (`initial`) and fixes neither value.
- ProjectionCache.InitialKeyHit: returns that same unspecified initial matrix, for the same reason.
- DepthMap.Run: takes the initial `glm::mat4` value as a parameter, for the same reason.
