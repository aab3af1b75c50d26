/**
 * getMVP and the four static variables it keeps between calls: the name of
 * the calibration file last loaded, the camera dictionary filled from it,
 * and a single-entry result cache (the key of the last camera a matrix was
 * built for, and that matrix).
 *
 * Reading and parsing a calibration file is a parameter: `files` maps a
 * path to what JsonCpp makes of it. The "loading" and "Failed to parse"
 * messages are not modelled.
 */
module ProjectionCache {
  import opened Wrappers
  import opened Calibration
  import opened Matrices

  /** `RT_float` once its first `n` entries, in row-major order, have been written by the fill loop. */
  function RTPrefix(cam: CameraRecord, n: nat): (a: Mat4)
    ensures forall k | 0 <= k < 16 :: a[k] == if k < n then RTArray(cam)[k] else 0.0
  {
    seq(16, k requires 0 <= k < 16 => if k < n then RTArray(cam)[k] else 0.0)
  }

  /** `RT_float` as getMVP fills it: zero-initialised, then R and t row by row, then the final 1. */
  method FillRT(cam: CameraRecord) returns (rt: Mat4)
    ensures rt == RTArray(cam)
  {
    var a := new real[16](_ => 0.0);
    RTArrayLayout(cam);
    for i := 0 to 3
      invariant a[..] == RTPrefix(cam, 4 * i)
    {
      for j := 0 to 3
        invariant a[..] == RTPrefix(cam, 4 * i + j)
      {
        a[i * 4 + j] := Entry(cam.r, i, j);
        assert At(RTArray(cam), i, j) == Entry(cam.r, i, j);
        PrefixStep(a[..], cam, 4 * i + j);
      }
      a[i * 4 + 3] := Entry(cam.t, i, 0);
      assert At(RTArray(cam), i, 3) == Entry(cam.t, i, 0);
      PrefixStep(a[..], cam, 4 * i + 3);
    }
    a[15] := 1.0;
    rt := a[..];
    SameEntries(rt, RTArray(cam));
  }

  lemma PrefixStep(a: seq<real>, cam: CameraRecord, n: nat)
    requires n < 16 && |a| == 16
    requires forall k | 0 <= k < 16 && k != n :: a[k] == RTPrefix(cam, n)[k]
    requires a[n] == RTArray(cam)[n]
    ensures a == RTPrefix(cam, n + 1)
  {
  }

  /**
   * The matrix part of getMVP: the ortho and intrinsic literals loaded and
   * transposed, their product, the R|t array loaded and transposed, and the
   * product of projection, view and the identity Model.
   */
  method BuildMvp(cam: CameraRecord, w: real, h: real) returns (mvp: Mat4)
    requires w > 0.0 && h > 0.0
    ensures mvp == Mvp(cam, w, h)
  {
    var ortho := Transpose(MakeMat4(OrthoArray(w, h)));
    var intrinsic := Transpose(MakeMat4(IntrinsicArray(cam)));
    var projection := Mul(ortho, intrinsic);
    var rt := FillRT(cam);
    var view := Transpose(MakeMat4(rt));
    mvp := Mul(Mul(projection, view), Identity);
    assert projection == ProjectionMatrix(cam, w, h) && view == ViewMatrix(cam);
  }

  /** The dictionary after a calibration file has been loaded on top of `dict`. */
  function Loaded(dict: map<int, CameraRecord>, doc: CalibDoc): map<int, CameraRecord> {
    Merge(dict, Cameras(doc), RecordKey)
  }

  /** `camera_dict[key]` as an lvalue: a key the dictionary lacks is inserted with the null record. */
  function WithKey(dict: map<int, CameraRecord>, key: int): (d: map<int, CameraRecord>)
    ensures key in d && d.Keys == dict.Keys + {key}
    ensures key in dict ==> d == dict
    ensures key !in dict ==> d[key] == NullRecord && forall k | k in dict :: d[k] == dict[k]
  {
    if key in dict then dict else dict[key := NullRecord]
  }

  /**
   * The load loop over a document's `cameras` array: the key of each record
   * (for getMVP, what `sscanf` reads from its name), then the assignment
   * `camera_dict[key] = cameras[i]`, in array order.
   */
  method StoreAll(dict: map<int, CameraRecord>, cameras: seq<CameraRecord>, keyOf: CameraRecord -> Option<int>)
    returns (d: map<int, CameraRecord>)
    ensures d == Merge(dict, cameras, keyOf)
  {
    d := dict;
    var i := 0;
    while i < |cameras|
      invariant 0 <= i <= |cameras|
      invariant d == Merge(dict, cameras[..i], keyOf)
    {
      MergeSnoc(dict, cameras, i, keyOf);
      match keyOf(cameras[i]) {
        case None =>
        case Some(key) => d := d[key := cameras[i]];
      }
      i := i + 1;
    }
    assert cameras[..i] == cameras;
  }

  /** The values of getMVP's four static variables at one moment. */
  datatype Cache = Cache(calibName: string, dict: map<int, CameraRecord>, key: int, mvp: Mat4)

  /** The statics before the first call, with `initial` the value of a default-constructed `glm::mat4`. */
  function InitialCache(initial: Mat4): Cache {
    Cache("", map[], -1, initial)
  }

  /**
   * One call of getMVP on the values of the statics: the new statics and the
   * matrix returned.
   */
  function Lookup(c: Cache, calibFile: string, files: string -> CalibDoc, panel: int, camera: int, width: int, height: int)
    : (Cache, Mat4)
    requires width > 0 && height > 0
  {
    var key := CameraKey(panel, camera);
    if c.key == key then (c, c.mvp)
    else
      var dict := if calibFile != c.calibName then Loaded(c.dict, files(calibFile)) else c.dict;
      var d := WithKey(dict, key);
      var m := Mvp(d[key], width as real, height as real);
      (Cache(calibFile, d, key, m), m)
  }

  /** The static state of getMVP. */
  class Builder {
    /** `cache_calib_name`. */
    var calibName: string
    /** `camera_dict`. */
    var cameraDict: map<int, CameraRecord>
    /** `cache_camera_num`. */
    var cachedKey: int
    /** `cache_mvp`. */
    var cachedMvp: Mat4
    /** The value `cache_mvp` starts with: that of a default-constructed `glm::mat4`. */
    ghost const initialMvp: Mat4
    /** The record and image size of the last matrix built, if any has been. */
    ghost var builtFrom: Option<(CameraRecord, real, real)>

    /**
     * The cached matrix is the initial one, under the initial key -1, until
     * a matrix has been built; from then on it is the matrix of the record
     * and size it was built from.
     */
    ghost predicate Valid()
      reads this
    {
      match builtFrom
      case None => cachedKey == -1 && cachedMvp == initialMvp
      case Some((cam, w, h)) => w > 0.0 && h > 0.0 && cachedMvp == Mvp(cam, w, h)
    }

    /** The current values of the four statics. */
    function Snapshot(): Cache
      reads this
    {
      Cache(calibName, cameraDict, cachedKey, cachedMvp)
    }

    /** The statics at program start; `initial` is what a default-constructed `glm::mat4` holds. */
    constructor (initial: Mat4)
      ensures Valid() && builtFrom.None? && initialMvp == initial
      ensures Snapshot() == InitialCache(initial)
    {
      calibName := "";
      cameraDict := map[];
      cachedKey := -1;
      cachedMvp := initial;
      initialMvp := initial;
      builtFrom := None;
    }

    /**
     * The loading branch of getMVP: remember the file name, then store every
     * record whose name scans under its key. Nothing is removed.
     */
    method LoadCalibration(name: string, doc: CalibDoc)
      requires Valid()
      modifies this
      ensures Valid()
      ensures calibName == name
      ensures cameraDict == Loaded(old(cameraDict), doc)
      ensures old(cameraDict).Keys <= cameraDict.Keys
      ensures cachedKey == old(cachedKey) && cachedMvp == old(cachedMvp) && builtFrom == old(builtFrom)
    {
      calibName := name;
      cameraDict := StoreAll(cameraDict, Cameras(doc), RecordKey);
      MergeKeys(old(cameraDict), Cameras(doc), RecordKey);
    }

    /**
     * `getMVP(calib_filename, panelIdx, cameraIdx, width, height)`.
     *
     * A call whose key is the cached one returns the cached matrix and
     * changes nothing, even when the file or the size differ. Otherwise the
     * file is loaded unless it is the one last loaded, the key's record is
     * looked up (inserting the null record if absent), and the matrix built
     * from it becomes the cached one.
     */
    method GetMVP(calibFile: string, files: string -> CalibDoc, panel: int, camera: int, width: int, height: int)
      returns (mvp: Mat4)
      requires Valid()
      requires width > 0 && height > 0
      modifies this
      ensures Valid()
      ensures old(cachedKey) == CameraKey(panel, camera) ==> mvp == old(cachedMvp) && unchanged(this)
      ensures old(cachedKey) != CameraKey(panel, camera) ==>
        var key := CameraKey(panel, camera);
        var dict := if calibFile != old(calibName) then Loaded(old(cameraDict), files(calibFile)) else old(cameraDict);
        && calibName == calibFile
        && cameraDict == WithKey(dict, key)
        && mvp == Mvp(cameraDict[key], width as real, height as real)
        && cachedKey == key && cachedMvp == mvp
        && builtFrom == Some((cameraDict[key], width as real, height as real))
      ensures old(cameraDict).Keys <= cameraDict.Keys
      ensures (Snapshot(), mvp) == Lookup(old(Snapshot()), calibFile, files, panel, camera, width, height)
    {
      var key := CameraKey(panel, camera);
      if cachedKey == key {
        return cachedMvp;
      }
      if calibFile != calibName {
        LoadCalibration(calibFile, files(calibFile));
      }
      cameraDict := WithKey(cameraDict, key);
      var cam := cameraDict[key];
      var w, h := width as real, height as real;
      mvp := BuildMvp(cam, w, h);
      cachedKey := key;
      cachedMvp := mvp;
      builtFrom := Some((cam, w, h));
    }
  }

  // ----- Properties of the cache

  /** A repeated call with the same panel and camera returns the identical matrix, whatever else changes. */
  method RepeatedCall(b: Builder, files: string -> CalibDoc, file1: string, file2: string,
                      panel: int, camera: int, w1: int, h1: int, w2: int, h2: int)
      returns (m1: Mat4, m2: Mat4)
    requires b.Valid()
    requires w1 > 0 && h1 > 0 && w2 > 0 && h2 > 0
    modifies b
    ensures m1 == m2
  {
    m1 := b.GetMVP(file1, files, panel, camera, w1, h1);
    m2 := b.GetMVP(file2, files, panel, camera, w2, h2);
  }

  /**
   * On values: after any call, a second call with the same panel and camera
   * changes nothing and returns the first call's matrix, whatever file and
   * size it passes.
   */
  lemma LookupRepeated(c: Cache, files: string -> CalibDoc, file1: string, file2: string,
                       panel: int, camera: int, w1: int, h1: int, w2: int, h2: int)
    requires w1 > 0 && h1 > 0 && w2 > 0 && h2 > 0
    ensures var (c1, m1) := Lookup(c, file1, files, panel, camera, w1, h1);
      Lookup(c1, file2, files, panel, camera, w2, h2) == (c1, m1)
  {
  }

  /**
   * A call that misses the cache leaves the requested key in the dictionary,
   * keeps every key it had, and returns the matrix of the record now stored
   * under the key.
   */
  lemma LookupMiss(c: Cache, calibFile: string, files: string -> CalibDoc, panel: int, camera: int, width: int, height: int)
    requires width > 0 && height > 0
    requires c.key != CameraKey(panel, camera)
    ensures var (c1, m) := Lookup(c, calibFile, files, panel, camera, width, height);
      && c1.key == CameraKey(panel, camera) && c1.mvp == m && c1.calibName == calibFile
      && CameraKey(panel, camera) in c1.dict && c.dict.Keys <= c1.dict.Keys
      && m == Mvp(c1.dict[CameraKey(panel, camera)], width as real, height as real)
  {
    if calibFile != c.calibName {
      MergeKeys(c.dict, Cameras(files(calibFile)), RecordKey);
    }
  }

  /**
   * Before any matrix has been built, the pair (0, -1) hits the initial key
   * -1, and getMVP returns the initial matrix without loading anything.
   */
  method InitialKeyHit(initial: Mat4, files: string -> CalibDoc, calibFile: string, width: int, height: int)
      returns (mvp: Mat4)
    requires width > 0 && height > 0
    ensures mvp == initial
  {
    var b := new Builder(initial);
    mvp := b.GetMVP(calibFile, files, 0, -1, width, height);
  }
}
