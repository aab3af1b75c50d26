/**
 * The calibration data getMVP works from: the records of a calibration
 * document's `cameras` array, the integer key a camera is stored under, and
 * the camera dictionary the load loop fills.
 *
 * JSON parsing is not modelled: a calibration file is represented by the
 * records its `cameras` array holds (see CalibDoc). Numbers are `real`.
 */
module Calibration {
  import opened Wrappers
  import opened CText

  /** A JSON array of arrays of numbers (`K` and `R` are 3×3, `t` is 3×1). */
  type Grid = seq<seq<real>>

  /**
   * `g[i][j].asFloat()`: an entry outside the array reads as 0, as the null
   * JSON value that jsoncpp hands out for a missing element does.
   */
  function Entry(g: Grid, i: nat, j: nat): (v: real)
    ensures i < |g| && j < |g[i]| ==> v == g[i][j]
    ensures !(i < |g| && j < |g[i]|) ==> v == 0.0
  {
    if i < |g| && j < |g[i]| then g[i][j] else 0.0
  }

  /** One element of the `cameras` array: its `name`, `K`, `R` and `t`. */
  datatype CameraRecord = CameraRecord(name: string, k: Grid, r: Grid, t: Grid)

  /** The null JSON value `camera_dict[key]` inserts for a key it lacks: every entry reads as 0. */
  const NullRecord: CameraRecord := CameraRecord("", [], [], [])

  /**
   * What reading and parsing a calibration file leaves in `root`. JsonCpp
   * fills `root` as it reads, so a document that fails part-way is `Parsed`
   * with the records of its `cameras` array read by then, the last possibly
   * cut short after its `name` (its missing entries read as 0). `Unparsable`
   * is a failure before any of that array was read: a missing file, or an
   * error ahead of the `cameras` member, which leaves a null root or an
   * object without `cameras`. It holds only values the load loop can read:
   * JsonCpp's type errors end the program and are outside this type.
   */
  datatype CalibDoc =
    | Unparsable
    | Parsed(cameras: seq<CameraRecord>)

  /**
   * The records the load loop visits. Without a `cameras` member the loop
   * sees a null value of size 0; the "Failed to parse" message changes
   * nothing else.
   */
  function Cameras(doc: CalibDoc): seq<CameraRecord> {
    if doc.Parsed? then doc.cameras else []
  }

  /** The scalar getMVP identifies a (panel, camera) pair by. */
  function CameraKey(panel: int, camera: int): int {
    panel * 100 + camera
  }

  /**
   * `sscanf(name, "%02d_%02d", &pidx, &cidx)` followed by `pidx*100+cidx`:
   * two numbers of at most two characters each (sign included), separated
   * by an underscore; anything after the second number is ignored. None when
   * either conversion fails, in which case the source goes on with an
   * uninitialised index.
   */
  function NameKey(name: string): Option<int> {
    var t := SkipSpaces(name);
    match ScanSigned(t, 2)
    case NoDigits(_) => None
    case Scanned(p, rest) =>
      if rest == [] || rest[0] != '_' then None
      else
        var u := SkipSpaces(rest[1..]);
        match ScanSigned(u, 2)
        case NoDigits(_) => None
        case Scanned(c, _) => Some(CameraKey(p, c))
  }

  /** The canonical camera name `"PP_CC"` for a panel and camera below 100. */
  function CameraName(panel: nat, camera: nat): string
    requires panel < 100 && camera < 100
  {
    TwoDigits(panel) + "_" + TwoDigits(camera)
  }

  /** The key a record of a calibration document is stored under, if its name scans. */
  function RecordKey(cam: CameraRecord): Option<int> {
    NameKey(cam.name)
  }

  /*
   * The dictionary functions below take the key function as a parameter, so
   * that what is proved about them holds for any key, not only for names
   * that `sscanf` reads.
   */

  /** One iteration of the load loop: store the record under its key; a record without one changes nothing. */
  function Store(dict: map<int, CameraRecord>, cam: CameraRecord, keyOf: CameraRecord -> Option<int>): map<int, CameraRecord> {
    match keyOf(cam)
    case None => dict
    case Some(key) => dict[key := cam]
  }

  /** The dictionary after the load loop has visited `cams` in order. */
  function Merge(dict: map<int, CameraRecord>, cams: seq<CameraRecord>, keyOf: CameraRecord -> Option<int>): map<int, CameraRecord>
    decreases |cams|
  {
    if cams == [] then dict else Store(Merge(dict, cams[..|cams| - 1], keyOf), cams[|cams| - 1], keyOf)
  }

  /** One more record visited by the load loop. */
  lemma MergeSnoc(dict: map<int, CameraRecord>, cams: seq<CameraRecord>, i: nat, keyOf: CameraRecord -> Option<int>)
    requires i < |cams|
    ensures Merge(dict, cams[..i + 1], keyOf) == Store(Merge(dict, cams[..i], keyOf), cams[i], keyOf)
  {
    assert cams[..i + 1][..i] == cams[..i];
  }

  /** The keys of the records of `cams`. */
  function NamedKeys(cams: seq<CameraRecord>, keyOf: CameraRecord -> Option<int>): set<int> {
    set i | 0 <= i < |cams| && keyOf(cams[i]).Some? :: keyOf(cams[i]).value
  }

  /** `cams[i]` is the last record of `cams` with this key. */
  predicate LastWithKey(cams: seq<CameraRecord>, keyOf: CameraRecord -> Option<int>, key: int, i: int) {
    0 <= i < |cams| && keyOf(cams[i]) == Some(key)
    && forall j | i < j < |cams| :: keyOf(cams[j]) != Some(key)
  }

  // ----- Properties

  /** A canonical name scans to its panel and camera, whatever follows it. */
  lemma NameKeyOfCameraName(panel: nat, camera: nat, suffix: string)
    requires panel < 100 && camera < 100
    ensures NameKey(CameraName(panel, camera) + suffix) == Some(CameraKey(panel, camera))
  {
    var p, c := TwoDigits(panel), TwoDigits(camera);
    var rest := "_" + c + suffix;
    var s := p + rest;
    assert s == CameraName(panel, camera) + suffix;
    assert s[0] == p[0];
    SkipSpacesAtDigit(s);
    ScanSignedTwoDigits(panel, rest);
    assert rest[0] == '_' && rest[1..] == c + suffix;
    assert (c + suffix)[0] == c[0];
    SkipSpacesAtDigit(c + suffix);
    ScanSignedTwoDigits(camera, suffix);
    NameKeySteps(s, panel, rest, camera, suffix);
  }

  /** `NameKey` as the sequence of its two conversions and the separator between them. */
  lemma NameKeySteps(name: string, panel: int, rest: string, camera: int, tail: string)
    requires ScanSigned(SkipSpaces(name), 2) == Scanned(panel, rest)
    requires rest != [] && rest[0] == '_'
    requires ScanSigned(SkipSpaces(rest[1..]), 2) == Scanned(camera, tail)
    ensures NameKey(name) == Some(CameraKey(panel, camera))
  {
  }

  /** Keys of two-digit cameras determine the pair: no two such cameras share a cache slot. */
  lemma CameraKeyInjective(p1: int, c1: int, p2: int, c2: int)
    requires 0 <= c1 < 100 && 0 <= c2 < 100
    requires CameraKey(p1, c1) == CameraKey(p2, c2)
    ensures p1 == p2 && c1 == c2
  {
  }

  /** Without the two-digit bound, different pairs do share a key. */
  lemma CameraKeyCollision()
    ensures CameraKey(0, 105) == CameraKey(1, 5)
  {
  }

  /** The keys after loading are the old keys plus every key a name scans to: nothing is removed. */
  lemma {:induction false} MergeKeys(dict: map<int, CameraRecord>, cams: seq<CameraRecord>, keyOf: CameraRecord -> Option<int>)
    ensures Merge(dict, cams, keyOf).Keys == dict.Keys + NamedKeys(cams, keyOf)
    decreases |cams|
  {
    if cams != [] {
      var init, last := cams[..|cams| - 1], cams[|cams| - 1];
      MergeKeys(dict, init, keyOf);
      var n := |cams| - 1;
      if keyOf(last).Some? {
        assert NamedKeys(cams, keyOf) == NamedKeys(init, keyOf) + {keyOf(last).value} by {
          forall k | k in NamedKeys(cams, keyOf) ensures k in NamedKeys(init, keyOf) + {keyOf(last).value} {
            var i :| 0 <= i < |cams| && keyOf(cams[i]).Some? && keyOf(cams[i]).value == k;
            if i < n { assert cams[i] == init[i]; }
          }
          forall k | k in NamedKeys(init, keyOf) ensures k in NamedKeys(cams, keyOf) {
            var i :| 0 <= i < |init| && keyOf(init[i]).Some? && keyOf(init[i]).value == k;
            assert cams[i] == init[i];
          }
        }
      } else {
        assert NamedKeys(cams, keyOf) == NamedKeys(init, keyOf) by {
          forall k | k in NamedKeys(cams, keyOf) ensures k in NamedKeys(init, keyOf) {
            var i :| 0 <= i < |cams| && keyOf(cams[i]).Some? && keyOf(cams[i]).value == k;
            assert i < n;
            assert cams[i] == init[i];
          }
          forall k | k in NamedKeys(init, keyOf) ensures k in NamedKeys(cams, keyOf) {
            var i :| 0 <= i < |init| && keyOf(init[i]).Some? && keyOf(init[i]).value == k;
            assert cams[i] == init[i];
          }
        }
      }
    }
  }

  /** Every key ends up holding the last record whose name scans to it. */
  lemma {:induction false} MergeStoresLast(dict: map<int, CameraRecord>, cams: seq<CameraRecord>, keyOf: CameraRecord -> Option<int>, key: int, i: int)
    requires LastWithKey(cams, keyOf, key, i)
    ensures key in Merge(dict, cams, keyOf) && Merge(dict, cams, keyOf)[key] == cams[i]
    decreases |cams|
  {
    var n := |cams| - 1;
    var init := cams[..n];
    if i < n {
      assert LastWithKey(init, keyOf, key, i) by {
        forall j | i < j < |init| ensures keyOf(init[j]) != Some(key) {
          assert init[j] == cams[j];
        }
      }
      MergeStoresLast(dict, init, keyOf, key, i);
      assert keyOf(cams[n]) != Some(key);
    }
  }

  /**
   * A key that no name of the new document scans to keeps its old record:
   * the dictionary is never cleared between calibration files.
   */
  lemma {:induction false} MergeKeepsOthers(dict: map<int, CameraRecord>, cams: seq<CameraRecord>, keyOf: CameraRecord -> Option<int>, key: int)
    requires key in dict
    requires forall j | 0 <= j < |cams| :: keyOf(cams[j]) != Some(key)
    ensures key in Merge(dict, cams, keyOf) && Merge(dict, cams, keyOf)[key] == dict[key]
    decreases |cams|
  {
    if cams != [] {
      var init := cams[..|cams| - 1];
      assert forall j | 0 <= j < |init| :: init[j] == cams[j];
      MergeKeepsOthers(dict, init, keyOf, key);
    }
  }
}
