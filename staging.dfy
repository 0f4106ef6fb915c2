/** The staging and clean-up steps of `FormMain.ProcessImage`: the image to
    analyse is copied to a scratch file, the analysis client is run on that
    copy, the annotated image it reports is shown and deleted, and the scratch
    file is deleted. The file system is a map from existing file paths to
    their sizes plus a set of existing directories; `Faults` says where
    creating or writing throws and, independently, where deleting throws.
    Decoding and encoding
    images is left out: whether the image decodes and how many bytes the JPEG
    encoder produces are parameters. */
module Staging {
  import opened Wrappers
  import opened Text
  import opened Detection

  datatype DiskState = DiskState(files: map<Text, nat>, dirs: set<Text>)

  /** The paths where `Directory.CreateDirectory` or `File.WriteAllBytes`
      throws, and those where `File.Delete` throws (a file in use, say). */
  datatype Faults = Faults(unwritable: set<Text>, undeletable: set<Text>)

  /** A directory separator on Windows. */
  predicate IsSeparator(c: char) {
    c == '\\' || c == '/'
  }

  /** `Path.IsPathRooted` on Windows: a leading separator or a drive letter
      and a colon. */
  predicate IsRooted(p: Text) {
    (|p| >= 1 && IsSeparator(p[0])) ||
    (|p| >= 2 && p[1] == ':' && ('A' <= p[0] <= 'Z' || 'a' <= p[0] <= 'z'))
  }

  /** `Path.Combine(a, b)` on Windows under .NET 5 and later (the code's use
      of `ProcessStartInfo.ArgumentList` needs such a runtime): an empty side
      gives the other one, a rooted `b` replaces `a`, and otherwise one
      backslash joins the two unless `a` already ends in a separator. */
  function PathCombine(a: Text, b: Text): (r: Text)
    ensures a == [] ==> r == b
    ensures a != [] && b == [] ==> r == a
    ensures a != [] && b != [] && IsRooted(b) ==> r == b
    ensures a != [] && b != [] && !IsRooted(b) ==>
              && |a| + |b| <= |r| <= |a| + |b| + 1 && r[..|a|] == a && r[|r| - |b|..] == b
              && IsSeparator(r[|r| - |b| - 1])
              && (|r| == |a| + |b| <==> IsSeparator(a[|a| - 1]))
  {
    if a == [] then b
    else if b == [] then a
    else if IsRooted(b) then b
    else if IsSeparator(a[|a| - 1]) then a + b
    else a + "\\" + b
  }

  /** A Windows path that names one place whatever the current directory:
      a drive letter, a colon and a separator, or a UNC prefix. */
  predicate FullyQualified(p: Text) {
    (|p| >= 3 && p[1] == ':' && IsSeparator(p[2])) ||
    (|p| >= 2 && IsSeparator(p[0]) && IsSeparator(p[1]))
  }

  /** The preferred scratch directory, combined from the drive `C:` and
      `temp_ai`. */
  const SafeTempDir: Text := PathCombine("C:", "temp_ai")

  /** The combination puts a separator after the colon, so the scratch
      directory is the fixed `C:\temp_ai`, not a path relative to the current
      directory of drive C. */
  lemma SafeTempDirIsFullyQualified(drive: Text, name: Text)
    requires drive == "C:" && name == "temp_ai"
    ensures SafeTempDir == drive + "\\" + name && FullyQualified(SafeTempDir)
  {
    assert !IsSeparator(drive[|drive| - 1]) && !IsRooted(name);
  }

  /** What the run needs beyond the file system: whether the image opens for
      display, the system temp directory, the formatted clock and the size of
      the JPEG encoding (`None` when the image cannot be re-encoded). */
  datatype StageEnv = StageEnv(imageOpens: bool, systemTempDir: Text, timestamp: Text, encoded: Option<nat>)

  /** Why staging threw. */
  datatype StageFailure = EncodeFailed | WriteFailed | FileEmpty

  /** How `ProcessImage` ends, as shown in the status line. */
  datatype Outcome =
    | Measured(result: NeedleResult)      // confidence > 0
    | NotMeasured(result: NeedleResult)   // the client's failure, with its message
    | StagingError(failure: StageFailure) // the inner catch
    | LoadError                           // the image could not be opened (outer catch)

  function StagedName(timestamp: Text): Text {
    "original_" + timestamp + ".jpg"
  }

  /** `File.Delete`: removes an existing file unless it is protected, in which
      case the exception is swallowed and the file stays; a missing file is no
      error. */
  function Deleted(s: DiskState, faults: Faults, p: Text): (r: DiskState)
    ensures r.dirs == s.dirs
    ensures p !in faults.undeletable ==> p !in r.files
    ensures forall q :: q in r.files <==> q in s.files && (q != p || p in faults.undeletable)
    ensures forall q :: q in r.files ==> r.files[q] == s.files[q]
  {
    if p in s.files && p !in faults.undeletable then s.(files := s.files - {p}) else s
  }

  /** The scratch directory: the preferred one when it exists or can be
      created (and then it exists afterwards), the system temp directory
      otherwise. */
  function TempBase(s: DiskState, faults: Faults, systemTempDir: Text): (r: (Text, DiskState))
    ensures SafeTempDir in s.dirs || SafeTempDir !in faults.unwritable ==>
              r.0 == SafeTempDir && r.1 == s.(dirs := s.dirs + {SafeTempDir})
    ensures !(SafeTempDir in s.dirs || SafeTempDir !in faults.unwritable) ==> r == (systemTempDir, s)
  {
    if SafeTempDir in s.dirs then (SafeTempDir, s)
    else if SafeTempDir !in faults.unwritable then (SafeTempDir, s.(dirs := s.dirs + {SafeTempDir}))
    else (systemTempDir, s)
  }

  /** The staged file's path. */
  function StagedPath(s: DiskState, faults: Faults, env: StageEnv, paths: PathEnv): Text {
    paths.combine(TempBase(s, faults, env.systemTempDir).0, StagedName(env.timestamp))
  }

  /** `ShowPictureThenDelete` on the file system: a blank or missing path is
      ignored, otherwise the file is deleted whether or not it could be shown. */
  function ShownAndDeleted(s: DiskState, faults: Faults, path: Option<Text>): (r: DiskState)
    ensures r.dirs == s.dirs
    ensures forall q :: q in r.files ==> q in s.files && r.files[q] == s.files[q]
    ensures forall q :: q in s.files && (Some(q) != path || q in faults.undeletable) ==> q in r.files
    ensures !IsNullOrWhiteSpace(path) && path.value !in faults.undeletable ==> path.value !in r.files
  {
    if !IsNullOrWhiteSpace(path) && path.value in s.files then Deleted(s, faults, path.value) else s
  }

  /** After detection: the annotated image is shown and deleted, then the
      staged file is deleted. */
  function CleanUp(s: DiskState, faults: Faults, staged: Text, annotated: Option<Text>): (r: DiskState)
    ensures r.dirs == s.dirs
    ensures forall q :: q in r.files ==> q in s.files && r.files[q] == s.files[q]
    ensures staged in r.files <==> staged in s.files && staged in faults.undeletable
    ensures forall q :: q in s.files && q in faults.undeletable ==> q in r.files
  {
    var s1 := ShownAndDeleted(s, faults, annotated);
    if staged in s1.files then Deleted(s1, faults, staged) else s1
  }

  /** The whole run of `ProcessImage` on the file system: the new file system
      and how it ended. An image that cannot be opened changes nothing; any
      other run may add the preferred scratch directory and no other. */
  function Process(s: DiskState, faults: Faults, imagePath: Text, env: StageEnv, a: Analyzer)
    : (r: (DiskState, Outcome))
    ensures r.1 == LoadError <==> !(imagePath in s.files && env.imageOpens)
    ensures r.1 == LoadError ==> r.0 == s
    ensures r.0.dirs == s.dirs || r.0.dirs == s.dirs + {SafeTempDir}
    ensures forall q :: q in s.files && q in faults.undeletable ==> q in r.0.files
  {
    if !(imagePath in s.files && env.imageOpens) then (s, LoadError)
    else
      var s1 := TempBase(s, faults, env.systemTempDir).1;
      var staged := StagedPath(s, faults, env, a.paths);
      if env.encoded.None? then (s1, StagingError(EncodeFailed))
      else if staged in faults.unwritable then (s1, StagingError(WriteFailed))
      else
        var s2 := s1.(files := s1.files[staged := env.encoded.value]);
        if env.encoded.value == 0 then (s2, StagingError(FileEmpty))
        else
          var result := DetectNeedleWithPython(staged, true, a);
          (CleanUp(s2, faults, staged, result.annotatedImagePath),
           if IsPositive(result.confidence) then Measured(result) else NotMeasured(result))
  }

  /** The file system, updated in place. */
  class Disk {
    var files: map<Text, nat>
    var dirs: set<Text>
    const faults: Faults

    function State(): DiskState
      reads this
    {
      DiskState(files, dirs)
    }

    constructor (files: map<Text, nat>, dirs: set<Text>, faults: Faults)
      ensures this.files == files && this.dirs == dirs && this.faults == faults
    {
      this.files := files;
      this.dirs := dirs;
      this.faults := faults;
    }

    /** `Directory.CreateDirectory`; `ok` is false when it throws. */
    method CreateDirectory(p: Text) returns (ok: bool)
      modifies this
      ensures ok == (p !in faults.unwritable)
      ensures files == old(files) && dirs == if ok then old(dirs) + {p} else old(dirs)
    {
      ok := p !in faults.unwritable;
      if ok {
        dirs := dirs + {p};
      }
    }

    /** `File.WriteAllBytes`; `ok` is false when it throws. */
    method WriteAllBytes(p: Text, size: nat) returns (ok: bool)
      modifies this
      ensures ok == (p !in faults.unwritable)
      ensures dirs == old(dirs) && files == if ok then old(files)[p := size] else old(files)
    {
      ok := p !in faults.unwritable;
      if ok {
        files := files[p := size];
      }
    }

    /** `File.Delete`; `ok` is false when it throws. */
    method Delete(p: Text) returns (ok: bool)
      modifies this
      ensures ok == (p !in old(files) || p !in faults.undeletable)
      ensures State() == Deleted(old(State()), faults, p)
    {
      ok := p !in files || p !in faults.undeletable;
      if p in files && p !in faults.undeletable {
        files := files - {p};
      }
    }
  }

  /** `ProcessImage`, step by step. */
  method ProcessImage(disk: Disk, imagePath: Text, env: StageEnv, a: Analyzer) returns (outcome: Outcome)
    modifies disk
    ensures (disk.State(), outcome) == Process(old(disk.State()), disk.faults, imagePath, env, a)
  {
    // Image.FromFile
    if !(imagePath in disk.files && env.imageOpens) {
      return LoadError;
    }
    ghost var s0 := disk.State();
    var tempBase: Text;
    if SafeTempDir in disk.dirs {
      tempBase := SafeTempDir;
    } else {
      var created := disk.CreateDirectory(SafeTempDir);
      tempBase := if created then SafeTempDir else env.systemTempDir;
    }
    var staged := a.paths.combine(tempBase, StagedName(env.timestamp));
    assert staged == StagedPath(s0, disk.faults, env, a.paths);
    if env.encoded.None? {
      return StagingError(EncodeFailed);
    }
    var written := disk.WriteAllBytes(staged, env.encoded.value);
    if !written {
      return StagingError(WriteFailed);
    }
    // The existence check cannot fail here: the write did not throw.
    if disk.files[staged] == 0 {
      return StagingError(FileEmpty);
    }
    var result := DetectNeedleWithPython(staged, staged in disk.files, a);
    var annotated := result.annotatedImagePath;
    if !IsNullOrEmpty(annotated) && annotated.value in disk.files {
      ShowPictureThenDelete(disk, annotated);
    }
    if staged in disk.files {
      var _ := disk.Delete(staged);
    }
    outcome := if IsPositive(result.confidence) then Measured(result) else NotMeasured(result);
  }

  /** `ShowPictureThenDelete`: showing the picture is left out; the file is
      deleted afterwards, and a failed delete is swallowed. */
  method ShowPictureThenDelete(disk: Disk, path: Option<Text>)
    modifies disk
    ensures disk.State() == ShownAndDeleted(old(disk.State()), disk.faults, path)
  {
    if IsNullOrWhiteSpace(path) || path.value !in disk.files {
      return;
    }
    var _ := disk.Delete(path.value);
  }

  /** A run that reached the analysis leaves no staged file behind, unless
      deleting it throws: that exception is swallowed and the file stays. */
  lemma StagedFileRemoved(s: DiskState, faults: Faults, imagePath: Text, env: StageEnv, a: Analyzer)
    ensures var (s', o) := Process(s, faults, imagePath, env, a);
            var staged := StagedPath(s, faults, env, a.paths);
            o.Measured? || o.NotMeasured? ==> (staged !in s'.files <==> staged !in faults.undeletable)
  {
  }

  /** An empty staged file makes the run throw before the delete step, so the
      zero-byte file stays on disk. */
  lemma EmptyStagedFileLeft(s: DiskState, faults: Faults, imagePath: Text, env: StageEnv, a: Analyzer)
    requires imagePath in s.files && env.imageOpens && env.encoded == Some(0)
    requires StagedPath(s, faults, env, a.paths) !in faults.unwritable
    ensures var (s', o) := Process(s, faults, imagePath, env, a);
            var staged := StagedPath(s, faults, env, a.paths);
            o == StagingError(FileEmpty) && staged in s'.files && s'.files[staged] == 0
  {
  }

  /** Nothing but the staged file, the annotated image and the preferred
      scratch directory changes; in particular the selected image survives
      unless it is one of those two files. */
  lemma OtherFilesUntouched(s: DiskState, faults: Faults, imagePath: Text, env: StageEnv, a: Analyzer, q: Text)
    requires q in s.files && q != StagedPath(s, faults, env, a.paths)
    requires Some(q) != DetectNeedleWithPython(StagedPath(s, faults, env, a.paths), true, a).annotatedImagePath
    ensures var (s', _) := Process(s, faults, imagePath, env, a);
            q in s'.files && s'.files[q] == s.files[q]
    ensures var (s', _) := Process(s, faults, imagePath, env, a);
            s'.dirs == s.dirs || s'.dirs == s.dirs + {SafeTempDir}
  {
    var staged := StagedPath(s, faults, env, a.paths);
    var s1 := TempBase(s, faults, env.systemTempDir).1;
    assert q in s1.files && s1.files[q] == s.files[q];
    if imagePath in s.files && env.imageOpens && env.encoded.Some? && staged !in faults.unwritable && env.encoded.value > 0 {
      var s2 := s1.(files := s1.files[staged := env.encoded.value]);
      var annotated := DetectNeedleWithPython(staged, true, a).annotatedImagePath;
      CleanUpKeeps(s2, faults, staged, annotated, q);
      assert Process(s, faults, imagePath, env, a).0 == CleanUp(s2, faults, staged, annotated);
    }
  }

  /** Clean-up removes at most the staged file and the annotated image, and
      leaves the directories alone. */
  lemma CleanUpKeeps(s: DiskState, faults: Faults, staged: Text, annotated: Option<Text>, q: Text)
    requires q in s.files && q != staged && Some(q) != annotated
    ensures var s' := CleanUp(s, faults, staged, annotated);
            q in s'.files && s'.files[q] == s.files[q] && s'.dirs == s.dirs
  {
    var s1 := ShownAndDeleted(s, faults, annotated);
    assert q in s1.files && s1.files[q] == s.files[q] && s1.dirs == s.dirs;
  }

  /** The run is a measurement exactly when the image opens, the staged copy
      is written with some bytes and the analysis reports a positive
      confidence on it. */
  lemma MeasuredIff(s: DiskState, faults: Faults, imagePath: Text, env: StageEnv, a: Analyzer)
    ensures var staged := StagedPath(s, faults, env, a.paths);
            Process(s, faults, imagePath, env, a).1.Measured? <==>
              imagePath in s.files && env.imageOpens && env.encoded.Some? && env.encoded.value > 0 &&
              staged !in faults.unwritable && IsPositive(DetectNeedleWithPython(staged, true, a).confidence)
  {
    var staged := StagedPath(s, faults, env, a.paths);
    if imagePath in s.files && env.imageOpens && env.encoded.Some? && staged !in faults.unwritable && env.encoded.value > 0 {
      var r := DetectNeedleWithPython(staged, true, a);
      assert Process(s, faults, imagePath, env, a).1 == if IsPositive(r.confidence) then Measured(r) else NotMeasured(r);
    }
  }
}
