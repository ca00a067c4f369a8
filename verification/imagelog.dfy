/** counter_strike/image_logging.py: `ImageLoggingSettings`, the per-session
    directory and the per-iteration screenshot paths. The clock is replaced by
    timestamp strings passed in, and `os.makedirs` is not modelled. */
module ImageLogging {
  import opened Py
  import PyInt

  /** A non-empty directory that does not end with `/` needs one before a
      component is appended. */
  predicate NeedsSeparator(a: string) {
    a != [] && a[|a| - 1] != '/'
  }

  /** `p` is `a` followed by `b`, with one `/` between them exactly when `a`
      needs a separator. */
  predicate JoinedAt(p: string, a: string, b: string) {
    && |p| == |a| + |b| + (if NeedsSeparator(a) then 1 else 0)
    && p[..|a|] == a && p[|p| - |b|..] == b
    && (NeedsSeparator(a) ==> p[|a|] == '/')
  }

  /** `os.path.join(a, b)` on POSIX: an absolute `b` replaces `a`; otherwise
      a separator is added unless `a` is empty or already ends with one. */
  function Join(a: string, b: string): (p: string)
    ensures |b| > 0 && b[0] == '/' ==> p == b
    ensures (|b| == 0 || b[0] != '/') ==> JoinedAt(p, a, b)
  {
    if |b| > 0 && b[0] == '/' then b
    else if a == [] || a[|a| - 1] == '/' then a + b
    else a + "/" + b
  }

  /** `JoinedAt` leaves no choice: it fixes every character of the path. */
  lemma JoinedAtUnique(p: string, q: string, a: string, b: string)
    requires JoinedAt(p, a, b) && JoinedAt(q, a, b)
    ensures p == q
  {
    var m := |p| - |b|;
    forall k | 0 <= k < |p|
      ensures p[k] == q[k]
    {
      if k < |a| {
        assert p[k] == p[..|a|][k] && q[k] == q[..|a|][k];
      } else if k >= m {
        assert p[k] == p[m..][k - m] && q[k] == q[m..][k - m];
      }
    }
  }

  /** The last component of a path: everything after its last `/`. */
  function Basename(p: string): (name: string)
    ensures |name| <= |p| && p[|p| - |name|..] == name
    ensures forall k :: 0 <= k < |name| ==> name[k] != '/'
  {
    if p == [] || p[|p| - 1] == '/' then []
    else Basename(p[..|p| - 1]) + [p[|p| - 1]]
  }

  /** The text `strftime("%Y%m%d_%H%M%S")` produces: eight digits, an
      underscore and six digits. */
  predicate IsStamp(ts: string) {
    && |ts| == 15 && ts[8] == '_'
    && (forall k :: 0 <= k < 15 && k != 8 ==> PyInt.IsDigit(ts[k]))
  }

  /** The two images logged per iteration. */
  datatype Kind = Screenshot | Annotated

  const ScreenshotPrefix: string := "screenshot_"
  const AnnotatedPrefix: string := "screenshot_annotated_"
  const Extension: string := ".jpg"

  function Prefix(kind: Kind): string {
    match kind
    case Screenshot => ScreenshotPrefix
    case Annotated => AnnotatedPrefix
  }

  /** `f"screenshot_{ts}.jpg"` and `f"screenshot_annotated_{ts}.jpg"`. */
  function FileName(kind: Kind, ts: string): string {
    Prefix(kind) + ts + Extension
  }

  /** Reads a logged file name back into its kind and timestamp. */
  function ParseFileName(name: string): (r: Option<(Kind, string)>)
    ensures r.Some? ==> IsStamp(r.value.1)
  {
    if |name| == |AnnotatedPrefix| + 15 + |Extension|
       && name[..|AnnotatedPrefix|] == AnnotatedPrefix
       && name[|name| - |Extension|..] == Extension
       && IsStamp(name[|AnnotatedPrefix|..|name| - |Extension|])
    then Some((Annotated, name[|AnnotatedPrefix|..|name| - |Extension|]))
    else if |name| == |ScreenshotPrefix| + 15 + |Extension|
       && name[..|ScreenshotPrefix|] == ScreenshotPrefix
       && name[|name| - |Extension|..] == Extension
       && IsStamp(name[|ScreenshotPrefix|..|name| - |Extension|])
    then Some((Screenshot, name[|ScreenshotPrefix|..|name| - |Extension|]))
    else None
  }

  /** A file name reads back as `(kind, ts)` exactly when it is the name of
      that kind written with the stamp `ts`. */
  lemma FileNameRoundTrip(name: string, kind: Kind, ts: string)
    ensures ParseFileName(name) == Some((kind, ts)) <==> IsStamp(ts) && name == FileName(kind, ts)
  {
    if IsStamp(ts) && name == FileName(kind, ts) {
      var p := Prefix(kind);
      assert name[..|p|] == p && name[|p|..|name| - |Extension|] == ts && name[|name| - |Extension|..] == Extension;
      if kind == Screenshot {
        assert name[..|AnnotatedPrefix|][11] == ts[0] != AnnotatedPrefix[11];
      }
    }
    if ParseFileName(name) == Some((kind, ts)) {
      var p := Prefix(kind);
      assert name == name[..|p|] + name[|p|..|name| - |Extension|] + name[|name| - |Extension|..];
    }
  }

  /** The state of `ImageLoggingSettings`: the session stamp and directory,
      and the two current paths (`None` until the first generation). */
  datatype LogSettings = LogSettings(
    sessionTimestamp: string,
    sessionLogDir: string,
    screenshotPath: Option<string>,
    annotatedPath: Option<string>)

  /** The two current paths are unset together, or name the two images of
      one timestamp inside the session directory. */
  predicate Consistent(s: LogSettings) {
    match (s.screenshotPath, s.annotatedPath)
    case (None, None) => true
    case (Some(p), Some(q)) =>
      && ParseFileName(Basename(p)).Some?
      && ParseFileName(Basename(q)).Some?
      && ParseFileName(Basename(p)).value.0 == Screenshot
      && ParseFileName(Basename(q)).value.0 == Annotated
      && ParseFileName(Basename(p)).value.1 == ParseFileName(Basename(q)).value.1
      && p == Join(s.sessionLogDir, Basename(p))
      && q == Join(s.sessionLogDir, Basename(q))
    case _ => false
  }

  /** `ImageLoggingSettings(base_path)` started at the time `stamp`. */
  function NewLogSettings(basePath: string, stamp: string): (s: LogSettings)
    ensures GetScreenshotPath(s).None? && GetAnnotatedPath(s).None?
    ensures s.sessionTimestamp == stamp
  {
    LogSettings(stamp, Join(basePath, stamp), None, None)
  }

  /** A new logger is consistent, whatever its base path and stamp, and
      every generation at a well-formed stamp leaves a logger consistent. */
  lemma GenerationKeepsConsistent(basePath: string, stamp: string, s: LogSettings, ts: string)
    requires IsStamp(ts)
    ensures Consistent(NewLogSettings(basePath, stamp))
    ensures Consistent(GenerateNewPaths(s, ts).0)
  {
    GeneratedNames(s.sessionLogDir, ts);
  }

  /** The session directory is the stamp joined to `base_path`, so it sits
      in `base_path`, and its last component is the stamp. */
  lemma SessionDirNamedByStamp(basePath: string, stamp: string)
    requires IsStamp(stamp)
    ensures var dir := NewLogSettings(basePath, stamp).sessionLogDir;
            JoinedAt(dir, basePath, stamp) && Basename(dir) == stamp
  {
    assert PyInt.IsDigit(stamp[0]);
    BasenameJoin(basePath, stamp);
  }

  /** `get_screenshot_path()`. */
  function GetScreenshotPath(s: LogSettings): Option<string> {
    s.screenshotPath
  }

  /** `get_annotated_screenshot_path()`. */
  function GetAnnotatedPath(s: LogSettings): Option<string> {
    s.annotatedPath
  }

  /** `generate_new_paths_for_iteration()` at the time `ts`: both current
      paths are replaced, and the screenshot path is returned. */
  function GenerateNewPaths(s: LogSettings, ts: string): (r: (LogSettings, string))
    ensures GetScreenshotPath(r.0) == Some(r.1)
    ensures GetAnnotatedPath(r.0).Some?
    ensures r.0.sessionTimestamp == s.sessionTimestamp && r.0.sessionLogDir == s.sessionLogDir
  {
    var shot := Join(s.sessionLogDir, FileName(Screenshot, ts));
    var annotated := Join(s.sessionLogDir, FileName(Annotated, ts));
    (s.(screenshotPath := Some(shot), annotatedPath := Some(annotated)), shot)
  }

  /** What a generation leaves behind names the two files of the same
      stamp, and the directory is the one they were joined to. */
  lemma GeneratedNames(dir: string, ts: string)
    requires IsStamp(ts)
    ensures Basename(Join(dir, FileName(Screenshot, ts))) == FileName(Screenshot, ts)
    ensures Basename(Join(dir, FileName(Annotated, ts))) == FileName(Annotated, ts)
    ensures ParseFileName(FileName(Screenshot, ts)) == Some((Screenshot, ts))
    ensures ParseFileName(FileName(Annotated, ts)) == Some((Annotated, ts))
  {
    FileNameSlashFree(Screenshot, ts);
    FileNameSlashFree(Annotated, ts);
    BasenameJoin(dir, FileName(Screenshot, ts));
    BasenameJoin(dir, FileName(Annotated, ts));
    FileNameRoundTrip(FileName(Screenshot, ts), Screenshot, ts);
    FileNameRoundTrip(FileName(Annotated, ts), Annotated, ts);
  }

  /** A logged file name is a single path component. */
  lemma FileNameSlashFree(kind: Kind, ts: string)
    requires IsStamp(ts)
    ensures |FileName(kind, ts)| > 0
    ensures forall k :: 0 <= k < |FileName(kind, ts)| ==> FileName(kind, ts)[k] != '/'
  {
    var name := FileName(kind, ts);
    forall k | 0 <= k < |name|
      ensures name[k] != '/'
    {
      var p := Prefix(kind);
      if k < |p| {
        assert name[k] == p[k];
      } else if k < |p| + |ts| {
        assert name[k] == ts[k - |p|];
      } else {
        assert name[k] == Extension[k - |p| - |ts|];
      }
    }
  }

  /** Joining a plain file name to a directory and taking the last
      component gives the file name back. */
  lemma {:induction false} BasenameJoin(dir: string, name: string)
    requires |name| > 0 && forall k :: 0 <= k < |name| ==> name[k] != '/'
    ensures Basename(Join(dir, name)) == name
  {
    var p := Join(dir, name);
    BasenameSuffix(p, name);
  }

  /** A path ending in `/` followed by a slash-free `name`, or made of
      `name` alone, has `name` as its last component. */
  lemma {:induction false} BasenameSuffix(p: string, name: string)
    requires |name| <= |p| && p[|p| - |name|..] == name
    requires forall k :: 0 <= k < |name| ==> name[k] != '/'
    requires |p| == |name| || p[|p| - |name| - 1] == '/'
    ensures Basename(p) == name
    decreases |name|
  {
    if name != [] {
      var init := name[..|name| - 1];
      var q := p[..|p| - 1];
      assert q[|q| - |init|..] == init;
      BasenameSuffix(q, init);
    }
  }

  /** The screenshot and the annotated image are files of the same stamp,
      each joined to the session directory, and the returned path is the
      screenshot. */
  lemma GeneratedPathsShareStamp(s: LogSettings, ts: string)
    requires IsStamp(ts)
    ensures var (next, path) := GenerateNewPaths(s, ts);
            && ParseFileName(Basename(path)) == Some((Screenshot, ts))
            && ParseFileName(Basename(GetAnnotatedPath(next).value)) == Some((Annotated, ts))
            && JoinedAt(path, s.sessionLogDir, FileName(Screenshot, ts))
            && JoinedAt(GetAnnotatedPath(next).value, s.sessionLogDir, FileName(Annotated, ts))
  {
    GeneratedNames(s.sessionLogDir, ts);
    assert FileName(Screenshot, ts)[0] == 's' && FileName(Annotated, ts)[0] == 's';
  }

  /** A new generation overwrites both current paths: only the last
      timestamp matters. */
  lemma GenerationOverwrites(s: LogSettings, t1: string, t2: string)
    ensures GenerateNewPaths(GenerateNewPaths(s, t1).0, t2) == GenerateNewPaths(s, t2)
  {
  }

  /** Two generations at different stamps give different screenshot paths. */
  lemma DistinctStampsDistinctPaths(s: LogSettings, t1: string, t2: string)
    requires IsStamp(t1) && IsStamp(t2) && t1 != t2
    ensures GenerateNewPaths(s, t1).1 != GenerateNewPaths(s, t2).1
  {
    GeneratedPathsShareStamp(s, t1);
    GeneratedPathsShareStamp(s, t2);
  }
}
