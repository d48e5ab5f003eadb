/**
 * What both Dockerfile generators (workflow_scripts/generate_dockerfile.py and
 * workflow_scripts/generate_dockerfiles/generate_dockerfiles.py) share: the
 * directory constants, the choice of service files, the target path built with
 * `os.path.join`, and the header and COPY lines.
 */
module DockerfileCommon {
  import opened Text

  const WebservicesDir := "webservices"
  // Written in two pieces only so that the verifier can look inside them.
  const OutputDir := "generated_" + "dockerfiles"

  /**
   * POSIX `os.path.join(a, b)`: an absolute `b` replaces `a`; otherwise `b` is
   * appended, with a "/" in between unless `a` is empty or already ends in "/".
   */
  function PathJoin(a: string, b: string): (p: string)
    ensures |b| > 0 && b[0] == '/' ==> p == b
    ensures (|b| == 0 || b[0] != '/') ==> a <= p && EndsWith(p, b)
  {
    if |b| > 0 && b[0] == '/' then b
    else if |a| == 0 || a[|a| - 1] == '/' then a + b
    else a + "/" + b
  }

  /** `filename.endswith(".py")`: the directory entries the generators handle. */
  predicate IsService(filename: string) {
    EndsWith(filename, ".py")
  }

  /** `filename[:-3]`: the entry without its ".py". */
  function ServiceName(filename: string): (name: string)
    requires IsService(filename)
    ensures name + ".py" == filename
  {
    filename[..|filename| - 3]
  }

  /** A service name taken from a directory entry holds no "/" either. */
  lemma ServiceNameInEntry(filename: string)
    requires IsService(filename) && '/' !in filename
    ensures '/' !in ServiceName(filename)
  {
  }

  /** `os.path.join(os.path.join(OUTPUT_DIR, service_name), "Dockerfile")`. */
  function DockerfilePath(name: string): (p: string)
    requires '/' !in name
    ensures name != "" ==> p == OutputDir + "/" + name + "/Dockerfile"
    ensures name == "" ==> p == OutputDir + "/Dockerfile"
  {
    PathJoin(PathJoin(OutputDir, name), "Dockerfile")
  }

  /** Distinct service names never share a Dockerfile. */
  lemma DockerfilePathInjective(a: string, b: string)
    requires '/' !in a && '/' !in b
    requires DockerfilePath(a) == DockerfilePath(b)
    ensures a == b
  {
  }

  /** Every Dockerfile is written under generated_dockerfiles/. */
  lemma DockerfileUnderOutputDir(name: string)
    requires '/' !in name
    ensures OutputDir + "/" <= DockerfilePath(name)
  {
  }

  /**
   * Paths are text and are not normalised: the entries ".py", "..py" and
   * "...py" give the paths below, which the file system reads as the same
   * file for the first two and as the repository's root Dockerfile for the third.
   */
  lemma DotEntryPaths()
    ensures ServiceName(".py") == "" && ServiceName("..py") == "." && ServiceName("...py") == ".."
    ensures DockerfilePath("") == OutputDir + "/Dockerfile"
    ensures DockerfilePath(".") == OutputDir + "/" + "." + "/Dockerfile"
    ensures DockerfilePath("..") == OutputDir + "/" + ".." + "/Dockerfile"
  {
    assert ".py"[..0] == "";
    assert "..py"[..1] == ".";
    assert "...py"[..2] == "..";
  }

  const Workdir := "WORKDIR /app"

  function Header(name: string): string {
    "# Auto-generated Dockerfile for " + name
  }

  function CopyServiceLine(name: string): string {
    "COPY " + WebservicesDir + "/" + name + ".py /app/" + name + ".py"
  }

  /** The CMD line running `/app/<name>.py`. */
  function CmdLine(name: string): string {
    "CMD [\"python\", \"/app/" + name + ".py\"]"
  }

  /** Distinct names give distinct CMD lines. */
  lemma CmdLineInjective(a: string, b: string)
    requires CmdLine(a) == CmdLine(b)
    ensures a == b
  {
    var prefix, suffix := "CMD [\"python\", \"/app/", ".py\"]";
    var ca, cb := CmdLine(a), CmdLine(b);
    assert ca == prefix + a + suffix && cb == prefix + b + suffix;
    assert a == ca[|prefix|..|ca| - |suffix|];
    assert b == cb[|prefix|..|cb| - |suffix|];
  }

  /** The Dockerfile paths a generator writes for a listing. */
  function GeneratedPaths(listing: seq<string>): set<string>
    requires forall f :: f in listing ==> '/' !in f
  {
    set f | f in listing && IsService(f) :: DockerfilePath(ServiceName(f))
  }

  /** The paths of a listing are those of its first entry and those of the rest. */
  lemma GeneratedPathsCons(listing: seq<string>)
    requires |listing| > 0 && forall f :: f in listing ==> '/' !in f
    ensures GeneratedPaths(listing) == GeneratedPaths(listing[..1]) + GeneratedPaths(listing[1..])
  {
  }
}
