/**
 * workflow_scripts/generate_dockerfiles/generate_dockerfiles.py: one Dockerfile
 * per Python file in `webservices/`, based on python:3.14.0a7-slim, installing
 * `webservices-requirements/<name>.txt` when that file exists, and always
 * overwriting the previous Dockerfile.
 */
module DockerfilesGenerator {
  import opened Text
  import opened DockerfileCommon
  import opened FileSystem

  const RequirementsDir := "webservices-" + "requirements"
  const BaseImage := "FROM python:3.14.0a7-slim"
  // Written in pieces only so that the verifier can look inside them.
  const InstallRequirements := "RUN pip install --no-cache-dir " + "-r /app/requirements.txt"

  /** `os.path.join(REQUIREMENTS_DIR, f"{service_name}.txt")`. */
  function RequirementsPath(name: string): (p: string)
    requires '/' !in name
    ensures p == RequirementsDir + "/" + name + ".txt"
  {
    PathJoin(RequirementsDir, name + ".txt")
  }

  function CopyRequirementsLine(name: string): string {
    "COPY " + RequirementsDir + "/" + name + ".txt /app/requirements.txt"
  }

  /** `dockerfile_lines` once built. */
  function DockerfileLines(name: string, requirementsExists: bool): seq<string> {
    [Header(name), BaseImage, Workdir, CopyServiceLine(name)]
    + (if requirementsExists then [CopyRequirementsLine(name), InstallRequirements] else [])
    + [CmdLine(name)]
  }

  /** `"\n".join(dockerfile_lines) + "\n"`. */
  function DockerfileContent(name: string, requirementsExists: bool): string {
    Join(DockerfileLines(name, requirementsExists), "\n") + "\n"
  }

  /**
   * The Dockerfile has five lines, seven with requirements: header, FROM,
   * WORKDIR and the script COPY first, then the requirements COPY and the pip
   * install exactly when requirements exist, and the CMD running the copied
   * script last.
   */
  lemma LinesLayout(name: string, requirementsExists: bool)
    ensures var lines := DockerfileLines(name, requirementsExists);
            && |lines| == (if requirementsExists then 7 else 5)
            && lines[..4] == [Header(name), BaseImage, Workdir, CopyServiceLine(name)]
            && lines[|lines| - 1] == CmdLine(name)
            && (InstallRequirements in lines <==> requirementsExists)
            && (CopyRequirementsLine(name) in lines <==> requirementsExists)
            && (requirementsExists ==> lines[4] == CopyRequirementsLine(name) && lines[5] == InstallRequirements)
  {
    var lines := DockerfileLines(name, requirementsExists);
    // The lines differ in their first or their seventeenth character.
    assert Header(name)[0] == '#';
    assert BaseImage[0] == 'F' && Workdir[0] == 'W' && InstallRequirements[0] == 'R';
    assert CopyServiceLine(name)[1] == 'O' && CopyServiceLine(name)[16] == '/';
    assert CopyRequirementsLine(name)[1] == 'O' && CopyRequirementsLine(name)[16] == '-';
    assert CmdLine(name)[1] == 'M';
    if requirementsExists {
      assert lines[4] == CopyRequirementsLine(name);
      assert lines[5] == InstallRequirements;
    }
  }

  /** The written file always ends in a newline, whatever the service name. */
  lemma ContentEndsWithNewline(name: string, requirementsExists: bool)
    ensures EndsWith(DockerfileContent(name, requirementsExists), "\n")
  {
  }

  /**
   * Splitting the written file at its newlines gives back the lines, then the
   * empty text after the final newline: for a service name without a newline
   * the file holds exactly those lines.
   */
  lemma ContentSplitsIntoLines(name: string, requirementsExists: bool)
    requires '\n' !in name
    ensures Split(DockerfileContent(name, requirementsExists), '\n') == DockerfileLines(name, requirementsExists) + [""]
  {
    var lines := DockerfileLines(name, requirementsExists);
    LinesHaveNoNewline(name);
    JoinAppendEmpty(lines, "\n");
    SplitJoin(lines + [""], '\n');
  }

  /** No line of a Dockerfile holds a newline when the service name does not. */
  lemma LinesHaveNoNewline(name: string)
    requires '\n' !in name
    ensures forall line :: line in DockerfileLines(name, true) ==> '\n' !in line
  {
    HeaderHasNoNewline(name);
    ConstantsHaveNoNewline();
    CopyLinesHaveNoNewline(name);
    CmdLineHasNoNewline(name);
  }

  lemma HeaderHasNoNewline(name: string)
    requires '\n' !in name
    ensures '\n' !in Header(name)
  {
  }

  lemma ConstantsHaveNoNewline()
    ensures '\n' !in BaseImage && '\n' !in Workdir && '\n' !in InstallRequirements
  {
  }

  lemma CopyLinesHaveNoNewline(name: string)
    requires '\n' !in name
    ensures '\n' !in CopyServiceLine(name) && '\n' !in CopyRequirementsLine(name)
  {
  }

  lemma CmdLineHasNoNewline(name: string)
    requires '\n' !in name
    ensures '\n' !in CmdLine(name)
  {
  }

  /** Joining with one more empty part adds one trailing separator. */
  lemma {:induction false} JoinAppendEmpty(parts: seq<string>, sep: string)
    requires |parts| >= 1
    ensures Join(parts + [""], sep) == Join(parts, sep) + sep
    decreases |parts|
  {
    if |parts| == 1 {
      assert Join(parts + [""], sep) == parts[0] + sep + Join([""], sep);
    } else {
      JoinAppendEmpty(parts[1..], sep);
      assert (parts + [""])[1..] == parts[1..] + [""];
    }
  }

  /** `generate_dockerfile(service_name, requirements_exists)`: writes (or overwrites) the service's Dockerfile. */
  method GenerateDockerfile(tree: Tree, name: string, requirementsExists: bool)
    requires '/' !in name
    modifies tree
    ensures tree.files == old(tree.files)[DockerfilePath(name) := DockerfileContent(name, requirementsExists)]
  {
    var dockerfileLines := [Header(name), BaseImage, Workdir, CopyServiceLine(name)];
    if requirementsExists {
      dockerfileLines := dockerfileLines + [CopyRequirementsLine(name)];
      dockerfileLines := dockerfileLines + [InstallRequirements];
    }
    dockerfileLines := dockerfileLines + [CmdLine(name)];
    assert dockerfileLines == DockerfileLines(name, requirementsExists);
    tree.Write(DockerfilePath(name), Join(dockerfileLines, "\n") + "\n");
  }

  /** The working tree after handling one directory entry. */
  function AfterEntry(files: map<string, string>, filename: string): map<string, string>
    requires '/' !in filename
  {
    if IsService(filename) then
      var name := ServiceName(filename);
      files[DockerfilePath(name) := DockerfileContent(name, RequirementsPath(name) in files)]
    else files
  }

  /** The working tree after `main` handled the entries from the first on. */
  function AfterEntries(files: map<string, string>, listing: seq<string>): map<string, string>
    requires forall f :: f in listing ==> '/' !in f
    decreases |listing|
  {
    if |listing| == 0 then files else AfterEntries(AfterEntry(files, listing[0]), listing[1..])
  }

  /**
   * `main()` over the entries `os.listdir("webservices")` returned (names
   * without "/"), in that order.
   */
  method GenerateAll(tree: Tree, listing: seq<string>)
    requires forall f :: f in listing ==> '/' !in f
    modifies tree
    ensures tree.files == AfterEntries(old(tree.files), listing)
  {
    var i := 0;
    while i < |listing|
      invariant 0 <= i <= |listing|
      invariant AfterEntries(old(tree.files), listing) == AfterEntries(tree.files, listing[i..])
    {
      var filename := listing[i];
      ghost var before := tree.files;
      AfterEntriesStep(before, listing, i);
      if EndsWith(filename, ".py") {
        var serviceName := filename[..|filename| - 3];
        ServiceNameInEntry(filename);
        var requirementsExists := tree.Exists(RequirementsPath(serviceName));
        GenerateDockerfile(tree, serviceName, requirementsExists);
      }
      assert tree.files == AfterEntry(before, filename);
      i := i + 1;
    }
  }

  /** Handling the entries from `i` on is handling entry `i`, then those after it. */
  lemma AfterEntriesStep(files: map<string, string>, listing: seq<string>, i: nat)
    requires i < |listing| && forall f :: f in listing ==> '/' !in f
    ensures AfterEntries(files, listing[i..]) == AfterEntries(AfterEntry(files, listing[i]), listing[i + 1..])
  {
    assert listing[i..][0] == listing[i] && listing[i..][1..] == listing[i + 1..];
  }

  /** No Dockerfile path is a requirements path, so writing Dockerfiles never changes what `main` reads. */
  lemma WritesMissRequirements(a: string, b: string)
    requires '/' !in a && '/' !in b
    ensures DockerfilePath(a) != RequirementsPath(b)
  {
  }

  /** Handling an entry never changes whether a requirements file exists. */
  lemma AfterEntryKeepsRequirements(files: map<string, string>, filename: string, name: string)
    requires '/' !in filename && '/' !in name
    ensures (RequirementsPath(name) in AfterEntry(files, filename)) == (RequirementsPath(name) in files)
  {
    if IsService(filename) {
      ServiceNameInEntry(filename);
      WritesMissRequirements(ServiceName(filename), name);
    }
  }

  /** After `main` the tree holds the files it held before plus one Dockerfile per service, and nothing else. */
  lemma {:induction false} GeneratedKeys(files: map<string, string>, listing: seq<string>)
    requires forall f :: f in listing ==> '/' !in f
    ensures AfterEntries(files, listing).Keys == files.Keys + GeneratedPaths(listing)
    decreases |listing|
  {
    if |listing| > 0 {
      GeneratedKeys(AfterEntry(files, listing[0]), listing[1..]);
      GeneratedPathsCons(listing);
    }
  }

  /** A file whose path is no service's Dockerfile keeps its text. */
  lemma {:induction false} OtherFilesKept(files: map<string, string>, listing: seq<string>)
    requires forall f :: f in listing ==> '/' !in f
    ensures forall p :: p in files && p !in GeneratedPaths(listing) ==>
              p in AfterEntries(files, listing) && AfterEntries(files, listing)[p] == files[p]
    decreases |listing|
  {
    if |listing| > 0 {
      OtherFilesKept(AfterEntry(files, listing[0]), listing[1..]);
      GeneratedPathsCons(listing);
    }
  }

  /**
   * Every service in the listing ends with its Dockerfile, which holds the
   * requirements lines exactly when its requirements file existed before
   * `main` ran; a later entry with the same name wins, with the same text.
   */
  lemma {:induction false} EveryServiceGenerated(files: map<string, string>, listing: seq<string>)
    requires forall f :: f in listing ==> '/' !in f
    ensures forall f :: f in listing && IsService(f) ==>
              var name := ServiceName(f);
              DockerfilePath(name) in AfterEntries(files, listing)
              && AfterEntries(files, listing)[DockerfilePath(name)]
                 == DockerfileContent(name, RequirementsPath(name) in files)
    decreases |listing|
  {
    if |listing| > 0 {
      var next := AfterEntry(files, listing[0]);
      var rest := listing[1..];
      EveryServiceGenerated(next, rest);
      OtherFilesKept(next, rest);
      GeneratedKeys(next, rest);
      forall f | f in listing && IsService(f)
        ensures var name := ServiceName(f);
                DockerfilePath(name) in AfterEntries(files, listing)
                && AfterEntries(files, listing)[DockerfilePath(name)]
                   == DockerfileContent(name, RequirementsPath(name) in files)
      {
        ServiceNameInEntry(f);
        var name := ServiceName(f);
        AfterEntryKeepsRequirements(files, listing[0], name);
        if f !in rest {
          assert f == listing[0];
          if DockerfilePath(name) in GeneratedPaths(rest) {
            var g :| g in rest && IsService(g) && DockerfilePath(ServiceName(g)) == DockerfilePath(name);
            ServiceNameInEntry(g);
            DockerfilePathInjective(ServiceName(g), name);
          }
        }
      }
    }
  }

  /** `main` never changes whether a requirements file exists. */
  lemma {:induction false} RequirementsUnaffected(files: map<string, string>, listing: seq<string>, name: string)
    requires forall f :: f in listing ==> '/' !in f
    requires '/' !in name
    ensures (RequirementsPath(name) in AfterEntries(files, listing)) == (RequirementsPath(name) in files)
    decreases |listing|
  {
    if |listing| > 0 {
      AfterEntryKeepsRequirements(files, listing[0], name);
      RequirementsUnaffected(AfterEntry(files, listing[0]), listing[1..], name);
    }
  }

  /** Running `main` a second time over the same listing changes nothing. */
  lemma RegenerationIsIdempotent(files: map<string, string>, listing: seq<string>)
    requires forall f :: f in listing ==> '/' !in f
    ensures AfterEntries(AfterEntries(files, listing), listing) == AfterEntries(files, listing)
  {
    var once := AfterEntries(files, listing);
    var twice := AfterEntries(once, listing);
    GeneratedKeys(files, listing);
    GeneratedKeys(once, listing);
    OtherFilesKept(files, listing);
    OtherFilesKept(once, listing);
    EveryServiceGenerated(files, listing);
    EveryServiceGenerated(once, listing);
    forall p | p in once ensures twice[p] == once[p] {
      if p in GeneratedPaths(listing) {
        var f :| f in listing && IsService(f) && p == DockerfilePath(ServiceName(f));
        ServiceNameInEntry(f);
        RequirementsUnaffected(files, listing, ServiceName(f));
      }
    }
  }
}
