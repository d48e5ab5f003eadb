/**
 * workflow_scripts/generate_dockerfile.py: the older generator. One Dockerfile
 * per Python file in `webservices/`, based on python:3.11-slim, without
 * requirements, and never replacing a Dockerfile that already exists.
 */
module DockerfileGenerator {
  import opened Text
  import opened DockerfileCommon
  import opened FileSystem

  const BaseImage := "FROM python:3.11-slim"

  /**
   * The CMD line as the script writes it: the string has no `f` prefix, so the
   * placeholder `{service_name}` is kept as text instead of being replaced.
   */
  const LiteralCmd := "CMD [\"python\", \"/app/" + "{service_name}" + ".py\"]"

  /** `dockerfile_content`: five lines, each ended by a newline. */
  function DockerfileContent(name: string): string {
    Header(name) + "\n" + BaseImage + "\n" + Workdir + "\n" + CopyServiceLine(name) + "\n" + LiteralCmd + "\n"
  }

  /** The lines of the content, in order. */
  function DockerfileLines(name: string): seq<string> {
    [Header(name), BaseImage, Workdir, CopyServiceLine(name), LiteralCmd]
  }

  /** The content always ends in a newline, whatever the service name. */
  lemma ContentEndsWithNewline(name: string)
    ensures EndsWith(DockerfileContent(name), "\n")
  {
  }

  /**
   * Splitting the content at its newlines gives exactly the five lines (header,
   * FROM, WORKDIR, COPY, CMD) and then the empty text after the final newline.
   */
  lemma ContentIsFiveLines(name: string)
    requires '\n' !in name
    ensures Split(DockerfileContent(name), '\n') == DockerfileLines(name) + [""]
  {
    var lines := DockerfileLines(name);
    JoinFiveLines(Header(name), BaseImage, Workdir, CopyServiceLine(name), LiteralCmd);
    assert lines + [""] == [Header(name), BaseImage, Workdir, CopyServiceLine(name), LiteralCmd, ""];
    NoNewlineInLines(name);
    SplitJoin(lines + [""], '\n');
  }

  /** Five lines joined by newlines, with an empty sixth part, end in a newline each. */
  lemma JoinFiveLines(a: string, b: string, c: string, d: string, e: string)
    ensures Join([a, b, c, d, e, ""], "\n") == a + "\n" + b + "\n" + c + "\n" + d + "\n" + e + "\n"
  {
    var nl := "\n";
    var p5 := [e, ""];
    var p4 := [d] + p5;
    var p3 := [c] + p4;
    var p2 := [b] + p3;
    var p1 := [a] + p2;
    JoinCons(e, [""], nl);
    JoinCons(d, p5, nl);
    JoinCons(c, p4, nl);
    JoinCons(b, p3, nl);
    JoinCons(a, p2, nl);
    assert p1 == [a, b, c, d, e, ""];
  }

  /** Joining a first part onto at least one more puts the separator between them. */
  lemma JoinCons(x: string, rest: seq<string>, sep: string)
    requires |rest| > 0
    ensures Join([x] + rest, sep) == x + sep + Join(rest, sep)
  {
    assert ([x] + rest)[1..] == rest;
  }

  lemma NoNewlineInLines(name: string)
    requires '\n' !in name
    ensures forall line :: line in DockerfileLines(name) + [""] ==> '\n' !in line
  {
    NoNewlineInHeader(name);
    NoNewlineInCopy(name);
    NoNewlineInConstants();
  }

  lemma NoNewlineInHeader(name: string)
    requires '\n' !in name
    ensures '\n' !in Header(name)
  {
  }

  lemma NoNewlineInCopy(name: string)
    requires '\n' !in name
    ensures '\n' !in CopyServiceLine(name)
  {
  }

  lemma NoNewlineInConstants()
    ensures '\n' !in BaseImage && '\n' !in Workdir && '\n' !in LiteralCmd
  {
  }

  /**
   * The CMD line runs the script the COPY line installed, `/app/<name>.py`,
   * only for a service literally named `{service_name}`; every other service's
   * container starts a file that is not there.
   */
  lemma CmdRunsCopiedScriptOnlyForPlaceholder(name: string)
    ensures LiteralCmd == CmdLine(name) <==> name == "{service_name}"
  {
    if LiteralCmd == CmdLine(name) {
      CmdLineInjective("{service_name}", name);
    }
  }

  /** `generate_dockerfile(service_name)`: writes the Dockerfile unless one exists. */
  method GenerateDockerfile(tree: Tree, name: string)
    requires '/' !in name
    modifies tree
    ensures old(DockerfilePath(name) in tree.files) ==> tree.files == old(tree.files)
    ensures old(DockerfilePath(name) !in tree.files) ==>
              tree.files == old(tree.files)[DockerfilePath(name) := DockerfileContent(name)]
  {
    var dockerfilePath := DockerfilePath(name);
    if tree.Exists(dockerfilePath) {
      return;
    }
    var dockerfileContent := DockerfileContent(name);
    tree.Write(dockerfilePath, dockerfileContent);
  }

  /** The working tree after handling one directory entry. */
  function AfterEntry(files: map<string, string>, filename: string): map<string, string>
    requires '/' !in filename
  {
    if IsService(filename) && DockerfilePath(ServiceName(filename)) !in files then
      files[DockerfilePath(ServiceName(filename)) := DockerfileContent(ServiceName(filename))]
    else files
  }

  /** The working tree after `main` handled the entries from the first on. */
  function AfterEntries(files: map<string, string>, listing: seq<string>): map<string, string>
    requires forall f :: f in listing ==> '/' !in f
    decreases |listing|
  {
    if |listing| == 0 then files else AfterEntries(AfterEntry(files, listing[0]), listing[1..])
  }

  /** `main()` over the entries `os.listdir("webservices")` returned, in that order. */
  method GenerateMissing(tree: Tree, listing: seq<string>)
    requires forall f :: f in listing ==> '/' !in f
    modifies tree
    ensures tree.files == AfterEntries(old(tree.files), listing)
  {
    var i := 0;
    while i < |listing|
      invariant 0 <= i <= |listing|
      invariant AfterEntries(old(tree.files), listing) == AfterEntries(tree.files, listing[i..])
    {
      var filename := listing[i];
      assert listing[i..][0] == filename && listing[i..][1..] == listing[i + 1..];
      if EndsWith(filename, ".py") {
        var serviceName := filename[..|filename| - 3];
        ServiceNameInEntry(filename);
        GenerateDockerfile(tree, serviceName);
      }
      i := i + 1;
    }
  }

  /** After `main` the tree holds what it held before plus one Dockerfile per service, and nothing else. */
  lemma {:induction false} GeneratedKeys(files: map<string, string>, listing: seq<string>)
    requires forall f :: f in listing ==> '/' !in f
    ensures AfterEntries(files, listing).Keys == files.Keys + GeneratedPaths(listing)
    decreases |listing|
  {
    if |listing| > 0 {
      GeneratedKeys(AfterEntry(files, listing[0]), listing[1..]);
      GeneratedPathsCons(listing);
    }
  }

  /** `main` never changes a file that existed before, Dockerfiles included. */
  lemma {:induction false} ExistingFilesKept(files: map<string, string>, listing: seq<string>)
    requires forall f :: f in listing ==> '/' !in f
    ensures forall p :: p in files ==> p in AfterEntries(files, listing) && AfterEntries(files, listing)[p] == files[p]
    decreases |listing|
  {
    if |listing| > 0 {
      ExistingFilesKept(AfterEntry(files, listing[0]), listing[1..]);
    }
  }

  /** A service whose Dockerfile was missing gets the generated content. */
  lemma {:induction false} MissingDockerfilesWritten(files: map<string, string>, listing: seq<string>)
    requires forall f :: f in listing ==> '/' !in f
    ensures forall f :: f in listing && IsService(f) && DockerfilePath(ServiceName(f)) !in files ==>
              DockerfilePath(ServiceName(f)) in AfterEntries(files, listing)
              && AfterEntries(files, listing)[DockerfilePath(ServiceName(f))] == DockerfileContent(ServiceName(f))
    decreases |listing|
  {
    if |listing| > 0 {
      var next := AfterEntry(files, listing[0]);
      var rest := listing[1..];
      MissingDockerfilesWritten(next, rest);
      ExistingFilesKept(next, rest);
      forall f | f in listing && IsService(f) && DockerfilePath(ServiceName(f)) !in files
        ensures DockerfilePath(ServiceName(f)) in AfterEntries(files, listing)
                && AfterEntries(files, listing)[DockerfilePath(ServiceName(f))] == DockerfileContent(ServiceName(f))
      {
        var path := DockerfilePath(ServiceName(f));
        if f !in rest {
          assert f == listing[0];
        } else if path in next {
          ServiceNameInEntry(f);
          ServiceNameInEntry(listing[0]);
          DockerfilePathInjective(ServiceName(listing[0]), ServiceName(f));
        }
      }
    }
  }

  /** Once every service has a Dockerfile, `main` changes nothing. */
  lemma {:induction false} NothingLeftToGenerate(files: map<string, string>, listing: seq<string>)
    requires forall f :: f in listing ==> '/' !in f
    requires GeneratedPaths(listing) <= files.Keys
    ensures AfterEntries(files, listing) == files
    decreases |listing|
  {
    if |listing| > 0 {
      GeneratedPathsCons(listing);
      NothingLeftToGenerate(AfterEntry(files, listing[0]), listing[1..]);
    }
  }

  /** Running `main` a second time over the same listing changes nothing. */
  lemma RegenerationIsIdempotent(files: map<string, string>, listing: seq<string>)
    requires forall f :: f in listing ==> '/' !in f
    ensures AfterEntries(AfterEntries(files, listing), listing) == AfterEntries(files, listing)
  {
    GeneratedKeys(files, listing);
    NothingLeftToGenerate(AfterEntries(files, listing), listing);
  }
}
