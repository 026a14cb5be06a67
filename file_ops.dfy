/**
  Packaging of a job's outputs (caldp/file_ops.py): finding the output files of
  one job (an "ipppssoot"), archiving them, placing the archive in the job's
  directory, and uploading it to S3.

  The filesystem is an abstract map from absolute paths to entries; an archive
  entry is its member list. The order in which the operating system lists a
  directory is an input (`listing`). The S3 client is foreign: the model returns
  the upload request it would be handed.
 */
module FileOps {
  import opened Wrappers
  import opened Strings
  import opened CaldpLog

  datatype Entry = Dir | File(data: seq<bv8>) | Archive(members: seq<Member>)

  /** A tar member: the path it was added under and what was there. */
  datatype Member = Member(name: string, entry: Entry)

  type FileSystem = map<string, Entry>

  datatype FsError =
    | NotFound(path: string)
    | NotADirectory(path: string)
    | IsADirectory(path: string)
    | OutputDirUnbound(uri: string)

  /** posixpath.join(a, b) */
  function PathJoin(a: string, b: string): string
  {
    if StartsWith(b, "/") then b
    else if a == "" || EndsWith(a, "/") then a + b
    else a + "/" + b
  }

  /** What PathJoin puts before a relative path. */
  function DirPrefix(a: string): string
  {
    if a == "" || EndsWith(a, "/") then a else a + "/"
  }

  lemma PathJoinRelative(a: string, b: string)
    requires b == "" || b[0] != '/'
    ensures PathJoin(a, b) == DirPrefix(a) + b
  {
  }

  /** Two relative paths resolve to the same place only when they are equal. */
  lemma PathJoinInjective(a: string, b: string, c: string)
    requires b == "" || b[0] != '/'
    requires c == "" || c[0] != '/'
    requires PathJoin(a, b) == PathJoin(a, c)
    ensures b == c
  {
    PathJoinRelative(a, b);
    PathJoinRelative(a, c);
    var p := DirPrefix(a);
    assert b == PathJoin(a, b)[|p|..];
  }

  /** posixpath.basename(p): the text after the last '/'. */
  function Basename(p: string): string
  {
    var parts := Split(p, '/');
    parts[|parts| - 1]
  }

  lemma BasenameOfName(p: string)
    requires '/' !in p
    ensures Basename(p) == p
  {
    SplitSeveralIffSeparator(p, '/');
    JoinSplit(p, '/');
  }

  // ---------------------------------------------------------------------------
  // get_output_dir

  /**
    get_output_dir(output_uri): a "file" URI gives the text after its last ':';
    an "s3" URI gives os.path.abspath("outputs"); any other URI leaves
    `output_dir` unbound (UnboundLocalError).
   */
  function GetOutputDir(uri: string, cwd: string): (r: Result<string, FsError>)
    ensures StartsWith(uri, "file") ==> r.Ok? && ':' !in r.value
    ensures r.Err? ==> r.error == OutputDirUnbound(uri)
  {
    if StartsWith(uri, "file") then
      var parts := Split(uri, ':');
      Ok(parts[|parts| - 1])
    else if StartsWith(uri, "s3") then Ok(PathJoin(cwd, "outputs"))
    else Err(OutputDirUnbound(uri))
  }

  /** For a "file" URI the directory is the text after the last ':', and the whole URI when there is none. */
  lemma FileUriDirectory(uri: string, cwd: string)
    requires StartsWith(uri, "file")
    ensures GetOutputDir(uri, cwd).Ok?
    ensures var dir := GetOutputDir(uri, cwd).value;
      && ':' !in dir
      && EndsWith(uri, dir)
      && (':' in uri ==> EndsWith(uri, ":" + dir))
      && (':' !in uri ==> dir == uri)
  {
    var parts := Split(uri, ':');
    var dir := parts[|parts| - 1];
    JoinSplit(uri, ':');
    SplitSeveralIffSeparator(uri, ':');
    if ':' in uri {
      JoinEndsWithLast(parts, [':']);
      assert EndsWith(uri, [':'] + dir);
      assert uri[|uri| - |dir|..] == ([':'] + dir)[1..] == dir;
    } else {
      assert parts == [dir];
    }
  }

  /** "file" is checked before "s3"; only URIs starting with neither are an error. */
  lemma OutputDirCases(uri: string, cwd: string)
    ensures !StartsWith(uri, "file") && StartsWith(uri, "s3") ==> GetOutputDir(uri, cwd) == Ok(PathJoin(cwd, "outputs"))
    ensures GetOutputDir(uri, cwd).Err? <==> !StartsWith(uri, "file") && !StartsWith(uri, "s3")
  {
  }

  // ---------------------------------------------------------------------------
  // find_files

  /** glob's star pattern under `dir`: one path component under `dir`, not hidden, ending in `suffix`. */
  predicate GlobMatch(path: string, dir: string, suffix: string)
  {
    StartsWith(path, dir + "/") &&
    var name := path[|dir| + 1..];
    name != "" && name[0] != '.' && '/' !in name && EndsWith(name, suffix)
  }

  /** glob.glob over a directory listing, in listing order. */
  function Glob(listing: seq<string>, dir: string, suffix: string): (r: seq<string>)
    ensures forall p :: p in r <==> p in listing && GlobMatch(p, dir, suffix)
    decreases |listing|
  {
    if |listing| == 0 then []
    else (if GlobMatch(listing[0], dir, suffix) then [listing[0]] else []) + Glob(listing[1..], dir, suffix)
  }

  /** glob keeps the listing's order: globbing a listing is globbing any prefix of it, then the rest. */
  lemma {:induction false} GlobKeepsOrder(listing: seq<string>, k: nat, dir: string, suffix: string)
    requires k <= |listing|
    ensures Glob(listing, dir, suffix) == Glob(listing[..k], dir, suffix) + Glob(listing[k..], dir, suffix)
    decreases k
  {
    if k > 0 {
      var head := if GlobMatch(listing[0], dir, suffix) then [listing[0]] else [];
      var rest := listing[1..];
      assert listing[..k][0] == listing[0];
      assert listing[..k][1..] == rest[..k - 1];
      assert rest[k - 1..] == listing[k..];
      assert Glob(listing, dir, suffix) == head + Glob(rest, dir, suffix);
      assert Glob(listing[..k], dir, suffix) == head + Glob(rest[..k - 1], dir, suffix);
      GlobKeepsOrder(rest, k - 1, dir, suffix);
    }
  }

  /** find_files(ipppssoot): the `*.fits` matches, then the `*.tra` matches, then the matches under `previews`. */
  function FindFiles(listing: seq<string>, job: string): (r: seq<string>)
    ensures forall p :: p in r ==> p in listing
  {
    Glob(listing, job, ".fits") + Glob(listing, job, ".tra") + Glob(listing, job + "/previews", "")
  }

  /** Which of find_files' three groups a path belongs to. */
  function Group(path: string, job: string): nat
  {
    if GlobMatch(path, job, ".fits") then 0
    else if GlobMatch(path, job, ".tra") then 1
    else 2
  }

  lemma PreviewIsNotTopLevel(path: string, job: string, suffix: string)
    requires GlobMatch(path, job + "/previews", "")
    ensures StartsWith(path, job + "/")
    ensures '/' in path[|job| + 1..]
    ensures !GlobMatch(path, job, suffix)
  {
    var pre := job + "/previews" + "/";
    assert path[..|pre|] == pre;
    assert path[..|job| + 1] == pre[..|job| + 1] == job + "/";
    assert path[|job| + 9] == pre[|job| + 9] == '/';
    assert path[|job| + 1..][8] == '/';
  }

  lemma FitsIsNotTra(path: string, job: string)
    requires GlobMatch(path, job, ".fits")
    ensures !GlobMatch(path, job, ".tra")
  {
    var name := path[|job| + 1..];
    assert name[|name| - 1] == 's';
  }

  /** The three patterns are disjoint, so a match decides the group; every match lies under `ipppssoot/`. */
  lemma GroupOfMatch(p: string, job: string)
    ensures GlobMatch(p, job, ".fits") ==> Group(p, job) == 0
    ensures GlobMatch(p, job, ".tra") ==> Group(p, job) == 1
    ensures GlobMatch(p, job + "/previews", "") ==> Group(p, job) == 2
    ensures GlobMatch(p, job, ".fits") || GlobMatch(p, job, ".tra") || GlobMatch(p, job + "/previews", "")
      ==> StartsWith(p, job + "/")
  {
    if GlobMatch(p, job, ".fits") {
      FitsIsNotTra(p, job);
    }
    if GlobMatch(p, job + "/previews", "") {
      PreviewIsNotTopLevel(p, job, ".fits");
      PreviewIsNotTopLevel(p, job, ".tra");
    }
  }

  /** Every match of one of the three patterns is returned, and nothing else. */
  lemma FindFilesMembership(listing: seq<string>, job: string)
    ensures var r := FindFiles(listing, job);
      forall p :: p in r <==>
        (p in listing &&
         (GlobMatch(p, job, ".fits") || GlobMatch(p, job, ".tra") || GlobMatch(p, job + "/previews", "")))
  {
    var fits := Glob(listing, job, ".fits");
    var tra := Glob(listing, job, ".tra");
    var prev := Glob(listing, job + "/previews", "");
    assert FindFiles(listing, job) == fits + tra + prev;
  }

  /** Each glob of find_files returns paths of its own group, all under `ipppssoot/`. */
  lemma GlobGroup(listing: seq<string>, job: string, dir: string, suffix: string, g: nat)
    requires || (dir == job && suffix == ".fits" && g == 0)
             || (dir == job && suffix == ".tra" && g == 1)
             || (dir == job + "/previews" && suffix == "" && g == 2)
    ensures forall k :: 0 <= k < |Glob(listing, dir, suffix)| ==>
      Group(Glob(listing, dir, suffix)[k], job) == g && StartsWith(Glob(listing, dir, suffix)[k], job + "/")
  {
    var m := Glob(listing, dir, suffix);
    forall k | 0 <= k < |m|
      ensures Group(m[k], job) == g && StartsWith(m[k], job + "/")
    {
      assert m[k] in m;
      GroupOfMatch(m[k], job);
    }
  }

  /** Three sequences whose elements fall in groups 0, 1 and 2 concatenate in group order. */
  lemma ConcatInGroupOrder<T>(a: seq<T>, b: seq<T>, c: seq<T>, g: T -> nat)
    requires forall k :: 0 <= k < |a| ==> g(a[k]) == 0
    requires forall k :: 0 <= k < |b| ==> g(b[k]) == 1
    requires forall k :: 0 <= k < |c| ==> g(c[k]) == 2
    ensures var r := a + b + c;
      forall i, j :: 0 <= i < j < |r| ==> g(r[i]) <= g(r[j])
  {
    var r := a + b + c;
    forall i | 0 <= i < |r|
      ensures g(r[i]) == if i < |a| then 0 else if i < |a| + |b| then 1 else 2
    {
      if i < |a| {
        assert r[i] == a[i];
      } else if i < |a| + |b| {
        assert r[i] == b[i - |a|];
      } else {
        assert r[i] == c[i - |a| - |b|];
      }
    }
  }

  /**
    Every path find_files returns lies under `ipppssoot/`, and the groups come in
    order: all `*.fits`, then all `*.tra`, then everything under `previews`.
   */
  lemma FindFilesGroups(listing: seq<string>, job: string)
    ensures var r := FindFiles(listing, job);
      && (forall i :: 0 <= i < |r| ==> StartsWith(r[i], job + "/"))
      && (forall i, j :: 0 <= i < j < |r| ==> Group(r[i], job) <= Group(r[j], job))
  {
    var fits := Glob(listing, job, ".fits");
    var tra := Glob(listing, job, ".tra");
    var prev := Glob(listing, job + "/previews", "");
    var r := fits + tra + prev;
    assert FindFiles(listing, job) == r;
    var g := p => Group(p, job);
    GlobGroup(listing, job, job, ".fits", 0);
    GlobGroup(listing, job, job, ".tra", 1);
    GlobGroup(listing, job, job + "/previews", "", 2);
    ConcatInGroupOrder(fits, tra, prev, g);
    forall i | 0 <= i < |r|
      ensures StartsWith(r[i], job + "/")
    {
      if i < |fits| {
        assert r[i] == fits[i];
      } else if i < |fits| + |tra| {
        assert r[i] == tra[i - |fits|];
      } else {
        assert r[i] == prev[i - |fits| - |tra|];
      }
    }
  }

  // ---------------------------------------------------------------------------
  // make_tar

  /** The members `t.add(f)` records for each name in turn. */
  function Members(fs: FileSystem, cwd: string, names: seq<string>): (ms: seq<Member>)
    requires forall i :: 0 <= i < |names| ==> PathJoin(cwd, names[i]) in fs
    ensures |ms| == |names|
    ensures forall i :: 0 <= i < |names| ==> ms[i] == Member(names[i], fs[PathJoin(cwd, names[i])])
    decreases |names|
  {
    if |names| == 0 then []
    else [Member(names[0], fs[PathJoin(cwd, names[0])])] + Members(fs, cwd, names[1..])
  }

  /** The index of the first name with nothing at its path, or |names| when all are there. */
  function FirstMissing(fs: FileSystem, cwd: string, names: seq<string>): (k: nat)
    ensures k <= |names|
    ensures forall i :: 0 <= i < k ==> PathJoin(cwd, names[i]) in fs
    ensures k < |names| ==> PathJoin(cwd, names[k]) !in fs
    decreases |names|
  {
    if |names| == 0 then 0
    else if PathJoin(cwd, names[0]) !in fs then 0
    else 1 + FirstMissing(fs, cwd, names[1..])
  }

  function TarName(job: string): string
  {
    job + ".tar.gz"
  }

  /** Where shutil.copy(tar, ipppssoot) writes: inside `ipppssoot` when it is a directory, else to `ipppssoot` itself. */
  function CopyDest(fs: FileSystem, cwd: string, job: string, tar: string): (d: string)
    ensures d == PathJoin(cwd, job) || d == PathJoin(cwd, PathJoin(job, Basename(tar)))
    ensures !(PathJoin(cwd, job) in fs && fs[PathJoin(cwd, job)] == Dir) ==> d == PathJoin(cwd, job)
    ensures PathJoin(cwd, job) in fs && fs[PathJoin(cwd, job)] == Dir ==> d == PathJoin(cwd, PathJoin(job, Basename(tar)))
  {
    var dst := PathJoin(cwd, job);
    if dst in fs && fs[dst] == Dir then PathJoin(cwd, PathJoin(job, Basename(tar))) else dst
  }

  datatype TarResult = TarResult(result: Result<string, FsError>, fs: FileSystem, log: LogState)

  /**
    make_tar(file_list, ipppssoot) run in `cwd`: log, remove an old archive, create
    `<ipppssoot>.tar.gz` with the listed files as members, log, copy it into the
    job directory and remove the top-level copy. A missing member aborts the
    `with` block, leaving the archive with the members added so far.
   */
  function MakeTarSpec(fs: FileSystem, cwd: string, log: LogState, fileList: seq<string>, job: string)
    : (t: TarResult)
    ensures t.result.Err? && t.result.error.NotFound? ==> t.result.error.path in fileList
    ensures t.result.Ok? ==> t.result.value == PathJoin(job, TarName(job))
  {
    var tar := TarName(job);
    var top := PathJoin(cwd, tar);
    var log1 := log.Info(["Creating tarfile: ", tar], " ");
    if top in fs && fs[top] == Dir then TarResult(Err(IsADirectory(tar)), fs, log1)
    else
      var fs1 := fs - {top};
      var k := FirstMissing(fs1, cwd, fileList);
      if k < |fileList| then
        TarResult(Err(NotFound(fileList[k])), fs1[top := Archive(Members(fs1, cwd, fileList[..k]))], log1)
      else
        var archive := Archive(Members(fs1, cwd, fileList));
        var fs2 := fs1[top := archive];
        var log2 := log1.Info(["Tar successful: ", tar], " ");
        var dest := CopyDest(fs2, cwd, job, tar);
        if dest in fs2 && fs2[dest] == Dir then TarResult(Err(IsADirectory(PathJoin(job, Basename(tar)))), fs2, log2)
        else TarResult(Ok(PathJoin(job, tar)), fs2[dest := archive] - {top}, log2)
  }

  /** A job name as the pipeline uses it: a single, non-empty path component. */
  predicate IsJobName(job: string)
  {
    job != "" && '/' !in job
  }

  /** The paths involved in make_tar for a job name, relative to the working directory. */
  lemma JobPaths(cwd: string, job: string)
    requires IsJobName(job)
    ensures '/' !in TarName(job) && Basename(TarName(job)) == TarName(job)
    ensures PathJoin(job, TarName(job)) == job + "/" + TarName(job)
    ensures PathJoin(cwd, job) != PathJoin(cwd, TarName(job))
    ensures PathJoin(cwd, job + "/" + TarName(job)) != PathJoin(cwd, TarName(job))
    ensures PathJoin(cwd, job + "/" + TarName(job)) != PathJoin(cwd, job)
  {
    var tar := TarName(job);
    assert '/' !in ".tar.gz";
    BasenameOfName(tar);
    assert !StartsWith(tar, "/") by { assert tar[0] == job[0]; }
    PathJoinRelative(cwd, job);
    PathJoinRelative(cwd, tar);
    PathJoinRelative(cwd, job + "/" + tar);
  }

  /**
    make_tar succeeds when no directory is in the way of the archive, every
    listed file exists, and no directory is where shutil.copy writes the copy.
   */
  predicate MakeTarSucceeds(fs: FileSystem, cwd: string, fileList: seq<string>, job: string)
  {
    var top := PathJoin(cwd, TarName(job));
    var dest := CopyDest(fs, cwd, job, TarName(job));
    && !(top in fs && fs[top] == Dir)
    && FirstMissing(fs - {top}, cwd, fileList) == |fileList|
    && !(dest in fs && fs[dest] == Dir)
  }

  lemma MakeTarOkIff(fs: FileSystem, cwd: string, log: LogState, fileList: seq<string>, job: string)
    ensures MakeTarSpec(fs, cwd, log, fileList, job).result.Ok? <==> MakeTarSucceeds(fs, cwd, fileList, job)
  {
  }

  /**
    The state a successful make_tar leaves for a job whose directory exists:
    the old top-level archive removed and the new one in the job directory.
   */
  lemma MakeTarSuccessState(fs: FileSystem, cwd: string, log: LogState, fileList: seq<string>, job: string)
    requires IsJobName(job)
    requires PathJoin(cwd, job) in fs && fs[PathJoin(cwd, job)] == Dir
    requires MakeTarSucceeds(fs, cwd, fileList, job)
    ensures var top := PathJoin(cwd, TarName(job));
      var fs1 := fs - {top};
      var t := MakeTarSpec(fs, cwd, log, fileList, job);
      && t.result == Ok(job + "/" + TarName(job))
      && t.fs == fs1[PathJoin(cwd, job + "/" + TarName(job)) := Archive(Members(fs1, cwd, fileList))]
      && t.log == log.Info(["Creating tarfile: ", TarName(job)], " ").Info(["Tar successful: ", TarName(job)], " ")
  {
    JobPaths(cwd, job);
    var tar := TarName(job);
    var top := PathJoin(cwd, tar);
    var dest := PathJoin(cwd, job + "/" + tar);
    var fs1 := fs - {top};
    var archive := Archive(Members(fs1, cwd, fileList));
    assert CopyDest(fs1[top := archive], cwd, job, tar) == dest;
    assert fs1[top := archive][dest := archive] - {top} == fs1[dest := archive];
  }

  /**
    After a successful make_tar for a job whose directory exists: the returned
    path is `ipppssoot/ipppssoot.tar.gz`, the archive is there with exactly the
    listed files as members, in order, and no top-level copy remains.
   */
  lemma MakeTarPlacesArchive(fs: FileSystem, cwd: string, log: LogState, fileList: seq<string>, job: string)
    requires IsJobName(job)
    requires PathJoin(cwd, job) in fs && fs[PathJoin(cwd, job)] == Dir
    requires MakeTarSpec(fs, cwd, log, fileList, job).result.Ok?
    ensures var t := MakeTarSpec(fs, cwd, log, fileList, job);
      var fs1 := fs - {PathJoin(cwd, TarName(job))};
      && FirstMissing(fs1, cwd, fileList) == |fileList|
      && t.result.value == job + "/" + TarName(job)
      && PathJoin(cwd, t.result.value) in t.fs
      && t.fs[PathJoin(cwd, t.result.value)] == Archive(Members(fs1, cwd, fileList))
      && PathJoin(cwd, TarName(job)) !in t.fs
      && t.log.infos == log.infos + 2
  {
    MakeTarOkIff(fs, cwd, log, fileList, job);
    MakeTarSuccessState(fs, cwd, log, fileList, job);
    JobPaths(cwd, job);
  }

  /**
    A directory already at `ipppssoot/ipppssoot.tar.gz` makes shutil.copy fail
    after the archive is complete: the error is raised, "Tar successful" has
    been logged, and the top-level archive is left in place.
   */
  lemma MakeTarCopyOntoDirectoryFails(fs: FileSystem, cwd: string, log: LogState, fileList: seq<string>, job: string)
    requires IsJobName(job)
    requires PathJoin(cwd, job) in fs && fs[PathJoin(cwd, job)] == Dir
    requires PathJoin(cwd, job + "/" + TarName(job)) in fs && fs[PathJoin(cwd, job + "/" + TarName(job))] == Dir
    requires !(PathJoin(cwd, TarName(job)) in fs && fs[PathJoin(cwd, TarName(job))] == Dir)
    requires FirstMissing(fs - {PathJoin(cwd, TarName(job))}, cwd, fileList) == |fileList|
    ensures var top := PathJoin(cwd, TarName(job));
      var t := MakeTarSpec(fs, cwd, log, fileList, job);
      && t.result == Err(IsADirectory(job + "/" + TarName(job)))
      && top in t.fs && t.fs[top] == Archive(Members(fs - {top}, cwd, fileList))
      && t.log == log.Info(["Creating tarfile: ", TarName(job)], " ").Info(["Tar successful: ", TarName(job)], " ")
  {
    JobPaths(cwd, job);
  }

  /** Adding one more name adds its member at the end. */
  lemma MembersSnoc(fs: FileSystem, cwd: string, names: seq<string>, name: string)
    requires forall i :: 0 <= i < |names| ==> PathJoin(cwd, names[i]) in fs
    requires PathJoin(cwd, name) in fs
    ensures Members(fs, cwd, names + [name]) == Members(fs, cwd, names) + [Member(name, fs[PathJoin(cwd, name)])]
  {
  }

  /** The first missing name is the one after a run of present names. */
  lemma FirstMissingAt(fs: FileSystem, cwd: string, names: seq<string>, k: nat)
    requires k <= |names|
    requires forall i :: 0 <= i < k ==> PathJoin(cwd, names[i]) in fs
    requires k < |names| ==> PathJoin(cwd, names[k]) !in fs
    ensures FirstMissing(fs, cwd, names) == k
  {
  }

  /**
    Writing a path no listed name resolves to keeps every listed file present and
    the members unchanged.
   */
  lemma MembersAfterWrite(fs: FileSystem, cwd: string, names: seq<string>, path: string, e: Entry)
    requires forall i :: 0 <= i < |names| ==> PathJoin(cwd, names[i]) in fs
    requires forall i :: 0 <= i < |names| ==> PathJoin(cwd, names[i]) != path
    ensures FirstMissing(fs[path := e], cwd, names) == |names|
    ensures Members(fs[path := e], cwd, names) == Members(fs, cwd, names)
  {
    FirstMissingAt(fs[path := e], cwd, names, |names|);
  }

  /** A file list without absolute paths and without the archive's own paths, as find_files returns. */
  predicate AvoidsArchive(fileList: seq<string>, job: string)
  {
    forall i :: 0 <= i < |fileList| ==>
      && (fileList[i] == "" || fileList[i][0] != '/')
      && fileList[i] != TarName(job)
      && fileList[i] != job + "/" + TarName(job)
  }

  /** A path find_files can return is relative and is neither archive path. */
  lemma FoundFileAvoidsArchive(p: string, job: string)
    requires IsJobName(job)
    requires GlobMatch(p, job, ".fits") || GlobMatch(p, job, ".tra") || GlobMatch(p, job + "/previews", "")
    ensures p[0] != '/' && p != TarName(job) && p != job + "/" + TarName(job)
  {
    if GlobMatch(p, job + "/previews", "") {
      PreviewIsNotTopLevel(p, job, "");
    }
    assert p[..|job| + 1] == job + "/";
    assert p[0] == job[0];
    assert p[|job|] == '/';
    assert TarName(job)[|job|] == '.';
    var q := job + "/" + TarName(job);
    assert q[|job| + 1..] == TarName(job);
    assert '/' !in ".tar.gz";
    assert q[|q| - 1] == 'z';
  }

  /** find_files never lists the archive or an absolute path. */
  lemma FoundFilesAvoidArchive(listing: seq<string>, job: string)
    requires IsJobName(job)
    ensures AvoidsArchive(FindFiles(listing, job), job)
  {
    var r := FindFiles(listing, job);
    FindFilesMembership(listing, job);
    forall i | 0 <= i < |r|
      ensures (r[i] == "" || r[i][0] != '/') && r[i] != TarName(job) && r[i] != job + "/" + TarName(job)
    {
      assert r[i] in r;
      FoundFileAvoidsArchive(r[i], job);
    }
  }

  /**
    make_tar replaces rather than appends: run twice with the same list, the
    second run leaves the same archive and the same filesystem as the first.
   */
  lemma MakeTarIsIdempotent(fs: FileSystem, cwd: string, log: LogState, fileList: seq<string>, job: string)
    requires IsJobName(job)
    requires PathJoin(cwd, job) in fs && fs[PathJoin(cwd, job)] == Dir
    requires AvoidsArchive(fileList, job)
    requires MakeTarSpec(fs, cwd, log, fileList, job).result.Ok?
    ensures var t1 := MakeTarSpec(fs, cwd, log, fileList, job);
      var t2 := MakeTarSpec(t1.fs, cwd, t1.log, fileList, job);
      t2.result == t1.result && t2.fs == t1.fs
  {
    var top := PathJoin(cwd, TarName(job));
    var dest := PathJoin(cwd, job + "/" + TarName(job));
    var fs1 := fs - {top};
    MakeTarOkIff(fs, cwd, log, fileList, job);
    MakeTarSuccessState(fs, cwd, log, fileList, job);
    var t1 := MakeTarSpec(fs, cwd, log, fileList, job);
    SecondRunSucceeds(fs1, cwd, fileList, job);
    assert t1.fs - {top} == t1.fs;
    MakeTarSuccessState(t1.fs, cwd, t1.log, fileList, job);
  }

  /** The filesystem a successful make_tar leaves lets a second run succeed, with the same members. */
  lemma SecondRunSucceeds(fs1: FileSystem, cwd: string, fileList: seq<string>, job: string)
    requires IsJobName(job)
    requires PathJoin(cwd, TarName(job)) !in fs1
    requires PathJoin(cwd, job) in fs1 && fs1[PathJoin(cwd, job)] == Dir
    requires AvoidsArchive(fileList, job)
    requires FirstMissing(fs1, cwd, fileList) == |fileList|
    ensures var dest := PathJoin(cwd, job + "/" + TarName(job));
      var archive := Archive(Members(fs1, cwd, fileList));
      && MakeTarSucceeds(fs1[dest := archive], cwd, fileList, job)
      && Members(fs1[dest := archive], cwd, fileList) == Members(fs1, cwd, fileList)
      && fs1[dest := archive] - {PathJoin(cwd, TarName(job))} == fs1[dest := archive]
  {
    JobPaths(cwd, job);
    var tar := TarName(job);
    var top := PathJoin(cwd, tar);
    var dest := PathJoin(cwd, job + "/" + tar);
    var archive := Archive(Members(fs1, cwd, fileList));
    var fs2 := fs1[dest := archive];
    forall i | 0 <= i < |fileList|
      ensures PathJoin(cwd, fileList[i]) != dest
    {
      if PathJoin(cwd, fileList[i]) == dest { PathJoinInjective(cwd, fileList[i], job + "/" + tar); }
    }
    MembersAfterWrite(fs1, cwd, fileList, dest, archive);
    assert fs2 - {top} == fs2;
    assert CopyDest(fs2, cwd, job, tar) == dest;
  }


  /** Unpacking members under `cwd`: each member written at its path, in order. */
  function Extract(fs: FileSystem, cwd: string, members: seq<Member>): FileSystem
    decreases |members|
  {
    if |members| == 0 then fs
    else Extract(fs[PathJoin(cwd, members[0].name) := members[0].entry], cwd, members[1..])
  }

  lemma {:induction false} ExtractKeepsOthers(fs: FileSystem, cwd: string, members: seq<Member>, q: string)
    requires q in fs
    requires forall j :: 0 <= j < |members| ==> PathJoin(cwd, members[j].name) != q
    ensures q in Extract(fs, cwd, members) && Extract(fs, cwd, members)[q] == fs[q]
    decreases |members|
  {
    if |members| > 0 {
      ExtractKeepsOthers(fs[PathJoin(cwd, members[0].name) := members[0].entry], cwd, members[1..], q);
    }
  }

  /** Unpacking the members of the listed files into any filesystem puts each file back, unchanged, at its path. */
  lemma {:induction false} ExtractRestoresFiles(fs: FileSystem, into: FileSystem, cwd: string, names: seq<string>)
    requires forall i :: 0 <= i < |names| ==> PathJoin(cwd, names[i]) in fs
    ensures var out := Extract(into, cwd, Members(fs, cwd, names));
      forall i :: 0 <= i < |names| ==>
        PathJoin(cwd, names[i]) in out && out[PathJoin(cwd, names[i])] == fs[PathJoin(cwd, names[i])]
    decreases |names|
  {
    if |names| > 0 {
      var ms := Members(fs, cwd, names);
      var q0 := PathJoin(cwd, names[0]);
      var into' := into[q0 := fs[q0]];
      assert ms[1..] == Members(fs, cwd, names[1..]);
      ExtractRestoresFiles(fs, into', cwd, names[1..]);
      var out := Extract(into, cwd, ms);
      assert out == Extract(into', cwd, ms[1..]);
      if (forall j :: 1 <= j < |names| ==> PathJoin(cwd, names[j]) != q0) {
        ExtractKeepsOthers(into', cwd, ms[1..], q0);
      } else {
        var j :| 1 <= j < |names| && PathJoin(cwd, names[j]) == q0;
        assert names[1..][j - 1] == names[j];
      }
      forall i | 1 <= i < |names|
        ensures PathJoin(cwd, names[i]) in out && out[PathJoin(cwd, names[i])] == fs[PathJoin(cwd, names[i])]
      {
        assert names[1..][i - 1] == names[i];
      }
    }
  }

  /** Unpacking the archive make_tar made gives back every listed file as it was. */
  lemma MakeTarRoundTrip(fs: FileSystem, cwd: string, log: LogState, fileList: seq<string>, job: string,
                         into: FileSystem)
    requires IsJobName(job)
    requires PathJoin(cwd, job) in fs && fs[PathJoin(cwd, job)] == Dir
    requires AvoidsArchive(fileList, job)
    requires MakeTarSpec(fs, cwd, log, fileList, job).result.Ok?
    ensures var t := MakeTarSpec(fs, cwd, log, fileList, job);
      PathJoin(cwd, t.result.value) in t.fs &&
      var archive := t.fs[PathJoin(cwd, t.result.value)];
      archive.Archive? &&
      var out := Extract(into, cwd, archive.members);
      forall i :: 0 <= i < |fileList| ==>
        PathJoin(cwd, fileList[i]) in fs && PathJoin(cwd, fileList[i]) in out
        && out[PathJoin(cwd, fileList[i])] == fs[PathJoin(cwd, fileList[i])]
  {
    MakeTarPlacesArchive(fs, cwd, log, fileList, job);
    var top := PathJoin(cwd, TarName(job));
    var fs1 := fs - {top};
    ExtractRestoresFiles(fs1, into, cwd, fileList);
  }

  // ---------------------------------------------------------------------------
  // upload_tar

  /** `output_path[5:]`: the text after "s3://". */
  function AfterScheme(outputPath: string): string
  {
    if |outputPath| >= 5 then outputPath[5..] else ""
  }

  function Bucket(outputPath: string): (b: string)
    ensures '/' !in b
  {
    Split(AfterScheme(outputPath), '/')[0]
  }

  function Prefix(outputPath: string): string
  {
    var parts := Split(AfterScheme(outputPath), '/');
    Join(parts[1..], "/")
  }

  function ObjectName(outputPath: string, tar: string): (o: string)
    ensures EndsWith(o, "/" + Basename(tar))
  {
    Prefix(outputPath) + "/" + Basename(tar)
  }

  /**
    The bucket is the first '/'-segment after "s3://" and holds no '/'; the
    prefix is the rest, so that bucket + "/" + prefix gives the path back.
   */
  lemma BucketPrefixSplit(outputPath: string)
    ensures '/' !in Bucket(outputPath)
    ensures '/' in AfterScheme(outputPath) ==> Bucket(outputPath) + "/" + Prefix(outputPath) == AfterScheme(outputPath)
    ensures '/' !in AfterScheme(outputPath) ==> Bucket(outputPath) == AfterScheme(outputPath) && Prefix(outputPath) == ""
  {
    var rest := AfterScheme(outputPath);
    var parts := Split(rest, '/');
    JoinSplit(rest, '/');
    SplitSeveralIffSeparator(rest, '/');
  }

  /** The request handed to the S3 client: bucket, object name and the archive. */
  datatype Upload = Upload(bucket: string, key: string, body: Entry)

  datatype UploadResult = UploadResult(result: Result<Option<Upload>, FsError>, log: LogState)

  /** upload_tar(tar, output_path) run in `cwd`: the split and the log line come first, unchecked. */
  function UploadSpec(fs: FileSystem, cwd: string, log: LogState, tar: string, outputPath: string): (u: UploadResult)
    ensures !StartsWith(outputPath, "s3") ==> u.result == Ok(None)
    ensures u.log.infos == log.infos + 1 && u.log.errors == log.errors
  {
    var bucket := Bucket(outputPath);
    var objectName := ObjectName(outputPath, tar);
    var log1 := log.Info(["Uploading: s3://" + bucket + "/" + objectName], " ");
    if !StartsWith(outputPath, "s3") then UploadResult(Ok(None), log1)
    else
      var path := PathJoin(cwd, tar);
      if path !in fs then UploadResult(Err(NotFound(tar)), log1)
      else if fs[path] == Dir then UploadResult(Err(IsADirectory(tar)), log1)
      else UploadResult(Ok(Some(Upload(bucket, objectName, fs[path]))), log1)
  }

  /** An upload is attempted only for an "s3" output path, to the split bucket and object name. */
  lemma UploadOnlyToS3(fs: FileSystem, cwd: string, log: LogState, tar: string, outputPath: string)
    ensures var u := UploadSpec(fs, cwd, log, tar, outputPath);
      && (u.result.Ok? && u.result.value.Some? <==>
            StartsWith(outputPath, "s3") && PathJoin(cwd, tar) in fs && fs[PathJoin(cwd, tar)] != Dir)
      && (u.result.Ok? && u.result.value.Some? ==>
            && u.result.value.value.bucket == Bucket(outputPath)
            && u.result.value.value.key == Prefix(outputPath) + "/" + Basename(tar)
            && u.result.value.value.body == fs[PathJoin(cwd, tar)])
      && u.log.infos == log.infos + 1
  {
  }

  // ---------------------------------------------------------------------------
  // tar_outputs

  /** os.chdir(dir): the new working directory, or the error when it is not a directory. */
  function ChDirSpec(fs: FileSystem, cwd: string, dir: string): (r: Result<string, FsError>)
    ensures r.Ok? ==> r.value in fs && fs[r.value] == Dir
    ensures r.Ok? <==> PathJoin(cwd, dir) in fs && fs[PathJoin(cwd, dir)] == Dir
  {
    var target := PathJoin(cwd, dir);
    if target !in fs then Err(NotFound(dir))
    else if fs[target] != Dir then Err(NotADirectory(dir))
    else Ok(target)
  }

  datatype Packaged = Packaged(
    result: Result<Option<(string, seq<string>)>, FsError>,
    upload: Option<Upload>,
    fs: FileSystem, cwd: string, log: LogState)

  /**
    tar_outputs(ipppssoot, output_uri), given `outputPath` (what
    process.get_output_path returns) and the directory listing glob sees.
   */
  function TarOutputsSpec(fs: FileSystem, cwd: string, log: LogState, job: string, outputUri: string,
                          outputPath: string, listing: seq<string>): (p: Packaged)
    ensures p.result.Ok? ==> p.cwd == cwd
    ensures p.upload.Some? ==> p.result.Ok? && StartsWith(outputPath, "s3")
    ensures GetOutputDir(outputUri, cwd).Err? ==> p == Packaged(Err(OutputDirUnbound(outputUri)), None, fs, cwd, log)
  {
    match GetOutputDir(outputUri, cwd)
    case Err(e) => Packaged(Err(e), None, fs, cwd, log)
    case Ok(dir) =>
      match ChDirSpec(fs, cwd, dir)
      case Err(e) => Packaged(Err(e), None, fs, cwd, log)
      case Ok(outCwd) =>
        var fileList := FindFiles(listing, job);
        var t := MakeTarSpec(fs, outCwd, log, fileList, job);
        if t.result.Err? then Packaged(Err(t.result.error), None, t.fs, outCwd, t.log)
        else
          var u := UploadSpec(t.fs, outCwd, t.log, t.result.value, outputPath);
          if u.result.Err? then Packaged(Err(u.result.error), None, t.fs, outCwd, u.log)
          else
            var ret := if StartsWith(outputUri, "file") then Some((t.result.value, fileList)) else None;
            Packaged(Ok(ret), u.result.value, t.fs, cwd, u.log)
  }

  /**
    tar_outputs restores the working directory when it returns normally, and
    only then: a failure after the chdir leaves the process in the output
    directory. It returns (tar, file_list) exactly for "file" URIs.
   */
  lemma TarOutputsWorkingDirectory(fs: FileSystem, cwd: string, log: LogState, job: string, outputUri: string,
                                   outputPath: string, listing: seq<string>)
    ensures var p := TarOutputsSpec(fs, cwd, log, job, outputUri, outputPath, listing);
      && (p.result.Ok? ==> p.cwd == cwd)
      && (p.cwd != cwd ==>
            p.result.Err? && GetOutputDir(outputUri, cwd).Ok?
            && p.cwd == PathJoin(cwd, GetOutputDir(outputUri, cwd).value))
      && ((GetOutputDir(outputUri, cwd).Ok? && ChDirSpec(fs, cwd, GetOutputDir(outputUri, cwd).value).Ok?
           && p.result.Err?) ==> p.cwd == PathJoin(cwd, GetOutputDir(outputUri, cwd).value))
      && (p.result.Ok? ==>
            (p.result.value.Some? <==> StartsWith(outputUri, "file"))
            && (p.result.value.Some? ==>
                  p.result.value.value == (PathJoin(job, TarName(job)), FindFiles(listing, job))))
  {
    match GetOutputDir(outputUri, cwd)
    case Err(_) =>
    case Ok(dir) =>
      match ChDirSpec(fs, cwd, dir)
      case Err(_) =>
      case Ok(outCwd) =>
  }

  /** The processes' filesystem view and working directory. */
  class Workspace {
    var files: FileSystem
    var cwd: string

    constructor (files: FileSystem, cwd: string)
      ensures this.files == files && this.cwd == cwd
    {
      this.files := files;
      this.cwd := cwd;
    }

    method ChDir(dir: string) returns (r: Result<(), FsError>)
      modifies this
      ensures files == old(files)
      ensures var c := ChDirSpec(old(files), old(cwd), dir);
        && (r.Ok? <==> c.Ok?)
        && (c.Ok? ==> cwd == c.value)
        && (c.Err? ==> r.error == c.error && cwd == old(cwd))
    {
      var target := PathJoin(cwd, dir);
      if target !in files {
        return Err(NotFound(dir));
      }
      if files[target] != Dir {
        return Err(NotADirectory(dir));
      }
      cwd := target;
      r := Ok(());
    }

    /**
      The `t.add(f)` loop: the members of the listed files up to the first one
      that does not exist, and that file's index (|fileList| when all exist).
     */
    method AddMembers(fileList: seq<string>) returns (members: seq<Member>, k: nat)
      ensures k == FirstMissing(files, cwd, fileList)
      ensures members == Members(files, cwd, fileList[..k])
    {
      members := [];
      k := 0;
      while k < |fileList| && PathJoin(cwd, fileList[k]) in files
        invariant 0 <= k <= |fileList|
        invariant forall j :: 0 <= j < k ==> PathJoin(cwd, fileList[j]) in files
        invariant members == Members(files, cwd, fileList[..k])
      {
        assert fileList[..k + 1] == fileList[..k] + [fileList[k]];
        MembersSnoc(files, cwd, fileList[..k], fileList[k]);
        members := members + [Member(fileList[k], files[PathJoin(cwd, fileList[k])])];
        k := k + 1;
      }
      FirstMissingAt(files, cwd, fileList, k);
    }

    method MakeTar(fileList: seq<string>, job: string, log: CaldpLogger) returns (r: Result<string, FsError>)
      modifies this, log
      ensures cwd == old(cwd)
      ensures var t := MakeTarSpec(old(files), cwd, old(log.State()), fileList, job);
        r == t.result && files == t.fs && log.State() == t.log
    {
      var tar := job + ".tar.gz";
      log.Info(["Creating tarfile: ", tar], " ");
      var top := PathJoin(cwd, tar);
      if top in files && files[top] == Dir {
        return Err(IsADirectory(tar));
      }
      files := files - {top};
      var members, k := AddMembers(fileList);
      if k < |fileList| {
        files := files[top := Archive(members)];
        return Err(NotFound(fileList[k]));
      }
      assert fileList[..k] == fileList;
      var archive := Archive(members);
      files := files[top := archive];
      log.Info(["Tar successful: ", tar], " ");
      var dest := PathJoin(cwd, job);
      if dest in files && files[dest] == Dir {
        dest := PathJoin(cwd, PathJoin(job, Basename(tar)));
      }
      if dest in files && files[dest] == Dir {
        return Err(IsADirectory(PathJoin(job, Basename(tar))));
      }
      files := files[dest := archive];
      files := files - {top};
      r := Ok(PathJoin(job, tar));
    }

    method UploadTar(tar: string, outputPath: string, log: CaldpLogger) returns (r: Result<Option<Upload>, FsError>)
      modifies log
      ensures var u := UploadSpec(files, cwd, old(log.State()), tar, outputPath);
        r == u.result && log.State() == u.log
    {
      var parts := Split(if |outputPath| >= 5 then outputPath[5..] else "", '/');
      var bucket, prefix := parts[0], Join(parts[1..], "/");
      var objectName := prefix + "/" + Basename(tar);
      log.Info(["Uploading: s3://" + bucket + "/" + objectName], " ");
      if !StartsWith(outputPath, "s3") {
        return Ok(None);
      }
      var path := PathJoin(cwd, tar);
      if path !in files {
        return Err(NotFound(tar));
      }
      if files[path] == Dir {
        return Err(IsADirectory(tar));
      }
      r := Ok(Some(Upload(bucket, objectName, files[path])));
    }

    method TarOutputs(job: string, outputUri: string, outputPath: string, listing: seq<string>, log: CaldpLogger)
      returns (r: Result<Option<(string, seq<string>)>, FsError>, upload: Option<Upload>)
      modifies this, log
      ensures var p := TarOutputsSpec(old(files), old(cwd), old(log.State()), job, outputUri, outputPath, listing);
        r == p.result && upload == p.upload && files == p.fs && cwd == p.cwd && log.State() == p.log
    {
      upload := None;
      var workingDir := cwd;
      var outputDir := GetOutputDir(outputUri, cwd);
      if outputDir.Err? {
        return Err(outputDir.error), None;
      }
      var moved := ChDir(outputDir.value);
      if moved.Err? {
        return Err(moved.error), None;
      }
      var fileList := FindFiles(listing, job);
      var tar := MakeTar(fileList, job, log);
      if tar.Err? {
        return Err(tar.error), None;
      }
      var sent := UploadTar(tar.value, outputPath, log);
      if sent.Err? {
        return Err(sent.error), None;
      }
      cwd := workingDir;
      upload := sent.value;
      if StartsWith(outputUri, "file") {
        r := Ok(Some((tar.value, fileList)));
      } else {
        r := Ok(None);
      }
    }
  }

  // ---------------------------------------------------------------------------
  // ProgressPercentage

  function Sum(amounts: seq<int>): int
    decreases |amounts|
  {
    if |amounts| == 0 then 0 else amounts[0] + Sum(amounts[1..])
  }

  lemma {:induction false} SumAppend(amounts: seq<int>, x: int)
    ensures Sum(amounts + [x]) == Sum(amounts) + x
    decreases |amounts|
  {
    if |amounts| > 0 {
      assert (amounts + [x])[1..] == amounts[1..] + [x];
      SumAppend(amounts[1..], x);
    }
  }


  /** The upload progress callback: it accumulates the byte increments it is called with. */
  class ProgressPercentage {
    const filename: string
    const size: int
    var seenSoFar: int
    /** The increments received so far, in call order. */
    ghost var amounts: seq<int>

    ghost predicate Valid()
      reads this
    {
      seenSoFar == Sum(amounts)
    }

    /** `size` is os.path.getsize(filename). */
    constructor (filename: string, size: nat)
      ensures Valid() && this.filename == filename && this.size == size
      ensures seenSoFar == 0 && amounts == []
    {
      this.filename := filename;
      this.size := size;
      seenSoFar := 0;
      amounts := [];
    }

    method Call(bytesAmount: int)
      requires Valid()
      modifies this
      ensures Valid()
      ensures amounts == old(amounts) + [bytesAmount]
      ensures seenSoFar == old(seenSoFar) + bytesAmount
    {
      SumAppend(amounts, bytesAmount);
      seenSoFar := seenSoFar + bytesAmount;
      amounts := amounts + [bytesAmount];
    }
  }

  /**
    The callback of a 25-byte upload, called back with 10, 10 and 5 bytes: it has
    seen the whole file, the sum of the increments of the calls.
   */
  method ProgressExample() returns (seen: int, size: int)
    ensures seen == size == 25
    ensures seen == Sum([10, 10, 5])
  {
    var p := new ProgressPercentage("J.tar.gz", 25);
    p.Call(10);
    p.Call(10);
    p.Call(5);
    assert p.amounts == [10, 10, 5];
    seen, size := p.seenSoFar, p.size;
  }
}
