/**
 * `DockerBuilder.build_image`: resolve the image URI, build the image from a
 * generated Dockerfile, remove the build context, and push to the repository
 * when one is given. The Docker CLI, the filesystem and the project helpers
 * are outside the model: their results are the method's inputs.
 */
module DockerBuilder {
  import opened Wrappers

  /** The name under which the generated Dockerfile is written into the build context. */
  const GeneratedDockerfileName: string := "Dockerfile.wandb-autogenerated"

  const Sagemaker: string := "sagemaker"

  /** Python truthiness of `repository: Optional[str]`: neither `None` nor empty. */
  predicate Truthy(repository: Option<string>) {
    repository.Some? && repository.value != ""
  }

  /** Python's `sub in s` on strings. */
  predicate Contains(s: string, sub: string) {
    exists i | 0 <= i <= |s| - |sub| :: OccursAt(s, sub, i)
  }

  predicate OccursAt(s: string, sub: string, i: int) {
    0 <= i <= |s| - |sub| && s[i..i + |sub|] == sub
  }

  lemma ContainsSuffix(prefix: string, sub: string)
    ensures Contains(prefix + sub, sub)
  {
    var s := prefix + sub;
    assert OccursAt(s, sub, |prefix|);
  }

  /** The number of occurrences of `c` in `s`. */
  function Count(s: string, c: char): (n: nat)
    ensures n == 0 <==> c !in s
  {
    if s == [] then 0 else (if s[0] == c then 1 else 0) + Count(s[1..], c)
  }

  lemma {:induction false} CountAppend(a: string, b: string, c: char)
    ensures Count(a + b, c) == Count(a, c) + Count(b, c)
  {
    if a != [] {
      assert (a + b)[1..] == a[1..] + b;
      CountAppend(a[1..], b, c);
    } else {
      assert a + b == b;
    }
  }

  /** The pieces joined back with `sep` between them: the inverse of `Split`. */
  function Join(parts: seq<string>, sep: char): string
    requires |parts| >= 1
    decreases |parts|
  {
    if |parts| == 1 then parts[0] else parts[0] + [sep] + Join(parts[1..], sep)
  }

  /**
   * Python's `s.split(sep)` for a one-character separator: the maximal
   * separator-free pieces, one more than there are separators.
   */
  function Split(s: string, sep: char): (parts: seq<string>)
    ensures |parts| == Count(s, sep) + 1
    ensures forall i :: 0 <= i < |parts| ==> sep !in parts[i]
    ensures Join(parts, sep) == s
    decreases |s|
  {
    if s == [] then
      [""]
    else if s[0] == sep then
      var rest := Split(s[1..], sep);
      assert s == [sep] + s[1..];
      [""] + rest
    else
      var rest := Split(s[1..], sep);
      var parts := [[s[0]] + rest[0]] + rest[1..];
      assert parts[1..] == rest[1..];
      assert s == [s[0]] + s[1..];
      parts
  }

  lemma {:induction false} SplitSeparatorFree(a: string, sep: char)
    requires sep !in a
    ensures Split(a, sep) == [a]
  {
    if a != [] {
      SplitSeparatorFree(a[1..], sep);
    }
  }

  lemma {:induction false} SplitAfterFirst(a: string, b: string, sep: char)
    requires sep !in a
    ensures Split(a + [sep] + b, sep) == [a] + Split(b, sep)
  {
    var s := a + [sep] + b;
    if a == [] {
      assert s[1..] == b;
    } else {
      assert s[0] == a[0] && s[0] != sep;
      assert s[1..] == a[1..] + [sep] + b;
      SplitAfterFirst(a[1..], b, sep);
      var rest := Split(s[1..], sep);
      assert rest == [a[1..]] + Split(b, sep);
      assert Split(s, sep) == [[a[0]] + rest[0]] + rest[1..];
      assert [a[0]] + a[1..] == a;
    }
  }

  /** Splitting undoes joining separator-free pieces. */
  lemma {:induction false} SplitJoin(parts: seq<string>, sep: char)
    requires |parts| >= 1
    requires forall i :: 0 <= i < |parts| ==> sep !in parts[i]
    ensures Split(Join(parts, sep), sep) == parts
  {
    if |parts| == 1 {
      SplitSeparatorFree(parts[0], sep);
    } else {
      SplitAfterFirst(parts[0], Join(parts[1..], sep), sep);
      SplitJoin(parts[1..], sep);
    }
  }

  /**
   * The image URI: `repository:run_id` when the repository is truthy,
   * otherwise the project's local URI.
   */
  function ImageUri(repository: Option<string>, runId: string, localUri: string): (uri: string)
    ensures Truthy(repository) ==>
      && |uri| == |repository.value| + 1 + |runId|
      && uri[..|repository.value|] == repository.value
      && uri[|repository.value|] == ':'
      && uri[|repository.value| + 1..] == runId
    ensures !Truthy(repository) ==> uri == localUri
  {
    if Truthy(repository) then repository.value + ":" + runId else localUri
  }

  /** With a colon-free repository and run id, `split(":")` gives back exactly the pair. */
  lemma ImageUriSplitsBack(repository: string, runId: string, localUri: string)
    requires repository != "" && ':' !in repository && ':' !in runId
    ensures Split(ImageUri(Some(repository), runId, localUri), ':') == [repository, runId]
  {
    assert Join([repository, runId], ':') == repository + ":" + runId;
    SplitJoin([repository, runId], ':');
  }

  /** A colon in the repository or the run id makes `split(":")` give more than two pieces. */
  lemma ImageUriSplitsTooFar(repository: string, runId: string, localUri: string)
    requires repository != "" && (':' in repository || ':' in runId)
    ensures |Split(ImageUri(Some(repository), runId, localUri), ':')| > 2
  {
    CountAppend(repository, ":" + runId, ':');
    CountAppend(":", runId, ':');
    assert repository + ":" + runId == repository + (":" + runId);
  }

  /** A registry with a port in its address is such a repository. */
  lemma RegistryWithPortCannotBePushed()
    ensures |Split(ImageUri(Some("localhost:5000/model"), "r1", ""), ':')| == 3
  {
    var uri := ImageUri(Some("localhost:5000/model"), "r1", "");
    assert uri == "localhost:5000/model:r1";
    assert Join(["localhost", "5000/model", "r1"], ':') == uri;
    SplitJoin(["localhost", "5000/model", "r1"], ':');
  }

  /** `os.path.join(directory, name)` on POSIX paths. */
  function PathJoin(directory: string, name: string): (path: string)
    ensures name != [] && name[0] == '/' ==> path == name
    ensures (name == [] || name[0] != '/') && (directory == [] || directory[|directory| - 1] == '/') ==>
      path == directory + name
    ensures (name == [] || name[0] != '/') && directory != [] && directory[|directory| - 1] != '/' ==>
      path == directory + "/" + name
  {
    if name != [] && name[0] == '/' then name
    else if directory == [] || directory[|directory| - 1] == '/' then directory + name
    else directory + "/" + name
  }

  /** The Dockerfile path: the generated file's name inside the build context. */
  function DockerfilePath(buildCtxPath: string): (path: string)
    ensures |path| >= |buildCtxPath| + |GeneratedDockerfileName|
    ensures path[..|buildCtxPath|] == buildCtxPath
    ensures path[|path| - |GeneratedDockerfileName|..] == GeneratedDockerfileName
    ensures |path| <= |buildCtxPath| + 1 + |GeneratedDockerfileName|
  {
    PathJoin(buildCtxPath, GeneratedDockerfileName)
  }

  /** The message of the `LaunchError` raised when the build fails. */
  function DockerErrorMessage(error: string): string {
    "Error communicating with docker client: " + error
  }

  /** The text a successful push to `repository` must contain when the resource is SageMaker. */
  function PushMarker(repository: string): string {
    "The push refers to repository [" + repository + "]"
  }

  /** The error raised for a push response, if any. */
  function PushError(resource: string, repository: string, response: Option<string>): (err: Option<string>)
    ensures response.None? ==> err == Some("Failed to push image to repository")
    ensures response.Some? && resource != Sagemaker ==> err == None
    ensures response.Some? && resource == Sagemaker ==>
      (err.Some? <==> !Contains(response.value, PushMarker(repository)))
    ensures response.Some? && err.Some? ==> Contains(err.value, response.value)
  {
    match response
    case None => Some("Failed to push image to repository")
    case Some(resp) =>
      if resource == Sagemaker && !Contains(resp, PushMarker(repository)) then
        var msg := "Unable to push image to ECR, response: " + resp;
        ContainsSuffix("Unable to push image to ECR, response: ", resp);
        Some(msg)
      else
        None
  }

  datatype LaunchProject = LaunchProject(runId: string, resource: string)

  /** The arguments of the `docker.build` call. */
  datatype BuildCall = BuildCall(tags: seq<string>, file: string, contextPath: string)

  /**
   * How `build_image` ends: the image URI, a `LaunchError`, or the
   * `ValueError` of unpacking a `split(":")` that did not give two pieces.
   */
  datatype BuildResult = Ok(imageUri: string) | LaunchError(msg: string) | UnpackError(pieces: nat)

  /**
   * The external calls made: the build call, the outcome of removing the
   * build context if removal was attempted, and the registry and tag pushed.
   */
  datatype BuildTrace = BuildTrace(build: BuildCall, removal: Option<bool>, push: Option<(string, string)>)

  /**
   * `DockerBuilder.build_image`. `localUri` is `construct_local_image_uri`'s
   * result, `buildCtxPath` the build context created for the project,
   * `buildError` the `DockerError` of `docker.build` if it raised one,
   * `contextRemoved` whether `os.remove` succeeded, and `pushResponse` what
   * `docker.push` returned.
   */
  method BuildImage(
    project: LaunchProject, repository: Option<string>, localUri: string, buildCtxPath: string,
    buildError: Option<string>, contextRemoved: bool, pushResponse: Option<string>)
    returns (result: BuildResult, trace: BuildTrace)
    ensures trace.build == BuildCall([ImageUri(repository, project.runId, localUri)], DockerfilePath(buildCtxPath), buildCtxPath)
    ensures result.Ok? ==> result.imageUri == ImageUri(repository, project.runId, localUri)
    ensures buildError.Some? ==>
      result == LaunchError(DockerErrorMessage(buildError.value)) && trace.removal == None && trace.push == None
    ensures buildError.None? ==> trace.removal == Some(contextRemoved)
    ensures !Truthy(repository) ==> trace.push == None
    ensures !Truthy(repository) && buildError.None? ==> result == Ok(localUri)
    ensures Truthy(repository) && buildError.None? && ':' !in repository.value && ':' !in project.runId ==>
      && trace.push == Some((repository.value, project.runId))
      && result == match PushError(project.resource, repository.value, pushResponse)
                   case None => Ok(repository.value + ":" + project.runId)
                   case Some(msg) => LaunchError(msg)
    ensures Truthy(repository) && buildError.None? && (':' in repository.value || ':' in project.runId) ==>
      && result == UnpackError(Count(ImageUri(repository, project.runId, localUri), ':') + 1)
      && result.pieces > 2 && trace.push == None
  {
    var imageUri := ImageUri(repository, project.runId, localUri);
    var dockerfile := DockerfilePath(buildCtxPath);
    var call := BuildCall([imageUri], dockerfile, buildCtxPath);
    if buildError.Some? {
      return LaunchError(DockerErrorMessage(buildError.value)), BuildTrace(call, None, None);
    }
    // A failed removal is only logged: `contextRemoved` is recorded and never consulted.
    var removal := Some(contextRemoved);
    if Truthy(repository) {
      var pieces := Split(imageUri, ':');
      if ':' in repository.value || ':' in project.runId {
        ImageUriSplitsTooFar(repository.value, project.runId, localUri);
      } else {
        ImageUriSplitsBack(repository.value, project.runId, localUri);
      }
      if |pieces| != 2 {
        return UnpackError(|pieces|), BuildTrace(call, removal, None);
      }
      var reg, tag := pieces[0], pieces[1];
      var err := PushError(project.resource, repository.value, pushResponse);
      if err.Some? {
        return LaunchError(err.value), BuildTrace(call, removal, Some((reg, tag)));
      }
      return Ok(imageUri), BuildTrace(call, removal, Some((reg, tag)));
    }
    return Ok(imageUri), BuildTrace(call, removal, None);
  }
}
