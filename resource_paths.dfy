/** `ClassUtils.getPackageResourcePath(scope, resource)`: the classpath location of a
    resource that sits in the same package as `scope`. */
module ResourcePaths {
  import opened Classes

  /** `name.replace('.', '/')`: every dot becomes a slash, every other character stays. */
  function ReplaceDots(name: string): (r: string)
    ensures |r| == |name|
    ensures forall i :: 0 <= i < |name| ==> r[i] == (if name[i] == '.' then '/' else name[i])
  {
    if name == [] then []
    else [if name[0] == '.' then '/' else name[0]] + ReplaceDots(name[1..])
  }

  /** The reverse translation, from a directory path back to a package name. */
  function RestoreDots(path: string): (r: string)
    ensures |r| == |path|
    ensures forall i :: 0 <= i < |path| ==> r[i] == (if path[i] == '/' then '.' else path[i])
  {
    if path == [] then []
    else [if path[0] == '/' then '.' else path[0]] + RestoreDots(path[1..])
  }

  /** A package name never holds a slash, so the translation loses nothing. */
  lemma {:induction false} RestoreReplaced(name: string)
    requires '/' !in name
    ensures RestoreDots(ReplaceDots(name)) == name
  {
    if name != [] {
      RestoreReplaced(name[1..]);
      assert ReplaceDots(name) == [if name[0] == '.' then '/' else name[0]] + ReplaceDots(name[1..]);
    }
  }

  /** The package's directory, a slash, then the resource name unchanged. */
  function PackageResourcePath(packageName: string, resource: string): (r: string)
    ensures |r| == |packageName| + 1 + |resource|
    ensures '.' !in r[..|packageName|]
    ensures forall i :: 0 <= i < |packageName| ==>
      r[i] == (if packageName[i] == '.' then '/' else packageName[i])
    ensures r[|packageName|] == '/'
    ensures r[|packageName| + 1..] == resource
  {
    ReplaceDots(packageName) + "/" + resource
  }

  /** Resources of different packages never share a path. */
  lemma PackagePathsDistinct(p1: string, p2: string, resource: string)
    requires '/' !in p1 && '/' !in p2
    requires PackageResourcePath(p1, resource) == PackageResourcePath(p2, resource)
    ensures p1 == p2
  {
    var r := PackageResourcePath(p1, resource);
    assert r[..|p1|] == ReplaceDots(p1);
    assert r[..|p2|] == ReplaceDots(p2);
    RestoreReplaced(p1);
    RestoreReplaced(p2);
  }

  /** The form that takes the scope class: `NullPointerException` when `scope` is null
      or `getPackage()` is null, since the source dereferences both. A null resource is
      not dereferenced: string concatenation appends the text `null`. */
  function ResourcePathOf(w: World, scope: Option<ClassId>, resource: Option<string>): (r: Result<string>)
    requires scope.Some? ==> scope.value in w
    ensures r.Err? <==> scope.None? || w[scope.value].packageName.None?
    ensures r.Err? ==> r.error == NullPointerException
    ensures r.Ok? && resource.Some? ==>
      r.value == PackageResourcePath(w[scope.value].packageName.value, resource.value)
    ensures r.Ok? && resource.None? ==>
      r.value == PackageResourcePath(w[scope.value].packageName.value, "null")
  {
    if scope.None? then Err(NullPointerException)
    else match w[scope.value].packageName
      case None => Err(NullPointerException)
      case Some(name) => Ok(PackageResourcePath(name, if resource.Some? then resource.value else "null"))
  }

  /** A class in package `a.b` looking up `c.txt` reads `a/b/c.txt`. */
  lemma ExamplePath()
    ensures PackageResourcePath("a.b", "c.txt") == "a/b/c.txt"
  {
  }
}
