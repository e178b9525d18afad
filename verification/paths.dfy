/**
 * Paths and URIs of the sample's local files: `GetLocalUri` maps a file under
 * the assets folder to the virtual host `appassets.example`, and
 * `GetLocalPath` places a file next to the executable. The executable's path,
 * which the window reads with `GetModuleFileNameW`, is an input here.
 */
module Paths {
  import opened Win32

  const LocalFileRootUrl: string := "https://appassets.example/"

  /** `MAX_PATH`, the size of the buffer `GetModuleFileNameW` fills, terminator included. */
  const MaxPath: nat := 260

  /** `std::wstring::npos`, the largest `size_t`. */
  const NPos: Word64 := TwoTo64 - 1

  /** `regex_replace(p, wregex(L"\\\\"), L"/")`: every backslash becomes one forward slash. */
  function ForwardSlashes(p: string): (r: string)
    ensures |r| == |p|
    ensures forall i :: 0 <= i < |p| ==> r[i] == (if p[i] == '\\' then '/' else p[i])
  {
    if p == [] then []
    else [if p[0] == '\\' then '/' else p[0]] + ForwardSlashes(p[1..])
  }

  /** `GetLocalUri`: the virtual-host URI of a file given by its path relative to the assets folder. */
  function LocalUri(relativePath: string): (r: string)
    ensures |r| == |LocalFileRootUrl| + |relativePath|
    ensures r[..|LocalFileRootUrl|] == LocalFileRootUrl
    ensures '\\' !in r
    ensures forall i :: 0 <= i < |relativePath| && relativePath[i] != '\\' ==>
              r[|LocalFileRootUrl| + i] == relativePath[i]
    ensures forall i :: 0 <= i < |relativePath| && relativePath[i] == '\\' ==>
              r[|LocalFileRootUrl| + i] == '/'
  {
    var tail := ForwardSlashes(relativePath);
    assert forall i :: 0 <= i < |tail| ==> tail[i] != '\\';
    LocalFileRootUrl + tail
  }

  /** A path that already uses forward slashes comes out unchanged after the root URL. */
  lemma LocalUriOfSlashPath(relativePath: string)
    requires '\\' !in relativePath
    ensures LocalUri(relativePath) == LocalFileRootUrl + relativePath
  {
    var r := LocalUri(relativePath);
    assert r[|LocalFileRootUrl|..] == relativePath;
    assert r == r[..|LocalFileRootUrl|] + r[|LocalFileRootUrl|..];
  }

  /** Converting separators twice is the same as once. */
  lemma ForwardSlashesIdempotent(p: string)
    ensures ForwardSlashes(ForwardSlashes(p)) == ForwardSlashes(p)
  {
    var once := ForwardSlashes(p);
    var twice := ForwardSlashes(once);
    assert forall i :: 0 <= i < |once| ==> twice[i] == once[i];
  }

  /** `find_last_of(c)`: the index of the last `c`, or `npos` when there is none. */
  function FindLastOf(s: string, c: char): (r: Word64)
    requires |s| < NPos
    ensures r == NPos <==> c !in s
    ensures r != NPos ==> r < |s| && s[r] == c && c !in s[r + 1..]
  {
    if s == [] then NPos
    else if s[|s| - 1] == c then |s| - 1
    else
      var k := FindLastOf(s[..|s| - 1], c);
      assert s == s[..|s| - 1] + [s[|s| - 1]];
      k
  }

  /**
   * `dir` is `path` up to and including its last backslash, or empty when
   * `path` has no backslash: the folder part of a Windows path.
   */
  predicate IsFolderPrefix(dir: string, path: string) {
    && dir <= path
    && '\\' !in path[|dir|..]
    && (dir == [] || dir[|dir| - 1] == '\\')
  }

  /**
   * `GetLocalPath(relativePath, keepExePath)` for an executable at `exePath`.
   * With `keepExePath` the relative path is appended to the full executable
   * path. Otherwise it replaces everything after the last backslash; with no
   * backslash `npos + 1` wraps to 0 and the whole path is replaced.
   */
  function LocalPath(exePath: string, relativePath: string, keepExePath: bool): (r: string)
    requires |exePath| < MaxPath
    ensures keepExePath ==> r == exePath + relativePath
    ensures !keepExePath ==>
              && |relativePath| <= |r|
              && r[|r| - |relativePath|..] == relativePath
              && IsFolderPrefix(r[..|r| - |relativePath|], exePath)
  {
    if keepExePath then exePath + relativePath
    else
      var index := (FindLastOf(exePath, '\\') + 1) % TwoTo64;
      assert index <= |exePath|;
      var r := exePath[..index] + relativePath;
      assert r[..|r| - |relativePath|] == exePath[..index];
      assert r[|r| - |relativePath|..] == relativePath;
      assert index > 0 ==> exePath[index..] == exePath[FindLastOf(exePath, '\\') + 1..];
      r
  }

  /** With no backslash in the executable path, `GetLocalPath` without `keepExePath` is just the relative path. */
  lemma LocalPathWithoutFolder(exePath: string, relativePath: string)
    requires |exePath| < MaxPath && '\\' !in exePath
    ensures LocalPath(exePath, relativePath, false) == relativePath
  {
    var r := LocalPath(exePath, relativePath, false);
    var dir := r[..|r| - |relativePath|];
    assert dir == [];
    assert r == dir + r[|r| - |relativePath|..];
  }

  /** The folder part of a path is unique, so `GetLocalPath` splices in exactly one place. */
  lemma FolderPrefixUnique(d1: string, d2: string, path: string)
    requires IsFolderPrefix(d1, path) && IsFolderPrefix(d2, path)
    ensures d1 == d2
  {
  }

  /** The user data folder `CloseWebView` offers to delete: `GetLocalPath(L".WebView2", true)`. */
  function UserDataFolder(exePath: string): (r: string)
    requires |exePath| < MaxPath
    ensures |r| == |exePath| + 9
    ensures r[..|exePath|] == exePath && r[|exePath|..] == ".WebView2"
  {
    LocalPath(exePath, ".WebView2", true)
  }
}
