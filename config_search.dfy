/**
 * Discovery of the configuration file: the first file of the directory
 * walk whose extension, in the sense of POSIX `os.path.splitext`, is
 * exactly `.ini`.
 */
module ConfigSearch {
  import opened Wrappers
  import opened Strings

  /** One `(root, dirs, files)` triple of `os.walk`; the directory names play no part. */
  datatype WalkEntry = WalkEntry(root: string, files: seq<string>)

  const ConfigExtension: string := ".ini"

  /** The last index of `s` holding `c`, or -1 when there is none (Python's `rfind`). */
  function RFind(s: string, c: char): (r: int)
    ensures -1 <= r < |s|
    ensures r >= 0 ==> s[r] == c
    ensures forall k :: r < k < |s| ==> s[k] != c
  {
    if |s| == 0 then -1
    else if s[|s| - 1] == c then |s| - 1
    else RFind(s[..|s| - 1], c)
  }

  /**
   * POSIX `os.path.splitext`: split at the last dot of the last path
   * component, unless everything before that dot in the component is dots.
   */
  function SplitExt(p: string): (r: (string, string))
    ensures r.0 + r.1 == p
    ensures r.1 != [] ==> r.1[0] == '.' && '.' !in r.1[1..] && '/' !in r.1
  {
    var sep := RFind(p, '/');
    var dot := RFind(p, '.');
    if sep < dot && exists k :: sep < k < dot && p[k] != '.' then
      assert p[..dot] + p[dot..] == p;
      (p[..dot], p[dot..])
    else
      (p, "")
  }

  /**
   * The extension is non-empty exactly when the last path component has a
   * dot with some character other than a dot before it.
   */
  lemma SplitExtNonEmpty(p: string)
    ensures SplitExt(p).1 != [] <==>
      exists k, d :: RFind(p, '/') < k < d < |p| && p[k] != '.' && p[d] == '.'
  {
  }

  function Extension(f: string): string {
    SplitExt(f).1
  }

  /** `os.path.splitext(f)[1] == ".ini"`. */
  predicate IsConfigName(f: string) {
    Extension(f) == ConfigExtension
  }

  /** POSIX `os.path.join(root, f)`. */
  function Join(root: string, f: string): (r: string)
    ensures EndsWith(r, f)
    ensures |f| > 0 && f[0] == '/' ==> r == f
    ensures (f == [] || f[0] != '/') ==> StartsWith(r, root) && |root| <= |r| - |f| <= |root| + 1
    ensures (f == [] || f[0] != '/') && |r| == |root| + |f| + 1 ==> r[|root|] == '/'
  {
    if |f| > 0 && f[0] == '/' then f
    else if root == [] || root[|root| - 1] == '/' then root + f
    else root + "/" + f
  }

  /** The path of the first config-named file of one directory, in list order. */
  function FirstInDir(root: string, files: seq<string>): Option<string> {
    if files == [] then None
    else if IsConfigName(files[0]) then Some(Join(root, files[0]))
    else FirstInDir(root, files[1..])
  }

  /** The path `find_config_file` returns: the first match, directory by directory. */
  function FirstConfig(walk: seq<WalkEntry>): Option<string> {
    if walk == [] then None
    else match FirstInDir(walk[0].root, walk[0].files)
      case Some(p) => Some(p)
      case None => FirstConfig(walk[1..])
  }

  /** `find_config_file`: two nested loops with an early return of the first match. */
  method FindConfigFile(walk: seq<WalkEntry>) returns (r: Option<string>)
    ensures r == FirstConfig(walk)
  {
    var i := 0;
    while i < |walk|
      invariant 0 <= i <= |walk|
      invariant FirstConfig(walk) == FirstConfig(walk[i..])
    {
      var root, files := walk[i].root, walk[i].files;
      var j := 0;
      while j < |files|
        invariant 0 <= j <= |files|
        invariant FirstInDir(root, files) == FirstInDir(root, files[j..])
      {
        if IsConfigName(files[j]) {
          return Some(Join(root, files[j]));
        }
        assert files[j..][1..] == files[j + 1..];
        j := j + 1;
      }
      assert walk[i..][1..] == walk[i + 1..];
      i := i + 1;
    }
    return None;
  }

  /**
   * For a file name (no `/`), the extension is `.ini` exactly when the name
   * ends in `.ini` and something other than a dot comes before that.
   * Matching is case-sensitive.
   */
  lemma ConfigNameIff(f: string)
    requires '/' !in f
    ensures IsConfigName(f) <==>
      |f| > 4 && f[|f| - 4..] == ConfigExtension && exists k :: 0 <= k < |f| - 4 && f[k] != '.'
  {
    var sep := RFind(f, '/');
    assert sep == -1;
    var dot := RFind(f, '.');
    if IsConfigName(f) {
      assert dot >= 0 && f[dot..] == ConfigExtension;
      assert dot == |f| - 4;
    }
    if |f| > 4 && f[|f| - 4..] == ConfigExtension {
      assert f[|f| - 4] == '.';
      assert f[|f| - 3] == 'i' && f[|f| - 2] == 'n' && f[|f| - 1] == 'i';
      assert dot == |f| - 4;
    }
  }

  /** A file named just `.ini` has no extension: its only dot is a leading one. */
  lemma BareIniIsNotConfig()
    ensures !IsConfigName(".ini")
  {
  }

  /** The comparison is case-sensitive. */
  lemma UpperCaseIsNotConfig()
    ensures !IsConfigName("X.INI")
  {
  }

  /** Only the last extension counts. */
  lemma LaterExtensionIsNotConfig()
    ensures !IsConfigName("site.ini.bak")
  {
  }

  lemma PlainIniIsConfig()
    ensures IsConfigName("site.ini")
  {
    var f := "site.ini";
    assert '/' !in f by {
      assert forall k :: 0 <= k < |f| ==> f[k] != '/';
    }
    assert f[|f| - 4..] == ConfigExtension;
    assert f[0] != '.';
    ConfigNameIff(f);
  }

  /** For an absolute walk root other than `/` and a plain file name, the path is `root/f`. */
  lemma JoinPlain(root: string, f: string)
    requires root != [] && root[|root| - 1] != '/'
    requires f == [] || f[0] != '/'
    ensures Join(root, f) == root + "/" + f
  {
  }

  /** At the file-system root `/` no second slash is added: the path is `/f`. */
  lemma JoinAtFileSystemRoot(f: string)
    requires f == [] || f[0] != '/'
    ensures Join("/", f) == "/" + f
  {
  }

  /** `(i, j)` is file `j` of walk entry `i`, and it is config-named. */
  ghost predicate MatchAt(walk: seq<WalkEntry>, i: int, j: int) {
    0 <= i < |walk| && 0 <= j < |walk[i].files| && IsConfigName(walk[i].files[j])
  }

  /** No match comes before `(i, j)` in walk order: none in an earlier directory, none earlier in directory `i`. */
  ghost predicate NoEarlierMatch(walk: seq<WalkEntry>, i: int, j: int) {
    forall i', j' :: MatchAt(walk, i', j') ==> i < i' || (i == i' && j <= j')
  }

  /** File `j` is the first config-named one of the list. */
  ghost predicate FirstMatchInDir(files: seq<string>, j: int) {
    0 <= j < |files| && IsConfigName(files[j]) && forall j' :: 0 <= j' < j ==> !IsConfigName(files[j'])
  }

  lemma {:induction false} FirstInDirAt(root: string, files: seq<string>, j: int)
    requires FirstMatchInDir(files, j)
    ensures FirstInDir(root, files) == Some(Join(root, files[j]))
  {
    if j > 0 {
      var rest := files[1..];
      assert !IsConfigName(files[0]);
      assert rest[j - 1] == files[j];
      assert forall j' :: 0 <= j' < j - 1 ==> rest[j'] == files[j' + 1];
      assert FirstMatchInDir(rest, j - 1);
      FirstInDirAt(root, rest, j - 1);
    }
  }

  lemma {:induction false} FirstInDirNone(root: string, files: seq<string>)
    ensures FirstInDir(root, files) == None <==> forall j :: 0 <= j < |files| ==> !IsConfigName(files[j])
  {
    if files != [] {
      FirstInDirNone(root, files[1..]);
      assert forall j :: 1 <= j < |files| ==> files[j] == files[1..][j - 1];
    }
  }

  lemma {:induction false} FirstInDirFound(root: string, files: seq<string>)
    requires FirstInDir(root, files).Some?
    ensures exists j :: FirstMatchInDir(files, j) && FirstInDir(root, files) == Some(Join(root, files[j]))
  {
    if !IsConfigName(files[0]) {
      var rest := files[1..];
      FirstInDirFound(root, rest);
      var j :| FirstMatchInDir(rest, j) && FirstInDir(root, rest) == Some(Join(root, rest[j]));
      forall j' | 0 <= j' < j + 1 ensures !IsConfigName(files[j']) {
        if j' > 0 {
          assert files[j'] == rest[j' - 1];
        }
      }
      assert files[j + 1] == rest[j];
      assert FirstMatchInDir(files, j + 1);
    } else {
      assert FirstMatchInDir(files, 0);
    }
  }

  /** When the first match in walk order is `(i, j)`, the search returns its joined path. */
  lemma {:induction false} FirstConfigSome(walk: seq<WalkEntry>, i: int, j: int)
    requires MatchAt(walk, i, j) && NoEarlierMatch(walk, i, j)
    ensures FirstConfig(walk) == Some(Join(walk[i].root, walk[i].files[j]))
  {
    if i == 0 {
      forall j' | 0 <= j' < j ensures !IsConfigName(walk[0].files[j']) {
        assert !MatchAt(walk, 0, j');
      }
      assert FirstMatchInDir(walk[0].files, j);
      FirstInDirAt(walk[0].root, walk[0].files, j);
    } else {
      forall j' | 0 <= j' < |walk[0].files| ensures !IsConfigName(walk[0].files[j']) {
        assert !MatchAt(walk, 0, j');
      }
      FirstInDirNone(walk[0].root, walk[0].files);
      var rest := walk[1..];
      forall i', j' | MatchAt(rest, i', j') ensures i - 1 < i' || (i - 1 == i' && j <= j') {
        assert MatchAt(walk, i' + 1, j');
      }
      FirstConfigSome(rest, i - 1, j);
    }
  }

  /** The search finds nothing exactly when no file of the walk is config-named. */
  lemma {:induction false} FirstConfigNone(walk: seq<WalkEntry>)
    ensures FirstConfig(walk) == None <==> forall i, j :: !MatchAt(walk, i, j)
  {
    if walk != [] {
      FirstInDirNone(walk[0].root, walk[0].files);
      FirstConfigNone(walk[1..]);
      if FirstConfig(walk) == None {
        forall i, j | MatchAt(walk, i, j) ensures false {
          if i == 0 {
          } else {
            assert MatchAt(walk[1..], i - 1, j);
          }
        }
      } else if FirstInDir(walk[0].root, walk[0].files).None? {
        var i, j :| MatchAt(walk[1..], i, j);
        assert MatchAt(walk, i + 1, j);
      } else {
        FirstInDirFound(walk[0].root, walk[0].files);
        var j :| FirstMatchInDir(walk[0].files, j);
        assert MatchAt(walk, 0, j);
      }
    }
  }

  /** Whatever the search returns is the joined path of the first match in walk order. */
  lemma {:induction false} FirstConfigFound(walk: seq<WalkEntry>)
    requires FirstConfig(walk).Some?
    ensures exists i, j :: (MatchAt(walk, i, j) && NoEarlierMatch(walk, i, j)
      && FirstConfig(walk) == Some(Join(walk[i].root, walk[i].files[j])))
  {
    var root, files := walk[0].root, walk[0].files;
    if FirstInDir(root, files).Some? {
      FirstInDirFound(root, files);
      var j :| FirstMatchInDir(files, j) && FirstInDir(root, files) == Some(Join(root, files[j]));
      assert MatchAt(walk, 0, j);
    } else {
      FirstInDirNone(root, files);
      var rest := walk[1..];
      FirstConfigFound(rest);
      var i, j :| MatchAt(rest, i, j) && NoEarlierMatch(rest, i, j)
        && FirstConfig(rest) == Some(Join(rest[i].root, rest[i].files[j]));
      assert rest[i] == walk[i + 1];
      assert MatchAt(walk, i + 1, j);
      forall i', j' | MatchAt(walk, i', j') ensures i + 1 < i' || (i + 1 == i' && j <= j') {
        assert i' != 0;
        assert rest[i' - 1] == walk[i'];
        assert MatchAt(rest, i' - 1, j');
      }
    }
  }
}
