/** `generate_object_key`: the S3 key of an upload is the document root, then
    the prefix from the request's query string (when one is configured and
    given), then the file name with the upload time inserted before its
    extension. Path splitting, the clock and the settings are inputs here: the
    base and extension arrive already split, the time already formatted
    (`%Y%m%d%H%M%S`), the settings already read. */
module ObjectKey {
  import opened Wrappers

  /** `_now_postfix`: an underscore and the upload time, or nothing. */
  function NowPostfix(appendDatetime: bool, timestamp: string): string
  {
    if appendDatetime then "_" + timestamp else ""
  }

  /** `_filename`: the base, the postfix, then the extension. */
  function FileName(base: string, ext: string, appendDatetime: bool, timestamp: string): (r: string)
    ensures |r| == |base| + |NowPostfix(appendDatetime, timestamp)| + |ext|
    ensures r[..|base|] == base && r[|r| - |ext|..] == ext
    ensures !appendDatetime ==> r == base + ext
    ensures appendDatetime ==> r[|base|] == '_' && r[|base| + 1..|r| - |ext|] == timestamp
  {
    base + NowPostfix(appendDatetime, timestamp) + ext
  }

  /** The prefix the request asks for: only looked up when a query parameter
      name is configured, and only used when the value is not empty. */
  function QueryPrefix(paramName: string, query: map<string, string>): Option<string>
  {
    if paramName != "" && paramName in query && query[paramName] != "" then Some(query[paramName])
    else None
  }

  /** `Path(root)`: an empty root is the current directory and adds no segment. */
  function RootSegments(root: string): seq<string>
  {
    if root == "" then [] else [root]
  }

  /** The prefix, when used, is one segment of its own. */
  function PrefixSegments(prefix: Option<string>): seq<string>
  {
    match prefix
    case Some(p) => [p]
    case None => []
  }

  /** The segments of the key, in order: root, optional prefix, file name. */
  function KeySegments(root: string, paramName: string, query: map<string, string>, fileName: string): (segs: seq<string>)
    ensures |segs| >= 1 && segs[|segs| - 1] == fileName
    ensures root != "" ==> segs[0] == root
    ensures |segs| == |RootSegments(root)| + (if QueryPrefix(paramName, query).Some? then 1 else 0) + 1
    ensures QueryPrefix(paramName, query).Some? ==> segs[|segs| - 2] == query[paramName]
  {
    RootSegments(root) + PrefixSegments(QueryPrefix(paramName, query)) + [fileName]
  }

  /** `str(path)`: the segments separated by `/`. */
  function JoinPath(segs: seq<string>): string
    requires |segs| >= 1
    decreases |segs|
  {
    if |segs| == 1 then segs[0]
    else JoinPath(segs[..|segs| - 1]) + "/" + segs[|segs| - 1]
  }

  /** The joined path ends with its last segment, after a separator if there
      is anything before it. */
  lemma JoinPathEndsWithLast(segs: seq<string>)
    requires |segs| >= 1
    ensures var r := JoinPath(segs); var last := segs[|segs| - 1];
      && |r| >= |last|
      && r[|r| - |last|..] == last
      && (|segs| > 1 ==> |r| > |last| && r[|r| - |last| - 1] == '/')
  {
  }

  /** The root directory: the setting, or the current directory when unset. */
  function RootDirectory(rootSetting: Option<string>): string
  {
    match rootSetting
    case Some(root) => root
    case None => ""
  }

  /** The object key: `root / [prefix] / base + postfix + ext`. The file name is
      always the last segment of the key. */
  function GenerateObjectKey(
    rootSetting: Option<string>, appendDatetime: bool, timestamp: string,
    paramName: string, query: map<string, string>, base: string, ext: string): (key: string)
    ensures var name := FileName(base, ext, appendDatetime, timestamp);
      && |key| >= |name|
      && key[|key| - |name|..] == name
      && (|key| > |name| ==> key[|key| - |name| - 1] == '/')
  {
    var segs := KeySegments(RootDirectory(rootSetting), paramName, query, FileName(base, ext, appendDatetime, timestamp));
    JoinPathEndsWithLast(segs);
    JoinPath(segs)
  }

  /** Each directory segment followed by a separator. */
  function DirectoryString(dir: seq<string>): string
    decreases |dir|
  {
    if dir == [] then "" else DirectoryString(dir[..|dir| - 1]) + dir[|dir| - 1] + "/"
  }

  /** Joining directories and a final name is writing each directory with its
      separator, then the name. */
  lemma {:induction false} JoinPathAsDirectory(dir: seq<string>, name: string)
    ensures JoinPath(dir + [name]) == DirectoryString(dir) + name
    decreases |dir|
  {
    if dir != [] {
      var init, last := dir[..|dir| - 1], dir[|dir| - 1];
      assert (dir + [name])[..|dir|] == dir;
      assert dir == init + [last];
      JoinPathAsDirectory(init, last);
    } else {
      assert [] + [name] == [name];
    }
  }

  /** The directory part of the key: the root and a `/` unless the root is
      empty, then the prefix and a `/` when there is one. */
  lemma DirectoryLayout(root: string, prefix: Option<string>)
    ensures DirectoryString(RootSegments(root) + PrefixSegments(prefix)) ==
      (if root == "" then "" else root + "/") + (if prefix.Some? then prefix.value + "/" else "")
  {
    var rootPart := if root == "" then "" else root + "/";
    assert DirectoryString(RootSegments(root)) == rootPart by {
      if root != "" {
        assert RootSegments(root)[..0] == [];
      }
    }
    match prefix
    case None =>
      assert RootSegments(root) + PrefixSegments(prefix) == RootSegments(root);
      assert rootPart + "" == rootPart;
    case Some(p) =>
      var dir := RootSegments(root) + [p];
      assert dir[..|dir| - 1] == RootSegments(root);
      assert DirectoryString(dir) == rootPart + p + "/";
      assert rootPart + p + "/" == rootPart + (p + "/");
  }

  /** The key, spelled out: the root and a `/` unless the root is empty; the
      query value and a `/` when a parameter name is configured and the request
      gives it a non-empty value; then the base name, an underscore and the
      timestamp when appending is on, and the extension. */
  lemma KeyLayout(
    rootSetting: Option<string>, appendDatetime: bool, timestamp: string,
    paramName: string, query: map<string, string>, base: string, ext: string)
    ensures var root := if rootSetting.Some? then rootSetting.value else "";
      GenerateObjectKey(rootSetting, appendDatetime, timestamp, paramName, query, base, ext) ==
        (if root == "" then "" else root + "/")
        + (if paramName != "" && paramName in query && query[paramName] != "" then query[paramName] + "/" else "")
        + (base + (if appendDatetime then "_" + timestamp else "") + ext)
  {
    var root := RootDirectory(rootSetting);
    var name := FileName(base, ext, appendDatetime, timestamp);
    var prefix := QueryPrefix(paramName, query);
    var dir := RootSegments(root) + PrefixSegments(prefix);
    assert GenerateObjectKey(rootSetting, appendDatetime, timestamp, paramName, query, base, ext) == JoinPath(dir + [name]);
    JoinPathAsDirectory(dir, name);
    DirectoryLayout(root, prefix);
  }

  /** As written, the root is read from the settings object at call time,
      bypassing the defaulted module constant: when the setting is absent the
      lookup raises `AttributeError` instead of falling back to the empty root. */
  function GenerateObjectKeyAsWritten(
    rootSetting: Option<string>, appendDatetime: bool, timestamp: string,
    paramName: string, query: map<string, string>, base: string, ext: string): (r: Result<string>)
    ensures r.Err? <==> rootSetting.None?
    ensures r.Ok? ==> r.value == GenerateObjectKey(rootSetting, appendDatetime, timestamp, paramName, query, base, ext)
  {
    match rootSetting
    case None => Err("AttributeError: S3_DOCUMENT_ROOT_DIRECTORY")
    case Some(_) => Ok(GenerateObjectKey(rootSetting, appendDatetime, timestamp, paramName, query, base, ext))
  }

  /** The discrepancy: without the root setting the code as written fails for
      every request, while the default it declares would give the key
      `[prefix/]file name`; with the setting present the two agree. */
  lemma MissingRootSettingRaises(
    appendDatetime: bool, timestamp: string,
    paramName: string, query: map<string, string>, base: string, ext: string)
    ensures GenerateObjectKeyAsWritten(None, appendDatetime, timestamp, paramName, query, base, ext).Err?
    ensures GenerateObjectKey(None, appendDatetime, timestamp, paramName, query, base, ext) ==
      (if paramName != "" && paramName in query && query[paramName] != "" then query[paramName] + "/" else "")
      + (base + (if appendDatetime then "_" + timestamp else "") + ext)
  {
    KeyLayout(None, appendDatetime, timestamp, paramName, query, base, ext);
  }
}
