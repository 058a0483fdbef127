/**
 * Recent-project records and their formatting as script-filter rows
 * (internal/project.go): the local and remote branches of ToAlfredItem,
 * expandPath and the filter that drops history entries without a folder.
 */
module Projects {
  import opened Wrappers
  import opened GoStrings
  import opened Alfred
  import SuffixPattern

  const RemotePrefix := "vscode-remote://"
  const FileScheme := "file://"
  const FolderGlyph := "\U{1F4C1} "
  const GlobeGlyph := "\U{1F310} "

  /** One entry of the editor's recently-opened history: JSON "folderUri" and "label". */
  datatype Project = Project(folderUri: string, userLabel: string)

  function ToAlfredItem(p: Project): (it: Item)
    ensures p.folderUri == "" ==> it == ZeroItem
    ensures it.icon == None && it.valid == None
  {
    if p.folderUri == "" then ZeroItem
    else if HasPrefix(p.folderUri, RemotePrefix) then FormatRemote(p)
    else FormatLocal(p)
  }

  /**
   * A local row: the stored URI is the argument and the subtitle, and the
   * title is the user's label, or else the folder's name, behind the folder
   * glyph.
   */
  function FormatLocal(p: Project): (it: Item)
    ensures it.arg == p.folderUri && it.subtitle == p.folderUri
    ensures p.userLabel != "" ==> it.title == FolderGlyph + p.userLabel
    ensures p.userLabel == "" ==> it.title == FolderGlyph + Base(TrimPrefix(p.folderUri, FileScheme))
    ensures it.icon == None && it.valid == None
  {
    var path := TrimPrefix(p.folderUri, FileScheme);
    var folderName := Base(path);
    var displayName := if p.userLabel == "" then folderName else p.userLabel;
    Item(FolderGlyph + displayName, p.folderUri, p.folderUri, None, None)
  }

  /** strings.SplitN(rest, "/", 2): the text before the first slash, and the text after it. */
  function SplitAuthority(rest: string): (parts: (string, string))
    ensures '/' !in parts.0
    ensures '/' in rest ==> rest == parts.0 + "/" + parts.1
    ensures '/' !in rest ==> parts == (rest, "")
  {
    match Index(rest, '/')
    case Some(i) =>
      assert rest == rest[..i] + "/" + rest[i + 1..];
      (rest[..i], rest[i + 1..])
    case None => (rest, "")
  }

  /** A remote folder URI taken apart: the authority as shown, and the path on the remote. */
  datatype RemoteLocation = RemoteLocation(authority: string, remotePath: string)

  /**
   * The authority is what precedes the first slash after "vscode-remote://",
   * shown unescaped when it unescapes; the remote path is the rest, always
   * beginning with a slash.
   */
  function ParseRemote(uri: string): (loc: RemoteLocation)
    ensures loc.remotePath != [] && loc.remotePath[0] == '/'
    ensures var rest := TrimPrefix(uri, RemotePrefix);
            '/' !in rest ==> loc.remotePath == "/"
    ensures var raw := SplitAuthority(TrimPrefix(uri, RemotePrefix)).0;
            '%' !in raw && '+' !in raw ==> loc.authority == raw
  {
    var parts := SplitAuthority(TrimPrefix(uri, RemotePrefix));
    RemoteLocation(ShownAuthority(parts.0), "/" + parts.1)
  }

  /** The name a remote row shows before suffix cleanup. */
  function RemoteDisplayName(p: Project, loc: RemoteLocation): string
  {
    if p.userLabel == "" then Base(loc.remotePath) + " [" + loc.authority + "]" else p.userLabel
  }

  /**
   * A remote row: the title is the subtitle behind the globe glyph, the
   * subtitle the suffix-cleaned display name, and the argument the URI
   * rebuilt from the shown authority and the remote path.
   */
  function FormatRemote(p: Project): (it: Item)
    ensures var loc := ParseRemote(p.folderUri);
            && it.title == GlobeGlyph + it.subtitle
            && it.arg == RemotePrefix + loc.authority + loc.remotePath
            && |it.subtitle| <= |RemoteDisplayName(p, loc)|
    ensures it.icon == None && it.valid == None
  {
    var loc := ParseRemote(p.folderUri);
    var displayName := SuffixPattern.RemoveSuffixPattern(RemoteDisplayName(p, loc));
    Item(GlobeGlyph + displayName, displayName, RemotePrefix + loc.authority + loc.remotePath, None, None)
  }

  // ---------------------------------------------------------------------------
  // Properties of the formatter

  /** A local row hands the stored URI back unchanged, as argument and as subtitle. */
  lemma LocalRowKeepsUri(p: Project)
    requires p.folderUri != "" && !HasPrefix(p.folderUri, RemotePrefix)
    ensures ToAlfredItem(p).arg == p.folderUri
    ensures ToAlfredItem(p).subtitle == p.folderUri
    ensures p.userLabel != "" ==> ToAlfredItem(p).title == FolderGlyph + p.userLabel
  {
  }

  /** Without a userLabel, a local row is titled with the folder's own name. */
  lemma LocalRowTitledByFolder(dir: string, name: string)
    requires name != [] && '/' !in name
    ensures ToAlfredItem(Project(FileScheme + dir + "/" + name, "")).title == FolderGlyph + name
  {
    var uri := FileScheme + dir + "/" + name;
    assert uri[0] != RemotePrefix[0];
    assert TrimPrefix(uri, FileScheme) == dir + "/" + name by {
      assert uri[..|FileScheme|] == FileScheme;
      assert uri[|FileScheme|..] == dir + "/" + name;
    }
    BaseOfJoin(dir, name);
  }

  /**
   * A remote row: the argument is rebuilt from the shown authority and the
   * path, the title is the subtitle behind the globe, and the suffix cleanup
   * applies even to a user's label.
   */
  lemma RemoteRow(p: Project)
    requires HasPrefix(p.folderUri, RemotePrefix)
    ensures var loc := ParseRemote(p.folderUri);
            var it := ToAlfredItem(p);
            && it.arg == RemotePrefix + loc.authority + loc.remotePath
            && it.subtitle == SuffixPattern.RemoveSuffixPattern(
                 if p.userLabel == "" then Base(loc.remotePath) + " [" + loc.authority + "]" else p.userLabel)
            && it.title == GlobeGlyph + it.subtitle
            && |it.subtitle| <= |RemoteDisplayName(p, loc)|
  {
  }

  /** The remote path is "/" and what follows the authority's slash; the raw authority holds no slash. */
  lemma RemoteSplitRejoins(uri: string)
    requires HasPrefix(uri, RemotePrefix)
    ensures var rest := TrimPrefix(uri, RemotePrefix);
            var parts := SplitAuthority(rest);
            && ParseRemote(uri).remotePath == "/" + parts.1
            && ('/' in rest ==> uri == RemotePrefix + parts.0 + ParseRemote(uri).remotePath)
            && ('/' !in rest ==> ParseRemote(uri).remotePath == "/")
  {
    var rest := TrimPrefix(uri, RemotePrefix);
    var parts := SplitAuthority(rest);
    if '/' in rest {
      AuthorityJoinAssociates(RemotePrefix, parts.0, parts.1);
    } else {
      assert "/" + parts.1 == "/";
    }
  }

  /** An authority with nothing to unescape leaves the URI intact when it has a path. */
  lemma RemoteArgKeepsPlainUri(p: Project)
    requires HasPrefix(p.folderUri, RemotePrefix)
    requires var rest := TrimPrefix(p.folderUri, RemotePrefix);
             '/' in rest && '%' !in SplitAuthority(rest).0 && '+' !in SplitAuthority(rest).0
    ensures ToAlfredItem(p).arg == p.folderUri
  {
    var rest := TrimPrefix(p.folderUri, RemotePrefix);
    var parts := SplitAuthority(rest);
    AuthorityJoinAssociates(RemotePrefix, parts.0, parts.1);
    SlashPathAssociates(RemotePrefix + parts.0, parts.1);
    assert p.folderUri == RemotePrefix + parts.0 + "/" + parts.1;
    PlainArgIsUri(parts.0, parts.1, p.userLabel);
  }

  lemma PlainArgIsUri(authority: string, tail: string, userLabel: string)
    requires '/' !in authority && '%' !in authority && '+' !in authority
    ensures var uri := RemotePrefix + authority + "/" + tail;
            ToAlfredItem(Project(uri, userLabel)).arg == uri
  {
    var uri := RemotePrefix + authority + "/" + tail;
    PlainRemoteParsed(authority, tail);
    RemoteRow(Project(uri, userLabel));
    SlashPathAssociates(RemotePrefix + authority, tail);
  }

  /** Re-splitting a remote row's argument gives back the shown authority and path, when the authority holds no slash. */
  lemma RemoteArgResplits(p: Project)
    requires HasPrefix(p.folderUri, RemotePrefix)
    requires '/' !in ParseRemote(p.folderUri).authority
    ensures var loc := ParseRemote(p.folderUri);
            var arg := ToAlfredItem(p).arg;
            && HasPrefix(arg, RemotePrefix)
            && ParseRemote(arg).remotePath == loc.remotePath
            && SplitAuthority(TrimPrefix(arg, RemotePrefix)).0 == loc.authority
  {
    var loc := ParseRemote(p.folderUri);
    RebuiltUriSplits(loc.authority, loc.remotePath[1..]);
    assert loc.remotePath == "/" + loc.remotePath[1..];
  }

  lemma RebuiltUriSplits(authority: string, tail: string)
    requires '/' !in authority
    ensures var arg := RemotePrefix + authority + ("/" + tail);
            && HasPrefix(arg, RemotePrefix)
            && ParseRemote(arg).remotePath == "/" + tail
            && SplitAuthority(TrimPrefix(arg, RemotePrefix)).0 == authority
  {
    var arg := RemotePrefix + authority + ("/" + tail);
    var rest := authority + "/" + tail;
    SlashPathAssociates(RemotePrefix + authority, tail);
    RemoteUriPrefixed(authority, tail);
    ParseRemoteOf(authority, tail);
    AuthorityJoinAssociates(RemotePrefix, authority, tail);
    assert arg == RemotePrefix + rest;
    TrimRemote(rest);
    assert TrimPrefix(arg, RemotePrefix) == rest;
    SplitIsUnique(rest, authority, tail);
  }

  lemma AuthorityJoinAssociates(head: string, authority: string, tail: string)
    ensures head + authority + ("/" + tail) == head + (authority + "/" + tail)
  {
  }

  lemma TrimRemote(rest: string)
    ensures TrimPrefix(RemotePrefix + rest, RemotePrefix) == rest
  {
    PrefixOfConcat(RemotePrefix, rest);
  }

  lemma SplitIsUnique(rest: string, a: string, b: string)
    requires '/' !in a && rest == a + "/" + b
    ensures SplitAuthority(rest) == (a, b)
  {
    assert rest[|a|] == '/' && rest[..|a|] == a;
    var i := Index(rest, '/').value;
    assert rest[..i] == a;
    assert rest[i + 1..] == b;
  }

  /** The authority as shown: unescaped when that succeeds, raw otherwise. */
  function ShownAuthority(raw: string): string
  {
    match QueryUnescape(raw)
    case Some(decoded) => decoded
    case None => raw
  }

  /** Parsing a remote URI built from an authority and a path gives them back, the authority as shown. */
  lemma ParseRemoteOf(authority: string, path: string)
    requires '/' !in authority
    ensures ParseRemote(RemotePrefix + authority + "/" + path)
         == RemoteLocation(ShownAuthority(authority), "/" + path)
  {
    var uri := RemotePrefix + authority + "/" + path;
    assert uri == RemotePrefix + (authority + "/" + path);
    assert uri[..|RemotePrefix|] == RemotePrefix;
    assert TrimPrefix(uri, RemotePrefix) == authority + "/" + path;
    SplitIsUnique(authority + "/" + path, authority, path);
  }

  lemma UnescapeSlash(a1: string, a2: string)
    requires '%' !in a1 && '+' !in a1 && '%' !in a2 && '+' !in a2
    ensures ShownAuthority(a1 + "%2F" + a2) == a1 + "/" + a2
  {
    var esc := "%2F" + a2;
    assert esc[0] == '%' && esc[1] == '2' && esc[2] == 'F' && esc[3..] == a2;
    assert HexValue('2') * 16 + HexValue('F') == 47 && (47 as char) == '/';
    assert QueryUnescape(esc) == Some("/" + a2);
    QueryUnescapePlainPrefix(a1, esc);
    assert a1 + "%2F" + a2 == a1 + esc;
  }

  lemma DecodedSlashParsed(a1: string, a2: string, path: string)
    requires '/' !in a1 && '%' !in a1 && '+' !in a1
    requires '/' !in a2 && '%' !in a2 && '+' !in a2
    ensures HasPrefix(RemotePrefix + a1 + "%2F" + a2 + "/" + path, RemotePrefix)
    ensures ParseRemote(RemotePrefix + a1 + "%2F" + a2 + "/" + path) == RemoteLocation(a1 + "/" + a2, "/" + path)
  {
    var raw := a1 + "%2F" + a2;
    var uri := RemotePrefix + a1 + "%2F" + a2 + "/" + path;
    assert uri == RemotePrefix + raw + "/" + path;
    assert '/' !in raw by {
      assert raw == a1 + "%2F" + a2;
    }
    ParseRemoteOf(raw, path);
    UnescapeSlash(a1, a2);
    RemoteUriPrefixed(raw, path);
  }

  lemma PrefixOfConcat(prefix: string, rest: string)
    ensures HasPrefix(prefix + rest, prefix)
  {
    assert (prefix + rest)[..|prefix|] == prefix;
  }

  /**
   * The stored authority is shown decoded and is not encoded again: an
   * escaped slash in it becomes a real one, so the row's argument splits at
   * that slash and names a different authority and path.
   */
  lemma DecodedSlashMovesSplit(a1: string, a2: string, path: string, userLabel: string)
    requires '/' !in a1 && '%' !in a1 && '+' !in a1
    requires '/' !in a2 && '%' !in a2 && '+' !in a2
    ensures var uri := RemotePrefix + a1 + "%2F" + a2 + "/" + path;
            var arg := ToAlfredItem(Project(uri, userLabel)).arg;
            && ParseRemote(uri) == RemoteLocation(a1 + "/" + a2, "/" + path)
            && arg == RemotePrefix + a1 + "/" + (a2 + "/" + path)
            && ParseRemote(arg) == RemoteLocation(a1, "/" + (a2 + "/" + path))
  {
    var uri := RemotePrefix + a1 + "%2F" + a2 + "/" + path;
    DecodedSlashParsed(a1, a2, path);
    RemoteRow(Project(uri, userLabel));
    DecodedArgRegroups(a1, a2, path);
    PlainRemoteParsed(a1, a2 + "/" + path);
  }

  lemma ShownPlain(authority: string)
    requires '%' !in authority && '+' !in authority
    ensures ShownAuthority(authority) == authority
  {
  }

  lemma RemoteUriPrefixed(authority: string, path: string)
    ensures HasPrefix(RemotePrefix + authority + "/" + path, RemotePrefix)
  {
    PrefixOfConcat(RemotePrefix, authority + "/" + path);
    assert RemotePrefix + authority + "/" + path == RemotePrefix + (authority + "/" + path);
  }

  lemma DecodedArgRegroups(a1: string, a2: string, path: string)
    ensures RemotePrefix + (a1 + "/" + a2) + ("/" + path) == RemotePrefix + a1 + "/" + (a2 + "/" + path)
  {
  }

  lemma PlainRemoteParsed(authority: string, path: string)
    requires '/' !in authority && '%' !in authority && '+' !in authority
    ensures HasPrefix(RemotePrefix + authority + "/" + path, RemotePrefix)
    ensures ParseRemote(RemotePrefix + authority + "/" + path) == RemoteLocation(authority, "/" + path)
  {
    ParseRemoteOf(authority, path);
    ShownPlain(authority);
    RemoteUriPrefixed(authority, path);
  }

  /**
   * An unlabelled remote row with a plain authority: titled with the folder
   * name and the authority, and handing the URI back unchanged, as the
   * formatter test expects of "vscode-remote://test-remote/path/to/remote-project".
   */
  lemma RemoteRowUnlabelled(authority: string, dir: string, name: string)
    requires '/' !in authority && '%' !in authority && '+' !in authority
    requires name != [] && '/' !in name
    requires var shown := name + " [" + authority + "]";
             forall i :: 0 <= i < |shown| ==> !SuffixPattern.InSeparatorAt(shown, i)
    ensures var uri := RemotePrefix + authority + "/" + (dir + "/" + name);
            && ToAlfredItem(Project(uri, "")).title == GlobeGlyph + name + " [" + authority + "]"
            && ToAlfredItem(Project(uri, "")).arg == uri
  {
    var path := dir + "/" + name;
    var uri := RemotePrefix + authority + "/" + path;
    PlainRemoteParsed(authority, path);
    RemoteRow(Project(uri, ""));
    SlashPathAssociates(RemotePrefix + authority, path);
    UnlabelledName(authority, dir, name);
    var shown := name + " [" + authority + "]";
    assert ToAlfredItem(Project(uri, "")).subtitle == shown;
    GlobeTitleAssociates(name, authority);
  }

  lemma GlobeTitleAssociates(name: string, authority: string)
    ensures GlobeGlyph + (name + " [" + authority + "]") == GlobeGlyph + name + " [" + authority + "]"
  {
  }

  lemma SlashPathAssociates(head: string, path: string)
    ensures head + ("/" + path) == head + "/" + path
  {
  }

  lemma UnlabelledName(authority: string, dir: string, name: string)
    requires name != [] && '/' !in name
    requires var shown := name + " [" + authority + "]";
             forall i :: 0 <= i < |shown| ==> !SuffixPattern.InSeparatorAt(shown, i)
    ensures SuffixPattern.RemoveSuffixPattern(Base("/" + (dir + "/" + name)) + " [" + authority + "]")
         == name + " [" + authority + "]"
  {
    assert "/" + (dir + "/" + name) == ("/" + dir) + "/" + name;
    BaseOfJoin("/" + dir, name);
    SuffixPattern.WithoutSeparatorUnchanged(name + " [" + authority + "]");
  }

  // ---------------------------------------------------------------------------
  // expandPath

  datatype HomeError = HomeDirUnavailable

  /**
   * expandPath with os.UserHomeDir's answer as `home` (None when it fails):
   * "~/…" gets its first "~" replaced by the home directory, anything else
   * is returned as it is, and the home directory is only consulted for "~/".
   */
  function ExpandPath(path: string, home: Option<string>): (r: Result<string, HomeError>)
    ensures HasPrefix(path, "~/") && home.Some? ==> r == Success(home.value + path[1..])
    ensures HasPrefix(path, "~/") && home.None? ==> r == Failure(HomeDirUnavailable)
    ensures !HasPrefix(path, "~/") ==> r == Success(path)
  {
    if HasPrefix(path, "~/") then
      match home
      case None => Failure(HomeDirUnavailable)
      case Some(dir) =>
        assert path[0] == '~';
        assert Index(path, '~') == Some(0);
        assert path[..0] + dir + path[1..] == dir + path[1..];
        Success(ReplaceFirst(path, '~', dir))
    else Success(path)
  }

  // ---------------------------------------------------------------------------
  // The filter at the end of ProjectStore.List

  /** The history entries that name a folder, in their stored order. */
  function WithFolder(entries: seq<Project>): (r: seq<Project>)
    ensures |r| <= |entries|
    ensures forall i :: 0 <= i < |r| ==> r[i].folderUri != ""
  {
    if entries == [] then []
    else
      var last := entries[|entries| - 1];
      WithFolder(entries[..|entries| - 1]) + (if last.folderUri != "" then [last] else [])
  }

  /** Filtering a concatenation filters each part and keeps them in order. */
  lemma {:induction false} WithFolderAppend(a: seq<Project>, b: seq<Project>)
    ensures WithFolder(a + b) == WithFolder(a) + WithFolder(b)
    decreases |b|
  {
    if b == [] {
      assert a + b == a;
    } else {
      var c := b[..|b| - 1];
      assert (a + b)[..|a + b| - 1] == a + c;
      assert (a + b)[|a + b| - 1] == b[|b| - 1];
      WithFolderAppend(a, c);
    }
  }

  /** An entry is kept exactly when it is in the input and names a folder. */
  lemma {:induction false} WithFolderMembers(entries: seq<Project>, p: Project)
    ensures p in WithFolder(entries) <==> p in entries && p.folderUri != ""
  {
    if entries != [] {
      var init := entries[..|entries| - 1];
      WithFolderMembers(init, p);
      assert entries == init + [entries[|entries| - 1]];
    }
  }

  /** The filtering loop of List, over the decoded entries. */
  method FilterEntries(entries: seq<Project>) returns (projects: seq<Project>)
    ensures projects == WithFolder(entries)
  {
    projects := [];
    for i := 0 to |entries|
      invariant projects == WithFolder(entries[..i])
    {
      assert entries[..i + 1][..i] == entries[..i];
      if entries[i].folderUri != "" {
        projects := projects + [entries[i]];
      }
    }
    assert entries[..|entries|] == entries;
  }

  /** The list test's store: its one entry is kept and shown under its userLabel. */
  lemma ListedEntryExample()
    ensures var listed := WithFolder([Project("file:///test/project", "test-project")]);
            && |listed| == 1
            && ToAlfredItem(listed[0]).title == FolderGlyph + "test-project"
            && ToAlfredItem(listed[0]).arg == "file:///test/project"
  {
    var e := [Project("file:///test/project", "test-project")];
    assert e[..0] == [];
    assert "file:///test/project"[0] != RemotePrefix[0];
  }
}
