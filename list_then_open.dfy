/**
 * How a listed row and the opener fit together: the launcher hands a row's
 * `arg` back to Open, so what the formatter puts there decides which branch
 * of the opener runs.
 */
module Workflow {
  import opened Wrappers
  import opened GoStrings
  import opened Alfred
  import opened Projects
  import opened CursorOpener

  lemma FileUriIsLocal(uri: string)
    requires HasPrefix(uri, FileScheme)
    ensures uri != "" && !HasPrefix(uri, RemotePrefix)
  {
    assert uri[0] == 'f' && RemotePrefix[0] == 'v';
  }

  lemma RemoteUriIsNotFile(uri: string)
    requires HasPrefix(uri, RemotePrefix)
    ensures !HasPrefix(uri, FileScheme)
  {
    assert uri[0] == 'v' && FileScheme[0] == 'f';
  }

  /** A local row's argument is opened as that local folder. */
  lemma LocalRowOpensLocally(missing: string -> bool, succeeds: Command -> bool, clean: string -> string, p: Project)
    requires HasPrefix(p.folderUri, FileScheme)
    requires EnvironmentError(missing) == None
    ensures OpenOutcome(missing, succeeds, clean, ToAlfredItem(p).arg) == LocalOutcome(missing, succeeds, clean, p.folderUri)
  {
    FileUriIsLocal(p.folderUri);
    LocalRowKeepsUri(p);
  }

  /** A remote row whose authority needs no unescaping is opened as the stored remote URI. */
  lemma PlainRemoteRowOpensRemotely(missing: string -> bool, succeeds: Command -> bool, clean: string -> string, p: Project)
    requires HasPrefix(p.folderUri, RemotePrefix)
    requires var rest := TrimPrefix(p.folderUri, RemotePrefix);
             '/' in rest && '%' !in SplitAuthority(rest).0 && '+' !in SplitAuthority(rest).0
    requires EnvironmentError(missing) == None
    ensures OpenOutcome(missing, succeeds, clean, ToAlfredItem(p).arg) == RemoteOutcome(succeeds, p.folderUri)
  {
    RemoteArgKeepsPlainUri(p);
    RemoteUriIsNotFile(p.folderUri);
  }

  /**
   * A stored folder with neither scheme is listed as a local row, but Open
   * takes every URI without "file://" for a remote one.
   */
  lemma BarePathListedLocalOpenedRemote(missing: string -> bool, succeeds: Command -> bool, clean: string -> string, p: Project)
    requires p.folderUri != "" && !HasPrefix(p.folderUri, RemotePrefix) && !HasPrefix(p.folderUri, FileScheme)
    requires EnvironmentError(missing) == None
    ensures ToAlfredItem(p) == FormatLocal(p)
    ensures OpenOutcome(missing, succeeds, clean, ToAlfredItem(p).arg) == RemoteOutcome(succeeds, p.folderUri)
  {
    LocalRowKeepsUri(p);
  }

  /** No project row can be mistaken for an error row: projects leave `valid` unset. */
  lemma ProjectRowIsNotErrorRow(p: Project, message: string)
    ensures ToAlfredItem(p) != ErrorItem(message)
  {
    assert ToAlfredItem(p).valid == None;
  }
}
