# alfred-cursor-launcher, modelled in Dafny

This project models the core of alfred-cursor-launcher, an Alfred workflow
that lists the folders Cursor opened recently and opens the chosen one. It
covers three parts.

- **The recent-project formatter** (`internal/project.go`).
  - `ToAlfredItem` turns a stored history entry into a script-filter row:
    a local branch and a `vscode-remote://` branch.
  - The remote branch splits off the authority, query-unescapes it, and
    rebuilds the launch URI from the decoded authority.
  - `removeSuffixPattern` removes ` in <name>-<digits> (undefined)`. Its
    regular expression is written out by hand as a matcher and a
    left-to-right scan. The matcher is proved equal to a declarative
    description of the pattern, and a match is proved unique.
  - `expandPath` takes the home directory as a parameter.
  - The filter loop in `ProjectStore.List` drops entries without a folder.
  - The Go library calls the formatter makes are small pure functions in
    `GoStrings`: `strings.HasPrefix`, `TrimPrefix`, `filepath.Base` and
    `url.QueryUnescape`. `strings.Replace(…, 1)`, which only `expandPath`
    calls (`internal/project.go:166`), is `GoStrings.ReplaceFirst`.
    `strings.SplitN(…, "/", 2)` is
    `Projects.SplitAuthority`, built on the model's own `Index`; `Count` is
    a helper the contracts measure with.
- **The script-filter list** (`internal/alfred.go`). `ScriptFilter` is a class
  holding a sequence of items. `AddItem` and `AddErrorItem` append to it.
- **The opener** (`internal/opener.go`). `Open`, `validateEnvironment`,
  `openLocal` and `openRemote` are methods that act on a `Host`.
  - `strings.ReplaceAll`, which the opener calls to escape quotes, is
    `GoStrings.ReplaceAll`.
  - The host's answers to "does this path exist" and "does this command
    succeed" are fixed oracles.
  - Every command run and every pause is appended to the host's `trace`.
  - Each method is proved to produce exactly the steps and the error of a
    specification function (`OpenOutcome`, `LocalOutcome`, `RemoteOutcome`).
  - Lemmas about those functions state:
    - the order of the escalation (binary, `open -a Cursor`, a two-second
      pause, `osascript`);
    - the early exits;
    - what the disk is consulted for;
    - that the fallback script opens "file://" + the cleaned path (local) or
      the URI itself (remote), for targets without a backslash.
  - AppleScript string literals are modelled by a reader, `ReadLiteral`. It
    decides what location the script hands to Cursor.

`Workflow` (`list_then_open.dfy`) connects the parts: a listed row's
argument goes back to `Open`, and which opener branch runs follows from it.

## Model

| member | source | states |
|---|---|---|
| GoStrings.TrimPrefix | internal/project.go:41 | with the prefix present, the input is prefix + result; otherwise the input comes back unchanged |
| GoStrings.Count | internal/opener.go:73 | the count is at most the length, and it is zero exactly when the character is absent |
| GoStrings.CountAppend | internal/opener.go:73 | counting a concatenation adds the counts of its parts |
| GoStrings.Index | internal/project.go:59 | the result is the first position holding the character, or none exactly when it is absent |
| GoStrings.ReplaceAll | internal/opener.go:73 | a string without the character comes back unchanged |
| GoStrings.ReplaceAllAppend | internal/opener.go:73 | replacing in a concatenation replaces in each part, in order |
| GoStrings.ReplaceFirst | internal/project.go:166 | only the first occurrence is replaced; the text before it is free of the character; without one, the string is unchanged |
| GoStrings.TrimTrailingSlashes | internal/project.go:42 | the result is a prefix of the path that does not end in "/", and everything cut off is slashes |
| GoStrings.AfterLastSlash | internal/project.go:42 | the result is a slash-free suffix of the path, preceded by a slash when it is not the whole path |
| GoStrings.Base | internal/project.go:42 | never empty; "" gives "."; anything other than "/" holds no slash |
| GoStrings.AfterLastSlashOfJoin | internal/project.go:42 | the text after the last slash of dir + "/" + name is name |
| GoStrings.BaseOfJoin | internal/project.go:73 | Base(dir + "/" + name) is name for any non-empty slash-free name |
| GoStrings.BaseIgnoresTrailingSlash | internal/project.go:73 | a trailing slash does not change Base |
| GoStrings.HexValue | internal/project.go:68 | a hex digit's value is below 16 |
| GoStrings.QueryUnescape | internal/project.go:68 | on success the output is two characters shorter per "%"; text without "%" or "+" decodes to itself |
| GoStrings.QueryUnescapeSucceedsIff | internal/project.go:68-71 | unescaping fails exactly when some "%" is not followed by two hex digits |
| GoStrings.QueryUnescapePlainPrefix | internal/project.go:68 | a prefix without "%" or "+" passes through unchanged ahead of the decoded rest |
| GoStrings.QueryUnescapeWithoutPercent | internal/project.go:68 | without "%", unescaping always succeeds and only turns "+" into spaces |
| SuffixPattern.FirstDelimiter | internal/project.go:174 | the first bracket or paren at or after a position, or the end of the text |
| SuffixPattern.DigitRunStart | internal/project.go:174 | the start of the maximal run of digits ending at a position |
| SuffixPattern.MatchAtFront | internal/project.go:174 | a match found at the front is at least 19 characters long and lies within the text |
| SuffixPattern.MatchAtFrontSound | internal/project.go:174 | what the matcher finds is an instance of the pattern " in " + class run + "-" + digits + " (undefined)" |
| SuffixPattern.MatchAtFrontComplete | internal/project.go:174 | every instance of the pattern at the front is found by the matcher, with its exact end |
| SuffixPattern.MatchAtFrontIsPattern | internal/project.go:174 | the matcher returns end e exactly when the text up to e is an instance of the pattern |
| SuffixPattern.MatchIsUnique | internal/project.go:174 | at a given start, at most one instance of the pattern begins |
| SuffixPattern.RemoveSuffixPattern | internal/project.go:171-176 | the result is never longer than the input |
| SuffixPattern.NoMatchUnchanged | internal/project.go:175 | a string where no match starts anywhere is returned unchanged |
| SuffixPattern.NoMatchOffSeparator | internal/project.go:174 | no match starts where " in " does not |
| SuffixPattern.WithoutSeparatorUnchanged | internal/project.go:175 | a string without " in " is returned unchanged |
| SuffixPattern.UnmatchedPrefixCopied | internal/project.go:175 | a prefix where no match starts is copied ahead of the scrubbed rest |
| SuffixPattern.MatchDeleted | internal/project.go:175 | a match at the front is deleted and the scan resumes after it |
| SuffixPattern.PatternFromParts | internal/project.go:174 | " in " + a non-empty bracket-free run + "-" + digits + " (undefined)" is an instance of the pattern |
| SuffixPattern.ExampleSuffixRemoved | internal/project.go:171-176 | "project-name in project-name-0 (undefined)" becomes "project-name" |
| SuffixPattern.ExampleSuffixRemovedInside | internal/project.go:171-176 | "project in test-123 (undefined) extra" becomes "project extra" |
| SuffixPattern.ExampleNoMatchUnchanged | internal/project.go:171-176 | "normal project name" is unchanged |
| Alfred.ErrorMessageRecoverable | internal/alfred.go:44 | two error rows with the same title carry the same message |
| Alfred.ScriptFilter.constructor | internal/alfred.go:29-33 | a new list is empty |
| Alfred.ScriptFilter.AddItem | internal/alfred.go:36-38 | the item is appended at the end and earlier items are unchanged |
| Alfred.ScriptFilter.AddErrorItem | internal/alfred.go:41-48 | exactly one row is appended through AddItem: title "Error: " + message, subtitle "Please check the logs for details", empty arg, no icon, valid false; earlier rows are untouched |
| Alfred.ErrorListExample | internal/alfred.go:29-48 | a fresh list after one AddErrorItem("Test error") holds one row titled "Error: Test error" with valid false |
| Projects.ToAlfredItem | internal/project.go:28-37 | an empty folder URI gives the zero item; no project row sets an icon or valid |
| Projects.FormatLocal | internal/project.go:40-53 | a local row's arg and subtitle are the stored URI; its title is the userLabel, or else the base name of the path after "file://", behind the folder glyph; no icon, valid unset |
| Projects.ParseRemote | internal/project.go:58-71 | the remote path always begins with "/" and is exactly "/" when nothing follows the authority; an authority without "%" or "+" is shown as it is |
| Projects.FormatRemote | internal/project.go:56-89 | the title is the subtitle behind the globe glyph; the arg is "vscode-remote://" + the shown authority + the remote path; the subtitle is never longer than the display name before the scrub; no icon, valid unset |
| Projects.SplitAuthority | internal/project.go:59-65 | the authority holds no slash and rejoins with "/" and the rest to the input; with no slash, the rest is empty |
| Projects.LocalRowKeepsUri | internal/project.go:40-53 | a non-remote row's arg and subtitle are the stored URI; a userLabel becomes the title behind the folder glyph |
| Projects.LocalRowTitledByFolder | internal/project.go:41-46 | an unlabelled "file://" row is titled with the folder's last path element |
| Projects.RemoteRow | internal/project.go:56-89 | arg is prefix + shown authority + path; subtitle is the scrubbed label, or the scrubbed "base [authority]"; title is the globe + subtitle; the scrub never lengthens |
| Projects.RemoteSplitRejoins | internal/project.go:58-65 | the remote path is "/" + the text after the first slash, exactly "/" when there is none, and rejoins to the URI |
| Projects.RemoteArgKeepsPlainUri | internal/project.go:67-82 | an authority without "%" or "+" followed by a slash leaves the arg equal to the stored URI |
| Projects.PlainArgIsUri | internal/project.go:67-82 | for a plain authority followed by a slash, the row built from the URI hands the URI back unchanged, whatever the label |
| Projects.RemoteArgResplits | internal/project.go:82 | re-splitting the arg gives the shown authority and path back when the shown authority holds no slash |
| Projects.SplitIsUnique | internal/project.go:59 | the split of authority + "/" + rest is that authority and rest |
| Projects.ParseRemoteOf | internal/project.go:58-71 | parsing prefix + authority + "/" + path gives the shown authority and "/" + path |
| Projects.UnescapeSlash | internal/project.go:68-71 | an authority with "%2F" is shown with a real slash |
| Projects.DecodedSlashParsed | internal/project.go:58-71 | a URI whose authority holds "%2F" parses to the decoded authority and the path |
| Projects.DecodedSlashMovesSplit | internal/project.go:68-82 | the decoded slash is not re-encoded, so the row's arg splits at it and names a different authority and path |
| Projects.PlainRemoteParsed | internal/project.go:58-71 | a plain authority and path parse back to themselves |
| Projects.RemoteRowUnlabelled | internal/project.go:73-88 | an unlabelled plain remote row is titled "name [authority]" behind the globe and hands the URI back unchanged |
| Projects.UnlabelledName | internal/project.go:73-80 | "base [authority]" without " in " survives the scrub |
| Projects.ExpandPath | internal/project.go:160-169 | "~/…" becomes the home directory + the rest after "~"; "~/…" without a home directory is an error; any other path comes back unchanged whatever the home lookup would give |
| Projects.WithFolder | internal/project.go:137-142 | never longer than its input; every kept entry names a folder |
| Projects.WithFolderAppend | internal/project.go:137-142 | filtering a concatenation filters each part and keeps them in order |
| Projects.WithFolderMembers | internal/project.go:137-142 | an entry is kept exactly when it is in the input and names a folder |
| Projects.FilterEntries | internal/project.go:137-142 | the loop returns exactly WithFolder of the decoded entries |
| Projects.ListedEntryExample | internal/project.go:137-144 | the one stored entry is kept, titled by its userLabel and handing back its URI |
| CursorOpener.ReadLiteral | internal/opener.go:74 | what follows a closed literal is shorter than the input |
| CursorOpener.QuoteForAppleScript | internal/opener.go:73 | the quoted text grows by one character per quote and per backslash |
| CursorOpener.EscapeQuotesLength | internal/opener.go:73 | escaping adds one character per quote |
| CursorOpener.EscapeQuotesByCharacter | internal/opener.go:73 | each quote becomes backslash-quote and every other character is kept in place |
| CursorOpener.EscapeQuotesIdentityIff | internal/opener.go:85-86 | the binary's --folder-uri argument equals the URI exactly when the URI holds no quote |
| CursorOpener.EscapeQuotesAgree | internal/opener.go:73 | without a backslash, the escaping applied is the full AppleScript quoting |
| CursorOpener.QuotedLiteralRoundTrip | internal/opener.go:73-74 | AppleScript reads back exactly the quoted text and stops at the closing quote |
| CursorOpener.ReadLiteralPlainPrefix | internal/opener.go:74 | characters other than quote and backslash read as themselves |
| CursorOpener.LocalScriptOpensFolder | internal/opener.go:73-75 | for a path without a backslash, the local script opens "file://" + the cleaned path |
| CursorOpener.RemoteScriptOpensUri | internal/opener.go:100-102 | for a URI without a backslash, the remote script opens that URI |
| CursorOpener.TrailingBackslashUnclosed | internal/opener.go:73-75 | a path ending in a backslash yields a script whose location literal never closes |
| CursorOpener.RemoteTrailingBackslashUnclosed | internal/opener.go:100-102 | a remote URI ending in a backslash yields a script whose location literal never closes |
| CursorOpener.CorrectedLocalScriptOpensFolder | internal/opener.go:73-75 | with backslashes and quotes escaped, the local script opens exactly "file://" + the cleaned path, for every path |
| CursorOpener.QuotedUriTiersDiffer | internal/opener.go:85-101 | a URI holding a quote reaches the binary altered, while the fallback script opens the URI itself |
| CursorOpener.CorrectedRemoteTiersAgree | internal/opener.go:85-101 | with the URI passed to the binary as it is and the script fully quoted, both tiers name the same location for every URI |
| CursorOpener.EnvironmentError | internal/opener.go:37-47 | no error exactly when app and binary exist; a missing app is app-not-found, checked first; a present app with a missing binary is binary-not-found |
| CursorOpener.Escalation | internal/opener.go:57-80 | one to four steps, the first running the direct command; nil exactly when the last step is a command that succeeded; the only errors are launch-failed and the caller's failure |
| CursorOpener.LocalOutcome | internal/opener.go:49-81 | a missing path after "file://" runs nothing and is path-not-found for that path; otherwise the first step runs the binary on the cleaned path, and the only errors are launch-failed and open-project-failed |
| CursorOpener.RemoteOutcome | internal/opener.go:83-108 | the first step runs the binary with the escaped URI; the only errors are launch-failed and open-remote-project-failed |
| CursorOpener.OpenOutcome | internal/opener.go:26-35 | an environment error runs nothing and is returned; running nothing always ends in an error; an installed Cursor opens every URI without "file://" remotely, first running the binary on the escaped URI |
| CursorOpener.EscalationShape | internal/opener.go:57-80 | the escalation is well shaped; it runs the direct command first; a success stops there with nil; a failure is followed by `open -a Cursor`; a failed launch ends with launch-failed; a successful launch is followed by the two-second pause and the script, and nil comes back exactly when the script succeeds, the caller's failure otherwise |
| CursorOpener.OpenShape | internal/opener.go:26-108 | a missing install or local path runs nothing; otherwise the full escalation of EscalationShape runs, with the binary on the cleaned path and the local script for "file://" URIs, and on the escaped URI and the remote script for all others; at most four steps; a failed launch is final; nil exactly when the last command succeeded |
| CursorOpener.RemoteIgnoresOtherPaths | internal/opener.go:83-107 | a remote URI's outcome depends on the disk only through the two install checks |
| CursorOpener.LocalChecksOnlyItsPath | internal/opener.go:49-55 | a local URI's outcome depends on the disk only through the install checks and its own path |
| CursorOpener.ScriptNamesTarget | internal/opener.go:72-102 | when the fallback script is sent, it opens "file://" + the cleaned path (local) or the URI itself (remote), for targets without a backslash |
| CursorOpener.Host.Stat | internal/opener.go:38 | reports the oracle's not-exist answer |
| CursorOpener.Host.Run | internal/opener.go:60 | reports the oracle's exit status and records the command with it |
| CursorOpener.Host.Sleep | internal/opener.go:70 | records the pause |
| CursorOpener.Opener.ValidateEnvironment | internal/opener.go:37-47 | returns EnvironmentError of the host, running nothing |
| CursorOpener.Opener.Open | internal/opener.go:26-35 | the trace grows by OpenOutcome's steps and the error is OpenOutcome's |
| CursorOpener.Opener.OpenLocal | internal/opener.go:49-81 | the trace grows by LocalOutcome's steps and the error is LocalOutcome's |
| CursorOpener.Opener.OpenRemote | internal/opener.go:83-108 | the trace grows by RemoteOutcome's steps and the error is RemoteOutcome's |
| Workflow.LocalRowOpensLocally | internal/opener.go:31-32 | a "file://" row's arg is opened as that local folder |
| Workflow.PlainRemoteRowOpensRemotely | internal/opener.go:33-34 | a remote row with a plain authority is opened as the stored remote URI |
| Workflow.BarePathListedLocalOpenedRemote | internal/opener.go:31-34 | a stored folder with neither scheme is listed as a local row but opened as a remote one |
| Workflow.ProjectRowIsNotErrorRow | internal/alfred.go:42-47 | no project row equals an error row |

## Left out

- The SQLite query, the `sql.ErrNoRows` distinction and `json.Unmarshal` in `ProjectStore.List` (internal/project.go:114-134) are left out. They are a foreign driver and a decoder; the filter takes the decoded entries as input.
- `ProjectStore.validateEnvironment`, `NewProjectStore` and `os.UserHomeDir` are left out because they are file-system I/O. `ExpandPath` takes the home lookup's answer as `Option<string>`.
- Process execution, `os.Stat` and `time.Sleep` are oracles (`Host.missing` and `Host.succeeds`) plus trace events. Stat errors other than not-exist let the call proceed, as `os.IsNotExist` does.
- `filepath.Clean` is the function parameter `clean`; its lexical algorithm is not modelled.
- Only the one fixed regular expression is modelled, not a general engine.
- Strings are sequences of characters. `url.QueryUnescape` maps `%XX` to the character with that code, not to a UTF-8 byte. The emoji glyphs are opaque literals.
- `ScriptFilter.Print` (JSON to stdout, `os.Exit`) and `cmd/alfred-cursor-launcher/main.go` are I/O and argument plumbing, so they are left out.
- Go's distinction between a nil slice and an empty one is left out. `List` returns nil when no entry is kept, and the model returns an empty sequence.
- Error values carry their kind and, for a missing path, the path. The message texts and the wrapped `%w` causes are left out.
- `ReadLiteral` knows the escapes `\"`, `\\`, `\n`, `\t` and `\r`. Any other escape counts as unreadable, and the rest of AppleScript's grammar is not modelled.
- `Opener` holds no state in the source, so the model's `Opener` class has no fields. The processes' effect on Cursor itself is left out.

## Findings

| source | as written | input that shows it | evidently intended | confidence | as-written member | corrected member |
|---|---|---|---|---|---|---|
| internal/opener.go:73-74 | the path put into the AppleScript literal has `"` escaped but not `\` | a cleaned path ending in a backslash, such as `/tmp/x\`: the `\` escapes the closing quote, so the location literal never closes | escape `\` as well as `"` before building the literal, so the script opens exactly "file://" + the path | medium, not executed | CursorOpener.TrailingBackslashUnclosed | CursorOpener.CorrectedLocalScriptOpensFolder |
| internal/opener.go:85-86 | the URI given to the binary as `--folder-uri` has every `"` escaped as `\"`, although exec passes argv to the program without a shell | a remote URI holding a quote, such as `vscode-remote://h/a"b`: the binary receives `vscode-remote://h/a\"b`, while the fallback script opens `vscode-remote://h/a"b` | pass the URI to the binary unchanged, as openLocal does with the path at internal/opener.go:59, so both tiers name the same location | medium, not executed | CursorOpener.QuotedUriTiersDiffer | CursorOpener.CorrectedRemoteTiersAgree |

The opener's trace model keeps the escaping as written. `EscapeQuotesAgree`
shows that it equals the corrected `QuoteForAppleScript` on every target
without a backslash. On those targets `ScriptNamesTarget` therefore holds
with either escaping. The same escaping at internal/opener.go:100 has the
same effect on remote URIs (`RemoteTrailingBackslashUnclosed`).
The tier-1 remote command in the trace model also keeps the escaped
argument (`RemoteDirect`), so `OpenShape` states the binary's argument as
the code builds it.
