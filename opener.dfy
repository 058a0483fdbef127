/**
 * The opener (internal/opener.go): it checks that Cursor is installed, then
 * opens a local folder or a remote URI. It first runs the Cursor binary
 * directly; when that fails it launches the app, waits, and asks the app
 * over AppleScript.
 *
 * Everything the opener does to the machine goes through a Host. Its answers
 * to "does this path not exist" (os.Stat with os.IsNotExist) and "does this
 * command exit successfully" (exec.Cmd.Run) are fixed oracles, and the
 * commands it runs and the pauses it takes are recorded, in order, in the
 * host's trace. filepath.Clean is the parameter `clean`.
 */
module CursorOpener {
  import opened Wrappers
  import opened GoStrings
  import Projects

  const CursorAppPath: string := "/Applications/Cursor.app"
  const CursorBinPath: string := "/Applications/Cursor.app/Contents/MacOS/Cursor"
  /** Seconds slept between launching the app and sending it the script. */
  const SettleSeconds: nat := 2
  /** The AppleScript text up to and including the opening quote of the location literal. */
  const ScriptHead: string := "tell application \"Cursor\" to open location \""

  /** A program and its argument vector, as given to exec.Command. */
  datatype Command = Command(name: string, args: seq<string>)

  /** One observable step: a command run and whether it exited successfully, or a pause. */
  datatype Event = Ran(command: Command, ok: bool) | Slept(seconds: nat)

  /** The error values the opener returns, one per `fmt.Errorf` site. */
  datatype OpenError =
    | AppNotFound
    | BinaryNotFound
    | PathNotFound(path: string)
    | LaunchAppFailed
    | OpenProjectFailed
    | OpenRemoteProjectFailed

  /** What one call does: the steps it takes and the error it returns (None for nil). */
  datatype Outcome = Outcome(events: seq<Event>, err: Option<OpenError>)

  const LaunchApp: Command := Command("open", ["-a", "Cursor"])

  function LocalDirect(cleaned: string): Command
  {
    Command(CursorBinPath, ["--new-window", cleaned])
  }

  function RemoteDirect(uri: string): Command
  {
    Command(CursorBinPath, ["--new-window", "--folder-uri", EscapeQuotes(uri)])
  }

  function ScriptCommand(script: string): Command
  {
    Command("osascript", ["-e", script])
  }

  // ---------------------------------------------------------------------------
  // Quoting for AppleScript

  /** strings.ReplaceAll(s, `"`, `\"`), the only escaping the opener applies. */
  function EscapeQuotes(s: string): string
  {
    ReplaceAll(s, '"', "\\\"")
  }

  /** The text AppleScript reads for one escaped character after a backslash. */
  function Unescaped(c: char): Option<char>
  {
    if c == '"' then Some('"')
    else if c == '\\' then Some('\\')
    else if c == 'n' then Some('\n')
    else if c == 't' then Some('\t')
    else if c == 'r' then Some('\r')
    else None
  }

  function Prepend(a: string, r: Option<(string, string)>): Option<(string, string)>
  {
    match r
    case None => None
    case Some((body, rest)) => Some((a + body, rest))
  }

  /**
   * How AppleScript reads a string literal whose opening quote is already
   * consumed: the characters of the string, and what follows its closing
   * quote. None when the literal is never closed or holds an unknown escape.
   */
  function ReadLiteral(t: string): (r: Option<(string, string)>)
    ensures r.Some? ==> |r.value.1| < |t|
  {
    if t == [] then None
    else if t[0] == '"' then Some(([], t[1..]))
    else if t[0] == '\\' then
      if |t| == 1 then None
      else match Unescaped(t[1])
        case None => None
        case Some(c) => Prepend([c], ReadLiteral(t[2..]))
    else Prepend([t[0]], ReadLiteral(t[1..]))
  }

  /** The location a script built on ScriptHead asks Cursor to open, when it reads as one literal. */
  function OpenedLocation(script: string): Option<string>
  {
    if HasPrefix(script, ScriptHead) then
      match ReadLiteral(script[|ScriptHead|..])
      case Some((location, rest)) => if rest == [] then Some(location) else None
      case None => None
    else None
  }

  /** Quoting that escapes backslashes as well as quotes. */
  function QuoteForAppleScript(s: string): (r: string)
    ensures |r| == |s| + Count(s, '"') + Count(s, '\\')
  {
    if s == [] then []
    else (if s[0] == '"' || s[0] == '\\' then ['\\', s[0]] else [s[0]]) + QuoteForAppleScript(s[1..])
  }

  /** The script openLocal sends: the cleaned path behind "file://", quotes escaped. */
  function LocalScript(cleaned: string): string
  {
    ScriptHead + Projects.FileScheme + EscapeQuotes(cleaned) + "\""
  }

  /** The script openRemote sends: the URI, quotes escaped. */
  function RemoteScript(uri: string): string
  {
    ScriptHead + EscapeQuotes(uri) + "\""
  }

  lemma {:induction false} EscapeQuotesLength(s: string)
    ensures |EscapeQuotes(s)| == |s| + Count(s, '"')
  {
    if s != [] {
      EscapeQuotesLength(s[1..]);
    }
  }

  /** Each quote becomes backslash-quote and every other character is kept, in place. */
  lemma EscapeQuotesByCharacter(a: string, c: char, b: string)
    ensures EscapeQuotes(a + [c] + b) == EscapeQuotes(a) + (if c == '"' then "\\\"" else [c]) + EscapeQuotes(b)
  {
    ReplaceAllAppend(a + [c], b, '"', "\\\"");
    ReplaceAllAppend(a, [c], '"', "\\\"");
    assert [c][1..] == [];
  }

  /** The binary gets the URI as stored exactly when the URI holds no quote. */
  lemma EscapeQuotesIdentityIff(s: string)
    ensures EscapeQuotes(s) == s <==> '"' !in s
  {
    EscapeQuotesLength(s);
  }

  /** Without a backslash in the input, escaping only quotes is the full quoting. */
  lemma {:induction false} EscapeQuotesAgree(s: string)
    requires '\\' !in s
    ensures EscapeQuotes(s) == QuoteForAppleScript(s)
  {
    if s != [] {
      EscapeQuotesAgree(s[1..]);
    }
  }

  /** AppleScript reads back exactly what QuoteForAppleScript quoted, and stops at the closing quote. */
  lemma {:induction false} QuotedLiteralRoundTrip(s: string, rest: string)
    ensures ReadLiteral(QuoteForAppleScript(s) + "\"" + rest) == Some((s, rest))
  {
    if s == [] {
      assert QuoteForAppleScript(s) + "\"" + rest == ['"'] + rest;
    } else {
      var head := if s[0] == '"' || s[0] == '\\' then ['\\', s[0]] else [s[0]];
      var tail := QuoteForAppleScript(s[1..]) + "\"" + rest;
      calc {
        QuoteForAppleScript(s) + "\"" + rest;
        (head + QuoteForAppleScript(s[1..])) + "\"" + rest;
        head + tail;
      }
      QuotedLiteralRoundTrip(s[1..], rest);
      var t := head + tail;
      if s[0] == '"' || s[0] == '\\' {
        assert t[0] == '\\' && t[1] == s[0] && t[2..] == tail;
      } else {
        assert t[0] == s[0] && t[1..] == tail;
      }
      assert [s[0]] + s[1..] == s;
    }
  }

  /** Characters other than quote and backslash are read as themselves. */
  lemma {:induction false} ReadLiteralPlainPrefix(a: string, t: string)
    requires '"' !in a && '\\' !in a
    ensures ReadLiteral(a + t) == Prepend(a, ReadLiteral(t))
  {
    if a == [] {
      assert a + t == t;
      match ReadLiteral(t)
      case None =>
      case Some((body, rest)) => assert a + body == body;
    } else {
      assert (a + t)[0] == a[0];
      assert (a + t)[1..] == a[1..] + t;
      ReadLiteralPlainPrefix(a[1..], t);
      match ReadLiteral(t)
      case None =>
      case Some((body, rest)) =>
        assert [a[0]] + (a[1..] + body) == a + body;
    }
  }

  lemma ScriptBody(head: string, body: string)
    ensures HasPrefix(head + body, head)
    ensures (head + body)[|head|..] == body
  {
    assert (head + body)[..|head|] == head;
  }

  /** With no backslash in the cleaned path, the local script opens "file://" and that path. */
  lemma LocalScriptOpensFolder(cleaned: string)
    requires '\\' !in cleaned
    ensures OpenedLocation(LocalScript(cleaned)) == Some(Projects.FileScheme + cleaned)
  {
    var quoted := EscapeQuotes(cleaned);
    EscapeQuotesAgree(cleaned);
    assert LocalScript(cleaned) == ScriptHead + (Projects.FileScheme + (quoted + "\"" + []));
    ScriptBody(ScriptHead, Projects.FileScheme + (quoted + "\"" + []));
    QuotedLiteralRoundTrip(cleaned, []);
    ReadLiteralPlainPrefix(Projects.FileScheme, quoted + "\"" + []);
  }

  /** With no backslash in the URI, the remote script opens that URI. */
  lemma RemoteScriptOpensUri(uri: string)
    requires '\\' !in uri
    ensures OpenedLocation(RemoteScript(uri)) == Some(uri)
  {
    var quoted := EscapeQuotes(uri);
    EscapeQuotesAgree(uri);
    assert RemoteScript(uri) == ScriptHead + (quoted + "\"" + []);
    ScriptBody(ScriptHead, quoted + "\"" + []);
    QuotedLiteralRoundTrip(uri, []);
  }

  lemma EscapedTrailingBackslash(d: string)
    requires '"' !in d && '\\' !in d
    ensures EscapeQuotes(d + "\\") + "\"" == d + "\\\""
  {
    assert '"' !in d + "\\";
  }

  /**
   * A path ending in a backslash: the escaping leaves the backslash alone, so
   * it escapes the closing quote and the location literal never ends.
   */
  lemma TrailingBackslashUnclosed(d: string)
    requires '"' !in d && '\\' !in d
    ensures OpenedLocation(LocalScript(d + "\\")) == None
  {
    var body := Projects.FileScheme + d;
    EscapedTrailingBackslash(d);
    assert LocalScript(d + "\\") == ScriptHead + (body + "\\\"");
    ScriptBody(ScriptHead, body + "\\\"");
    assert '"' !in body && '\\' !in body;
    ReadLiteralPlainPrefix(body, "\\\"");
    assert ReadLiteral("\\\"") == None by {
      assert "\\\""[2..] == [];
    }
  }

  /** The remote script with a URI ending in a backslash: its location literal never ends either. */
  lemma RemoteTrailingBackslashUnclosed(d: string)
    requires '"' !in d && '\\' !in d
    ensures OpenedLocation(RemoteScript(d + "\\")) == None
  {
    EscapedTrailingBackslash(d);
    assert RemoteScript(d + "\\") == ScriptHead + (d + "\\\"");
    ScriptBody(ScriptHead, d + "\\\"");
    ReadLiteralPlainPrefix(d, "\\\"");
    assert ReadLiteral("\\\"") == None by {
      assert "\\\""[2..] == [];
    }
  }

  /** The local script with both backslashes and quotes escaped. */
  function CorrectedLocalScript(cleaned: string): string
  {
    ScriptHead + Projects.FileScheme + QuoteForAppleScript(cleaned) + "\""
  }

  /** The remote script with both backslashes and quotes escaped. */
  function CorrectedRemoteScript(uri: string): string
  {
    ScriptHead + QuoteForAppleScript(uri) + "\""
  }

  /** With full quoting, the local script opens exactly "file://" and the cleaned path, whatever it holds. */
  lemma CorrectedLocalScriptOpensFolder(cleaned: string)
    ensures OpenedLocation(CorrectedLocalScript(cleaned)) == Some(Projects.FileScheme + cleaned)
  {
    var quoted := QuoteForAppleScript(cleaned);
    assert CorrectedLocalScript(cleaned) == ScriptHead + (Projects.FileScheme + (quoted + "\"" + []));
    ScriptBody(ScriptHead, Projects.FileScheme + (quoted + "\"" + []));
    QuotedLiteralRoundTrip(cleaned, []);
    ReadLiteralPlainPrefix(Projects.FileScheme, quoted + "\"" + []);
  }

  /** The tier-1 remote command handing the URI to the binary as it is: argv reaches no shell. */
  function CorrectedRemoteDirect(uri: string): Command
  {
    Command(CursorBinPath, ["--new-window", "--folder-uri", uri])
  }

  /**
   * As written, a URI holding a quote (and no backslash) reaches the binary
   * with a backslash before the quote, while the fallback script opens the
   * URI itself: the two tiers name different locations.
   */
  lemma QuotedUriTiersDiffer(uri: string)
    requires '"' in uri && '\\' !in uri
    ensures RemoteDirect(uri).args[2] != uri
    ensures OpenedLocation(RemoteScript(uri)) == Some(uri)
  {
    EscapeQuotesIdentityIff(uri);
    RemoteScriptOpensUri(uri);
  }

  /** With the URI passed as it is and the script fully quoted, both tiers name the same location, for every URI. */
  lemma CorrectedRemoteTiersAgree(uri: string)
    ensures OpenedLocation(CorrectedRemoteScript(uri)) == Some(CorrectedRemoteDirect(uri).args[2])
  {
    var quoted := QuoteForAppleScript(uri);
    assert CorrectedRemoteScript(uri) == ScriptHead + (quoted + "\"" + []);
    ScriptBody(ScriptHead, quoted + "\"" + []);
    QuotedLiteralRoundTrip(uri, []);
  }

  // ---------------------------------------------------------------------------
  // What Open does, as a function of the oracles

  /** validateEnvironment: the app bundle is checked first, then the binary. */
  function EnvironmentError(missing: string -> bool): (e: Option<OpenError>)
    ensures e == None <==> !missing(CursorAppPath) && !missing(CursorBinPath)
    ensures missing(CursorAppPath) ==> e == Some(AppNotFound)
    ensures !missing(CursorAppPath) && missing(CursorBinPath) ==> e == Some(BinaryNotFound)
  {
    if missing(CursorAppPath) then Some(AppNotFound)
    else if missing(CursorBinPath) then Some(BinaryNotFound)
    else None
  }

  /**
   * The shared escalation of openLocal and openRemote: the binary directly;
   * on failure, launch the app, pause, and send the script.
   */
  function Escalation(succeeds: Command -> bool, direct: Command, script: string, failure: OpenError): (o: Outcome)
    ensures 1 <= |o.events| <= 4 && o.events[0] == Ran(direct, succeeds(direct))
    ensures o.err == None <==> o.events[|o.events| - 1].Ran? && o.events[|o.events| - 1].ok
    ensures o.err == None || o.err == Some(LaunchAppFailed) || o.err == Some(failure)
  {
    if succeeds(direct) then Outcome([Ran(direct, true)], None)
    else if !succeeds(LaunchApp) then Outcome([Ran(direct, false), Ran(LaunchApp, false)], Some(LaunchAppFailed))
    else
      var osa := ScriptCommand(script);
      Outcome([Ran(direct, false), Ran(LaunchApp, true), Slept(SettleSeconds), Ran(osa, succeeds(osa))],
              if succeeds(osa) then None else Some(failure))
  }

  /**
   * openLocal: the path after "file://" must exist; the binary and the
   * script are then given the cleaned path.
   */
  function LocalOutcome(missing: string -> bool, succeeds: Command -> bool, clean: string -> string, uri: string): (o: Outcome)
    ensures var path := TrimPrefix(uri, Projects.FileScheme);
            missing(path) ==> o.events == [] && o.err == Some(PathNotFound(path))
    ensures var path := TrimPrefix(uri, Projects.FileScheme);
            var direct := LocalDirect(clean(path));
            !missing(path) ==>
              && o.events != [] && o.events[0] == Ran(direct, succeeds(direct))
              && (o.err == None || o.err == Some(LaunchAppFailed) || o.err == Some(OpenProjectFailed))
  {
    var path := TrimPrefix(uri, Projects.FileScheme);
    if missing(path) then Outcome([], Some(PathNotFound(path)))
    else
      var cleaned := clean(path);
      Escalation(succeeds, LocalDirect(cleaned), LocalScript(cleaned), OpenProjectFailed)
  }

  /** openRemote: no check on disk; the binary is given the escaped URI. */
  function RemoteOutcome(succeeds: Command -> bool, uri: string): (o: Outcome)
    ensures o.events != [] && o.events[0] == Ran(RemoteDirect(uri), succeeds(RemoteDirect(uri)))
    ensures o.err == None || o.err == Some(LaunchAppFailed) || o.err == Some(OpenRemoteProjectFailed)
  {
    Escalation(succeeds, RemoteDirect(uri), RemoteScript(uri), OpenRemoteProjectFailed)
  }

  /**
   * Open: the install is checked first; a "file://" URI is then opened
   * locally and every other URI remotely.
   */
  function OpenOutcome(missing: string -> bool, succeeds: Command -> bool, clean: string -> string, uri: string): (o: Outcome)
    ensures EnvironmentError(missing) != None ==> o.events == [] && o.err == EnvironmentError(missing)
    ensures o.events == [] ==> o.err != None
    ensures EnvironmentError(missing) == None && !HasPrefix(uri, Projects.FileScheme) ==>
              o.events != [] && o.events[0].Ran? && o.events[0].command == RemoteDirect(uri)
  {
    match EnvironmentError(missing)
    case Some(e) => Outcome([], Some(e))
    case None =>
      if HasPrefix(uri, Projects.FileScheme) then LocalOutcome(missing, succeeds, clean, uri)
      else RemoteOutcome(succeeds, uri)
  }

  // ---------------------------------------------------------------------------
  // Properties of the escalation

  /**
   * The shape every call's steps take: at most four; each stops at the first
   * success or at a failed launch; the one pause is the settle time, between
   * a successful launch and the script; and nil is returned exactly when the
   * last step is a command that succeeded.
   */
  predicate WellShaped(o: Outcome)
  {
    && |o.events| <= 4
    && (o.err == None <==> o.events != [] && o.events[|o.events| - 1].Ran? && o.events[|o.events| - 1].ok)
    && (forall i :: 0 <= i < |o.events| - 1 && o.events[i].Ran? && o.events[i].command != LaunchApp ==> !o.events[i].ok)
    && (forall i :: 0 <= i < |o.events| && o.events[i] == Ran(LaunchApp, false) ==>
          i == |o.events| - 1 && o.err == Some(LaunchAppFailed))
    && (forall i :: 0 <= i < |o.events| && o.events[i].Slept? ==>
          && i == 2 && |o.events| == 4
          && o.events[i].seconds == SettleSeconds
          && o.events[1] == Ran(LaunchApp, true)
          && o.events[3].Ran? && o.events[3].command.name == "osascript")
  }

  /**
   * The steps an escalation must take: the direct command first; after its
   * failure `open -a Cursor`; after a successful launch the settle pause and
   * the script `osa`, whose result decides the error.
   */
  predicate Escalates(o: Outcome, succeeds: Command -> bool, direct: Command, osa: Command, failure: OpenError)
  {
    && o.events != [] && o.events[0] == Ran(direct, succeeds(direct))
    && (succeeds(direct) ==> o.events == [Ran(direct, true)] && o.err == None)
    && (!succeeds(direct) ==> |o.events| >= 2 && o.events[1].Ran? && o.events[1].command == LaunchApp)
    && (!succeeds(direct) && !succeeds(LaunchApp) ==>
          o.events == [Ran(direct, false), Ran(LaunchApp, false)] && o.err == Some(LaunchAppFailed))
    && (!succeeds(direct) && succeeds(LaunchApp) ==>
          && o.events == [Ran(direct, false), Ran(LaunchApp, true), Slept(SettleSeconds), Ran(osa, succeeds(osa))]
          && (o.err == None <==> succeeds(osa))
          && (o.err != None ==> o.err == Some(failure)))
  }

  lemma EscalationShape(succeeds: Command -> bool, direct: Command, script: string, failure: OpenError)
    requires direct != LaunchApp && failure != LaunchAppFailed
    ensures var o := Escalation(succeeds, direct, script, failure);
            && WellShaped(o)
            && Escalates(o, succeeds, direct, ScriptCommand(script), failure)
            && (o.err == Some(LaunchAppFailed) <==> !succeeds(direct) && !succeeds(LaunchApp))
  {
    var o := Escalation(succeeds, direct, script, failure);
    if !succeeds(direct) && succeeds(LaunchApp) {
      assert o.events[3] == Ran(ScriptCommand(script), succeeds(ScriptCommand(script)));
    }
  }

  /**
   * Every call to Open is well shaped; it runs nothing when Cursor is not
   * installed or the local path does not exist; and otherwise it escalates
   * from the Cursor binary to the launch and the script, on the target
   * chosen by the URI's scheme.
   */
  lemma OpenShape(missing: string -> bool, succeeds: Command -> bool, clean: string -> string, uri: string)
    ensures var o := OpenOutcome(missing, succeeds, clean, uri);
            var path := TrimPrefix(uri, Projects.FileScheme);
            && WellShaped(o)
            && (EnvironmentError(missing) != None ==> o == Outcome([], EnvironmentError(missing)))
            && (EnvironmentError(missing) == None && HasPrefix(uri, Projects.FileScheme) ==>
                  if missing(path) then o == Outcome([], Some(PathNotFound(path)))
                  else Escalates(o, succeeds, LocalDirect(clean(path)), ScriptCommand(LocalScript(clean(path))), OpenProjectFailed))
            && (EnvironmentError(missing) == None && !HasPrefix(uri, Projects.FileScheme) ==>
                  Escalates(o, succeeds, RemoteDirect(uri), ScriptCommand(RemoteScript(uri)), OpenRemoteProjectFailed))
  {
    var path := TrimPrefix(uri, Projects.FileScheme);
    if EnvironmentError(missing) == None {
      if HasPrefix(uri, Projects.FileScheme) {
        if !missing(path) {
          var cleaned := clean(path);
          EscalationShape(succeeds, LocalDirect(cleaned), LocalScript(cleaned), OpenProjectFailed);
        }
      } else {
        EscalationShape(succeeds, RemoteDirect(uri), RemoteScript(uri), OpenRemoteProjectFailed);
      }
    }
  }

  /** A remote URI is opened without looking at the disk beyond the two install checks. */
  lemma RemoteIgnoresOtherPaths(m1: string -> bool, m2: string -> bool, succeeds: Command -> bool,
                                clean: string -> string, uri: string)
    requires !HasPrefix(uri, Projects.FileScheme)
    requires m1(CursorAppPath) == m2(CursorAppPath) && m1(CursorBinPath) == m2(CursorBinPath)
    ensures OpenOutcome(m1, succeeds, clean, uri) == OpenOutcome(m2, succeeds, clean, uri)
  {
  }

  /** A local URI consults the disk only for the install and for its own path after "file://". */
  lemma LocalChecksOnlyItsPath(m1: string -> bool, m2: string -> bool, succeeds: Command -> bool,
                               clean: string -> string, uri: string)
    requires HasPrefix(uri, Projects.FileScheme)
    requires m1(CursorAppPath) == m2(CursorAppPath) && m1(CursorBinPath) == m2(CursorBinPath)
    requires m1(TrimPrefix(uri, Projects.FileScheme)) == m2(TrimPrefix(uri, Projects.FileScheme))
    ensures OpenOutcome(m1, succeeds, clean, uri) == OpenOutcome(m2, succeeds, clean, uri)
  {
  }

  /**
   * When the fallback script is sent, it opens "file://" followed by the
   * cleaned path for a local URI, and the URI itself for a remote one (for
   * targets without a backslash).
   */
  lemma ScriptNamesTarget(missing: string -> bool, succeeds: Command -> bool, clean: string -> string, uri: string)
    requires '\\' !in uri && '\\' !in clean(TrimPrefix(uri, Projects.FileScheme))
    ensures var o := OpenOutcome(missing, succeeds, clean, uri);
            |o.events| == 4 ==>
              && o.events[3].Ran? && o.events[3].command.name == "osascript"
              && |o.events[3].command.args| == 2
              && OpenedLocation(o.events[3].command.args[1]) ==
                   Some(if HasPrefix(uri, Projects.FileScheme)
                        then Projects.FileScheme + clean(TrimPrefix(uri, Projects.FileScheme))
                        else uri)
  {
    var o := OpenOutcome(missing, succeeds, clean, uri);
    if |o.events| == 4 {
      if HasPrefix(uri, Projects.FileScheme) {
        LocalScriptOpensFolder(clean(TrimPrefix(uri, Projects.FileScheme)));
      } else {
        RemoteScriptOpensUri(uri);
      }
    }
  }

  // ---------------------------------------------------------------------------
  // The machine and the opener

  /** The machine the opener acts on: fixed answers, and the record of what was done. */
  class Host {
    const missing: string -> bool
    const succeeds: Command -> bool
    var trace: seq<Event>

    constructor(missing: string -> bool, succeeds: Command -> bool)
      ensures this.missing == missing && this.succeeds == succeeds
      ensures trace == []
    {
      this.missing := missing;
      this.succeeds := succeeds;
      trace := [];
    }

    /** os.Stat(path) followed by os.IsNotExist. */
    method Stat(path: string) returns (notExist: bool)
      ensures notExist == missing(path)
    {
      notExist := missing(path);
    }

    /** exec.Command(…).Run(): true when the command exits successfully. */
    method Run(command: Command) returns (ok: bool)
      modifies this
      ensures ok == succeeds(command)
      ensures trace == old(trace) + [Ran(command, ok)]
    {
      ok := succeeds(command);
      trace := trace + [Ran(command, ok)];
    }

    /** time.Sleep. */
    method Sleep(seconds: nat)
      modifies this
      ensures trace == old(trace) + [Slept(seconds)]
    {
      trace := trace + [Slept(seconds)];
    }
  }

  class Opener {
    /** NewOpener: the opener holds no state of its own. */
    constructor()
    {
    }

    method ValidateEnvironment(host: Host) returns (err: Option<OpenError>)
      ensures err == EnvironmentError(host.missing)
    {
      var appMissing := host.Stat(CursorAppPath);
      if appMissing {
        return Some(AppNotFound);
      }
      var binMissing := host.Stat(CursorBinPath);
      if binMissing {
        return Some(BinaryNotFound);
      }
      return None;
    }

    method Open(host: Host, clean: string -> string, uri: string) returns (err: Option<OpenError>)
      modifies host
      ensures host.trace == old(host.trace) + OpenOutcome(host.missing, host.succeeds, clean, uri).events
      ensures err == OpenOutcome(host.missing, host.succeeds, clean, uri).err
    {
      err := ValidateEnvironment(host);
      if err != None {
        return;
      }
      if HasPrefix(uri, Projects.FileScheme) {
        err := OpenLocal(host, clean, uri);
      } else {
        err := OpenRemote(host, uri);
      }
    }

    method OpenLocal(host: Host, clean: string -> string, uri: string) returns (err: Option<OpenError>)
      modifies host
      ensures host.trace == old(host.trace) + LocalOutcome(host.missing, host.succeeds, clean, uri).events
      ensures err == LocalOutcome(host.missing, host.succeeds, clean, uri).err
    {
      var path := TrimPrefix(uri, Projects.FileScheme);
      var notExist := host.Stat(path);
      if notExist {
        return Some(PathNotFound(path));
      }
      var escapedPath := clean(path);
      var cmd := LocalDirect(escapedPath);
      var ok := host.Run(cmd);
      if ok {
        return None;
      }
      ok := host.Run(LaunchApp);
      if !ok {
        return Some(LaunchAppFailed);
      }
      host.Sleep(SettleSeconds);
      escapedPath := EscapeQuotes(escapedPath);
      var script := ScriptHead + Projects.FileScheme + escapedPath + "\"";
      cmd := ScriptCommand(script);
      ok := host.Run(cmd);
      if !ok {
        return Some(OpenProjectFailed);
      }
      return None;
    }

    method OpenRemote(host: Host, uri: string) returns (err: Option<OpenError>)
      modifies host
      ensures host.trace == old(host.trace) + RemoteOutcome(host.succeeds, uri).events
      ensures err == RemoteOutcome(host.succeeds, uri).err
    {
      var escapedURI := EscapeQuotes(uri);
      var cmd := Command(CursorBinPath, ["--new-window", "--folder-uri", escapedURI]);
      var ok := host.Run(cmd);
      if ok {
        return None;
      }
      ok := host.Run(LaunchApp);
      if !ok {
        return Some(LaunchAppFailed);
      }
      host.Sleep(SettleSeconds);
      escapedURI := EscapeQuotes(uri);
      var script := ScriptHead + escapedURI + "\"";
      cmd := ScriptCommand(script);
      ok := host.Run(cmd);
      if !ok {
        return Some(OpenRemoteProjectFailed);
      }
      return None;
    }
  }
}
