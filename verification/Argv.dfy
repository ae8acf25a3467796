/** The argv a Claude process is spawned with and the settings source read back
    from it (internal/cli/protocol_claude.go,
    internal/cli/protocol_claude_models.go, internal/cliinfo/argv.go).  A string
    stands for its bytes. */
module Argv {
  import opened Wrappers

  // ---------- denied flags ----------

  const DENIED: seq<string> :=
    ["--mcp-config", "--add-dir", "--dangerously-skip-permissions", "--append-system-prompt", "--system-prompt",
     "--setting-sources", "--settings", "--resume", "--allowed-tools", "--disallowed-tools", "--tools", "--name",
     "--model", "--effort", "--permission-mode", "--permission-prompt-tool", "--output-format", "--input-format",
     "--verbose", "--replay-user-messages"]

  const SETTINGS := "--settings"
  const SOURCES := "--setting-sources"

  type Names = seq<string>

  /** strings.IndexByte(s, '='), or |s| when there is none. */
  function EqualsAt(s: string): (n: nat)
    ensures n <= |s| && (n < |s| ==> s[n] == '=') && forall i :: 0 <= i < n ==> s[i] != '='
  {
    if s == [] || s[0] == '=' then 0 else EqualsAt(s[1..]) + 1
  }

  predicate HasName(a: string) { 0 < EqualsAt(a) < |a| }

  /** A bare flag, as every name in the table is. */
  predicate BareFlag(name: string) { HasPrefix(name, "--") && EqualsAt(name) == |name| }

  ghost predicate BareFlags(denied: Names) { forall i :: 0 <= i < |denied| ==> BareFlag(denied[i]) }

  predicate IsDeniedExtraFlag(a: string, denied: Names) {
    HasPrefix(a, "--") && (if HasName(a) then a[..EqualsAt(a)] else a) in denied
  }

  predicate DeniedWithValue(a: string, denied: Names) {
    HasName(a) && HasPrefix(a, "--") && a[..EqualsAt(a)] in denied
  }

  lemma DroppedIsDenied(a: string, denied: Names)
    requires BareFlags(denied)
    ensures DeniedWithValue(a, denied) || a in denied <==> IsDeniedExtraFlag(a, denied)
  {
  }

  /** The extra args that stay; a dropped bare flag takes a following value. */
  function Kept(extra: seq<string>, denied: Names): seq<string> {
    if extra == [] then []
    else if DeniedWithValue(extra[0], denied) then Kept(extra[1..], denied)
    else if extra[0] in denied then Kept(extra[if |extra| > 1 && !HasPrefix(extra[1], "-") then 2 else 1..], denied)
    else [extra[0]] + Kept(extra[1..], denied)
  }

  ghost predicate NoneDenied(extra: seq<string>, denied: Names) {
    forall i :: 0 <= i < |extra| ==> !IsDeniedExtraFlag(extra[i], denied)
  }

  lemma {:induction false} KeptIfClean(extra: seq<string>, denied: Names)
    requires BareFlags(denied) && NoneDenied(extra, denied)
    ensures Kept(extra, denied) == extra
  {
    if extra != [] {
      DroppedIsDenied(extra[0], denied);
      KeptIfClean(extra[1..], denied);
    }
  }

  lemma {:induction false} KeptIsClean(extra: seq<string>, denied: Names)
    requires BareFlags(denied)
    ensures NoneDenied(Kept(extra, denied), denied)
    ensures forall a :: a in Kept(extra, denied) ==> a in extra
    decreases |extra|
  {
    if extra != [] {
      DroppedIsDenied(extra[0], denied);
      KeptIsClean(extra[1..], denied);
      if |extra| > 1 { KeptIsClean(extra[2..], denied); }
    }
  }

  /** Whatever the list, no denied flag is left in bare or `=` form, and filtering
      again changes nothing. */
  lemma FilterIsIdempotent(extra: seq<string>)
    ensures var kept := Kept(extra, DENIED);
      NoneDenied(kept, DENIED) && Kept(kept, DENIED) == kept && (kept == extra <==> NoneDenied(extra, DENIED))
  {
    TableIsBare();
    KeptIsClean(extra, DENIED);
    KeptIfClean(Kept(extra, DENIED), DENIED);
    if NoneDenied(extra, DENIED) { KeptIfClean(extra, DENIED); }
  }

  method FilterDeniedFlags(extra: seq<string>, denied: Names) returns (out: seq<string>)
    requires BareFlags(denied)
    ensures out == Kept(extra, denied)
  {
    var hit := false;
    for i := 0 to |extra|
      invariant !hit && NoneDenied(extra[..i], denied)
    {
      if IsDeniedExtraFlag(extra[i], denied) {
        hit := true;
        break;
      }
      assert extra[..i + 1] == extra[..i] + [extra[i]];
    }
    if !hit {
      assert extra[..|extra|] == extra;
      KeptIfClean(extra, denied);
      return extra;
    }
    out := FilterLoop(extra, denied);
  }

  method FilterLoop(extra: seq<string>, denied: Names) returns (out: seq<string>)
    ensures out == Kept(extra, denied)
  {
    out := [];
    var i: nat := 0;
    assert extra[0..] == extra;
    while i < |extra|
      invariant i <= |extra| && out + Kept(extra[i..], denied) == Kept(extra, denied)
      decreases |extra| - i
    {
      var a := extra[i];
      KeptStep(extra, i, out, denied);
      if DeniedWithValue(a, denied) {
        i := i + 1;
        continue;
      }
      if a in denied {
        if i + 1 < |extra| && !HasPrefix(extra[i + 1], "-") { i := i + 1; }
        i := i + 1;
        continue;
      }
      out := out + [a];
      i := i + 1;
    }
    assert out + [] == out;
  }

  lemma KeptStep(extra: seq<string>, i: nat, out: seq<string>, denied: Names)
    requires i < |extra|
    ensures var a, rest := extra[i], extra[i + 1..];
      if DeniedWithValue(a, denied) then Kept(extra[i..], denied) == Kept(rest, denied)
      else if a in denied then
        Kept(extra[i..], denied) == if i + 1 < |extra| && !HasPrefix(extra[i + 1], "-") then Kept(extra[i + 2..], denied) else Kept(rest, denied)
      else out + Kept(extra[i..], denied) == out + [a] + Kept(rest, denied)
  {
    var t := extra[i..];
    assert t[1..] == extra[i + 1..];
    if |t| > 1 { assert t[2..] == extra[i + 2..]; }
  }

  // ---------- the table ----------

  lemma {:induction false} NoEquals(s: string)
    requires '=' !in s
    ensures EqualsAt(s) == |s|
  {
    if s != [] { NoEquals(s[1..]); }
  }

  predicate Plain(name: string) { |name| > 2 && name[0] == '-' && name[1] == '-' && '=' !in name }

  lemma TablePart0()
    ensures forall i :: 0 <= i < 5 ==> Plain(DENIED[i])
  {
  }

  lemma TablePart1()
    ensures forall i :: 5 <= i < 10 ==> Plain(DENIED[i])
  {
  }

  lemma TablePart2()
    ensures forall i :: 10 <= i < 15 ==> Plain(DENIED[i])
  {
  }

  lemma TablePart3()
    ensures forall i :: 15 <= i < 20 ==> Plain(DENIED[i])
  {
  }

  /** Every denied name starts with "--" and holds no '='. */
  lemma TableIsBare()
    ensures BareFlags(DENIED)
  {
    TablePart0();
    TablePart1();
    TablePart2();
    TablePart3();
    PlainIsBare(DENIED);
  }

  lemma TableHoldsSettings()
    ensures SOURCES in DENIED && SETTINGS in DENIED
  {
    assert DENIED[5] == SOURCES && DENIED[6] == SETTINGS;
  }

  lemma PlainIsBare(denied: Names)
    requires forall i :: 0 <= i < |denied| ==> Plain(denied[i])
    ensures BareFlags(denied)
  {
    forall i | 0 <= i < |denied| ensures BareFlag(denied[i]) {
      assert Plain(denied[i]);
      NoEquals(denied[i]);
    }
  }

  // ---------- the byte cap ----------

  const MAX_EXTRA_ARGS: nat := 128 * 1024
  const MAX_SYSTEM_PROMPT: nat := 64 * 1024

  function TotalBytes(extra: seq<string>): nat {
    if extra == [] then 0 else TotalBytes(extra[..|extra| - 1]) + |extra[|extra| - 1]| + 1
  }

  lemma {:induction false} TotalGrows(extra: seq<string>, n: nat)
    requires n <= |extra|
    ensures TotalBytes(extra[..n]) <= TotalBytes(extra)
    decreases |extra| - n
  {
    if n < |extra| {
      assert extra[..n + 1][..n] == extra[..n];
      TotalGrows(extra, n + 1);
    } else {
      assert extra[..n] == extra;
    }
  }

  method ExtraArgsOverCap(extra: seq<string>) returns (over: bool)
    ensures over <==> TotalBytes(extra) > MAX_EXTRA_ARGS
  {
    var total := 0;
    for i := 0 to |extra|
      invariant total == TotalBytes(extra[..i]) && total <= MAX_EXTRA_ARGS
    {
      assert extra[..i + 1][..i] == extra[..i];
      total := total + |extra[i]| + 1;
      if total > MAX_EXTRA_ARGS {
        TotalGrows(extra, i + 1);
        return true;
      }
    }
    assert extra[..|extra|] == extra;
    return false;
  }

  function ExtraArgs(extra: seq<string>): seq<string> {
    if TotalBytes(extra) > MAX_EXTRA_ARGS then [] else Kept(extra, DENIED)
  }

  method CapExtraArgsBytes(extra: seq<string>) returns (out: seq<string>)
    ensures out == ExtraArgs(extra)
  {
    var over := ExtraArgsOverCap(extra);
    if over { return []; }
    TableIsBare();
    out := FilterDeniedFlags(extra, DENIED);
  }

  // ---------- BuildArgs ----------

  datatype PermissionMode = SkipPermissions | Auto | DontAsk | Standard

  datatype SpawnOptions = SpawnOptions(
    model: string, effort: string, resumeID: string, extraArgs: seq<string>, permissionMode: PermissionMode,
    debugFile: string, settingsFile: string, sessionSettingsFile: string, projectSettings: bool,
    mcpConfigFile: string, appendSystemPrompt: string, tools: seq<string>, strictMCPConfig: bool, name: string)

  predicate IsAbs(path: string) { HasPrefix(path, "/") }

  function UsableSettingsFile(path: string): string {
    if path == "" || !IsAbs(path) || HasPrefix(path, "-") then "" else path
  }

  predicate Renderable(p: string) { !HasPrefix(p, "-") && IsAbs(p) }

  predicate ValidResumeID(id: string) {
    1 <= |id| <= 128
    && forall i :: 0 <= i < |id| ==> 'a' <= id[i] <= 'z' || 'A' <= id[i] <= 'Z' || '0' <= id[i] <= '9' || id[i] == '-'
  }

  predicate PlainText(s: string) { !HasPrefix(s, "-") && '\0' !in s }

  const PROJECT_SOURCES := "project" + "," + "local"

  function SettingSources(base: string, project: bool): string {
    if !project then base
    else
      var s := base + "," + PROJECT_SOURCES;
      if HasPrefix(s, ",") then s[1..] else s
  }

  function JoinComma(parts: seq<string>): string {
    if parts == [] then "" else if |parts| == 1 then parts[0] else parts[0] + "," + JoinComma(parts[1..])
  }

  const HEAD: seq<string> :=
    ["-p", "--output-format", "stream-json", "--input-format", "stream-json", "--verbose", "--replay-user-messages"]

  /** The settings flags, and the source recorded with them ("" for the user's own). */
  function SettingsArgs(o: SpawnOptions): seq<string> {
    var session, f := UsableSettingsFile(o.sessionSettingsFile), UsableSettingsFile(o.settingsFile);
    if f != "" then [SOURCES, SettingSources("", o.projectSettings), SETTINGS, if session != "" then session else f]
    else [SOURCES, SettingSources("user", o.projectSettings)] + (if session != "" then [SETTINGS, session] else [])
  }

  function Flag(on: bool, flag: string, value: string): seq<string> { if on then [flag, value] else [] }

  function PermissionArgs(mode: PermissionMode): seq<string> {
    match mode
    case SkipPermissions => ["--dangerously-skip-permissions"]
    case Auto => ["--permission-mode", "auto"]
    case DontAsk => ["--permission-mode", "dontAsk"]
    case Standard => []
  }

  function SessionArgs(o: SpawnOptions): seq<string> {
    var tools := JoinComma(o.tools);
    Flag(o.tools != [], "--tools", if PlainText(tools) then tools else "")
    + (if o.strictMCPConfig then ["--strict-mcp-config"] else [])
    + Flag(o.name != "" && PlainText(o.name), "--name", o.name)
  }

  /** The values BuildArgs passes unguarded, or nearly. */
  function ModelArgs(o: SpawnOptions): seq<string> {
    Flag(o.model != "", "--model", o.model)
    + Flag(o.effort != "", "--effort", o.effort)
    + Flag(o.resumeID != "" && ValidResumeID(o.resumeID), "--resume", o.resumeID)
  }

  function FileArgs(o: SpawnOptions): seq<string> {
    Flag(o.debugFile != "" && Renderable(o.debugFile), "--debug-file", o.debugFile)
    + Flag(o.mcpConfigFile != "" && Renderable(o.mcpConfigFile), "--mcp-config", o.mcpConfigFile)
    + Flag(o.appendSystemPrompt != "" && PlainText(o.appendSystemPrompt) && |o.appendSystemPrompt| <= MAX_SYSTEM_PROMPT,
           "--append-system-prompt", o.appendSystemPrompt)
  }

  /** Everything after the settings flags. */
  function OtherArgs(o: SpawnOptions): seq<string> {
    PermissionArgs(o.permissionMode) + SessionArgs(o) + ModelArgs(o) + FileArgs(o) + ExtraArgs(o.extraArgs)
  }

  /** The whole argv. */
  function Rendered(o: SpawnOptions): seq<string> { HEAD + SettingsArgs(o) + OtherArgs(o) }

  lemma SumsAgree(a: seq<string>, b: seq<string>, c: seq<string>, d: seq<string>, e: seq<string>, f: seq<string>)
    ensures a + b + c + d + e + f == a + (b + c + d + e + f)
  {
  }

  // ---------- reading the source back ----------

  /** The last --settings file and --setting-sources list read so far. */
  datatype Found = Found(file: string, sources: Option<string>)

  function Scan(args: seq<string>, found: Found): Found
    decreases |args|
  {
    if |args| < 2 then found
    else if args[0] == SETTINGS then
      var f := UsableSettingsFile(args[1]);
      Scan(args[2..], if f != "" then found.(file := f) else found)
    else if args[0] == SOURCES then Scan(args[2..], found.(sources := Some(args[1])))
    else Scan(args[1..], found)
  }

  function SplitComma(s: string): (parts: seq<string>)
    ensures parts != []
  {
    if s == [] then [""]
    else if s[0] == ',' then [""] + SplitComma(s[1..])
    else
      var rest := SplitComma(s[1..]);
      [[s[0]] + rest[0]] + rest[1..]
  }

  function Source(found: Found, base: string): Option<string> {
    if found.sources.Some? && "user" in SplitComma(found.sources.value) then Some("")
    else if found.sources.Some? && UsableSettingsFile(base) != "" then Some(base)
    else if found.file != "" then Some(found.file)
    else None
  }

  method SettingsSourceFromArgs(args: seq<string>, base: string) returns (src: Option<string>)
    ensures src == Source(Scan(args, Found("", None)), base)
  {
    var file, sources := "", "";
    var sourcesSet := false;
    var i: nat := 0;
    assert args[0..] == args;
    while i + 1 < |args|
      invariant i <= |args|
      invariant Scan(args, Found("", None)) == Scan(args[i..], Found(file, if sourcesSet then Some(sources) else None))
      decreases |args| - i
    {
      assert args[i..][1..] == args[i + 1..] && args[i..][2..] == args[i + 2..];
      if args[i] == SETTINGS {
        var f := UsableSettingsFile(args[i + 1]);
        if f != "" { file := f; }
        i := i + 1;
      } else if args[i] == SOURCES {
        sources, sourcesSet := args[i + 1], true;
        i := i + 1;
      }
      i := i + 1;
    }
    if sourcesSet && "user" in SplitComma(sources) { return Some(""); }
    if sourcesSet && UsableSettingsFile(base) != "" { return Some(base); }
    if file != "" { return Some(file); }
    return None;
  }

  // ---------- the protocol object ----------

  /** ClaudeProtocol: settingsPath is the source this process reads its models
      from, None until it is known. */
  class ClaudeProtocol {
    var settingsPath: Option<string>

    constructor ()
      ensures settingsPath == None
    {
      settingsPath := None;
    }

    method BuildArgs(o: SpawnOptions) returns (args: seq<string>)
      modifies this
      ensures args == Rendered(o)
      ensures settingsPath == Some(UsableSettingsFile(o.settingsFile))
    {
      args := HEAD;
      var session, f := UsableSettingsFile(o.sessionSettingsFile), UsableSettingsFile(o.settingsFile);
      if f != "" {
        args := args + [SOURCES, SettingSources("", o.projectSettings), SETTINGS, if session != "" then session else f];
        settingsPath := Some(f);
      } else {
        args := args + [SOURCES, SettingSources("user", o.projectSettings)];
        if session != "" { args := args + [SETTINGS, session]; }
        settingsPath := Some("");
      }
      assert args == HEAD + SettingsArgs(o);
      args := args + PermissionArgs(o.permissionMode) + SessionArgs(o) + ModelArgs(o) + FileArgs(o);
      var extra := CapExtraArgsBytes(o.extraArgs);
      args := args + extra;
      SumsAgree(HEAD + SettingsArgs(o), PermissionArgs(o.permissionMode), SessionArgs(o), ModelArgs(o), FileArgs(o), extra);
    }

    /** seedSettingsFromArgs: fills the source if none is known and argv names one. */
    method SeedSettingsFromArgs(args: seq<string>, base: string)
      modifies this
      ensures settingsPath ==
        if old(settingsPath).Some? then old(settingsPath) else Source(Scan(args, Found("", None)), base)
    {
      var src := SettingsSourceFromArgs(args, base);
      if settingsPath.None? { settingsPath := src; }
    }
  }

  /** A spawn, and later a reattach from the recorded argv: the reattached process
      knows the source the spawned one did, exactly when none was misread. */
  method SpawnThenReattach(o: SpawnOptions) returns (spawned: ClaudeProtocol, reattached: ClaudeProtocol)
    ensures spawned.settingsPath == Some(UsableSettingsFile(o.settingsFile))
    ensures reattached.settingsPath == spawned.settingsPath <==> !MisreadMatters(o)
  {
    spawned := new ClaudeProtocol();
    var args := spawned.BuildArgs(o);
    reattached := new ClaudeProtocol();
    reattached.SeedSettingsFromArgs(args, o.settingsFile);
    SourceRoundTrip(o);
  }

  // ---------- the round trip ----------

  /** The list in force after these arguments, when it was `sources` before. */
  function Listed(args: seq<string>, sources: Option<string>): Option<string> { Scan(args, Found("", sources)).sources }

  /** The files read do not matter to it. */
  lemma {:induction false} FilesDoNotMatter(args: seq<string>, a: Found, b: Found)
    requires a.sources == b.sources
    ensures Scan(args, a).sources == Scan(args, b).sources
    decreases |args|
  {
    if |args| >= 2 {
      if args[0] == SETTINGS {
        var f := UsableSettingsFile(args[1]);
        FilesDoNotMatter(args[2..], if f != "" then a.(file := f) else a, if f != "" then b.(file := f) else b);
      } else if args[0] == SOURCES {
        FilesDoNotMatter(args[2..], a.(sources := Some(args[1])), b.(sources := Some(args[1])));
      } else {
        FilesDoNotMatter(args[1..], a, b);
      }
    }
  }

  /** A token that is neither of the two flags read back. */
  predicate Other(t: string) { t != SETTINGS && t != SOURCES }

  predicate AllOther(args: seq<string>) { forall i :: 0 <= i < |args| ==> Other(args[i]) }

  predicate OtherFirst(args: seq<string>) { args != [] ==> Other(args[0]) }

  lemma ListedSkip(args: seq<string>, sources: Option<string>)
    requires args != [] && Other(args[0])
    ensures Listed(args, sources) == Listed(args[1..], sources)
  {
  }

  lemma {:induction false} ListedPast(quiet: seq<string>, rest: seq<string>, sources: Option<string>)
    requires AllOther(quiet)
    ensures Listed(quiet + rest, sources) == Listed(rest, sources)
    decreases |quiet|
  {
    if quiet == [] {
      assert quiet + rest == rest;
    } else {
      ListedPast(quiet[1..], rest, sources);
      ListedSkip(quiet + rest, sources);
      assert (quiet + rest)[1..] == quiet[1..] + rest;
    }
  }

  lemma ListedList(list: string, rest: seq<string>, sources: Option<string>)
    ensures Listed([SOURCES, list] + rest, sources) == Listed(rest, Some(list))
  {
    assert ([SOURCES, list] + rest)[2..] == rest;
  }

  lemma ListedFile(file: string, rest: seq<string>, sources: Option<string>)
    ensures Listed([SETTINGS, file] + rest, sources) == Listed(rest, sources)
  {
    assert ([SETTINGS, file] + rest)[2..] == rest;
    var f, found := UsableSettingsFile(file), Found("", sources);
    FilesDoNotMatter(rest, if f != "" then found.(file := f) else found, found);
  }

  lemma {:induction false} ListedQuiet(args: seq<string>, sources: Option<string>)
    requires SOURCES !in args
    ensures Listed(args, sources) == sources
    decreases |args|
  {
    if |args| >= 2 {
      if args[0] == SETTINGS {
        ListedFile(args[1], args[2..], sources);
        assert [SETTINGS, args[1]] + args[2..] == args;
        ListedQuiet(args[2..], sources);
      } else {
        ListedQuiet(args[1..], sources);
      }
    }
  }

  /** The list in force after one of BuildArgs' flags: its value is taken for the
      flag itself when it spells it and a token follows. */
  function AfterFlag(on: bool, value: string, rest: seq<string>, sources: Option<string>): Option<string> {
    if on && value == SOURCES && rest != [] then Some(rest[0]) else sources
  }

  lemma ListedFlag(on: bool, flag: string, value: string, rest: seq<string>, sources: Option<string>)
    requires Other(flag) && OtherFirst(rest)
    ensures Listed(Flag(on, flag, value) + rest, sources) == Listed(rest, AfterFlag(on, value, rest, sources))
    ensures OtherFirst(Flag(on, flag, value) + rest)
  {
    var args := Flag(on, flag, value) + rest;
    if !on {
      assert args == rest;
    } else {
      ListedSkip(args, sources);
      assert args[1..] == [value] + rest;
      if rest != [] { ListedValue(value, rest, sources); }
    }
  }

  lemma ListedValue(value: string, rest: seq<string>, sources: Option<string>)
    requires rest != [] && Other(rest[0])
    ensures Listed([value] + rest, sources) == Listed(rest, if value == SOURCES then Some(rest[0]) else sources)
  {
    ListedSkip(rest, if value == SOURCES then Some(rest[0]) else sources);
    if Other(value) {
      ListedSkip([value] + rest, sources);
      assert ([value] + rest)[1..] == rest;
    } else {
      assert [value] + rest == [value, rest[0]] + rest[1..];
      if value == SOURCES { ListedList(rest[0], rest[1..], sources); } else { ListedFile(rest[0], rest[1..], sources); }
    }
  }

  lemma {:induction false} SplitAtComma(a: string, b: string)
    requires ',' !in a
    ensures SplitComma(a + "," + b) == [a] + SplitComma(b)
  {
    var s := a + "," + b;
    if a == "" {
      assert s[1..] == b;
    } else {
      SplitAtComma(a[1..], b);
      assert s[1..] == a[1..] + "," + b && [s[0]] + a[1..] == a;
    }
  }

  lemma {:induction false} SplitWithoutComma(a: string)
    requires ',' !in a
    ensures SplitComma(a) == [a]
  {
    if a != "" {
      SplitWithoutComma(a[1..]);
      assert [a[0]] + a[1..] == a;
    }
  }

  lemma ProjectSources()
    ensures SplitComma(PROJECT_SOURCES) == ["project", "local"]
  {
    SplitWithoutComma("local");
    SplitAtComma("project", "local");
  }

  lemma SourcesAre(base: string, project: bool)
    requires ',' !in base
    ensures SplitComma(SettingSources(base, project))
         == if !project then [base] else if base == "" then ["project", "local"] else [base, "project", "local"]
  {
    SplitWithoutComma(base);
    ProjectSources();
    SplitAtComma(base, PROJECT_SOURCES);
    var s := base + "," + PROJECT_SOURCES;
    if base == "" {
      assert s[0] == ',' && s[1..] == PROJECT_SOURCES;
    } else {
      assert s[0] == base[0];
    }
  }

  /** The list names the user's settings exactly when base does. */
  lemma SourcesNameUser(project: bool)
    ensures "user" in SplitComma(SettingSources("user", project))
    ensures "user" !in SplitComma(SettingSources("", project))
  {
    SourcesAre("user", project);
    SourcesAre("", project);
    assert |"user"| == 4 && |"project"| == 7 && |"local"| == 5 && |""| == 0;
    assert SplitComma(SettingSources("user", project))[0] == "user";
  }

  lemma PlainIsOther(s: string)
    requires !HasPrefix(s, "-")
    ensures Other(s)
  {
    assert HasPrefix(SOURCES, "-") && HasPrefix(SETTINGS, "-");
  }

  /** Each flag BuildArgs writes differs from the two read back. */
  lemma LengthIsOther(flag: string)
    requires |flag| != 17 && |flag| != 10
    ensures Other(flag)
  {
    assert |SOURCES| == 17 && |SETTINGS| == 10;
  }

  lemma HeadIsOther()
    ensures AllOther(HEAD)
  {
    LengthIsOther("-p");
    LengthIsOther("--output-format");
    LengthIsOther("stream-json");
    LengthIsOther("--input-format");
    LengthIsOther("--verbose");
    LengthIsOther("--replay-user-messages");
  }

  lemma PermissionIsOther(mode: PermissionMode)
    ensures AllOther(PermissionArgs(mode))
  {
    LengthIsOther("--dangerously-skip-permissions");
    assert "--permission-mode"[2] != SOURCES[2] && |"--permission-mode"| == 17 && |SETTINGS| == 10;
    LengthIsOther("auto");
    LengthIsOther("dontAsk");
  }

  lemma SessionIsOther(o: SpawnOptions)
    ensures AllOther(SessionArgs(o))
  {
    var tools := JoinComma(o.tools);
    PlainIsOther("");
    if PlainText(tools) { PlainIsOther(tools); }
    if PlainText(o.name) { PlainIsOther(o.name); }
    LengthIsOther("--tools");
    LengthIsOther("--strict-mcp-config");
    LengthIsOther("--name");
  }

  lemma FilesAreOther(o: SpawnOptions)
    ensures AllOther(FileArgs(o))
  {
    if Renderable(o.debugFile) { PlainIsOther(o.debugFile); }
    if Renderable(o.mcpConfigFile) { PlainIsOther(o.mcpConfigFile); }
    if PlainText(o.appendSystemPrompt) { PlainIsOther(o.appendSystemPrompt); }
    LengthIsOther("--debug-file");
    LengthIsOther("--mcp-config");
    LengthIsOther("--append-system-prompt");
  }

  /** The filter's point: neither flag is left among the extra arguments. */
  lemma ExtraIsOther(extra: seq<string>)
    ensures AllOther(ExtraArgs(extra))
  {
    TableIsBare();
    TableHoldsSettings();
    KeptIsClean(extra, DENIED);
    DroppedIsDenied(SOURCES, DENIED);
    DroppedIsDenied(SETTINGS, DENIED);
  }

  // ---------- which values are misread ----------

  predicate ResumeRendered(o: SpawnOptions) { o.resumeID != "" && ValidResumeID(o.resumeID) }

  /** What follows the resume id, the effort and the model in the argv. */
  function AfterResume(o: SpawnOptions): seq<string> { FileArgs(o) + ExtraArgs(o.extraArgs) }

  function AfterEffort(o: SpawnOptions): seq<string> { Flag(ResumeRendered(o), "--resume", o.resumeID) + AfterResume(o) }

  function AfterModel(o: SpawnOptions): seq<string> { Flag(o.effort != "", "--effort", o.effort) + AfterEffort(o) }

  /** The token that follows the last of model, effort and resume id that spells
      the flag and is followed by one. */
  function Misread(o: SpawnOptions): Option<string> {
    if ResumeRendered(o) && o.resumeID == SOURCES && AfterResume(o) != [] then Some(AfterResume(o)[0])
    else if o.effort == SOURCES && AfterEffort(o) != [] then Some(AfterEffort(o)[0])
    else if o.model == SOURCES && AfterModel(o) != [] then Some(AfterModel(o)[0])
    else None
  }

  /** A token is misread as the list, and says the opposite of the real one. */
  predicate MisreadMatters(o: SpawnOptions) {
    Misread(o).Some? && ("user" in SplitComma(Misread(o).value)) != (UsableSettingsFile(o.settingsFile) == "")
  }

  /** The list BuildArgs wrote. */
  function OwnList(o: SpawnOptions): string {
    SettingSources(if UsableSettingsFile(o.settingsFile) != "" then "" else "user", o.projectSettings)
  }

  lemma TailRegroups(o: SpawnOptions)
    ensures OtherArgs(o) == PermissionArgs(o.permissionMode) + SessionArgs(o) + (Flag(o.model != "", "--model", o.model) + AfterModel(o))
  {
    var a, b := PermissionArgs(o.permissionMode), SessionArgs(o);
    var m, e := Flag(o.model != "", "--model", o.model), Flag(o.effort != "", "--effort", o.effort);
    var r, f, x := Flag(ResumeRendered(o), "--resume", o.resumeID), FileArgs(o), ExtraArgs(o.extraArgs);
    Regroup7(a, b, m, e, r, f, x);
  }

  lemma Regroup7(a: seq<string>, b: seq<string>, m: seq<string>, e: seq<string>, r: seq<string>, f: seq<string>, x: seq<string>)
    ensures a + b + (m + e + r) + f + x == a + b + (m + (e + (r + (f + x))))
  {
  }

  lemma OtherScan(o: SpawnOptions, list: string)
    ensures Listed(OtherArgs(o), Some(list)) == Some(if Misread(o).Some? then Misread(o).value else list)
  {
    PermissionIsOther(o.permissionMode);
    SessionIsOther(o);
    TailRegroups(o);
    var tail := Flag(o.model != "", "--model", o.model) + AfterModel(o);
    ListedPast(PermissionArgs(o.permissionMode) + SessionArgs(o), tail, Some(list));
    TailScan(o, list);
  }

  lemma TailScan(o: SpawnOptions, list: string)
    ensures Listed(Flag(o.model != "", "--model", o.model) + AfterModel(o), Some(list))
         == Some(if Misread(o).Some? then Misread(o).value else list)
  {
    RestIsOther(o);
    ModelFlagsAreOther();
    var rest := AfterResume(o);
    var resume, effort := ResumeRendered(o), o.effort != "";
    var s1 := AfterFlag(o.model != "", o.model, AfterModel(o), Some(list));
    var s2 := AfterFlag(effort, o.effort, AfterEffort(o), s1);
    var s3 := AfterFlag(resume, o.resumeID, rest, s2);
    ListedFlag(resume, "--resume", o.resumeID, rest, s2);
    ListedFlag(effort, "--effort", o.effort, AfterEffort(o), s1);
    ListedFlag(o.model != "", "--model", o.model, AfterModel(o), Some(list));
    ListedQuiet(rest, s3);
  }

  lemma RestIsOther(o: SpawnOptions)
    ensures OtherFirst(AfterResume(o)) && SOURCES !in AfterResume(o)
  {
    FilesAreOther(o);
    ExtraIsOther(o.extraArgs);
  }

  lemma ModelFlagsAreOther()
    ensures Other("--model") && Other("--effort") && Other("--resume")
  {
    LengthIsOther("--model");
    LengthIsOther("--effort");
    LengthIsOther("--resume");
  }

  lemma SettingsScan(o: SpawnOptions, others: seq<string>)
    ensures Listed(SettingsArgs(o) + others, None) == Listed(others, Some(OwnList(o)))
  {
    var session, f := UsableSettingsFile(o.sessionSettingsFile), UsableSettingsFile(o.settingsFile);
    var files := if f != "" then [SETTINGS, if session != "" then session else f]
                 else if session != "" then [SETTINGS, session] else [];
    assert SettingsArgs(o) == [SOURCES, OwnList(o)] + files;
    Regroup([SOURCES, OwnList(o)], files, others);
    ListedList(OwnList(o), files + others, None);
    if files == [] { assert files + others == others; } else { ListedFile(files[1], others, Some(OwnList(o))); }
  }

  lemma FinalList(o: SpawnOptions)
    ensures Listed(Rendered(o), None) == Some(if Misread(o).Some? then Misread(o).value else OwnList(o))
  {
    HeadIsOther();
    Regroup(HEAD, SettingsArgs(o), OtherArgs(o));
    ListedPast(HEAD, SettingsArgs(o) + OtherArgs(o), None);
    SettingsScan(o, OtherArgs(o));
    OtherScan(o, OwnList(o));
  }

  /** The source BuildArgs recorded is not what its argv says. */
  predicate SourceIsLost(o: SpawnOptions) {
    Source(Scan(Rendered(o), Found("", None)), o.settingsFile) != Some(UsableSettingsFile(o.settingsFile))
  }

  /** With the spawn's own settings file as base, what BuildArgs recorded is what
      its argv says, for every option set, except exactly where a misread token
      says the opposite about the user's settings. */
  lemma SourceRoundTrip(o: SpawnOptions)
    ensures SourceIsLost(o) <==> MisreadMatters(o)
  {
    FinalList(o);
    SourcesNameUser(o.projectSettings);
  }

  /** In particular values that do not start with '-' lose nothing. */
  lemma PlainValuesRoundTrip(o: SpawnOptions)
    requires !HasPrefix(o.model, "-") && !HasPrefix(o.effort, "-") && !HasPrefix(o.resumeID, "-")
    ensures Source(Scan(Rendered(o), Found("", None)), o.settingsFile) == Some(UsableSettingsFile(o.settingsFile))
  {
    PlainIsOther(o.model);
    PlainIsOther(o.effort);
    PlainIsOther(o.resumeID);
    SourceRoundTrip(o);
  }

  /** A model spelled like the flag, with an effort, hides that the user's own
      settings were used. */
  lemma ModelNamedLikeTheFlag(o: SpawnOptions)
    requires o.model == SOURCES && o.effort == "high" && o.resumeID == "" && o.settingsFile == ""
    ensures SourceIsLost(o)
  {
    SourceRoundTrip(o);
    LengthIsOther("high");
    assert AfterModel(o)[0] == "--effort";
    SplitWithoutComma("--effort");
    assert |"--effort"| != |"user"|;
  }
}
