/**
 * convertJournal, convertTable, convertPlaylist and convertMacro: paths
 * and text are rewritten and flag bundles move to the target module. Macros
 * may be replaced by a hand-written command, and the module name passed to
 * the settings and flag APIs inside a command is renamed.
 */
module RecordConversion {
  import opened Wrappers
  import opened JsValues
  import opened Strings
  import opened Rewrites
  import opened Documents

  // ---------------------------------------------------------------------------
  // convertJournal

  /** The page mapping: a page with text has its paths and text rewritten. */
  function ConvertPage(p: Page, cfg: Conversion): (r: Page)
    ensures r.id == p.id && r.name == p.name && r.pageType == p.pageType
    ensures p.text.None? || !p.text.value.content.Truthy() ==> r.text == p.text
    ensures p.text.Some? && p.text.value.content.Truthy() ==>
      r.text == Some(PageText(FixupDcs(ReplacePaths(p.text.value.content, cfg), cfg)))
    ensures r.flags == FixFlags(p.flags, cfg.srcName, cfg.targetName)
    ensures cfg.srcName != cfg.targetName ==> FlagsMigrated(r.flags, cfg.srcName)
  {
    var text := if p.text.Some? && p.text.value.content.Truthy()
      then Some(PageText(FixupDcs(ReplacePaths(p.text.value.content, cfg), cfg)))
      else p.text;
    p.(text := text, flags := FixFlags(p.flags, cfg.srcName, cfg.targetName))
  }

  predicate JournalMigrated(j: Journal, src: string) {
    FlagsMigrated(j.flags, src) && forall i :: 0 <= i < |j.pages| ==> FlagsMigrated(j.pages[i].flags, src)
  }

  /** convertJournal. */
  function ConvertJournal(j: Journal, cfg: Conversion): (r: Journal)
    ensures r.id == j.id && r.name == j.name
    ensures r.flags == FixFlags(j.flags, cfg.srcName, cfg.targetName)
    ensures |r.pages| == |j.pages| && forall i :: 0 <= i < |j.pages| ==> r.pages[i] == ConvertPage(j.pages[i], cfg)
    ensures cfg.srcName != cfg.targetName ==> JournalMigrated(r, cfg.srcName)
  {
    j.(flags := FixFlags(j.flags, cfg.srcName, cfg.targetName),
       pages := seq(|j.pages|, i requires 0 <= i < |j.pages| => ConvertPage(j.pages[i], cfg)))
  }

  // ---------------------------------------------------------------------------
  // convertTable

  /** The result mapping: image path and text rewritten, flags moved. */
  function ConvertResult(res: TableResult, cfg: Conversion): (r: TableResult)
    ensures r.img == RewritePath(res.img, cfg)
    ensures r.text == FixupText(RewritePath(res.text, cfg), cfg)
    ensures res.text == "" ==> r.text == ""
    ensures r.flags == FixFlags(res.flags, cfg.srcName, cfg.targetName)
    ensures cfg.srcName != cfg.targetName ==> FlagsMigrated(r.flags, cfg.srcName)
  {
    TableResult(RewritePath(res.img, cfg), FixupText(RewritePath(res.text, cfg), cfg),
      FixFlags(res.flags, cfg.srcName, cfg.targetName))
  }

  predicate TableMigrated(t: RollTable, src: string) {
    FlagsMigrated(t.flags, src) && forall i :: 0 <= i < |t.results| ==> FlagsMigrated(t.results[i].flags, src)
  }

  /** convertTable. */
  function ConvertTable(t: RollTable, cfg: Conversion): (r: RollTable)
    ensures r.id == t.id && r.name == t.name
    ensures r.img == ReplacePaths(t.img, cfg)
    ensures r.flags == FixFlags(t.flags, cfg.srcName, cfg.targetName)
    ensures |r.results| == |t.results| && forall i :: 0 <= i < |t.results| ==> r.results[i] == ConvertResult(t.results[i], cfg)
    ensures cfg.srcName != cfg.targetName ==> TableMigrated(r, cfg.srcName)
  {
    t.(img := ReplacePaths(t.img, cfg),
       flags := FixFlags(t.flags, cfg.srcName, cfg.targetName),
       results := seq(|t.results|, i requires 0 <= i < |t.results| => ConvertResult(t.results[i], cfg)))
  }

  // ---------------------------------------------------------------------------
  // convertPlaylist

  function ConvertTrack(s: Track, cfg: Conversion): (r: Track)
    ensures r.path == RewritePath(s.path, cfg)
    ensures r.flags == FixFlags(s.flags, cfg.srcName, cfg.targetName)
    ensures cfg.srcName != cfg.targetName ==> FlagsMigrated(r.flags, cfg.srcName)
  {
    Track(RewritePath(s.path, cfg), FixFlags(s.flags, cfg.srcName, cfg.targetName))
  }

  predicate PlaylistMigrated(p: Playlist, src: string) {
    FlagsMigrated(p.flags, src) && forall i :: 0 <= i < |p.sounds| ==> FlagsMigrated(p.sounds[i].flags, src)
  }

  /** convertPlaylist. */
  function ConvertPlaylist(p: Playlist, cfg: Conversion): (r: Playlist)
    ensures r.id == p.id && r.name == p.name
    ensures r.flags == FixFlags(p.flags, cfg.srcName, cfg.targetName)
    ensures |r.sounds| == |p.sounds| && forall i :: 0 <= i < |p.sounds| ==> r.sounds[i] == ConvertTrack(p.sounds[i], cfg)
    ensures cfg.srcName != cfg.targetName ==> PlaylistMigrated(r, cfg.srcName)
  {
    p.(flags := FixFlags(p.flags, cfg.srcName, cfg.targetName),
       sounds := seq(|p.sounds|, i requires 0 <= i < |p.sounds| => ConvertTrack(p.sounds[i], cfg)))
  }

  // ---------------------------------------------------------------------------
  // The API-call rename inside macro commands

  /** The calls whose first argument names a module. */
  predicate IsApiName(n: string) {
    n == "get" || n == "set" || n == "getFlag" || n == "register"
  }

  predicate IsQuote(c: char) {
    c == '\'' || c == '"'
  }

  /** The call prefix `<name>(<q1><module><q2>`, one of `(get|set|getFlag|register)\((['"])<module>(['"])`. */
  function CallPrefix(n: string, q1: char, moduleName: string, q2: char): string {
    n + "(" + [q1] + moduleName + [q2]
  }

  /** The call prefix naming `module` at the start of `s`, when there is one: its name and quotes. */
  function ApiCallAt(s: string, moduleName: string): (m: Option<(string, char, char)>)
    ensures m.Some? ==>
      var p := CallPrefix(m.value.0, m.value.1, moduleName, m.value.2);
      IsApiName(m.value.0) && IsQuote(m.value.1) && IsQuote(m.value.2) && |p| <= |s| && s[..|p|] == p
  {
    var n := if |s| >= 4 && s[..4] == "get(" then "get"
      else if |s| >= 4 && s[..4] == "set(" then "set"
      else if |s| >= 8 && s[..8] == "getFlag(" then "getFlag"
      else if |s| >= 9 && s[..9] == "register(" then "register"
      else "";
    var k := |n| + 1;
    if n != "" && |s| >= k + |moduleName| + 2 && IsQuote(s[k]) && s[k + 1..k + 1 + |moduleName|] == moduleName
      && IsQuote(s[k + 1 + |moduleName|])
    then
      var q1, q2 := s[k], s[k + 1 + |moduleName|];
      assert s[..k + |moduleName| + 2] == s[..k] + [q1] + s[k + 1..k + 1 + |moduleName|] + [q2];
      Some((n, q1, q2))
    else None
  }

  /** Every call prefix naming `src` becomes one naming `target`, scanning left to right without overlaps. */
  function RenameApiCalls(s: string, src: string, target: string): (r: string)
    decreases |s|
  {
    if s == [] then []
    else match ApiCallAt(s, src)
      case Some((n, q1, q2)) =>
        CallPrefix(n, q1, target, q2) + RenameApiCalls(s[|CallPrefix(n, q1, src, q2)|..], src, target)
      case None => [s[0]] + RenameApiCalls(s[1..], src, target)
  }

  /** With equal module names the rename changes nothing. */
  lemma {:induction false} RenameApiCallsSameName(s: string, name: string)
    ensures RenameApiCalls(s, name, name) == s
    decreases |s|
  {
    if s != [] {
      match ApiCallAt(s, name)
      case Some((n, q1, q2)) =>
        var p := CallPrefix(n, q1, name, q2);
        RenameApiCallsSameName(s[|p|..], name);
        assert s == p + s[|p|..];
      case None =>
        RenameApiCallsSameName(s[1..], name);
        assert s == [s[0]] + s[1..];
    }
  }

  /** A command in which no call prefix names the source module is left as it is. */
  lemma {:induction false} RenameApiCallsNoCall(s: string, src: string, target: string)
    requires forall i :: 0 <= i <= |s| ==> ApiCallAt(s[i..], src).None?
    ensures RenameApiCalls(s, src, target) == s
    decreases |s|
  {
    if s != [] {
      assert ApiCallAt(s[0..], src).None?;
      assert s[0..] == s;
      forall i | 0 <= i <= |s[1..]|
        ensures ApiCallAt(s[1..][i..], src).None?
      {
        assert s[1..][i..] == s[i + 1..];
      }
      RenameApiCallsNoCall(s[1..], src, target);
      assert s == [s[0]] + s[1..];
    }
  }

  /** The parts of a command that starts with a call prefix. */
  lemma CallPrefixParts(n: string, q1: char, moduleName: string, q2: char, tail: string)
    ensures var s := CallPrefix(n, q1, moduleName, q2) + tail;
      var k := |n| + 1;
      && |s| >= k + |moduleName| + 2
      && s[..k] == n + "(" && s[k] == q1 && s[k + 1..k + 1 + |moduleName|] == moduleName
      && s[k + 1 + |moduleName|] == q2
      && s[..k + |moduleName| + 2] == CallPrefix(n, q1, moduleName, q2)
      && s[|CallPrefix(n, q1, moduleName, q2)|..] == tail
  {
    var open := n + "(";
    var rest := [q1] + moduleName + [q2] + tail;
    var s := CallPrefix(n, q1, moduleName, q2) + tail;
    assert s == open + rest;
    assert rest[1..1 + |moduleName|] == moduleName;
  }

  /** A command that starts with a call prefix is recognised as one, with its name and quotes. */
  lemma ApiCallAtCallPrefix(n: string, q1: char, q2: char, tail: string, src: string)
    requires IsApiName(n) && IsQuote(q1) && IsQuote(q2)
    ensures ApiCallAt(CallPrefix(n, q1, src, q2) + tail, src) == Some((n, q1, q2))
  {
    var s := CallPrefix(n, q1, src, q2) + tail;
    CallPrefixParts(n, q1, src, q2, tail);
    if n == "get" {
      assert s[..4] == "get(";
    } else if n == "set" {
      assert s[..4] == "set(";
    } else if n == "getFlag" {
      assert s[..4] == "getF" && s[..8] == "getFlag(";
    } else {
      assert s[..4] == "regi" && s[..8] == "register" && s[..9] == "register(";
    }
  }

  /** A call prefix naming the source module at the start of a command is renamed, whatever its quotes. */
  lemma RenameApiCallsRenamesCall(n: string, q1: char, q2: char, tail: string, src: string, target: string)
    requires IsApiName(n) && IsQuote(q1) && IsQuote(q2)
    ensures RenameApiCalls(CallPrefix(n, q1, src, q2) + tail, src, target)
      == CallPrefix(n, q1, target, q2) + RenameApiCalls(tail, src, target)
  {
    var s := CallPrefix(n, q1, src, q2) + tail;
    CallPrefixParts(n, q1, src, q2, tail);
    ApiCallAtCallPrefix(n, q1, q2, tail, src);
  }

  // ---------------------------------------------------------------------------
  // convertMacro

  /** The command after path rewriting and the hand-written replacement, before the rename. */
  function MacroSource(m: Macro, cfg: Conversion): JsString {
    if m.id in cfg.macroOverrides then Str(cfg.macroOverrides[m.id]) else ReplacePaths(m.command, cfg)
  }

  /** convertMacro. */
  function ConvertMacro(m: Macro, cfg: Conversion): (r: Macro)
    ensures r.id == m.id && r.name == m.name && r.macroType == m.macroType
    ensures r.img == ReplacePaths(m.img, cfg)
    ensures m.id in cfg.macroOverrides ==>
      r.command == Str(RenameApiCalls(cfg.macroOverrides[m.id], cfg.srcName, cfg.targetName))
    ensures m.id !in cfg.macroOverrides && !m.command.Truthy() ==> r.command == m.command
    ensures m.id !in cfg.macroOverrides && m.command.Truthy() ==>
      r.command == Str(RenameApiCalls(RewritePath(m.command.value, cfg), cfg.srcName, cfg.targetName))
    ensures r.flags == FixFlags(m.flags, cfg.srcName, cfg.targetName)
    ensures cfg.srcName != cfg.targetName ==> FlagsMigrated(r.flags, cfg.srcName)
  {
    var command := MacroSource(m, cfg);
    var renamed := if command.Truthy() then Str(RenameApiCalls(command.value, cfg.srcName, cfg.targetName)) else command;
    m.(img := ReplacePaths(m.img, cfg), command := renamed, flags := FixFlags(m.flags, cfg.srcName, cfg.targetName))
  }

  /** Converting into the same module leaves a macro without a replacement and without flags unchanged in its command. */
  lemma ConvertMacroSameName(m: Macro, cfg: Conversion)
    requires cfg.srcName == cfg.targetName && m.id !in cfg.macroOverrides
    ensures ConvertMacro(m, cfg).command == m.command
  {
    if m.command.Truthy() {
      var c := m.command.value;
      ReplaceAllByItself(c, ModuleDir(cfg.srcName));
      RenameApiCallsSameName(c, cfg.srcName);
    }
  }
}
