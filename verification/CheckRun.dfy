/** The deterministic check run: which command a check gets, how it ends, and what the totals mean. */
module CheckRun {
  import opened PromptTemplates
  import opened Wrappers

  datatype CheckType = LINT | TYPECHECK | UNIT | INTEGRATION | BUILD | E2E | SECURITY | CUSTOM

  datatype CheckStatus = PASSED | FAILED | TIMEOUT | SKIPPED

  datatype Source = Configured | Default

  datatype Command = Command(line: string, source: Source)

  /** How running a command ended: an exit code, or an exception. */
  datatype Execution = Exited(code: int) | TimedOut | Crashed

  datatype Manifest = Manifest(scripts: map<string, string>)

  /** Everything outside the loop: configuration, allowlist, and the state of the worktree. */
  datatype Setting = Setting(commands: map<string, string>, allowlist: set<string>, worktreeExists: bool, manifest: Option<Manifest>)

  const DEFAULT_COMMANDS: map<string, string> :=
    map["lint" := "pnpm lint", "typecheck" := "pnpm typecheck", "unit" := "pnpm test", "integration" := "pnpm test:integration",
        "build" := "pnpm build", "e2e" := "pnpm test:e2e"]

  const PACKAGE_MANAGERS := ["npm", "pnpm", "yarn", "bun"]

  function CommandKey(check: CheckType): (key: string)
    ensures key in DEFAULT_COMMANDS
  {
    match check
    case LINT => "lint"
    case TYPECHECK => "typecheck"
    case UNIT => "unit"
    case INTEGRATION => "integration"
    case BUILD => "build"
    case E2E => "e2e"
    case SECURITY => "lint"
    case CUSTOM => "lint"
  }

  function LowerName(check: CheckType): string {
    match check
    case LINT => "lint"
    case TYPECHECK => "typecheck"
    case UNIT => "unit"
    case INTEGRATION => "integration"
    case BUILD => "build"
    case E2E => "e2e"
    case SECURITY => "security"
    case CUSTOM => "custom"
  }

  function LookUp(m: map<string, string>, key: string): Option<string> {
    if key in m then Some(m[key]) else None
  }

  /** The configured line, under the shared key first; an empty one counts as none. */
  function ConfiguredLine(commands: map<string, string>, check: CheckType): Option<string> {
    var byKey := LookUp(commands, CommandKey(check));
    var found := if byKey.Some? then byKey else LookUp(commands, LowerName(check));
    if found == Some("") then None else found
  }

  function Resolve(commands: map<string, string>, check: CheckType): (c: Command)
    ensures c.line != ""
    ensures c.source == Configured ==>
      if CommandKey(check) in commands then c.line == commands[CommandKey(check)]
      else LowerName(check) in commands && c.line == commands[LowerName(check)]
    ensures c.source == Default ==>
      && c.line == DEFAULT_COMMANDS[CommandKey(check)]
      && if CommandKey(check) in commands then commands[CommandKey(check)] == ""
         else LowerName(check) in commands ==> commands[LowerName(check)] == ""
  {
    var configured := ConfiguredLine(commands, check);
    if configured.Some? then Command(configured.value, Configured) else Command(DEFAULT_COMMANDS[CommandKey(check)], Default)
  }

  // -- words of a command line ----------------------------------------------------------------

  function WordEnd(s: string, i: nat): (j: nat)
    requires i <= |s|
    ensures i <= j <= |s|
    decreases |s| - i
  {
    if i < |s| && !Space(s[i]) then WordEnd(s, i + 1) else i
  }

  function Words(s: string): seq<string>
    decreases |s|
  {
    var a := SkipSpaces(s, 0);
    if a == |s| then []
    else
      var b := WordEnd(s, a + 1);
      [s[a..b]] + Words(s[b..])
  }

  /** The first word of the line: a longest stretch without white space, with only white space before it. */
  function Executable(line: string): (r: string)
    ensures exists a: nat, b: nat :: IsFirstWord(line, a, b) && r == line[a..b]
  {
    FirstWordIsFound(line);
    if Words(line) == [] then "" else Words(line)[0]
  }

  predicate IsFirstWord(line: string, a: nat, b: nat) {
    && a <= b <= |line| && (forall i :: 0 <= i < a ==> Space(line[i])) && (forall i :: a <= i < b ==> !Space(line[i]))
    && (a == b ==> b == |line|) && (b < |line| ==> Space(line[b]))
  }

  lemma {:induction false} WordEndIs(s: string, i: nat)
    requires i <= |s|
    ensures forall k :: i <= k < WordEnd(s, i) ==> !Space(s[k])
    ensures WordEnd(s, i) < |s| ==> Space(s[WordEnd(s, i)])
    decreases |s| - i
  {
    if i < |s| && !Space(s[i]) {
      WordEndIs(s, i + 1);
    }
  }

  lemma FirstWordIsFound(line: string)
    ensures exists a: nat, b: nat :: IsFirstWord(line, a, b) && (if Words(line) == [] then "" else Words(line)[0]) == line[a..b]
  {
    var a := SkipSpaces(line, 0);
    if a == |line| {
      assert IsFirstWord(line, a, a) && line[a..a] == "";
    } else {
      var b := WordEnd(line, a + 1);
      WordEndIs(line, a + 1);
      hide Space;
      assert IsFirstWord(line, a, b);
    }
  }

  function LowerCase(s: string): string {
    seq(|s|, i requires 0 <= i < |s| => if 'A' <= s[i] <= 'Z' then (s[i] as int - 'A' as int + 'a' as int) as char else s[i])
  }

  /** The script of a package manager line, if it is one. */
  function ScriptName(line: string): Option<string> {
    var words := Words(line);
    if words == [] || LowerCase(words[0]) !in PACKAGE_MANAGERS then None
    else
      var rest := if |words| > 1 && words[1] == "run" then words[2..] else words[1..];
      if rest == [] || rest[0] == "" || rest[0][0] == '-' then None else Some(rest[0])
  }

  /** A default command is dropped when the worktree cannot honour it. */
  predicate DefaultDoesNotApply(c: Command, manifest: Option<Manifest>) {
    && c.source == Default
    && (manifest.None?
        || (ScriptName(c.line).Some?
            && (ScriptName(c.line).value !in manifest.value.scripts || manifest.value.scripts[ScriptName(c.line).value] == "")))
  }

  predicate Separator(c: char) {
    c == '/' || c == '\\'
  }

  /** What follows the last separator. */
  function LastSegment(s: string): (r: string)
    ensures |r| <= |s| && r == s[|s| - |r|..] && (forall c :: c in r ==> !Separator(c))
    ensures |r| < |s| ==> Separator(s[|s| - |r| - 1])
  {
    if s == "" || Separator(s[|s| - 1]) then "" else LastSegment(s[..|s| - 1]) + [s[|s| - 1]]
  }

  predicate Allowed(allowlist: set<string>, executable: string) {
    LastSegment(executable) in allowlist || executable in allowlist
  }

  /** A name is where it says it is, or at the end of a path. */
  predicate GoesBy(executable: string, name: string) {
    || executable == name
    || (|name| < |executable| && executable[|executable| - |name|..] == name && executable[|executable| - |name| - 1] in ['/', '\\']
        && '/' !in name && '\\' !in name)
  }

  /** A command may run exactly when the allowlist holds it as written, or the name its path ends in. */
  lemma AllowedByName(allowlist: set<string>, executable: string)
    ensures Allowed(allowlist, executable) <==> exists name :: name in allowlist && GoesBy(executable, name)
  {
    var last := LastSegment(executable);
    if Allowed(allowlist, executable) {
      var name := if executable in allowlist then executable else last;
      assert name in allowlist && GoesBy(executable, name);
    }
    forall name | name in allowlist && GoesBy(executable, name) && name != executable ensures name == last {
      SegmentEnds(executable, |name|, |last|);
      if |last| < |executable| {
        SegmentEnds(executable, |last|, |name|);
      }
    }
  }

  /** A segment does not reach past a separator. */
  lemma SegmentEnds(s: string, n: nat, m: nat)
    requires n < |s| && Separator(s[|s| - n - 1]) && m <= |s| && forall c :: c in s[|s| - m..] ==> !Separator(c)
    ensures m <= n
  {
    forall i | |s| - m <= i < |s| ensures !Separator(s[i]) {
      assert s[i] == s[|s| - m..][i - (|s| - m)];
    }
  }

  /** The check has no command of its own, and the worktree nothing that the default could run. */
  predicate Inapplicable(setting: Setting, check: CheckType) {
    && ConfiguredLine(setting.commands, check) == None
    && (setting.manifest.None?
        || DefaultScript(check) !in setting.manifest.value.scripts || setting.manifest.value.scripts[DefaultScript(check)] == "")
  }

  /** The package script behind a default command. */
  function DefaultScript(check: CheckType): string {
    match check
    case LINT => "lint"
    case TYPECHECK => "typecheck"
    case UNIT => "test"
    case INTEGRATION => "test:integration"
    case BUILD => "build"
    case E2E => "test:e2e"
    case SECURITY => "lint"
    case CUSTOM => "lint"
  }

  /** The command is really run: the worktree is there, the command applies and is allowed. */
  predicate Runs(setting: Setting, check: CheckType) {
    && setting.worktreeExists && !Inapplicable(setting, check)
    && Allowed(setting.allowlist, Executable(Resolve(setting.commands, check).line))
  }

  lemma {:induction false} WordEndsAt(s: string, i: nat, j: nat)
    requires i <= j <= |s| && (forall k :: i <= k < j ==> !Space(s[k])) && (j < |s| ==> Space(s[j]))
    ensures WordEnd(s, i) == j
    decreases j - i
  {
    if i < j {
      WordEndsAt(s, i + 1, j);
    }
  }

  predicate Plain(c: char) {
    'a' <= c <= 'z' || '0' <= c <= '9' || c == ':'
  }

  lemma PlainIsNoSpace(c: char)
    requires Plain(c)
    ensures !Space(c) && c != '-'
  {}

  lemma OneWord(name: string)
    requires name != "" && forall c :: c in name ==> !Space(c)
    ensures Words(" " + name) == [name]
  {
    var s := " " + name;
    assert forall k :: 1 <= k < |s| ==> s[k] == name[k - 1] && name[k - 1] in name;
    assert SkipSpaces(s, 0) == SkipSpaces(s, 1) == 1;
    WordEndsAt(s, 2, |s|);
    assert s[1..|s|] == name && s[|s|..] == "";
    assert SkipSpaces("", 0) == 0;
  }

  lemma ManagerWords(name: string)
    requires name != "" && forall c :: c in name ==> !Space(c)
    ensures Words("pnpm " + name) == ["pnpm", name]
  {
    var s := "pnpm " + name;
    WordEndsAt(s, 1, 4);
    assert s[0..4] == "pnpm" && s[4..] == " " + name;
    OneWord(name);
  }

  lemma ManagerLine(name: string)
    requires name != "" && (forall c :: c in name ==> Plain(c)) && name != "run"
    ensures ScriptName("pnpm " + name) == Some(name)
  {
    forall c | c in name ensures !Space(c) && c != '-' {
      PlainIsNoSpace(c);
    }
    ManagerWords(name);
    hide Words, Space;
    assert name[0] in name;
    assert LowerCase("pnpm") == "pnpm" && PACKAGE_MANAGERS[1] == "pnpm";
    assert ["pnpm", name][1..] == [name];
  }

  lemma ScriptsArePlain(check: CheckType)
    ensures DefaultScript(check) != "" && DefaultScript(check) != "run" && forall c :: c in DefaultScript(check) ==> Plain(c)
  {}

  lemma DefaultRunsItsScript(check: CheckType)
    ensures DEFAULT_COMMANDS[CommandKey(check)] == "pnpm " + DefaultScript(check)
    ensures ScriptName(DEFAULT_COMMANDS[CommandKey(check)]) == Some(DefaultScript(check))
  {
    hide ScriptName, Space;
    ScriptsArePlain(check);
    ManagerLine(DefaultScript(check));
  }

  /** A default is dropped exactly when it is inapplicable. */
  lemma DroppedExactlyWhenInapplicable(setting: Setting, check: CheckType)
    ensures DefaultDoesNotApply(Resolve(setting.commands, check), setting.manifest) <==> Inapplicable(setting, check)
  {
    hide ScriptName, DefaultScript;
    DefaultRunsItsScript(check);
  }

  // -- one check ----------------------------------------------------------------------------------

  /** How a check ends: run and judged, impossible to run, or an inapplicable default. */
  datatype Verdict = Passed | NotPassed | Expired | Unavailable | NotApplicable

  function Judge(setting: Setting, check: CheckType, execution: Execution): Verdict {
    var c := Resolve(setting.commands, check);
    if !setting.worktreeExists then Unavailable
    else if DefaultDoesNotApply(c, setting.manifest) then NotApplicable
    else if !Allowed(setting.allowlist, Executable(c.line)) then NotPassed
    else match execution
      case Exited(code) => if code == 0 then Passed else NotPassed
      case TimedOut => Expired
      case Crashed => NotPassed
  }

  /** What the verdicts mean. */
  lemma VerdictsMean(setting: Setting, check: CheckType, execution: Execution)
    ensures var v := Judge(setting, check, execution);
      && (v == Passed <==> Runs(setting, check) && execution == Exited(0))
      && (v == Expired <==> Runs(setting, check) && execution == TimedOut)
      && (v == NotApplicable <==> setting.worktreeExists && Inapplicable(setting, check))
      && (v == Unavailable <==> !setting.worktreeExists)
  {
    hide Resolve, DefaultDoesNotApply, Inapplicable, Allowed, Executable;
    DroppedExactlyWhenInapplicable(setting, check);
  }

  function Recorded(v: Verdict): CheckStatus {
    match v
    case Passed => PASSED
    case NotPassed => FAILED
    case Expired => TIMEOUT
    case Unavailable => SKIPPED
    case NotApplicable => SKIPPED
  }

  // -- the whole run ------------------------------------------------------------------------------------

  function Verdicts(setting: Setting, checks: seq<CheckType>, executions: seq<Execution>): (vs: seq<Verdict>)
    requires |executions| == |checks|
    ensures |vs| == |checks| && forall i :: 0 <= i < |checks| ==> vs[i] == Judge(setting, checks[i], executions[i])
  {
    seq(|checks|, i requires 0 <= i < |checks| => Judge(setting, checks[i], executions[i]))
  }

  function Tally(vs: seq<Verdict>, kinds: set<Verdict>): (n: nat)
    ensures n <= |vs|
  {
    if vs == [] then 0 else Tally(vs[..|vs| - 1], kinds) + if vs[|vs| - 1] in kinds then 1 else 0
  }

  lemma {:induction false} NothingTallied(vs: seq<Verdict>, kinds: set<Verdict>)
    ensures Tally(vs, kinds) == 0 <==> forall i :: 0 <= i < |vs| ==> vs[i] !in kinds
  {
    if vs != [] {
      var init := vs[..|vs| - 1];
      NothingTallied(init, kinds);
      if Tally(init, kinds) != 0 {
        var i :| 0 <= i < |init| && init[i] in kinds;
        assert vs[i] in kinds;
      }
    }
  }

  const FAILING: set<Verdict> := {NotPassed, Expired, Unavailable}

  /** The checks that count as failed, in order. */
  function FailedOf(checks: seq<CheckType>, vs: seq<Verdict>): (failed: seq<CheckType>)
    requires |vs| == |checks|
    ensures |failed| == Tally(vs, FAILING)
  {
    if vs == [] then []
    else
      FailedOf(checks[..|vs| - 1], vs[..|vs| - 1]) + if vs[|vs| - 1] in FAILING then [checks[|vs| - 1]] else []
  }

  /** Each failing check stands behind those that failed before it. */
  lemma {:induction false} FailedChecksAreListed(checks: seq<CheckType>, vs: seq<Verdict>, i: nat)
    requires |vs| == |checks| && i < |checks| && vs[i] in FAILING
    ensures var k := Tally(vs[..i], FAILING); k < |FailedOf(checks, vs)| && FailedOf(checks, vs)[k] == checks[i]
  {
    var last := |vs| - 1;
    if i < last {
      FailedChecksAreListed(checks[..last], vs[..last], i);
      assert vs[..last][..i] == vs[..i];
    }
  }

  datatype Report = Report(passed: bool, failedChecks: seq<CheckType>, passedCount: nat)

  /** The result rows after the first n checks: one per check type, later occurrences overwrite. */
  function RowsAfter(rows: map<CheckType, CheckStatus>, checks: seq<CheckType>, vs: seq<Verdict>): map<CheckType, CheckStatus>
    requires |vs| == |checks|
  {
    if checks == [] then rows
    else RowsAfter(rows, checks[..|checks| - 1], vs[..|checks| - 1])[checks[|checks| - 1] := Recorded(vs[|checks| - 1])]
  }

  lemma {:induction false} RowOfLastOccurrence(rows: map<CheckType, CheckStatus>, checks: seq<CheckType>, vs: seq<Verdict>, c: CheckType)
    returns (k: nat)
    requires |vs| == |checks| && c in checks
    ensures k < |checks| && checks[k] == c && c !in checks[k + 1..]
    ensures c in RowsAfter(rows, checks, vs) && RowsAfter(rows, checks, vs)[c] == Recorded(vs[k])
  {
    var last := |checks| - 1;
    if checks[last] == c {
      k := last;
    } else {
      assert checks == checks[..last] + [checks[last]];
      k := RowOfLastOccurrence(rows, checks[..last], vs[..last], c);
      assert checks[k + 1..] == checks[..last][k + 1..] + [checks[last]];
    }
  }

  class TestRunner {
    var rows: map<CheckType, CheckStatus>

    /** One turn of the loop: records the check and says how it counts. */
    method RunCheck(setting: Setting, check: CheckType, execution: Execution) returns (passed: bool, failed: bool)
      modifies this
      ensures rows == old(rows)[check := Recorded(Judge(setting, check, execution))]
      ensures Runs(setting, check) ==>
        rows[check] == match execution case Exited(code) => (if code == 0 then PASSED else FAILED) case TimedOut => TIMEOUT case Crashed => FAILED
      ensures !Runs(setting, check) ==>
        rows[check] == if setting.worktreeExists && !Inapplicable(setting, check) then FAILED else SKIPPED
      ensures passed <==> Runs(setting, check) && execution == Exited(0)
      ensures !passed && !failed <==> setting.worktreeExists && Inapplicable(setting, check)
      ensures passed <==> Judge(setting, check, execution) == Passed
      ensures failed <==> Judge(setting, check, execution) in FAILING
    {
      hide DefaultDoesNotApply, Allowed, Executable, Resolve, Inapplicable;
      VerdictsMean(setting, check, execution);
      DroppedExactlyWhenInapplicable(setting, check);
      var command := Resolve(setting.commands, check);
      passed, failed := false, false;
      if !setting.worktreeExists {
        rows := rows[check := SKIPPED];
        failed := true;
      } else if DefaultDoesNotApply(command, setting.manifest) {
        rows := rows[check := SKIPPED];
      } else if !Allowed(setting.allowlist, Executable(command.line)) {
        rows := rows[check := FAILED];
        failed := true;
      } else {
        match execution {
          case Exited(code) =>
            passed, failed := code == 0, code != 0;
            rows := rows[check := if passed then PASSED else FAILED];
          case TimedOut =>
            failed := true;
            rows := rows[check := TIMEOUT];
          case Crashed =>
            failed := true;
            rows := rows[check := FAILED];
        }
      }
    }

    /** The loop over the checks; a failed install already counts as a failure of type CUSTOM. */
    method Run(setting: Setting, checks: seq<CheckType>, executions: seq<Execution>, installFailed: bool) returns (report: Report)
      requires |executions| == |checks|
      modifies this
      ensures rows == RowsAfter(old(rows), checks, Verdicts(setting, checks, executions))
      ensures report.passedCount == Tally(Verdicts(setting, checks, executions), {Passed})
      ensures report.failedChecks ==
        (if InstallCounts(setting, installFailed) then [CUSTOM] else []) + FailedOf(checks, Verdicts(setting, checks, executions))
      ensures report.passed <==> report.failedChecks == []
      ensures report.passed ==> forall i :: 0 <= i < |checks| ==> executions[i] == Exited(0) || Inapplicable(setting, checks[i])
      ensures report.passedCount <= ZeroExits(executions)
    {
      hide Judge, Inapplicable, Runs, Recorded, RowsAfter, FailedOf, Tally;
      NothingChecked(rows);
      var failed: seq<CheckType> := [];
      var passedCount := 0;
      if setting.worktreeExists && installFailed {
        failed := [CUSTOM];
      }
      ghost var vs := Verdicts(setting, checks, executions);
      var i := 0;
      while i < |checks|
        invariant 0 <= i <= |checks|
        invariant rows == RowsAfter(old(rows), checks[..i], vs[..i])
        invariant passedCount == Tally(vs[..i], {Passed})
        invariant failed == (if InstallCounts(setting, installFailed) then [CUSTOM] else []) + FailedOf(checks[..i], vs[..i])
      {
        var checkPassed, checkFailed := RunCheck(setting, checks[i], executions[i]);
        RowsNext(old(rows), checks, vs, i);
        TallyNext(vs, i, {Passed});
        FailedNext(checks, vs, i);
        if checkPassed {
          passedCount := passedCount + 1;
        }
        if checkFailed {
          failed := failed + [checks[i]];
        }
        i := i + 1;
      }
      assert checks[..i] == checks && vs[..i] == vs;
      PassedExitedZero(setting, checks, executions);
      if failed == [] {
        NoFailureMeansExitZero(setting, checks, executions);
      }
      return Report(failed == [], failed, passedCount);
    }
  }

  function ZeroExits(executions: seq<Execution>): nat {
    if executions == [] then 0
    else ZeroExits(executions[..|executions| - 1]) + if executions[|executions| - 1] == Exited(0) then 1 else 0
  }

  /** Only commands that exited with zero count as passed. */
  lemma {:induction false} PassedExitedZero(setting: Setting, checks: seq<CheckType>, executions: seq<Execution>)
    requires |executions| == |checks|
    ensures Tally(Verdicts(setting, checks, executions), {Passed}) <= ZeroExits(executions)
  {
    hide Judge, Inapplicable, Runs;
    if checks != [] {
      var last := |checks| - 1;
      PassedExitedZero(setting, checks[..last], executions[..last]);
      assert Verdicts(setting, checks, executions)[..last] == Verdicts(setting, checks[..last], executions[..last]);
      VerdictsMean(setting, checks[last], executions[last]);
    }
  }

  lemma NoFailureMeansExitZero(setting: Setting, checks: seq<CheckType>, executions: seq<Execution>)
    requires |executions| == |checks| && Tally(Verdicts(setting, checks, executions), FAILING) == 0
    ensures forall i :: 0 <= i < |checks| ==> executions[i] == Exited(0) || Inapplicable(setting, checks[i])
  {
    hide Judge, Inapplicable, Runs, Tally;
    var vs := Verdicts(setting, checks, executions);
    NothingTallied(vs, FAILING);
    forall i | 0 <= i < |checks| ensures executions[i] == Exited(0) || Inapplicable(setting, checks[i]) {
      VerdictsMean(setting, checks[i], executions[i]);
      assert vs[i] !in FAILING;
    }
  }

  lemma NothingChecked(rows: map<CheckType, CheckStatus>)
    ensures RowsAfter(rows, [], []) == rows && Tally([], {Passed}) == 0 && FailedOf([], []) == []
  {}

  lemma FailedNext(checks: seq<CheckType>, vs: seq<Verdict>, i: nat)
    requires i < |checks| == |vs|
    ensures FailedOf(checks[..i + 1], vs[..i + 1]) == FailedOf(checks[..i], vs[..i]) + if vs[i] in FAILING then [checks[i]] else []
  {
    assert checks[..i + 1][..i] == checks[..i] && vs[..i + 1][..i] == vs[..i];
  }

  lemma RowsNext(rows: map<CheckType, CheckStatus>, checks: seq<CheckType>, vs: seq<Verdict>, i: nat)
    requires i < |checks| == |vs|
    ensures RowsAfter(rows, checks[..i + 1], vs[..i + 1]) == RowsAfter(rows, checks[..i], vs[..i])[checks[i] := Recorded(vs[i])]
  {
    assert checks[..i + 1][..i] == checks[..i] && vs[..i + 1][..i] == vs[..i];
  }

  lemma TallyNext(vs: seq<Verdict>, i: nat, kinds: set<Verdict>)
    requires i < |vs|
    ensures Tally(vs[..i + 1], kinds) == Tally(vs[..i], kinds) + if vs[i] in kinds then 1 else 0
  {
    assert vs[..i + 1][..i] == vs[..i];
  }

  predicate InstallCounts(setting: Setting, installFailed: bool) {
    setting.worktreeExists && installFailed
  }

  /** Every check is counted exactly once: as passed, as failed, or as an inapplicable default. */
  lemma {:induction false} EveryCheckIsCounted(vs: seq<Verdict>)
    ensures Tally(vs, {Passed}) + Tally(vs, FAILING) + Tally(vs, {NotApplicable}) == |vs|
  {
    if vs != [] {
      var init, last := vs[..|vs| - 1], vs[|vs| - 1];
      EveryCheckIsCounted(init);
      TallyNext(vs, |vs| - 1, {Passed});
      TallyNext(vs, |vs| - 1, FAILING);
      TallyNext(vs, |vs| - 1, {NotApplicable});
      assert vs[..|vs|] == vs;
      OneKind(last);
    }
  }

  lemma OneKind(v: Verdict)
    ensures (if v in {Passed} then 1 else 0) + (if v in FAILING then 1 else 0) + (if v in {NotApplicable} then 1 else 0) == 1
  {}

  /**
   When a run passes: nothing was installed in vain, and no check failed. For a non-empty list this
   needs the worktree; an empty list passes even without one.
   */
  lemma PassingIsExact(setting: Setting, checks: seq<CheckType>, executions: seq<Execution>, installFailed: bool)
    requires |executions| == |checks|
    ensures Tally(Verdicts(setting, checks, executions), FAILING) + (if InstallCounts(setting, installFailed) then 1 else 0) == 0 <==>
      && (checks == [] || setting.worktreeExists)
      && !(setting.worktreeExists && installFailed)
      && (forall i :: 0 <= i < |checks| ==> Inapplicable(setting, checks[i]) || (Runs(setting, checks[i]) && executions[i] == Exited(0)))
  {
    hide Resolve, DefaultDoesNotApply, Inapplicable, Runs, Judge, Tally;
    var vs := Verdicts(setting, checks, executions);
    NothingTallied(vs, FAILING);
    forall i | 0 <= i < |checks|
      ensures vs[i] in FAILING <==>
        !(setting.worktreeExists && (Inapplicable(setting, checks[i]) || (Runs(setting, checks[i]) && executions[i] == Exited(0))))
    {
      VerdictsMean(setting, checks[i], executions[i]);
    }
    if checks != [] && !setting.worktreeExists {
      VerdictsMean(setting, checks[0], executions[0]);
      assert vs[0] == Unavailable;
    }
  }

  /** After a passing run every configured check of the list is recorded as PASSED. */
  lemma PassingRecordsConfiguredChecks(rows: map<CheckType, CheckStatus>, setting: Setting, checks: seq<CheckType>, executions: seq<Execution>, c: CheckType)
    requires |executions| == |checks| && c in checks
    requires Tally(Verdicts(setting, checks, executions), FAILING) == 0
    ensures var after := RowsAfter(rows, checks, Verdicts(setting, checks, executions));
      && c in after && (ConfiguredLine(setting.commands, c).Some? ==> after[c] == PASSED)
      && (after[c] == PASSED || after[c] == SKIPPED)
  {
    hide Inapplicable, Runs, Judge, Tally, ConfiguredLine, RowsAfter;
    PassingIsExact(setting, checks, executions, false);
    var k := RowOfLastOccurrence(rows, checks, Verdicts(setting, checks, executions), c);
    VerdictsMean(setting, checks[k], executions[k]);
    assert Judge(setting, checks[k], executions[k]) in {Passed, NotApplicable};
    if ConfiguredLine(setting.commands, c).Some? {
      ConfiguredAlwaysApplies(setting, c, executions[k]);
    }
  }

  /** A configured command is never dropped as inapplicable. */
  lemma ConfiguredAlwaysApplies(setting: Setting, c: CheckType, execution: Execution)
    requires ConfiguredLine(setting.commands, c).Some?
    ensures Judge(setting, c, execution) != NotApplicable
  {
    hide Words, Allowed, Executable, ScriptName;
  }
}
