/**
 * The `\write18` shell-escape gate of the TeX application object.
 *
 * The gate combines the configured shell-command mode, the session's
 * classification of the command text and two administrator facts, and decides
 * whether the command is refused, rejected for bad quoting, or handed to the
 * operating system, and which text is handed over.
 */
module ShellEscape {
  import opened Basics

  /** How much freedom `\write18` has in this run. */
  datatype ShellCommandMode = Unrestricted | Forbidden | Query | Restricted

  /** The session's verdict on a command line. */
  datatype ExamineCommandLineResult = SyntaxError | ProbablySafe | MaybeSafe | Unsafe

  /** What the session's command-line examiner returns: its verdict, the command
      as it understood it and a rewritten form fit for restricted execution. */
  datatype Examination = Examination(
    result: ExamineCommandLineResult,
    examinedCommand: string,
    safeCommandLine: string)

  /** The two administrator facts: is the process elevated, and does the
      configuration allow unrestricted shell escape for the super user. */
  datatype Privileges = Privileges(runningAsAdministrator: bool, allowUnrestrictedSuperUser: bool)

  datatype Write18Result = Executed | ExecutedAllowed | Disallowed | QuotationError

  /** One gate invocation: the result code, the text given to the operating
      system (if any) and the caller's exit-code variable afterwards. */
  datatype Write18Outcome = Write18Outcome(result: Write18Result, executed: Option<string>, exitCode: int32)

  /** An elevated process without the administrator's explicit permission. */
  predicate ElevationBlocked(privileges: Privileges)
  {
    privileges.runningAsAdministrator && !privileges.allowUnrestrictedSuperUser
  }

  /** Exactly when the gate lets a command through, stated per mode. */
  predicate MayExecute(mode: ShellCommandMode, privileges: Privileges, command: string, verdict: ExamineCommandLineResult)
  {
    match mode
    case Forbidden => false
    case Unrestricted => (verdict == ProbablySafe || verdict == MaybeSafe) && !ElevationBlocked(privileges)
    case Query => verdict == ProbablySafe && '|' !in command
    case Restricted => verdict == ProbablySafe && '|' !in command
  }

  /**
   * `TeXApp::Write18`. `examine` is the session's command-line examiner and
   * `execute` the operating system's command runner, returning the exit code;
   * `exitCode` is the caller's variable, which is only written when a command runs.
   */
  function Write18(
    mode: ShellCommandMode,
    privileges: Privileges,
    command: string,
    examine: string -> Examination,
    execute: string -> int32,
    exitCode: int32): (r: Write18Outcome)
    // a quoting error is reported as such in every mode, and nothing runs
    ensures r.result == QuotationError <==> examine(command).result == SyntaxError
    ensures examine(command).result == SyntaxError ==> r.executed == None
    // an unsafe verdict is refused in every mode, whatever the privileges
    ensures examine(command).result == Unsafe ==> r.result == Disallowed
    // nothing ever runs when shell escape is forbidden
    ensures mode == Forbidden ==> r.executed == None
    // elevated without permission: nothing runs in unrestricted mode
    ensures mode == Unrestricted && ElevationBlocked(privileges) ==> r.executed == None
    // a command runs exactly when the per-mode rule allows it
    ensures r.executed.Some? <==> MayExecute(mode, privileges, command, examine(command).result)
    ensures r.executed.None? <==> r.result in {Disallowed, QuotationError}
    // unrestricted runs the original text, the other modes only the rewritten safe form
    ensures r.executed.Some? ==>
      r.executed.value == if mode == Unrestricted then command else examine(command).safeCommandLine
    // after a run the exit code is the runner's, and the result says whether the verdict was "probably safe"
    ensures r.executed.Some? ==> r.exitCode == execute(r.executed.value)
    ensures r.executed.Some? ==> (r.result == ExecutedAllowed <==> examine(command).result == ProbablySafe)
    ensures r.executed.None? ==> r.exitCode == exitCode
    // the unverified "maybe safe" execution only happens in unrestricted mode
    ensures r.result == Executed ==> mode == Unrestricted && examine(command).result == MaybeSafe
  {
    var examination := examine(command);
    if examination.result == SyntaxError then
      Write18Outcome(QuotationError, None, exitCode)
    else if examination.result != ProbablySafe && examination.result != MaybeSafe then
      Write18Outcome(Disallowed, None, exitCode)
    else
      var toBeExecuted: Option<string> :=
        match mode
        case Unrestricted => if ElevationBlocked(privileges) then None else Some(command)
        case Forbidden => None
        case Query | Restricted =>
          if examination.result != ProbablySafe || '|' in command then None
          else Some(examination.safeCommandLine);
      if toBeExecuted.None? then
        Write18Outcome(Disallowed, None, exitCode)
      else
        var result := if examination.result == ProbablySafe then ExecutedAllowed else Executed;
        Write18Outcome(result, toBeExecuted, execute(toBeExecuted.value))
  }

  /** Query mode is not implemented and behaves exactly as restricted mode. */
  lemma QueryIsRestricted(privileges: Privileges, command: string, examine: string -> Examination, execute: string -> int32, exitCode: int32)
    ensures Write18(Query, privileges, command, examine, execute, exitCode)
         == Write18(Restricted, privileges, command, examine, execute, exitCode)
  {
  }

  /** The administrator facts only matter in unrestricted mode. */
  lemma PrivilegesOnlyMatterUnrestricted(
    mode: ShellCommandMode, p1: Privileges, p2: Privileges,
    command: string, examine: string -> Examination, execute: string -> int32, exitCode: int32)
    requires mode != Unrestricted
    ensures Write18(mode, p1, command, examine, execute, exitCode)
         == Write18(mode, p2, command, examine, execute, exitCode)
  {
  }

  /** Whatever restricted mode lets through, unrestricted mode lets through
      too with the same result code, unless elevation blocks it. */
  lemma RestrictedImpliesUnrestricted(
    privileges: Privileges, command: string, examine: string -> Examination, execute: string -> int32, exitCode: int32)
    requires Write18(Restricted, privileges, command, examine, execute, exitCode).executed.Some?
    requires !ElevationBlocked(privileges)
    ensures Write18(Unrestricted, privileges, command, examine, execute, exitCode).result
         == Write18(Restricted, privileges, command, examine, execute, exitCode).result == ExecutedAllowed
  {
  }
}
