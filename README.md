# MiKTeX TeX application object: the `\write18` gate and its settings

This project models the core of MiKTeX's TeX application object
(`TeXApp` in `Libraries/MiKTeX/TeXAndFriends/texapp.cpp`) in Dafny and proves
properties of the model. It covers three things:

- the **`\write18` shell-escape gate** (`ShellEscape.Write18`). It combines the
  shell-command mode (`Unrestricted`, `Restricted`, `Forbidden`, `Query`), the
  session's verdict on the command (`SyntaxError`, `ProbablySafe`, `MaybeSafe`,
  `Unsafe`, plus a rewritten safe command line) and two administrator facts. From
  these it decides `QuotationError`, `Disallowed`, `ExecutedAllowed` or
  `Executed`, and which text, if any, goes to the operating system;
- **option processing** (`Options.Apply` on values, `TeXApp.ProcessOption` on
  the object). It covers the shell-mode transitions with the `%&` first-line
  anti-escalation rule, the MLTeX and EncTeX switches, the SyncTeX value (`INT_MAX`
  means "not given"), the numeric user parameters and the `src-specials` flags.
  The flags are filled by a loop over the tokens of a comma/space separated
  argument (`Tokenizer`, `SourceSpecials`);
- the **source-location tracker**: `IsNewSource` and `RememberSourceInfo` over
  the last file name and line. `Init` starts it at line `-1`, and `Finalize`
  clears the file name.

Files: `basics.dfy` (the 32-bit `int`, `INT_MAX`, `Option`), `shell_escape.dfy`,
`tokenizer.dfy`, `source_specials.dfy`, `options.dfy`, `texapp.dfy` (the class).

Collaborators outside the file become parameters:
- the session's command examiner is `examine: string -> Examination`;
- the process runner is `execute: string -> int32`, which returns the exit code;
- `RunningAsAdministrator` and the "allow unrestricted super user" setting are the
  `Privileges` value;
- `std::stoi` is `stoi: string -> Option<int32>`, where `None` means it throws;
- the global `inParseFirstLine` is a parameter of `ProcessOption`.

The shell-command mode is kept by the base application in the source. Here it
is a field of `TeXApp`, and its starting value is given to the constructor.

Notes on the code as written, which the model follows:

- `Finalize` clears only the remembered file name and the source specials. The
  remembered line number survives (lines 89-94).
- `TokenSpecials` is the token comparison chain of lines 296-328.
- A `SyntaxError` verdict gives `QuotationError` in every mode, `Forbidden`
  included: the verdict check (lines 358-362) comes before the switch on the
  mode (lines 379-381). So `Forbidden` refuses with `Disallowed` only the
  commands that pass the quoting check.
- The `src-specials` option is registered without an argument (lines 197-199,
  with `EXPERT_SRC_SPECIALS` 0), so command lines give it an empty argument. The
  code still tokenizes a non-empty one, and the model covers that path too.

## Model

| member | source | states |
|---|---|---|
| ShellEscape.Write18 | Libraries/MiKTeX/TeXAndFriends/texapp.cpp:351-406 | `QuotationError` exactly for a `SyntaxError` verdict, with nothing run. `Unsafe` is always `Disallowed`. `Forbidden` runs nothing, and neither does `Unrestricted` when elevated without the super-user setting. A command runs iff `MayExecute` holds, and the text run is the original in `Unrestricted` and the safe rewrite otherwise. After a run the exit code is the runner's and the result is `ExecutedAllowed` iff the verdict was `ProbablySafe`; with no run the caller's exit code is untouched. `Executed` arises only in `Unrestricted` with `MaybeSafe` |
| ShellEscape.QueryIsRestricted | Libraries/MiKTeX/TeXAndFriends/texapp.cpp:382-391 | `Query` mode behaves exactly as `Restricted` on every input |
| ShellEscape.PrivilegesOnlyMatterUnrestricted | Libraries/MiKTeX/TeXAndFriends/texapp.cpp:369-394 | outside `Unrestricted` mode the administrator facts never change the outcome |
| ShellEscape.RestrictedImpliesUnrestricted | Libraries/MiKTeX/TeXAndFriends/texapp.cpp:371-391 | what `Restricted` runs, `Unrestricted` also runs with result `ExecutedAllowed`, unless elevation blocks it |
| Tokenizer.TokenLength | Libraries/MiKTeX/TeXAndFriends/texapp.cpp:293 | the token length is the longest delimiter-free prefix: within bounds, no delimiter before it, a delimiter right after it |
| Tokenizer.Tokenize | Libraries/MiKTeX/TeXAndFriends/texapp.cpp:293-329 | the tokens the loop over `Tokenizer tok(optArg, ", ")` visits, in order: each is non-empty and holds no `,` or space. `TokenizeKeepsText`, `TokenizeEmpty`, `SkipDelimiters` and `TokenizeJoin` characterise it further |
| Tokenizer.TokenizeKeepsText | Libraries/MiKTeX/TeXAndFriends/texapp.cpp:293-294 | the tokens laid end to end are the argument with its delimiters removed |
| Tokenizer.TokenizeEmpty | Libraries/MiKTeX/TeXAndFriends/texapp.cpp:293-294 | the loop sees no token iff the argument consists of delimiters only |
| Tokenizer.SkipDelimiters | Libraries/MiKTeX/TeXAndFriends/texapp.cpp:293-294 | delimiters in front of the argument produce no token and change nothing |
| Tokenizer.TokenizeJoin | Libraries/MiKTeX/TeXAndFriends/texapp.cpp:293-294 | splitting tokens joined by any non-empty runs of commas and spaces, with any commas and spaces before and after (such as `par, cr, `), gives the same list back, so token boundaries lie exactly at the separators |
| SourceSpecials.TokenSpecials | Libraries/MiKTeX/TeXAndFriends/texapp.cpp:296-328 | a recognised token selects at least one flag and is itself a delimiter-free word |
| SourceSpecials.TokenVocabulary | Libraries/MiKTeX/TeXAndFriends/texapp.cpp:296-328 | the recognised tokens are exactly `par`, `parend`, `cr`, `math`, `hbox`, `vbox`, `display` and their `every` forms. Each sets only its own flag, and `par` also sets `Auto` |
| SourceSpecials.ScanSpecials | Libraries/MiKTeX/TeXAndFriends/texapp.cpp:294-330 | the loop keeps `Auto` and `Paragraph` together. It stops on a token that is unknown and comes from the list, and it stops on none iff every token is known |
| SourceSpecials.SrcSpecialsArgument | Libraries/MiKTeX/TeXAndFriends/texapp.cpp:286-331 | an empty argument gives exactly `Auto` and `Paragraph` with no failure. Any argument keeps `Auto` and `Paragraph` together, and any token it stops on is unknown |
| SourceSpecials.ScanSpecialsSnoc | Libraries/MiKTeX/TeXAndFriends/texapp.cpp:294-330 | one more iteration after a clean run adds the token's flags, or stops on it if it is unknown |
| SourceSpecials.ScanSpecialsFlags | Libraries/MiKTeX/TeXAndFriends/texapp.cpp:294-330 | with no unknown token, a flag is set iff some token selects it |
| SourceSpecials.ScanSpecialsStops | Libraries/MiKTeX/TeXAndFriends/texapp.cpp:325-329 | with an unknown token, the flags are exactly those of the tokens before the first unknown one |
| SourceSpecials.ScanSpecialsUnknownStops | Libraries/MiKTeX/TeXAndFriends/texapp.cpp:325-329 | an unknown token after a clean prefix ends the run with the prefix's flags |
| SourceSpecials.SingleToken | Libraries/MiKTeX/TeXAndFriends/texapp.cpp:293-324 | a recognised word given alone sets exactly its own flags and succeeds |
| SourceSpecials.DelimitersOnly | Libraries/MiKTeX/TeXAndFriends/texapp.cpp:291-330 | a non-empty argument of commas and spaces sets nothing and succeeds |
| SourceSpecials.ListOfTokens | Libraries/MiKTeX/TeXAndFriends/texapp.cpp:293-330 | a list of recognised words, separated by any runs of commas and spaces and with any commas and spaces around it, succeeds and sets exactly the union of their flags |
| Options.StoreNumber | Libraries/MiKTeX/TeXAndFriends/texapp.cpp:254-271 | a numeric option is never delegated. A failed conversion changes nothing and reports `InvalidNumber`; a successful one stores the value under the option's key |
| Options.Apply | Libraries/MiKTeX/TeXAndFriends/texapp.cpp:234-349 | `disable-write18` always gives `Forbidden`. On the first line, `enable-write18` and `restrict-write18` change nothing at all and succeed, so the mode can only stay the same or become `Forbidden`. Otherwise `enable-write18` gives `Unrestricted` and `restrict-write18` gives `Restricted`, and no other option changes the mode. MLTeX and EncTeX are only switched on, each by its own option. Source-special flags only grow, only through `src-specials`, and keep `Auto` with `Paragraph`. SyncTeX and user parameters change only through their options. `synctex` stores the converted number and succeeds, or fails with `InvalidNumber` and changes nothing. Each numeric option stores its converted number under its own user-parameter key, or fails the same way. `src-specials` adds exactly the flags its argument names and succeeds, or fails with the first unknown token, having kept the flags named before it. Failures come only from numeric options and `src-specials`. Exactly the inherited options are delegated, and (under the assumption on the base application under "Left out") they change none of these settings |
| Options.ForbiddenStaysForbidden | Libraries/MiKTeX/TeXAndFriends/texapp.cpp:239-277 | no sequence of first-line options takes the mode out of `Forbidden` |
| Options.SpecialsOnlyGrow | Libraries/MiKTeX/TeXAndFriends/texapp.cpp:281-333 | no sequence of options removes a source-special flag |
| TeXApplication.TeXApp.constructor | Libraries/MiKTeX/TeXAndFriends/texapp.cpp:46-62 | the value-initialised record: switches off, numbers zero, no flags, empty file name. The empty user-parameter map and the starting mode belong to the base application (see "Left out") |
| TeXApplication.TeXApp.Init | Libraries/MiKTeX/TeXAndFriends/texapp.cpp:68-79 | EncTeX and MLTeX off, line `-1`, SyncTeX `INT_MAX`, so every real line is new. No other field of the record changes, and the `Auto`/`Paragraph` invariant is kept |
| TeXApplication.TeXApp.Finalize | Libraries/MiKTeX/TeXAndFriends/texapp.cpp:89-94 | the file name is empty and no source special is on. The line number is kept by this code. Mode and user parameters are assumed untouched by the base application's `Finalize` (see "Left out") |
| TeXApplication.TeXApp.ProcessOption | Libraries/MiKTeX/TeXAndFriends/texapp.cpp:234-349 | the new settings and the outcome are those of `Options.Apply`. The tracker is untouched, and the `Auto`/`Paragraph` invariant is kept |
| TeXApplication.TeXApp.ProcessSourceSpecials | Libraries/MiKTeX/TeXAndFriends/texapp.cpp:281-333 | an empty argument adds exactly `Auto` and `Paragraph`; otherwise the flags grow by `SrcSpecialsArgument`. The result is success, or the fatal error naming the first unknown token, with the earlier tokens' flags left set |
| TeXApplication.TeXApp.Write18 | Libraries/MiKTeX/TeXAndFriends/texapp.cpp:351-406 | the gate on this object's mode; a command only ever runs when `Write18P` holds |
| TeXApplication.TeXApp.Write18P | Libraries/MiKTeX/TeXAndFriends/texapp.cpp:413-418 | true iff the mode is not `Forbidden` |
| TeXApplication.TeXApp.AutoAgreesWithParagraph | Libraries/MiKTeX/TeXAndFriends/texapp.cpp:286-300 | under the object invariant `Valid` (every state the methods reach), `Auto` and `Paragraph` read the same, because they are only ever set together |
| TeXApplication.TeXApp.IsSourceSpecialOn | Libraries/MiKTeX/TeXAndFriends/texapp.cpp:435-438 | reads one flag of the set |
| TeXApplication.TeXApp.SourceSpecialsPIffSomeOn | Libraries/MiKTeX/TeXAndFriends/texapp.cpp:440-443 | `SourceSpecialsP` (the bitset's `any()`) holds iff some flag is on |
| TeXApplication.TeXApp.IsNewSource | Libraries/MiKTeX/TeXAndFriends/texapp.cpp:478-481 | false exactly for the remembered file name and line |
| TeXApplication.TeXApp.RememberSourceInfo | Libraries/MiKTeX/TeXAndFriends/texapp.cpp:483-487 | afterwards the pair just given is not new, and any pair differing in file name or line is new. The `Auto`/`Paragraph` invariant is kept |

## Left out

- `AddOptions` (option registration, aliases, and the `AmI("xetex")`/`AmI("omega")`
  gating) is popt table wiring. Options arrive already decoded as `TeXOption`
  values. The arithmetic `optchar - FIRST_OPTION_VAL - optBase` of the switch is
  not modelled.
- The base application's `TeXMFApp::ProcessOption`, `Init`, `Finalize` and
  `OnTeXMFStartJob`, and `IAm(TeXEngine)`, are not part of this model. An option
  the TeX application does not handle yields `Delegated`.
- Options.Apply: for an inherited option, it assumes that the base application's
  `ProcessOption` (line 345) leaves the shell-command mode and the user
  parameters alone. Both belong to the base application, and its own options
  may change them. The model promises nothing about what they do.
- TeXApplication.TeXApp.Init: the frame assumes that the base application's
  `Init` (line 70) does not change the shell-command mode or the user
  parameters. That code is not part of this model.
- TeXApplication.TeXApp.Finalize: the frame assumes that the base application's
  `Finalize` (line 93) does not change the shell-command mode or the user
  parameters.
- TeXApplication.TeXApp.constructor: the empty user-parameter map is assumed for
  the base application's freshly made object; its constructor is not part of
  this model.
- `Session::ExamineCommandLine`, `RunningAsAdministrator`, `GetConfigValue` and
  `Process::ExecuteSystemCommand` are foreign calls. They are parameters here.
  The runner is a function, so two runs of the same text would give the same exit
  code. A runner failure that throws is not modelled.
- `std::stoi` is a parameter. Its two exceptions (`invalid_argument`,
  `out_of_range`) are one `InvalidNumber` failure. The model does not capture
  that the exception propagates out of `ProcessOption`.
- A fatal "Unknown source special." error is an exception in the source. Here it
  is the `Failed(UnknownSourceSpecial(t))` outcome, with the flags set before it
  kept.
- `MIKTEX_UNEXPECTED()` in `Write18` cannot be reached: the four modes are a
  closed datatype.
- The logging calls (`LogError`, `LogInfo`, `LogWarn`) are not modelled.
- `MakeSrcSpecial` is not modelled. It depends on `sprintf` and on writing into
  the TeX string pool.
- The format-handler getter and setter, `GetWrite18Mode`, `MLTeXP`, `EncTeXP` and
  `GetSynchronizationOptions` are field reads. The model exposes them as the
  fields themselves.
- `IsNewSource` and `RememberSourceInfo` take the file name as a string.
  `GetTeXString`, which looks up the TeX string number, is not modelled.
- File names are compared by exact string equality. The case and separator rules
  of MiKTeX's `PathName` comparison are not modelled.
- `MiKTeX::Util::Tokenizer` is assumed to split at any run of the delimiter
  characters and yield no empty tokens, as `strtok` does. Its source is not part
  of this model.
- The `EXPERT_SRC_SPECIALS` variant (lines 282-284) is switched off by its
  constant, so it is not modelled.
- `Programs/TeXAndFriends/synctex/source/synctex-xetex.h` holds only macros over
  XeTeX engine globals and no logic of its own.
