/**
 * The TeX application object: the settings that option processing changes,
 * the queries the engine makes of them, and the source-location tracker that
 * decides when a new source special is due.
 */
module TeXApplication {
  import opened Basics
  import opened ShellEscape
  import opened SourceSpecials
  import opened Tokenizer
  import opened Options

  class TeXApp {
    /** Held by the base application; set by the shell-escape options. */
    var shellCommandMode: ShellCommandMode
    var enableMLTeX: bool
    var enableEncTeX: bool
    var synchronizationOptions: int32
    /** The `bitset<32>` of enabled source specials, as the set of its one bits. */
    var sourceSpecials: set<SourceSpecial>
    /** The base application's user parameters, written by the numeric options. */
    var userParams: map<string, int32>
    var lastLineNum: int32
    var lastSourceFilename: string

    /** The object invariant every method keeps: `Auto` and `Paragraph` are
        on together or off together. */
    predicate Valid()
      reads this
    {
      PairedParagraphSpecials(sourceSpecials)
    }

    /** The settings that option processing works on. */
    function Settings(): Config
      reads this
    {
      Config(shellCommandMode, enableMLTeX, enableEncTeX, synchronizationOptions, sourceSpecials, userParams)
    }

    /** A freshly made object: its implementation record is value-initialised,
        so every number is zero, every switch off and every string empty. The
        shell-command mode is whatever the base application starts with. */
    constructor (initialMode: ShellCommandMode)
      ensures Valid()
      ensures shellCommandMode == initialMode
      ensures !enableMLTeX && !enableEncTeX && synchronizationOptions == 0
      ensures sourceSpecials == {} && userParams == map[]
      ensures lastLineNum == 0 && lastSourceFilename == ""
    {
      shellCommandMode := initialMode;
      enableMLTeX, enableEncTeX := false, false;
      synchronizationOptions := 0;
      sourceSpecials := {};
      userParams := map[];
      lastLineNum := 0;
      lastSourceFilename := "";
    }

    /** `TeXApp::Init`: both extensions off, no SyncTeX option, and no line
        remembered yet, so every real line counts as new. */
    method Init()
      modifies this`enableEncTeX, this`enableMLTeX, this`lastLineNum, this`synchronizationOptions
      ensures !enableEncTeX && !enableMLTeX
      ensures lastLineNum == -1
      ensures synchronizationOptions == INT_MAX
      ensures forall fileName, line :: line != -1 ==> IsNewSource(fileName, line)
      ensures old(Valid()) ==> Valid()
    {
      enableEncTeX := false;
      enableMLTeX := false;
      lastLineNum := -1;
      synchronizationOptions := INT_MAX;
    }

    /** `TeXApp::Finalize`: forget the remembered file name and every source
        special. The remembered line number is kept. */
    method Finalize()
      modifies this`lastSourceFilename, this`sourceSpecials
      ensures lastSourceFilename == "" && sourceSpecials == {}
      ensures Valid() && !SourceSpecialsP()
      ensures forall s :: !IsSourceSpecialOn(s)
    {
      lastSourceFilename := "";
      sourceSpecials := {};
    }

    /** `TeXApp::ProcessOption`: the settings change as `Apply` says. */
    method ProcessOption(opt: TeXOption, optArg: string, inParseFirstLine: bool, stoi: string -> Option<int32>)
      returns (outcome: Outcome)
      modifies this`shellCommandMode, this`enableMLTeX, this`enableEncTeX,
        this`synchronizationOptions, this`sourceSpecials, this`userParams
      ensures Settings() == Apply(old(Settings()), opt, optArg, inParseFirstLine, stoi).config
      ensures outcome == Apply(old(Settings()), opt, optArg, inParseFirstLine, stoi).outcome
      ensures old(Valid()) ==> Valid()
    {
      outcome := Done;
      match opt
      case DisableWrite18 =>
        shellCommandMode := Forbidden;
      case EnableEncTeX =>
        enableEncTeX := true;
      case EnableMLTeX =>
        enableMLTeX := true;
      case EnableWrite18 =>
        if !inParseFirstLine {
          shellCommandMode := Unrestricted;
        }
      case RestrictWrite18 =>
        if !inParseFirstLine {
          shellCommandMode := Restricted;
        }
      case SrcSpecials =>
        outcome := ProcessSourceSpecials(optArg);
      case SyncTeX =>
        var n := stoi(optArg);
        if n.None? {
          outcome := Failed(InvalidNumber(optArg));
        } else {
          synchronizationOptions := n.value;
        }
      case FontMax | FontMemSize | HashExtra | MaxInOpen | MemBot | NestSize | SaveSize | TrieSize | TrieOpSize =>
        var n := stoi(optArg);
        if n.None? {
          outcome := Failed(InvalidNumber(optArg));
        } else {
          userParams := userParams[UserParamName(opt).value := n.value];
        }
      case Inherited =>
        outcome := Delegated;
    }

    /** The `src-specials` branch: an empty argument selects `Auto` and
        `Paragraph`; otherwise each token sets its flags in turn until an
        unknown one stops processing, leaving the earlier flags set. */
    method ProcessSourceSpecials(optArg: string) returns (outcome: Outcome)
      modifies this`sourceSpecials
      ensures sourceSpecials == old(sourceSpecials) + SrcSpecialsArgument(optArg).flags
      ensures optArg == [] ==> sourceSpecials == old(sourceSpecials) + {Auto, Paragraph}
      ensures outcome == match SrcSpecialsArgument(optArg).unknown
        case None => Done
        case Some(t) => Failed(UnknownSourceSpecial(t))
    {
      if optArg == [] {
        sourceSpecials := sourceSpecials + {Auto, Paragraph};
        return Done;
      }
      var tokens := Tokenize(optArg);
      var i := 0;
      while i < |tokens|
        invariant 0 <= i <= |tokens|
        invariant ScanSpecials(tokens[..i]).unknown.None?
        invariant sourceSpecials == old(sourceSpecials) + ScanSpecials(tokens[..i]).flags
      {
        ScanSpecialsSnoc(tokens[..i], tokens[i]);
        assert tokens[..i + 1] == tokens[..i] + [tokens[i]];
        var flags := TokenSpecials(tokens[i]);
        if flags.None? {
          ScanSpecialsUnknownStops(tokens, i);
          return Failed(UnknownSourceSpecial(tokens[i]));
        }
        sourceSpecials := sourceSpecials + flags.value;
        i := i + 1;
      }
      assert tokens[..i] == tokens;
      outcome := Done;
    }

    /** `TeXApp::Write18` on this object's shell-command mode. */
    function Write18(command: string, examine: string -> Examination, privileges: Privileges,
                     execute: string -> int32, exitCode: int32): (r: Write18Outcome)
      reads this
      ensures r == ShellEscape.Write18(shellCommandMode, privileges, command, examine, execute, exitCode)
      ensures r.executed.Some? ==> Write18P()
    {
      ShellEscape.Write18(shellCommandMode, privileges, command, examine, execute, exitCode)
    }

    /** `TeXApp::Write18P`: is `\write18` available at all. */
    function Write18P(): (r: bool)
      reads this
      ensures r <==> shellCommandMode != Forbidden
    {
      shellCommandMode == Unrestricted || shellCommandMode == Restricted || shellCommandMode == Query
    }

    function IsSourceSpecialOn(s: SourceSpecial): (r: bool)
      reads this
      ensures r <==> s in sourceSpecials
    {
      s in sourceSpecials
    }

    /** What the invariant means to the engine: asking for `Auto` or for
        `Paragraph` gives the same answer. */
    lemma AutoAgreesWithParagraph()
      requires Valid()
      ensures IsSourceSpecialOn(Auto) == IsSourceSpecialOn(Paragraph)
    {
    }

    /** `TeXApp::SourceSpecialsP`: is any source special enabled. */
    predicate SourceSpecialsP()
      reads this
    {
      sourceSpecials != {}
    }

    /** "Any special enabled" agrees with asking flag by flag. */
    lemma SourceSpecialsPIffSomeOn()
      ensures SourceSpecialsP() <==> exists s :: IsSourceSpecialOn(s)
    {
      if sourceSpecials != {} {
        var s :| s in sourceSpecials;
        assert IsSourceSpecialOn(s);
      }
    }

    /** Does the pair differ from the one remembered last. */
    function IsNewSource(fileName: string, line: int32): (r: bool)
      reads this
      ensures !r <==> fileName == lastSourceFilename && line == lastLineNum
    {
      lastSourceFilename != fileName || lastLineNum != line
    }

    method RememberSourceInfo(fileName: string, line: int32)
      modifies this`lastSourceFilename, this`lastLineNum
      ensures lastSourceFilename == fileName && lastLineNum == line
      ensures !IsNewSource(fileName, line)
      ensures forall f, l :: IsNewSource(f, l) <==> f != fileName || l != line
      ensures old(Valid()) ==> Valid()
    {
      lastSourceFilename := fileName;
      lastLineNum := line;
    }
  }

  /** A caller's view: a document's first line cannot lift restricted mode,
      and the tracker reports the line just remembered as old. */
  method FirstLineAndTrackerScenario(stoi: string -> Option<int32>)
  {
    var app := new TeXApp(Restricted);
    app.Init();
    var outcome := app.ProcessOption(EnableWrite18, "", true, stoi);
    assert outcome == Done && app.shellCommandMode == Restricted && app.Write18P();
    outcome := app.ProcessOption(DisableWrite18, "", true, stoi);
    assert !app.Write18P();
    outcome := app.ProcessOption(SrcSpecials, "", false, stoi);
    assert app.IsSourceSpecialOn(Auto) && app.IsSourceSpecialOn(Paragraph);
    app.RememberSourceInfo("story.tex", 3);
    // every method kept the invariant, so the two flags still agree
    app.AutoAgreesWithParagraph();
    assert !app.IsNewSource("story.tex", 3) && app.IsNewSource("story.tex", 4);
    app.Finalize();
    assert !app.SourceSpecialsP();
  }
}
