/**
 * The effect of one command-line option on the TeX application's settings,
 * stated on values: the shell-command mode, the MLTeX and EncTeX switches,
 * the SyncTeX option, the source-special flags and the numeric user
 * parameters.
 */
module Options {
  import opened Basics
  import opened ShellEscape
  import opened SourceSpecials

  /** The options the TeX application handles itself; every other option
      goes to the base application. */
  datatype TeXOption =
    | DisableWrite18 | EnableEncTeX | EnableMLTeX | EnableWrite18
    | FontMax | FontMemSize | HashExtra | MaxInOpen | MemBot | NestSize
    | RestrictWrite18 | SaveSize | SrcSpecials | SyncTeX | TrieOpSize | TrieSize
    | Inherited

  /** The user parameter a numeric option is stored under. */
  function UserParamName(opt: TeXOption): Option<string>
  {
    match opt
    case FontMax => Some("font_max")
    case FontMemSize => Some("font_mem_size")
    case HashExtra => Some("hash_extra")
    case MaxInOpen => Some("max_in_open")
    case MemBot => Some("mem_bot")
    case NestSize => Some("nest_size")
    case SaveSize => Some("save_size")
    case TrieSize => Some("trie_size")
    case TrieOpSize => Some("trie_op_size")
    case _ => None
  }

  datatype OptionError = UnknownSourceSpecial(special: string) | InvalidNumber(argument: string)

  /** `Done` is "handled here", `Delegated` is "passed to the base application". */
  datatype Outcome = Done | Delegated | Failed(error: OptionError)

  datatype Config = Config(
    mode: ShellCommandMode,
    enableMLTeX: bool,
    enableEncTeX: bool,
    synchronizationOptions: int32,
    sourceSpecials: set<SourceSpecial>,
    userParams: map<string, int32>)

  /** `Auto` and `Paragraph` are only ever set, and cleared, together. */
  predicate PairedParagraphSpecials(specials: set<SourceSpecial>)
  {
    Auto in specials <==> Paragraph in specials
  }

  datatype Applied = Applied(config: Config, outcome: Outcome)

  /** A numeric option: the argument converted by `stoi` is stored, or the
      conversion fails before anything is stored. */
  function StoreNumber(c: Config, key: string, optArg: string, stoi: string -> Option<int32>): (r: Applied)
    ensures r.outcome != Delegated
    ensures stoi(optArg).None? ==> r == Applied(c, Failed(InvalidNumber(optArg)))
    ensures stoi(optArg).Some? ==> r == Applied(c.(userParams := c.userParams[key := stoi(optArg).value]), Done)
  {
    match stoi(optArg)
    case None => Applied(c, Failed(InvalidNumber(optArg)))
    case Some(n) => Applied(c.(userParams := c.userParams[key := n]), Done)
  }

  /**
   * `TeXApp::ProcessOption`. `inParseFirstLine` says whether the option comes
   * from the `%&` first line of the document; `stoi` is the integer conversion
   * of an argument, `None` when it throws.
   */
  function Apply(c: Config, opt: TeXOption, optArg: string, inParseFirstLine: bool, stoi: string -> Option<int32>): (r: Applied)
    // disabling shell escape always wins
    ensures opt == DisableWrite18 ==> r.config.mode == Forbidden
    // the first line of a document can only make shell escape stricter
    ensures inParseFirstLine ==> r.config.mode == c.mode || r.config.mode == Forbidden
    ensures inParseFirstLine && opt in {EnableWrite18, RestrictWrite18} ==> r == Applied(c, Done)
    ensures !inParseFirstLine && opt == EnableWrite18 ==> r.config.mode == Unrestricted
    ensures !inParseFirstLine && opt == RestrictWrite18 ==> r.config.mode == Restricted
    ensures opt !in {DisableWrite18, EnableWrite18, RestrictWrite18} ==> r.config.mode == c.mode
    // the two switches are only ever turned on, each by its own option
    ensures r.config.enableMLTeX == (c.enableMLTeX || opt == EnableMLTeX)
    ensures r.config.enableEncTeX == (c.enableEncTeX || opt == EnableEncTeX)
    // source-special flags are only ever added, by `src-specials`, and keep `Auto` with `Paragraph`
    ensures c.sourceSpecials <= r.config.sourceSpecials
    ensures opt != SrcSpecials ==> r.config.sourceSpecials == c.sourceSpecials
    ensures PairedParagraphSpecials(c.sourceSpecials) ==> PairedParagraphSpecials(r.config.sourceSpecials)
    // the SyncTeX value and the user parameters change only through their options
    ensures opt != SyncTeX ==> r.config.synchronizationOptions == c.synchronizationOptions
    // `synctex` stores the converted number, or fails and changes nothing
    ensures opt == SyncTeX ==> r == match stoi(optArg)
      case None => Applied(c, Failed(InvalidNumber(optArg)))
      case Some(n) => Applied(c.(synchronizationOptions := n), Done)
    // `src-specials` adds the argument's flags and fails exactly on an unknown token
    ensures opt == SrcSpecials ==>
      && r.config == c.(sourceSpecials := c.sourceSpecials + SrcSpecialsArgument(optArg).flags)
      && r.outcome == match SrcSpecialsArgument(optArg).unknown
           case None => Done
           case Some(t) => Failed(UnknownSourceSpecial(t))
    // the numeric options store their converted number under their own key
    ensures UserParamName(opt).Some? ==> r == StoreNumber(c, UserParamName(opt).value, optArg, stoi)
    ensures UserParamName(opt).None? ==> r.config.userParams == c.userParams
    ensures UserParamName(opt).Some? ==> r.config.userParams.Keys <= c.userParams.Keys + {UserParamName(opt).value}
    // a failed conversion changes nothing; an unknown source special is the only other failure
    ensures r.outcome == Failed(InvalidNumber(optArg)) ==> r.config == c
    ensures r.outcome.Failed? ==> opt == SrcSpecials || opt == SyncTeX || UserParamName(opt).Some?
    ensures r.outcome.Failed? && r.outcome.error.UnknownSourceSpecial? ==> opt == SrcSpecials
    ensures r.outcome == Delegated <==> opt == Inherited
    ensures opt == Inherited ==> r.config == c
  {
    match opt
    case DisableWrite18 => Applied(c.(mode := Forbidden), Done)
    case EnableEncTeX => Applied(c.(enableEncTeX := true), Done)
    case EnableMLTeX => Applied(c.(enableMLTeX := true), Done)
    case EnableWrite18 => Applied(if inParseFirstLine then c else c.(mode := Unrestricted), Done)
    case RestrictWrite18 => Applied(if inParseFirstLine then c else c.(mode := Restricted), Done)
    case SrcSpecials =>
      var scan := SrcSpecialsArgument(optArg);
      var outcome := if scan.unknown.Some? then Failed(UnknownSourceSpecial(scan.unknown.value)) else Done;
      Applied(c.(sourceSpecials := c.sourceSpecials + scan.flags), outcome)
    case SyncTeX =>
      (match stoi(optArg)
       case None => Applied(c, Failed(InvalidNumber(optArg)))
       case Some(n) => Applied(c.(synchronizationOptions := n), Done))
    case FontMax | FontMemSize | HashExtra | MaxInOpen | MemBot | NestSize | SaveSize | TrieSize | TrieOpSize =>
      StoreNumber(c, UserParamName(opt).value, optArg, stoi)
    case Inherited => Applied(c, Delegated)
  }

  /** A run of options processed in order, each applied to the result of the previous one. */
  function ApplyAll(c: Config, opts: seq<TeXOption>, args: seq<string>, inParseFirstLine: bool, stoi: string -> Option<int32>): Config
    requires |args| == |opts|
    decreases |opts|
  {
    if opts == [] then c
    else ApplyAll(Apply(c, opts[0], args[0], inParseFirstLine, stoi).config, opts[1..], args[1..], inParseFirstLine, stoi)
  }

  /** Once forbidden, a first-line option can never turn shell escape back on. */
  lemma {:induction false} ForbiddenStaysForbidden(c: Config, opts: seq<TeXOption>, args: seq<string>, stoi: string -> Option<int32>)
    requires c.mode == Forbidden
    requires |args| == |opts|
    ensures ApplyAll(c, opts, args, true, stoi).mode == Forbidden
    decreases |opts|
  {
    if opts != [] {
      ForbiddenStaysForbidden(Apply(c, opts[0], args[0], true, stoi).config, opts[1..], args[1..], stoi);
    }
  }

  /** Source-special flags accumulate: a run of options never removes one. */
  lemma {:induction false} SpecialsOnlyGrow(c: Config, opts: seq<TeXOption>, args: seq<string>, inParseFirstLine: bool, stoi: string -> Option<int32>)
    requires |args| == |opts|
    ensures c.sourceSpecials <= ApplyAll(c, opts, args, inParseFirstLine, stoi).sourceSpecials
    decreases |opts|
  {
    if opts != [] {
      SpecialsOnlyGrow(Apply(c, opts[0], args[0], inParseFirstLine, stoi).config, opts[1..], args[1..], inParseFirstLine, stoi);
    }
  }
}
