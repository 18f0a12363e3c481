/**
 * Source specials: the places in the DVI output where the engine records the
 * source file and line, selected by the `src-specials` option.
 */
module SourceSpecials {
  import opened Basics
  import opened Tokenizer

  datatype SourceSpecial = Auto | Paragraph | ParagraphEnd | CarriageReturn | Math | HorizontalBox | VerticalBox | Display

  /** The word that selects each flag in an option argument; `Auto` has no
      word of its own, it comes with `Paragraph`. */
  function SpecialName(s: SourceSpecial): string
    requires s != Auto
  {
    match s
    case Paragraph => "par"
    case ParagraphEnd => "parend"
    case CarriageReturn => "cr"
    case Math => "math"
    case HorizontalBox => "hbox"
    case VerticalBox => "vbox"
    case Display => "display"
  }

  /** `token` is the word of flag `s` or its `every` form. */
  predicate Names(token: string, s: SourceSpecial)
  {
    s != Auto && (token == SpecialName(s) || token == "every" + SpecialName(s))
  }

  /** The flags one token of a `src-specials` argument selects; `None` for a
      word outside the vocabulary. */
  function TokenSpecials(token: string): (r: Option<set<SourceSpecial>>)
    ensures r.Some? ==> r.value != {} && IsToken(token)
  {
    if token == "everypar" || token == "par" then Some({Auto, Paragraph})
    else if token == "everyparend" || token == "parend" then Some({ParagraphEnd})
    else if token == "everycr" || token == "cr" then Some({CarriageReturn})
    else if token == "everymath" || token == "math" then Some({Math})
    else if token == "everyhbox" || token == "hbox" then Some({HorizontalBox})
    else if token == "everyvbox" || token == "vbox" then Some({VerticalBox})
    else if token == "everydisplay" || token == "display" then Some({Display})
    else None
  }

  /** The vocabulary is the seven words and their `every` forms; a recognised
      token sets the flag it names, and `par` also `Auto`. */
  lemma TokenVocabulary(token: string)
    ensures TokenSpecials(token).Some? <==> exists s :: Names(token, s)
    ensures forall s :: Names(token, s) ==>
      TokenSpecials(token) == Some(if s == Paragraph then {Auto, Paragraph} else {s})
  {
    if TokenSpecials(token).Some? {
      var s := if token == "everypar" || token == "par" then Paragraph
        else if token == "everyparend" || token == "parend" then ParagraphEnd
        else if token == "everycr" || token == "cr" then CarriageReturn
        else if token == "everymath" || token == "math" then Math
        else if token == "everyhbox" || token == "hbox" then HorizontalBox
        else if token == "everyvbox" || token == "vbox" then VerticalBox
        else Display;
      assert Names(token, s);
    }
    forall s | Names(token, s)
      ensures TokenSpecials(token) == Some(if s == Paragraph then {Auto, Paragraph} else {s})
    {
      match s
      case Paragraph => assert "every" + "par" == "everypar";
      case ParagraphEnd => assert "every" + "parend" == "everyparend";
      case CarriageReturn => assert "every" + "cr" == "everycr";
      case Math => assert "every" + "math" == "everymath";
      case HorizontalBox => assert "every" + "hbox" == "everyhbox";
      case VerticalBox => assert "every" + "vbox" == "everyvbox";
      case Display => assert "every" + "display" == "everydisplay";
    }
  }

  function FlagsOf(token: string): set<SourceSpecial>
  {
    match TokenSpecials(token)
    case None => {}
    case Some(flags) => flags
  }

  /** What a run over a token list collects: the flags set before the first
      unknown token, and that token if there is one. */
  datatype Scan = Scan(flags: set<SourceSpecial>, unknown: Option<string>)

  /** The tokenizer loop of the `src-specials` option: tokens are handled in
      order and the first unknown one stops the run. */
  function ScanSpecials(tokens: seq<string>): (r: Scan)
    ensures Auto in r.flags <==> Paragraph in r.flags
    ensures r.unknown.Some? ==> r.unknown.value in tokens && TokenSpecials(r.unknown.value).None?
    ensures r.unknown.None? <==> forall k :: 0 <= k < |tokens| ==> TokenSpecials(tokens[k]).Some?
  {
    if tokens == [] then Scan({}, None)
    else
      match TokenSpecials(tokens[0])
      case None => Scan({}, Some(tokens[0]))
      case Some(flags) =>
        var rest := ScanSpecials(tokens[1..]);
        Scan(flags + rest.flags, rest.unknown)
  }

  /** The effect of one `src-specials` argument: an empty argument means
      `Auto` and `Paragraph`, any other is split into tokens. */
  function SrcSpecialsArgument(arg: string): (r: Scan)
    ensures arg == [] ==> r == Scan({Auto, Paragraph}, None)
    ensures Auto in r.flags <==> Paragraph in r.flags
    ensures r.unknown.Some? ==> TokenSpecials(r.unknown.value).None?
  {
    if arg == [] then Scan({Auto, Paragraph}, None) else ScanSpecials(Tokenize(arg))
  }

  /** Handling one more token after a clean run. */
  lemma {:induction false} ScanSpecialsSnoc(tokens: seq<string>, t: string)
    requires ScanSpecials(tokens).unknown.None?
    ensures ScanSpecials(tokens + [t]) ==
      match TokenSpecials(t)
      case None => Scan(ScanSpecials(tokens).flags, Some(t))
      case Some(flags) => Scan(ScanSpecials(tokens).flags + flags, None)
  {
    if tokens == [] {
      assert tokens + [t] == [t];
    } else {
      assert (tokens + [t])[1..] == tokens[1..] + [t];
      ScanSpecialsSnoc(tokens[1..], t);
    }
  }

  /** Without an unknown token, a flag is set exactly when some token selects it. */
  lemma {:induction false} ScanSpecialsFlags(tokens: seq<string>, s: SourceSpecial)
    requires ScanSpecials(tokens).unknown.None?
    ensures s in ScanSpecials(tokens).flags <==> exists k :: 0 <= k < |tokens| && s in FlagsOf(tokens[k])
  {
    if tokens != [] {
      ScanSpecialsFlags(tokens[1..], s);
      if s in ScanSpecials(tokens).flags && s !in FlagsOf(tokens[0]) {
        var k :| 0 <= k < |tokens[1..]| && s in FlagsOf(tokens[1..][k]);
        assert tokens[k + 1] == tokens[1..][k];
      }
      if exists k :: 0 <= k < |tokens| && s in FlagsOf(tokens[k]) {
        var k :| 0 <= k < |tokens| && s in FlagsOf(tokens[k]);
        if k > 0 {
          assert tokens[1..][k - 1] == tokens[k];
        }
      }
    }
  }

  /** With an unknown token, the run stops at the first one: the flags are
      those of the tokens before it. */
  lemma {:induction false} ScanSpecialsStops(tokens: seq<string>)
    requires ScanSpecials(tokens).unknown.Some?
    ensures exists k :: (0 <= k < |tokens| && tokens[k] == ScanSpecials(tokens).unknown.value
      && ScanSpecials(tokens[..k]) == Scan(ScanSpecials(tokens).flags, None))
  {
    var t := tokens[0];
    if TokenSpecials(t).None? {
      assert tokens[..0] == [];
    } else {
      ScanSpecialsStops(tokens[1..]);
      var k :| 0 <= k < |tokens[1..]| && tokens[1..][k] == ScanSpecials(tokens[1..]).unknown.value
        && ScanSpecials(tokens[1..][..k]) == Scan(ScanSpecials(tokens[1..]).flags, None);
      assert tokens[..k + 1][1..] == tokens[1..][..k];
      assert tokens[k + 1] == tokens[1..][k];
    }
  }

  /** Meeting an unknown token after a clean run ends the run there. */
  lemma ScanSpecialsUnknownStops(tokens: seq<string>, i: nat)
    requires i < |tokens|
    requires ScanSpecials(tokens[..i]).unknown.None?
    requires TokenSpecials(tokens[i]).None?
    ensures ScanSpecials(tokens) == Scan(ScanSpecials(tokens[..i]).flags, Some(tokens[i]))
  {
    if i > 0 {
      assert tokens[..i][1..] == tokens[1..][..i - 1];
      ScanSpecialsUnknownStops(tokens[1..], i - 1);
    }
  }

  /** A recognised word on its own sets its flags and nothing else. */
  lemma SingleToken(token: string)
    requires TokenSpecials(token).Some?
    ensures SrcSpecialsArgument(token) == Scan(TokenSpecials(token).value, None)
  {
    assert token != [];
    TokenizeJoin([], [token], [], []);
    assert [] + Join([token], []) + [] == token;
    assert Tokenize(token) == [token];
    assert [token][1..] == [];
    assert ScanSpecials([token]) == Scan(TokenSpecials(token).value + ScanSpecials([]).flags, None);
  }

  /** A non-empty argument of delimiters only changes nothing. */
  lemma DelimitersOnly(arg: string)
    requires arg != [] && AllDelimiters(arg)
    ensures SrcSpecialsArgument(arg) == Scan({}, None)
  {
    TokenizeEmpty(arg);
  }

  /** A list of recognised words, separated by commas and spaces and with any
      commas and spaces around it, sets exactly the union of their flags. */
  lemma ListOfTokens(lead: string, tokens: seq<string>, separators: seq<string>, trail: string, s: SourceSpecial)
    requires tokens != [] && |separators| == |tokens| - 1
    requires forall k :: 0 <= k < |tokens| ==> TokenSpecials(tokens[k]).Some?
    requires forall k :: 0 <= k < |separators| ==> IsSeparator(separators[k])
    requires AllDelimiters(lead) && AllDelimiters(trail)
    ensures SrcSpecialsArgument(lead + Join(tokens, separators) + trail).unknown.None?
    ensures s in SrcSpecialsArgument(lead + Join(tokens, separators) + trail).flags <==>
      exists k :: 0 <= k < |tokens| && s in FlagsOf(tokens[k])
  {
    TokenizeJoin(lead, tokens, separators, trail);
    assert Tokenize([]) == [];
    ScanSpecialsFlags(tokens, s);
  }
}
