/**
 * The playground's curl command. The reader on the other side is a POSIX shell, modelled for the
 * characters this command uses unquoted: escapes and line continuation (section 2.2.1 of the Shell
 * Command Language volume of IEEE Std 1003.1-2017), single quotes (section 2.2.2) and blanks.
 */
module CurlSnippet {
  import opened Common

  // ----- printing -----------------------------------------------------------------------------

  /** value.replaceAll("'", "'\\''"). */
  function EscapeQuotes(s: string): string {
    if s == "" then ""
    else if s[0] == '\'' then "'\\''" + EscapeQuotes(s[1..])
    else [s[0]] + EscapeQuotes(s[1..])
  }

  function ShellQuote(s: string): string {
    "'" + (EscapeQuotes(s) + "'")
  }

  function LineEnd(s: string): (i: nat)
    ensures i <= |s| && (i < |s| ==> s[i] == '\n')
  {
    if s == "" || s[0] == '\n' then 0 else 1 + LineEnd(s[1..])
  }

  function Lines(s: string): (lines: seq<string>)
    ensures lines != []
  {
    var i := LineEnd(s);
    if i == |s| then [s] else [s[..i]] + Lines(s[i + 1..])
  }

  function JoinLines(lines: seq<string>): string
    requires lines != []
  {
    if |lines| == 1 then lines[0] else lines[0] + ("\n" + JoinLines(lines[1..]))
  }

  /** The lines moved right, the first one only if it is not `first`. */
  function Moved(lines: seq<string>, first: bool): (moved: seq<string>)
    ensures |moved| == |lines|
  {
    seq(|lines|, i requires 0 <= i < |lines| => if first && i == 0 then lines[i] else "  " + lines[i])
  }

  /** The printed JSON with every line but the first moved two columns to the right. */
  function Body(json: string): string {
    JoinLines(Moved(Lines(json), true))
  }

  const AUTHORIZATION := "Authorization: Bearer $PDFLY_TOKEN"
  const CONTENT_TYPE := "Content-Type: application/json"

  function BuildCurl(apiBase: string, json: string): string {
    JoinLines([
      "curl " + (apiBase + ("/v1/pdf" + " \\")),
      "  -H " + ("'" + (AUTHORIZATION + "' \\")),
      "  -H " + ("'" + (CONTENT_TYPE + "' \\")),
      "  -d " + ShellQuote(Body(json))
    ])
  }

  // ----- the shell ----------------------------------------------------------------------------

  datatype Mode = Blank | Word(text: string) | Quoted(text: string)

  /** Characters that mean themselves outside quotes. */
  predicate IsPlain(c: char) {
    c !in "|&;<>()$`\\\"' \t\n*?[#~=%!{}\0"
  }

  function Prefix(mode: Mode): string {
    if mode.Blank? then "" else mode.text
  }

  function Cons(word: string, rest: Option<seq<string>>): Option<seq<string>> {
    if rest.None? then None else Some([word] + rest.value)
  }

  /**
   * The words of a simple command after quote removal. None: a quote is left open, a NUL occurs, or
   * an unquoted character would do something else than mean itself.
   */
  function ReadWords(s: string, mode: Mode): Option<seq<string>> {
    if s == "" then
      (match mode case Blank => Some([]) case Word(w) => Some([w]) case Quoted(_) => None)
    else if s[0] == '\0' then None
    else if mode.Quoted? then
      if s[0] == '\'' then ReadWords(s[1..], Word(mode.text)) else ReadWords(s[1..], Quoted(mode.text + [s[0]]))
    else if s[0] == '\'' then ReadWords(s[1..], Quoted(Prefix(mode)))
    else if s[0] == '\\' then
      if |s| == 1 || s[1] == '\0' then None
      else if s[1] == '\n' then ReadWords(s[2..], mode)
      else ReadWords(s[2..], Word(Prefix(mode) + [s[1]]))
    else if s[0] == ' ' || s[0] == '\t' then
      if mode.Blank? then ReadWords(s[1..], Blank) else Cons(mode.text, ReadWords(s[1..], Blank))
    else if IsPlain(s[0]) then ReadWords(s[1..], Word(Prefix(mode) + [s[0]]))
    else None
  }

  lemma ReadStep(c: char, rest: string, mode: Mode)
    requires c != '\0'
    ensures mode.Quoted? && c != '\'' ==> ReadWords([c] + rest, mode) == ReadWords(rest, Quoted(mode.text + [c]))
    ensures mode.Quoted? && c == '\'' ==> ReadWords([c] + rest, mode) == ReadWords(rest, Word(mode.text))
    ensures !mode.Quoted? && c == '\'' ==> ReadWords([c] + rest, mode) == ReadWords(rest, Quoted(Prefix(mode)))
    ensures mode.Word? && (c == ' ' || c == '\t') ==>
      ReadWords([c] + rest, mode) == Cons(mode.text, ReadWords(rest, Blank))
    ensures mode.Blank? && (c == ' ' || c == '\t') ==> ReadWords([c] + rest, mode) == ReadWords(rest, Blank)
    ensures !mode.Quoted? && IsPlain(c) ==> ReadWords([c] + rest, mode) == ReadWords(rest, Word(Prefix(mode) + [c]))
  {
    assert ([c] + rest)[1..] == rest;
  }

  lemma ReadEscape(c: char, rest: string, mode: Mode)
    requires c != '\0' && !mode.Quoted?
    ensures ReadWords("\\" + ([c] + rest), mode) ==
            if c == '\n' then ReadWords(rest, mode) else ReadWords(rest, Word(Prefix(mode) + [c]))
  {
    assert ("\\" + ([c] + rest))[2..] == rest;
  }

  /** Closing the quotes, an escaped quote, and opening them again. */
  lemma QuoteInQuotes(tail: string, w: string)
    ensures ReadWords(['\''] + ("\\" + (['\''] + (['\''] + tail))), Quoted(w)) == ReadWords(tail, Quoted(w + ['\'']))
  {
    hide ReadWords, IsPlain;
    ReadStep('\'', "\\" + (['\''] + (['\''] + tail)), Quoted(w));
    ReadEscape('\'', ['\''] + tail, Word(w));
    ReadStep('\'', tail, Word(w + ['\'']));
  }

  lemma EscapeCons(s: string, after: string)
    ensures s == "" ==> EscapeQuotes(s) + after == after
    ensures s != "" && s[0] == '\'' ==>
      EscapeQuotes(s) + after == ['\''] + ("\\" + (['\''] + (['\''] + (EscapeQuotes(s[1..]) + after))))
    ensures s != "" && s[0] != '\'' ==> EscapeQuotes(s) + after == [s[0]] + (EscapeQuotes(s[1..]) + after)
  {
    if s == "" {
      assert "" + after == after;
    } else {
      var rest := EscapeQuotes(s[1..]);
      FourCharacters(rest + after);
      assert "'\\''" + rest + after == "'\\''" + (rest + after);
      assert [s[0]] + rest + after == [s[0]] + (rest + after);
    }
  }

  lemma FourCharacters(tail: string)
    ensures "'\\''" + tail == ['\''] + ("\\" + (['\''] + (['\''] + tail)))
  {
  }

  /** Inside quotes, the escaped text is read as the text itself. */
  lemma {:induction false} EscapedReads(s: string, rest: string, w: string)
    requires '\0' !in s
    ensures ReadWords(EscapeQuotes(s) + ("'" + rest), Quoted(w)) == ReadWords(rest, Word(w + s))
  {
    hide ReadWords, IsPlain;
    var after := "'" + rest;
    EscapeCons(s, after);
    hide EscapeQuotes;
    if s == "" {
      assert after == ['\''] + rest;
      ReadStep('\'', rest, Quoted(w));
      assert w + s == w;
    } else {
      var tail := EscapeQuotes(s[1..]) + after;
      assert w + [s[0]] + s[1..] == w + s;
      EscapedReads(s[1..], rest, w + [s[0]]);
      if s[0] == '\'' {
        QuoteInQuotes(tail, w);
      } else {
        ReadStep(s[0], tail, Quoted(w));
      }
    }
  }

  lemma QuoteReads(s: string, rest: string)
    requires '\0' !in s
    ensures ReadWords(ShellQuote(s) + rest, Blank) == ReadWords(rest, Word(s))
  {
    var tail := EscapeQuotes(s) + ("'" + rest);
    assert ShellQuote(s) + rest == ['\''] + tail;
    ReadStep('\'', tail, Blank);
    EscapedReads(s, rest, "");
    assert "" + s == s;
  }

  lemma {:induction false} NulIsFatal(s: string, mode: Mode)
    requires '\0' in s
    ensures ReadWords(s, mode) == None
    decreases |s|
  {
    if s[0] == '\0' {
    } else {
      assert s == [s[0]] + s[1..];
      if !mode.Quoted? && s[0] == '\\' && s[1] != '\0' {
        assert s[1..] == [s[1]] + s[2..];
        NulIsFatal(s[2..], if s[1] == '\n' then mode else Word(Prefix(mode) + [s[1]]));
      } else if s[0] != '\\' || mode.Quoted? {
        forall m: Mode ensures ReadWords(s[1..], m) == None {
          NulIsFatal(s[1..], m);
        }
      }
    }
  }

  lemma {:induction false} EscapeKeepsNul(s: string)
    ensures '\0' in EscapeQuotes(s) <==> '\0' in s
  {
    if s == "" {
    } else {
      EscapeKeepsNul(s[1..]);
      assert s == [s[0]] + s[1..];
      assert '\0' !in "'\\''";
    }
  }

  /** The shell reads the quoted text as exactly one word equal to it, unless it contains a NUL. */
  lemma ShellQuoteRoundTrip(s: string)
    ensures ReadWords(ShellQuote(s), Blank) == Some([s]) <==> '\0' !in s
  {
    if '\0' !in s {
      QuoteReads(s, "");
      assert ShellQuote(s) + "" == ShellQuote(s);
    } else {
      EscapeKeepsNul(s);
      assert '\0' in ShellQuote(s);
      NulIsFatal(ShellQuote(s), Blank);
    }
  }

  // ----- the whole command --------------------------------------------------------------------

  predicate AllPlain(s: string) {
    forall i :: 0 <= i < |s| ==> IsPlain(s[i])
  }

  lemma PlainIsNoNul(c: char)
    ensures IsPlain(c) ==> c != '\0'
  {
  }

  /** The words the command writes without quotes. */
  lemma BareWords()
    ensures AllPlain("curl") && AllPlain("/v1/pdf") && AllPlain("-H") && AllPlain("-d")
  {
    PlainCurl();
    PlainPath();
    PlainOptions();
    hide AllPlain;
  }

  lemma PlainCurl()
    ensures AllPlain("curl")
  {
  }

  lemma PlainOptions()
    ensures AllPlain("-H") && AllPlain("-d")
  {
  }

  lemma PlainPath()
    ensures AllPlain("/v1/pdf")
  {
  }

  lemma {:induction false} PlainReads(p: string, rest: string, w: string)
    requires AllPlain(p)
    ensures ReadWords(p + rest, Word(w)) == ReadWords(rest, Word(w + p))
  {
    if p == "" {
      assert p + rest == rest && w + p == w;
    } else {
      assert p + rest == [p[0]] + (p[1..] + rest);
      assert w + [p[0]] + p[1..] == w + p;
      ReadStep(p[0], p[1..] + rest, Word(w));
      PlainReads(p[1..], rest, w + [p[0]]);
    }
  }

  /** An unquoted word and the blank behind it. */
  lemma PlainWord(p: string, rest: string)
    requires p != "" && AllPlain(p)
    ensures ReadWords(p + (" " + rest), Blank) == Cons(p, ReadWords(rest, Blank))
  {
    hide ReadWords, IsPlain;
    PlainIsNoNul(p[0]);
    assert p + (" " + rest) == [p[0]] + (p[1..] + (" " + rest));
    ReadStep(p[0], p[1..] + (" " + rest), Blank);
    assert "" + [p[0]] == [p[0]];
    PlainReads(p[1..], " " + rest, [p[0]]);
    assert [p[0]] + p[1..] == p;
    assert " " + rest == [' '] + rest;
    ReadStep(' ', rest, Word(p));
  }

  /** A blank, a backslash and the end of the line: the command goes on. */
  lemma LineGoesOn(rest: string, mode: Mode)
    requires mode.Word?
    ensures ReadWords(" \\" + ("\n" + rest), mode) == Cons(mode.text, ReadWords(rest, Blank))
  {
    assert " \\" + ("\n" + rest) == [' '] + ("\\" + (['\n'] + rest));
    ReadStep(' ', "\\" + (['\n'] + rest), mode);
    ReadEscape('\n', rest, Blank);
  }

  lemma TwoBlanks(rest: string)
    ensures ReadWords("  " + rest, Blank) == ReadWords(rest, Blank)
  {
    assert "  " + rest == [' '] + ([' '] + rest);
    ReadStep(' ', [' '] + rest, Blank);
    ReadStep(' ', rest, Blank);
  }

  lemma FirstLine(apiBase: string, rest: string)
    requires AllPlain(apiBase)
    ensures ReadWords(("curl " + (apiBase + ("/v1/pdf" + " \\"))) + ("\n" + rest), Blank)
         == Cons("curl", Cons(apiBase + "/v1/pdf", ReadWords(rest, Blank)))
  {
    hide ReadWords, IsPlain;
    BareWords();
    var url := apiBase + "/v1/pdf";
    var tail := " \\" + ("\n" + rest);
    assert ("curl " + (apiBase + ("/v1/pdf" + " \\"))) + ("\n" + rest) == "curl" + (" " + (url + tail));
    PlainWord("curl", url + tail);
    assert AllPlain(url);
    PlainIsNoNul(url[0]);
    assert url + tail == [url[0]] + (url[1..] + tail);
    ReadStep(url[0], url[1..] + tail, Blank);
    assert "" + [url[0]] == [url[0]];
    PlainReads(url[1..], tail, [url[0]]);
    assert [url[0]] + url[1..] == url;
    LineGoesOn(rest, Word(url));
  }

  lemma {:induction false} NothingToEscape(s: string)
    requires '\'' !in s
    ensures EscapeQuotes(s) == s
  {
    if s == "" {
    } else {
      NothingToEscape(s[1..]);
    }
  }

  lemma HeaderLine(h: string, rest: string)
    requires '\'' !in h && '\0' !in h
    ensures ReadWords(("  -H " + ("'" + (h + "' \\"))) + ("\n" + rest), Blank)
         == Cons("-H", Cons(h, ReadWords(rest, Blank)))
  {
    hide ReadWords, IsPlain;
    BareWords();
    var tail := " \\" + ("\n" + rest);
    NothingToEscape(h);
    assert ("  -H " + ("'" + (h + "' \\"))) + ("\n" + rest) == "  " + ("-H" + (" " + (ShellQuote(h) + tail)));
    TwoBlanks("-H" + (" " + (ShellQuote(h) + tail)));
    PlainWord("-H", ShellQuote(h) + tail);
    QuoteReads(h, tail);
    LineGoesOn(rest, Word(h));
  }

  lemma AtTheEnd(w: string)
    ensures ReadWords("", Word(w)) == Some([w])
  {
  }

  lemma DataLine(body: string)
    requires '\0' !in body
    ensures ReadWords("  -d " + ShellQuote(body), Blank) == Some(["-d", body])
  {
    hide ReadWords, IsPlain;
    BareWords();
    AtTheEnd(body);
    assert "  -d " + ShellQuote(body) == "  " + ("-d" + (" " + ShellQuote(body)));
    TwoBlanks("-d" + (" " + ShellQuote(body)));
    PlainWord("-d", ShellQuote(body));
    QuoteReads(body, "");
    assert ["-d"] + [body] == ["-d", body];
    assert ShellQuote(body) + "" == ShellQuote(body);
  }

  /**
   * The shell runs curl with exactly these arguments. The token's variable is inside single quotes,
   * so the shell passes its name on instead of its value.
   */
  lemma CommandReads(apiBase: string, json: string)
    requires AllPlain(apiBase) && '\0' !in Body(json)
    ensures ReadWords(BuildCurl(apiBase, json), Blank) ==
            Some(["curl", apiBase + "/v1/pdf", "-H", AUTHORIZATION, "-H", CONTENT_TYPE, "-d", Body(json)])
  {
    hide ReadWords, IsPlain, ShellQuote, Body;
    HeadersAreTame();
    var l0, l1 := "curl " + (apiBase + ("/v1/pdf" + " \\")), "  -H " + ("'" + (AUTHORIZATION + "' \\"));
    var l2, l3 := "  -H " + ("'" + (CONTENT_TYPE + "' \\")), "  -d " + ShellQuote(Body(json));
    FourLines(l0, l1, l2, l3);
    FirstLine(apiBase, l1 + ("\n" + (l2 + ("\n" + l3))));
    HeaderLine(AUTHORIZATION, l2 + ("\n" + l3));
    HeaderLine(CONTENT_TYPE, l3);
    DataLine(Body(json));
    assert ["curl"] + ([apiBase + "/v1/pdf"]
      + (["-H"] + ([AUTHORIZATION] + (["-H"] + ([CONTENT_TYPE] + ["-d", Body(json)])))))
        == ["curl", apiBase + "/v1/pdf", "-H", AUTHORIZATION, "-H", CONTENT_TYPE, "-d", Body(json)];
  }

  lemma HeadersAreTame()
    ensures '\'' !in AUTHORIZATION && '\0' !in AUTHORIZATION && '\'' !in CONTENT_TYPE && '\0' !in CONTENT_TYPE
  {
    AuthorizationIsTame();
    ContentTypeIsTame();
    hide AUTHORIZATION, CONTENT_TYPE;
  }

  lemma AuthorizationIsTame()
    ensures '\'' !in AUTHORIZATION && '\0' !in AUTHORIZATION
  {
  }

  lemma ContentTypeIsTame()
    ensures '\'' !in CONTENT_TYPE && '\0' !in CONTENT_TYPE
  {
  }

  lemma FourLines(a: string, b: string, c: string, d: string)
    ensures JoinLines([a, b, c, d]) == a + ("\n" + (b + ("\n" + (c + ("\n" + d)))))
  {
    JoinCons(a, [b, c, d]);
    JoinCons(b, [c, d]);
    JoinCons(c, [d]);
    assert [a] + [b, c, d] == [a, b, c, d] && [b] + [c, d] == [b, c, d] && [c] + [d] == [c, d];
  }

  lemma JoinCons(a: string, rest: seq<string>)
    requires rest != []
    ensures JoinLines([a] + rest) == a + ("\n" + JoinLines(rest))
  {
    assert ([a] + rest)[1..] == rest;
  }

  // ----- JSON ---------------------------------------------------------------------------------

  datatype Token = Punctuation(c: char) | Str(raw: string) | Scalar(raw: string)

  datatype Place = Between | InScalar(raw: string) | InString(raw: string, escaped: bool)

  /** White space of section 2 of RFC 8259. */
  predicate IsJsonSpace(c: char) {
    c == ' ' || c == '\t' || c == '\n' || c == '\r'
  }

  predicate IsStructural(c: char) {
    c in "[]{}:,"
  }

  function Push(t: Token, rest: Option<seq<Token>>): Option<seq<Token>> {
    if rest.None? then None else Some([t] + rest.value)
  }

  function EndScalar(place: Place, rest: Option<seq<Token>>): Option<seq<Token>> {
    if place.InScalar? then Push(Scalar(place.raw), rest) else rest
  }

  /** The tokens of a JSON text (sections 2 and 7 of RFC 8259); None where no token can be read. */
  function Tokens(s: string, place: Place): Option<seq<Token>> {
    if s == "" then
      if place.InString? then None else EndScalar(place, Some([]))
    else
      var c, rest := s[0], s[1..];
      if place.InString? then
        if c < ' ' then None
        else if place.escaped then Tokens(rest, InString(place.raw + [c], false))
        else if c == '"' then Push(Str(place.raw), Tokens(rest, Between))
        else Tokens(rest, InString(place.raw + [c], c == '\\'))
      else if IsJsonSpace(c) then EndScalar(place, Tokens(rest, Between))
      else if IsStructural(c) then EndScalar(place, Push(Punctuation(c), Tokens(rest, Between)))
      else if c == '"' then EndScalar(place, Tokens(rest, InString("", false)))
      else if c < ' ' then None
      else Tokens(rest, InScalar((if place.InScalar? then place.raw else "") + [c]))
  }

  // ----- what the tokenizer reads: any tokens, printed --------------------------------------------

  /** A token as a program may print it: a string by its text. */
  datatype Printed = Mark(c: char) | Text(text: string) | Bare(raw: string)

  /** A token and the white space before it. */
  datatype Spaced = Spaced(gap: string, token: Printed)

  /** Quotes and backslashes are escaped by a backslash. */
  function Escape(c: char): string {
    if c == '"' || c == '\\' then ['\\', c] else [c]
  }

  function Escaped(text: string): string {
    if text == "" then ""
    else Escape(text[0]) + Escaped(text[1..])
  }

  function Shown(token: Printed): string {
    match token
    case Mark(c) => [c]
    case Text(text) => "\"" + (Escaped(text) + "\"")
    case Bare(raw) => raw
  }

  function AsToken(token: Printed): Token {
    match token
    case Mark(c) => Punctuation(c)
    case Text(text) => Str(Escaped(text))
    case Bare(raw) => Scalar(raw)
  }

  predicate WellPrinted(x: Spaced) {
    && (forall c :: c in x.gap ==> c in " \t\n\r")
    && match x.token
       case Mark(c) => c == '[' || c == ']' || c == '{' || c == '}' || c == ':' || c == ','
       case Text(text) => forall c :: c in text ==> c >= ' '
       case Bare(raw) => raw != "" && forall c :: c in raw ==> c > ' ' && c !in "[]{}:,\""
  }

  function PrintAll(xs: seq<Spaced>): string {
    if xs == [] then "" else xs[0].gap + (Shown(xs[0].token) + PrintAll(xs[1..]))
  }

  function AllTokens(xs: seq<Spaced>): seq<Token> {
    if xs == [] then [] else [AsToken(xs[0].token)] + AllTokens(xs[1..])
  }

  /** Two bare tokens are kept apart by white space. */
  predicate KeptApart(xs: seq<Spaced>) {
    forall i :: 0 < i < |xs| && xs[i].token.Bare? && xs[i - 1].token.Bare? ==> xs[i].gap != ""
  }

  lemma ReadChar(c: char, rest: string, place: Place)
    ensures !place.InString? && c in " \t\n\r" ==>
      Tokens([c] + rest, place) == EndScalar(place, Tokens(rest, Between))
    ensures !place.InString? && c in "[]{}:," ==>
      Tokens([c] + rest, place) == EndScalar(place, Push(Punctuation(c), Tokens(rest, Between)))
    ensures !place.InString? && c == '"' ==>
      Tokens([c] + rest, place) == EndScalar(place, Tokens(rest, InString("", false)))
    ensures !place.InString? && c > ' ' && c !in "[]{}:,\"" ==>
      Tokens([c] + rest, place) == Tokens(rest, InScalar((if place.InScalar? then place.raw else "") + [c]))
    ensures place.InString? && c < ' ' ==> Tokens([c] + rest, place) == None
    ensures place.InString? && c >= ' ' && place.escaped ==>
      Tokens([c] + rest, place) == Tokens(rest, InString(place.raw + [c], false))
    ensures place.InString? && c == '"' && !place.escaped ==>
      Tokens([c] + rest, place) == Push(Str(place.raw), Tokens(rest, Between))
    ensures place.InString? && c >= ' ' && c != '"' && !place.escaped ==>
      Tokens([c] + rest, place) == Tokens(rest, InString(place.raw + [c], c == '\\'))
  {
    assert ([c] + rest)[1..] == rest;
  }

  lemma {:induction false} GapRead(gap: string, rest: string, place: Place)
    requires !place.InString? && gap != "" && forall c :: c in gap ==> c in " \t\n\r"
    ensures Tokens(gap + rest, place) == EndScalar(place, Tokens(rest, Between))
  {
    hide Tokens;
    ReadChar(gap[0], gap[1..] + rest, place);
    assert gap + rest == [gap[0]] + (gap[1..] + rest);
    if gap[1..] == "" {
      assert gap[1..] + rest == rest;
    } else {
      GapRead(gap[1..], rest, Between);
    }
  }

  lemma {:induction false} BareRead(raw: string, rest: string, place: Place)
    requires !place.InString? && raw != "" && forall c :: c in raw ==> c > ' ' && c !in "[]{}:,\""
    ensures Tokens(raw + rest, place) == Tokens(rest, InScalar((if place.InScalar? then place.raw else "") + raw))
  {
    hide Tokens;
    var before := if place.InScalar? then place.raw else "";
    assert raw[0] in raw && forall c :: c in raw[1..] ==> c in raw;
    ReadChar(raw[0], raw[1..] + rest, place);
    assert raw + rest == [raw[0]] + (raw[1..] + rest);
    assert before + [raw[0]] + raw[1..] == before + raw;
    if raw[1..] == "" {
      assert raw[1..] + rest == rest && before + [raw[0]] == before + raw;
    } else {
      BareRead(raw[1..], rest, InScalar(before + [raw[0]]));
    }
  }

  lemma EscapeRead(c: char, rest: string, raw: string)
    requires c >= ' '
    ensures Tokens(Escape(c) + rest, InString(raw, false)) == Tokens(rest, InString(raw + Escape(c), false))
  {
    hide Tokens;
    if c == '"' || c == '\\' {
      assert Escape(c) + rest == ['\\'] + ([c] + rest);
      ReadChar('\\', [c] + rest, InString(raw, false));
      ReadChar(c, rest, InString(raw + ['\\'], true));
      assert raw + ['\\'] + [c] == raw + Escape(c);
    } else {
      ReadChar(c, rest, InString(raw, false));
    }
  }

  lemma Regroup(a: string, b: string, c: string)
    ensures (a + b) + c == a + (b + c)
  {
  }

  /** Inside a string the tokenizer gets through any escaped text. */
  lemma {:induction false} TextRead(text: string, rest: string, raw: string)
    requires forall c :: c in text ==> c >= ' '
    ensures Tokens(Escaped(text) + rest, InString(raw, false)) == Tokens(rest, InString(raw + Escaped(text), false))
  {
    hide Tokens, Escape;
    if text == "" {
      assert Escaped(text) + rest == rest && raw + Escaped(text) == raw;
    } else {
      var c, more := text[0], Escaped(text[1..]);
      assert c in text && forall x :: x in text[1..] ==> x in text;
      EscapeRead(c, more + rest, raw);
      Regroup(Escape(c), more, rest);
      TextRead(text[1..], rest, raw + Escape(c));
      Regroup(raw, Escape(c), more);
    }
  }

  /** A string that is not closed, or has a control character in it, has no tokens. */
  lemma BrokenStringsHaveNone(text: string, c: char, rest: string)
    requires c < ' ' && forall x :: x in text ==> x >= ' '
    ensures Tokens("\"" + Escaped(text), Between) == None
    ensures Tokens("\"" + (Escaped(text) + ([c] + rest)), Between) == None
  {
    TextRead(text, "", "");
    TextRead(text, [c] + rest, "");
    ReadChar('"', Escaped(text), Between);
    ReadChar('"', Escaped(text) + ([c] + rest), Between);
    ReadChar(c, rest, InString("" + Escaped(text), false));
    assert Escaped(text) + "" == Escaped(text);
  }

  lemma TokenRead(token: Printed, rest: string, place: Place)
    requires WellPrinted(Spaced("", token)) && !place.InString? && !token.Bare?
    ensures Tokens(Shown(token) + rest, place) == EndScalar(place, Push(AsToken(token), Tokens(rest, Between)))
  {
    hide Tokens;
    if token.Mark? {
      ReadChar(token.c, rest, place);
    } else {
      var closed := "\"" + rest;
      assert Shown(token) + rest == "\"" + (Escaped(token.text) + closed);
      ReadChar('"', Escaped(token.text) + closed, place);
      TextRead(token.text, closed, "");
      assert "" + Escaped(token.text) == Escaped(token.text);
      ReadChar('"', rest, InString(Escaped(token.text), false));
    }
  }

  /** One token and the white space before it; after a bare one the tokenizer is inside it. */
  lemma SpacedRead(x: Spaced, rest: string, place: Place)
    requires WellPrinted(x) && (place.Between? || (place.InScalar? && (x.token.Bare? ==> x.gap != "")))
    ensures Tokens(x.gap + (Shown(x.token) + rest), place) == EndScalar(place,
      if x.token.Bare? then Tokens(rest, InScalar(x.token.raw)) else Push(AsToken(x.token), Tokens(rest, Between)))
  {
    hide Tokens, WellPrinted;
    var body, from := Shown(x.token) + rest, if x.gap == "" then place else Between;
    if x.gap == "" {
      assert x.gap + body == body;
    } else {
      SpacesOf(x);
      GapRead(x.gap, body, place);
    }
    WithoutGap(x);
    if x.token.Bare? {
      BareShown(x);
      assert "" + x.token.raw == x.token.raw;
      BareRead(x.token.raw, rest, Between);
    } else {
      TokenRead(x.token, rest, from);
    }
  }

  /** The tokens of a printed list are that list, whatever white space stands between them. */
  lemma {:induction false} PrintedTokensRead(xs: seq<Spaced>, place: Place)
    requires (forall i :: 0 <= i < |xs| ==> WellPrinted(xs[i])) && KeptApart(xs)
    requires place.Between? || (place.InScalar? && (xs != [] && xs[0].token.Bare? ==> xs[0].gap != ""))
    ensures Tokens(PrintAll(xs), place) == EndScalar(place, Some(AllTokens(xs)))
    decreases |xs|
  {
    if xs == [] {
    } else {
      hide Tokens, WellPrinted, Shown;
      var x := xs[0];
      SpacedRead(x, PrintAll(xs[1..]), place);
      PrintedTokensRead(xs[1..], if x.token.Bare? then InScalar(x.token.raw) else Between);
    }
  }

  lemma SpacesOf(x: Spaced)
    requires WellPrinted(x)
    ensures forall c :: c in x.gap ==> c in " \t\n\r"
  {
  }

  lemma WithoutGap(x: Spaced)
    requires WellPrinted(x)
    ensures WellPrinted(Spaced("", x.token))
  {
  }

  lemma BareShown(x: Spaced)
    requires WellPrinted(x) && x.token.Bare?
    ensures x.token.raw != "" && forall c :: c in x.token.raw ==> c > ' ' && c !in "[]{}:,\""
  {
  }

  /** Two spaces after every line break. */
  function Indented(s: string): string {
    if s == "" then ""
    else if s[0] == '\n' then "\n  " + Indented(s[1..])
    else [s[0]] + Indented(s[1..])
  }

  lemma SkipsSpaces(rest: string)
    ensures Tokens("  " + rest, Between) == Tokens(rest, Between)
  {
    assert ("  " + rest)[1..] == " " + rest;
    assert (" " + rest)[1..] == rest;
    assert Tokens(" " + rest, Between) == Tokens(rest, Between);
  }

  lemma {:induction false} IndentKeepsTokens(s: string, place: Place)
    ensures Tokens(Indented(s), place) == Tokens(s, place)
    decreases |s|
  {
    if s == "" {
    } else {
      var rest := Indented(s[1..]);
      if s[0] == '\n' {
        assert Indented(s)[1..] == "  " + rest;
        SkipsSpaces(rest);
        IndentKeepsTokens(s[1..], Between);
      } else {
        assert Indented(s)[1..] == rest;
        forall p: Place ensures Tokens(rest, p) == Tokens(s[1..], p) {
          IndentKeepsTokens(s[1..], p);
        }
      }
    }
  }

  lemma MovedCons(line: string, rest: seq<string>)
    ensures Moved([line] + rest, true) == [line] + Moved(rest, false)
  {
  }

  lemma {:induction false} LinesIndent(s: string)
    ensures JoinLines(Moved(Lines(s), true)) == Indented(s)
  {
    hide Indented, Moved, JoinLines;
    var i := LineEnd(s);
    IndentLine(s, i);
    if i < |s| {
      var rest := Lines(s[i + 1..]);
      LinesIndent(s[i + 1..]);
      MovedCons(s[..i], rest);
      JoinCons(s[..i], Moved(rest, false));
      MovedJoin(rest);
      assert "\n" + ("  " + Indented(s[i + 1..])) == "\n  " + Indented(s[i + 1..]);
    } else {
      OneLine(s);
    }
  }

  lemma OneLine(s: string)
    ensures JoinLines(Moved([s], true)) == s
  {
  }

  lemma MovedJoin(lines: seq<string>)
    requires lines != []
    ensures JoinLines(Moved(lines, false)) == "  " + JoinLines(Moved(lines, true))
  {
    if |lines| > 1 {
      var tail := Moved(lines, false)[1..];
      assert Moved(lines, false) == ["  " + lines[0]] + tail;
      assert Moved(lines, true) == [lines[0]] + tail;
      JoinCons("  " + lines[0], tail);
      JoinCons(lines[0], tail);
      assert ("  " + lines[0]) + ("\n" + JoinLines(tail)) == "  " + (lines[0] + ("\n" + JoinLines(tail)));
    }
  }

  lemma {:induction false} IndentLine(s: string, i: nat)
    requires i == LineEnd(s)
    ensures Indented(s) == if i == |s| then s else s[..i] + ("\n  " + Indented(s[i + 1..]))
  {
    if s != "" && s[0] != '\n' {
      IndentLine(s[1..], i - 1);
      if i < |s| {
        var r := "\n  " + Indented(s[i + 1..]);
        assert s[1..][i..] == s[i + 1..];
        assert [s[0]] + (s[1..][..i - 1] + r) == s[..i] + r;
      } else {
        assert [s[0]] + s[1..] == s;
      }
    } else if s != "" {
      assert s[..0] + ("\n  " + Indented(s[1..])) == "\n  " + Indented(s[1..]);
    }
  }

  /** The body given to curl has exactly the tokens of the printed JSON, whatever that is. */
  lemma BodyKeepsTokens(json: string)
    ensures Tokens(Body(json), Between) == Tokens(json, Between)
  {
    LinesIndent(json);
    IndentKeepsTokens(json, Between);
  }
}
