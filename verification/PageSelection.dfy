/**
 * Resolving `all`, `first`, `last` or a list like `1-3,7` into zero-based page indices. What a list
 * denotes is said with exact numbers; the parser reads them as doubles.
 */
module PageSelection {
  import opened Common
  import opened Doubles

  // ----- text ---------------------------------------------------------------------------------

  predicate IsDigit(c: char) {
    '0' <= c <= '9'
  }

  /** The white space that `trim` and `\s` know. */
  predicate IsSpace(c: char) {
    || '\t' <= c <= '\r'
    || c == ' ' || c == '\U{00A0}' || c == '\U{1680}' || '\U{2000}' <= c <= '\U{200A}'
    || c == '\U{2028}' || c == '\U{2029}' || c == '\U{202F}' || c == '\U{205F}'
    || c == '\U{3000}' || c == '\U{FEFF}'
  }

  predicate AllDigits(s: string) {
    forall i :: 0 <= i < |s| ==> IsDigit(s[i])
  }

  predicate AllSpaces(s: string) {
    forall i :: 0 <= i < |s| ==> IsSpace(s[i])
  }

  predicate IsNumber(s: string) {
    s != "" && AllDigits(s)
  }

  function Value(s: string): nat {
    if s == "" then 0
    else 10 * Value(s[..|s| - 1]) + if IsDigit(s[|s| - 1]) then (s[|s| - 1] - '0') as nat else 0
  }

  function DigitRun(s: string): (n: nat)
    ensures n <= |s| && AllDigits(s[..n]) && (n < |s| ==> !IsDigit(s[n]))
  {
    if s == "" || !IsDigit(s[0]) then 0 else 1 + DigitRun(s[1..])
  }

  function SpaceRun(s: string): (n: nat)
    ensures n <= |s| && AllSpaces(s[..n]) && (n < |s| ==> !IsSpace(s[n]))
  {
    if s == "" || !IsSpace(s[0]) then 0 else 1 + SpaceRun(s[1..])
  }

  function TrimEnd(s: string): string {
    if s != "" && IsSpace(s[|s| - 1]) then TrimEnd(s[..|s| - 1]) else s
  }

  function Trim(s: string): string {
    TrimEnd(s[SpaceRun(s)..])
  }

  function Comma(s: string): (i: nat)
    ensures i <= |s| && (i < |s| ==> s[i] == ',')
  {
    if s == "" || s[0] == ',' then 0 else 1 + Comma(s[1..])
  }

  function Split(s: string): seq<string> {
    var i := Comma(s);
    if i == |s| then [s] else [s[..i]] + Split(s[i + 1..])
  }

  // ----- what a token means -------------------------------------------------------------------

  function Tail(before: string, after: string, b: string): string {
    before + ("-" + (after + b))
  }

  /** `token` is the digits `a`, a dash with any white space around it, and the digits `b`. */
  ghost predicate IsRange(token: string, a: string, b: string) {
    && IsNumber(a) && IsNumber(b)
    && exists before, after :: AllSpaces(before) && AllSpaces(after) && token == a + Tail(before, after, b)
  }

  /** The token denotes the pages `from` to `to`: a number denotes itself. */
  ghost predicate Denotes(token: string, from: nat, to: nat) {
    || (IsNumber(token) && from == to == Value(token))
    || exists a, b :: IsRange(token, a, b) && from == Value(a) && to == Value(b)
  }

  /** The length of the longest array: no document has more pages. */
  const MAX_PAGES := 0xFFFF_FFFF

  ghost predicate Sensible(token: string) {
    exists from: nat, to: nat :: 1 <= from <= to && Denotes(token, from, to)
  }

  /** Page `page`, counted from one, is among those the token denotes. */
  ghost predicate Names(token: string, page: nat) {
    exists from: nat, to: nat :: from <= page <= to && Denotes(token, from, to)
  }

  // ----- scanning a token ---------------------------------------------------------------------

  /** Spaces, a dash, spaces, and then digits to the end. */
  function ScanTail(tail: string): Option<string> {
    var j := SpaceRun(tail);
    if j == |tail| || tail[j] != '-' then None
    else
      var rest := tail[j + 1..];
      var b := rest[SpaceRun(rest)..];
      if IsNumber(b) then Some(b) else None
  }

  /** The range expression: digits, spaces, dash, spaces, digits, and nothing else. */
  function ScanRange(token: string): Option<(string, string)> {
    var i := DigitRun(token);
    var b := ScanTail(token[i..]);
    if i == 0 || b.None? then None else Some((token[..i], b.value))
  }

  lemma SpacesAndDigits(c: char)
    ensures IsSpace(c) || c == '-' ==> !IsDigit(c)
    ensures IsDigit(c) || c == '-' ==> !IsSpace(c)
  {
  }

  lemma {:induction false} DigitRunIs(a: string, rest: string)
    requires AllDigits(a) && (rest != "" ==> !IsDigit(rest[0]))
    ensures DigitRun(a + rest) == |a|
  {
    if a == "" {
    } else {
      assert (a + rest)[1..] == a[1..] + rest;
      DigitRunIs(a[1..], rest);
    }
  }

  lemma {:induction false} SpaceRunIs(a: string, rest: string)
    requires AllSpaces(a) && (rest != "" ==> !IsSpace(rest[0]))
    ensures SpaceRun(a + rest) == |a|
  {
    if a != "" {
      assert (a + rest)[1..] == a[1..] + rest;
      SpaceRunIs(a[1..], rest);
    } else {
      assert a + rest == rest;
    }
  }

  lemma TailScans(before: string, after: string, b: string)
    requires IsNumber(b) && AllSpaces(before) && AllSpaces(after)
    ensures ScanTail(Tail(before, after, b)) == Some(b)
  {
    hide IsDigit, IsSpace;
    var tail, rest := Tail(before, after, b), after + b;
    SpacesAndDigits('-');
    SpacesAndDigits(b[0]);
    SpaceRunIs(before, "-" + rest);
    assert tail[|before| + 1..] == rest;
    SpaceRunIs(after, b);
    assert rest[|after|..] == b;
  }

  lemma CutTail(tail: string, j: nat, k: nat)
    requires j < |tail| && tail[j] == '-' && j + 1 + k <= |tail|
    ensures var rest := tail[j + 1..]; tail == Tail(tail[..j], rest[..k], rest[k..])
  {
    var rest := tail[j + 1..];
    assert rest[..k] + rest[k..] == rest;
    assert tail == tail[..j] + ("-" + rest);
  }

  lemma TailSpelled(tail: string, b: string) returns (before: string, after: string)
    requires ScanTail(tail) == Some(b)
    ensures AllSpaces(before) && AllSpaces(after) && IsNumber(b) && tail == Tail(before, after, b)
  {
    hide IsDigit, IsSpace, AllSpaces, IsNumber, Tail;
    var j := SpaceRun(tail);
    var rest := tail[j + 1..];
    var k := SpaceRun(rest);
    before, after := tail[..j], rest[..k];
    CutTail(tail, j, k);
  }

  lemma RangeScans(a: string, before: string, after: string, b: string)
    requires IsNumber(a) && IsNumber(b) && AllSpaces(before) && AllSpaces(after)
    ensures ScanRange(a + Tail(before, after, b)) == Some((a, b))
  {
    hide IsDigit, IsSpace, ScanTail;
    var tail := Tail(before, after, b);
    SpacesAndDigits(tail[0]);
    assert tail[0] == if before == "" then '-' else before[0];
    DigitRunIs(a, tail);
    assert (a + tail)[|a|..] == tail && (a + tail)[..|a|] == a;
    TailScans(before, after, b);
  }

  /** The scanner finds exactly the ranges there are. */
  lemma ScanFindsTheRange(token: string, a: string, b: string)
    ensures ScanRange(token) == Some((a, b)) <==> IsRange(token, a, b)
  {
    hide IsDigit, IsSpace, ScanTail;
    if IsRange(token, a, b) {
      var before, after :| AllSpaces(before) && AllSpaces(after) && token == a + Tail(before, after, b);
      RangeScans(a, before, after, b);
    }
    if ScanRange(token) == Some((a, b)) {
      var before, after := TailSpelled(token[|a|..], b);
      assert token == a + token[|a|..];
    }
  }

  /** What the parser makes of a token: a range of pages, or an error. */
  function Meaning(token: string): Option<(nat, nat)> {
    match ScanRange(token)
    case Some((a, b)) => Sane(ToDouble(Value(a)), ToDouble(Value(b)))
    case None => if IsNumber(token) then Sane(ToDouble(Value(token)), ToDouble(Value(token))) else None
  }

  function Sane(from: nat, to: nat): Option<(nat, nat)> {
    if from < 1 || to < from then None else Some((from, to))
  }

  /** A range in the wrong order whose two ends read as the same double. */
  ghost predicate Blurred(token: string) {
    exists from: nat, to: nat :: to < from && Denotes(token, from, to) && ToDouble(from) == ToDouble(to)
  }

  lemma NumbersAreNotRanges(token: string)
    requires IsNumber(token)
    ensures ScanRange(token) == None
  {
    DigitRunIs(token, "");
    assert token + "" == token;
    assert token[|token|..] == "";
  }

  /** The parser reads the numbers the token denotes, as doubles, and nothing else. */
  lemma MeaningIs(token: string, from: nat, to: nat)
    requires Denotes(token, from, to)
    ensures Meaning(token) == Sane(ToDouble(from), ToDouble(to))
  {
    hide IsNumber, ScanRange, IsRange, ToDouble, Sane;
    if IsNumber(token) {
      NumbersAreNotRanges(token);
    }
    forall a, b | IsRange(token, a, b) ensures ScanRange(token) == Some((a, b)) {
      ScanFindsTheRange(token, a, b);
    }
  }

  lemma MeaningfulDenotes(token: string) returns (from: nat, to: nat)
    requires Meaning(token).Some?
    ensures Denotes(token, from, to)
  {
    hide IsRange, ToDouble, Sane;
    var scanned := ScanRange(token);
    if scanned.Some? {
      ScanFindsTheRange(token, scanned.value.0, scanned.value.1);
      from, to := Value(scanned.value.0), Value(scanned.value.1);
    } else {
      from, to := Value(token), Value(token);
    }
  }

  /** Rounding spoils no sensible range, and mends a reversed one only by making its ends equal. */
  lemma SaneIs(from: nat, to: nat)
    ensures Sane(ToDouble(from), ToDouble(to)).Some? <==>
            1 <= from <= to || (to < from && ToDouble(from) == ToDouble(to))
  {
    hide ToDouble;
    DoubleIsExact(from);
    DoubleIsExact(to);
    if from <= to {
      DoubleMonotone(from, to);
    } else {
      DoubleMonotone(to, from);
    }
  }

  /** Among the pages a document can have, rounding changes nothing. */
  lemma SaneNames(from: nat, to: nat, page: nat)
    requires page <= MAX_PAGES && Sane(ToDouble(from), ToDouble(to)).Some?
    ensures ToDouble(from) <= page <= ToDouble(to) <==> from <= page <= to
  {
    hide ToDouble;
    DoubleIsExact(from);
    DoubleIsExact(to);
    SaneIs(from, to);
  }

  lemma MeaningDecides(token: string)
    ensures Meaning(token).Some? <==> Sensible(token) || Blurred(token)
    ensures Meaning(token).Some? ==>
      forall page: nat :: page <= MAX_PAGES ==>
        (Names(token, page) <==> Meaning(token).value.0 <= page <= Meaning(token).value.1)
  {
    hide Meaning, Denotes, Sane, ToDouble;
    if Meaning(token).Some? {
      var from, to := MeaningfulDenotes(token);
    }
    if from: nat, to: nat :| Denotes(token, from, to) {
      MeaningIs(token, from, to);
      SaneIs(from, to);
      forall f: nat, t: nat | Denotes(token, f, t) ensures f == from && t == to {
        DenotesOnce(token, from, to, f, t);
      }
      if Meaning(token).Some? {
        SaneIsItself(ToDouble(from), ToDouble(to));
        forall page: nat | page <= MAX_PAGES
          ensures Names(token, page) <==> Meaning(token).value.0 <= page <= Meaning(token).value.1
        {
          SaneNames(from, to, page);
        }
      }
    }
  }

  lemma SaneIsItself(from: nat, to: nat)
    ensures Sane(from, to).Some? ==> Sane(from, to) == Some((from, to))
  {
  }

  /** A token denotes one range at most. */
  lemma DenotesOnce(token: string, from: nat, to: nat, f: nat, t: nat)
    requires Denotes(token, from, to) && Denotes(token, f, t)
    ensures from == f && to == t
  {
    hide IsNumber, ScanRange, IsRange;
    if IsNumber(token) {
      NumbersAreNotRanges(token);
    }
    forall a, b | IsRange(token, a, b) ensures ScanRange(token) == Some((a, b)) {
      ScanFindsTheRange(token, a, b);
    }
  }

  /** Such a token exists: 2^53 + 1 reads as 2^53, so the reversed range of the two is accepted. */
  lemma ReversedRangeIsAccepted()
    ensures var token := Decimal(EXACT + 1) + Tail("", "", Decimal(EXACT));
      !Sensible(token) && Blurred(token) && Meaning(token).Some?
  {
    var a, b := Decimal(EXACT + 1), Decimal(EXACT);
    var token := a + Tail("", "", b);
    DecimalReads(EXACT + 1);
    DecimalReads(EXACT);
    FirstInexact();
    assert IsRange(token, a, b) by {
      hide IsNumber, Decimal, Value;
    }
    hide Decimal, Value, IsRange, ToDouble;
    assert Denotes(token, EXACT + 1, EXACT);
    forall f: nat, t: nat | Denotes(token, f, t) ensures f == EXACT + 1 && t == EXACT {
      DenotesOnce(token, EXACT + 1, EXACT, f, t);
    }
    MeaningDecides(token);
  }

  /** Up to 2^53 there are none: a list is rejected exactly when some token is not sensible. */
  lemma SmallNumbersAreNeverBlurred(token: string, from: nat, to: nat)
    requires Denotes(token, from, to) && from <= EXACT
    ensures !Blurred(token)
  {
    hide Denotes, ToDouble;
    forall f: nat, t: nat | Denotes(token, f, t) ensures !(t < f && ToDouble(f) == ToDouble(t)) {
      DenotesOnce(token, from, to, f, t);
      DoubleIsExact(f);
      DoubleIsExact(t);
    }
  }

  // ----- the selection ------------------------------------------------------------------------

  datatype Result = Pages(indices: seq<int>) | Invalid(token: string)

  /** Some non-empty part of the list, trimmed. */
  predicate IsToken(parts: seq<string>, token: string) {
    token != "" && exists i :: 0 <= i < |parts| && Trim(parts[i]) == token
  }

  /** Page index `p` is in range and named by a token of the list. */
  ghost predicate Selected(parts: seq<string>, pageCount: nat, p: int) {
    0 <= p < pageCount && exists token :: IsToken(parts, token) && Names(token, p + 1)
  }

  function AllPages(pageCount: nat): seq<int> {
    seq(pageCount, i => i)
  }

  /** `all`, `first`, `last`, or nothing at all: what is not a list. */
  function Keyword(selection: Option<string>, pageCount: nat): Option<seq<int>> {
    if selection.None? || selection.value == "" || selection.value == "all" then Some(AllPages(pageCount))
    else if selection.value == "first" then Some(if pageCount > 0 then [0] else [])
    else if selection.value == "last" then Some(if pageCount > 0 then [pageCount - 1] else [])
    else None
  }

  /** What the selection resolves to, in terms of the pages its tokens denote. */
  ghost predicate Resolves(selection: Option<string>, pageCount: nat, r: Result) {
    match Keyword(selection, pageCount)
    case Some(indices) => r == Pages(indices)
    case None =>
      var parts := Split(selection.value);
      && (r.Invalid? <==> exists token :: IsToken(parts, token) && !Sensible(token) && !Blurred(token))
      && (r.Invalid? ==> IsToken(parts, r.token) && !Sensible(r.token) && !Blurred(r.token))
      && (r.Pages? ==> Ascending(r.indices) && forall p :: p in r.indices <==> Selected(parts, pageCount, p))
  }

  /** The inner page loop. */
  method AddPages(chosen: set<int>, from: nat, to: nat, pageCount: nat) returns (more: set<int>)
    requires from >= 1
    ensures forall p :: p in more <==> p in chosen || (0 <= p < pageCount && from <= p + 1 <= to)
  {
    more := chosen;
    var page := from;
    while page <= Min(to, pageCount)
      invariant from <= page
      invariant page <= Min(to, pageCount) + 1 || page == from
      invariant forall p :: p in more <==> p in chosen || (0 <= p < pageCount && from <= p + 1 <= to && p + 1 < page)
    {
      more := more + {page - 1};
      page := page + 1;
    }
  }

  /** `chosen` are the pages the list names so far, and every token so far makes sense. */
  ghost predicate ReadSoFar(parts: seq<string>, pageCount: nat, chosen: set<int>) {
    && (forall token :: IsToken(parts, token) ==> Sensible(token) || Blurred(token))
    && (forall p :: p in chosen <==> Selected(parts, pageCount, p))
  }

  lemma TokensGrow(parts: seq<string>, i: nat, token: string)
    requires i < |parts|
    ensures IsToken(parts[..i + 1], token) <==> IsToken(parts[..i], token) || (token != "" && token == Trim(parts[i]))
  {
    hide Trim;
    assert parts[..i + 1] == parts[..i] + [parts[i]];
    assert parts[..i + 1][i] == parts[i];
    assert forall j :: 0 <= j < i ==> parts[..i + 1][j] == parts[..i][j];
  }

  lemma SelectedGrows(parts: seq<string>, i: nat, pageCount: nat, p: int)
    requires i < |parts|
    ensures Selected(parts[..i + 1], pageCount, p) <==>
      Selected(parts[..i], pageCount, p)
      || (0 <= p < pageCount && Trim(parts[i]) != "" && Names(Trim(parts[i]), p + 1))
  {
    hide Trim, Names, IsToken;
    if 0 <= p < pageCount {
      if Selected(parts[..i], pageCount, p) {
        var token :| IsToken(parts[..i], token) && Names(token, p + 1);
        TokensGrow(parts, i, token);
      }
      if Selected(parts[..i + 1], pageCount, p) {
        var token :| IsToken(parts[..i + 1], token) && Names(token, p + 1);
        TokensGrow(parts, i, token);
      }
      TokensGrow(parts, i, Trim(parts[i]));
    }
  }

  /** Reading one more part: nothing for a blank one, the pages of its range for a token. */
  lemma ReadToken(parts: seq<string>, i: nat, pageCount: nat, chosen: set<int>, more: set<int>, from: nat, to: nat)
    requires i < |parts| && pageCount <= MAX_PAGES && ReadSoFar(parts[..i], pageCount, chosen)
    requires Trim(parts[i]) != "" ==> Meaning(Trim(parts[i])) == Some((from, to))
    requires forall p :: p in more <==>
      p in chosen || (Trim(parts[i]) != "" && 0 <= p < pageCount && from <= p + 1 <= to)
    ensures ReadSoFar(parts[..i + 1], pageCount, more)
  {
    hide Trim, Names, Sensible, Blurred, IsToken, Meaning, Selected;
    var t := Trim(parts[i]);
    MeaningDecides(t);
    forall token | IsToken(parts[..i + 1], token) ensures Sensible(token) || Blurred(token) {
      TokensGrow(parts, i, token);
    }
    forall p ensures p in more <==> Selected(parts[..i + 1], pageCount, p) {
      SelectedGrows(parts, i, pageCount, p);
      assert t != "" && 0 <= p < pageCount ==> (Names(t, p + 1) <==> from <= p + 1 <= to);
    }
  }

  /** The loop over the parts of a list. */
  method ResolveList(parts: seq<string>, pageCount: nat) returns (r: Result)
    requires pageCount <= MAX_PAGES
    ensures r.Invalid? ==> IsToken(parts, r.token) && !Sensible(r.token) && !Blurred(r.token)
    ensures r.Pages? ==> Ascending(r.indices) && forall p :: p in r.indices <==> Selected(parts, pageCount, p)
    ensures r.Pages? ==> forall token :: IsToken(parts, token) ==> Sensible(token) || Blurred(token)
  {
    hide Trim, Names, Sensible, Blurred, Meaning;
    var chosen: set<int> := {};
    for i := 0 to |parts|
      invariant ReadSoFar(parts[..i], pageCount, chosen)
    {
      hide ReadSoFar;
      var token := Trim(parts[i]);
      if token == "" {
        ReadToken(parts, i, pageCount, chosen, chosen, 0, 0);
      } else {
        var meaning := Meaning(token);
        if meaning.None? {
          MeaningDecides(token);
          assert IsToken(parts, token);
          return Invalid(token);
        }
        PositiveMeaning(token);
        var more := AddPages(chosen, meaning.value.0, meaning.value.1, pageCount);
        ReadToken(parts, i, pageCount, chosen, more, meaning.value.0, meaning.value.1);
        chosen := more;
      }
    }
    assert parts[..|parts|] == parts;
    var sorted := SortedMembers(chosen);
    r := Pages(sorted);
  }

  lemma PositiveMeaning(token: string)
    ensures Meaning(token).Some? ==> Meaning(token).value.0 >= 1
  {
    hide ScanRange, IsNumber, ToDouble;
  }

  method ResolvePages(selection: Option<string>, pageCount: nat) returns (r: Result)
    requires pageCount <= MAX_PAGES
    ensures Resolves(selection, pageCount, r)
    ensures selection == None || selection == Some("") || selection == Some("all") ==>
      r.Pages? && |r.indices| == pageCount && forall i :: 0 <= i < pageCount ==> r.indices[i] == i
    ensures selection == Some("first") ==> r == Pages(if pageCount > 0 then [0] else [])
    ensures selection == Some("last") ==> r == Pages(if pageCount > 0 then [pageCount - 1] else [])
  {
    hide Split, Sensible, Selected;
    var keyword := Keyword(selection, pageCount);
    if keyword.Some? {
      return Pages(keyword.value);
    }
    r := ResolveList(Split(selection.value), pageCount);
  }

  // ----- printing and resolving again ---------------------------------------------------------

  function Digit(n: nat): char
    requires n < 10
  {
    '0' + n as char
  }

  function Decimal(n: nat): string {
    if n < 10 then [Digit(n)] else Decimal(n / 10) + [Digit(n % 10)]
  }

  function Join(parts: seq<string>): string
    requires parts != []
  {
    if |parts| == 1 then parts[0] else parts[0] + ("," + Join(parts[1..]))
  }

  /** The pages, counted from one, separated by commas. */
  function Print(pages: seq<int>): string
    requires pages != [] && forall i :: 0 <= i < |pages| ==> pages[i] >= 0
  {
    Join(Decimals(pages))
  }

  function Decimals(pages: seq<int>): (parts: seq<string>)
    requires forall i :: 0 <= i < |pages| ==> pages[i] >= 0
    ensures |parts| == |pages| && forall i :: 0 <= i < |pages| ==> parts[i] == Decimal(pages[i] + 1)
  {
    seq(|pages|, i requires 0 <= i < |pages| => Decimal(pages[i] + 1))
  }

  lemma {:induction false} DecimalReads(n: nat)
    ensures IsNumber(Decimal(n)) && Value(Decimal(n)) == n
  {
    var s := Decimal(n);
    if n >= 10 {
      DecimalReads(n / 10);
      assert s[..|s| - 1] == Decimal(n / 10);
    } else {
      assert s[..0] == "";
      assert Value("") == 0;
    }
  }

  lemma {:induction false} CommaIs(a: string, rest: string)
    requires ',' !in a
    ensures Comma(a + ("," + rest)) == |a|
  {
    if a == "" {
    } else {
      assert (a + ("," + rest))[1..] == a[1..] + ("," + rest);
      CommaIs(a[1..], rest);
    }
  }

  lemma {:induction false} NoComma(a: string)
    requires ',' !in a
    ensures Comma(a) == |a|
  {
    if a == "" {
    } else {
      NoComma(a[1..]);
    }
  }

  lemma {:induction false} SplitJoin(parts: seq<string>)
    requires parts != [] && forall i :: 0 <= i < |parts| ==> ',' !in parts[i]
    ensures Split(Join(parts)) == parts
  {
    if |parts| == 1 {
      NoComma(parts[0]);
    } else {
      var rest := Join(parts[1..]);
      var s := parts[0] + ("," + rest);
      CommaIs(parts[0], rest);
      assert s[..|parts[0]|] == parts[0] && s[|parts[0]| + 1..] == rest;
      SplitJoin(parts[1..]);
    }
  }

  lemma NumbersAreTrim(s: string)
    requires IsNumber(s)
    ensures Trim(s) == s && ',' !in s
    ensures s != "all" && s != "first" && s != "last"
  {
    SpacesAndDigits(s[0]);
    SpacesAndDigits(s[|s| - 1]);
    SpaceRunIs("", s);
    assert "" + s == s && s[0..] == s;
    assert IsDigit(s[0]) && !IsDigit("all"[0]) && !IsDigit("first"[0]) && !IsDigit("last"[0]);
  }

  lemma PrintIsNoKeyword(parts: seq<string>)
    requires parts != [] && IsNumber(parts[0])
    ensures Join(parts) != "" && Join(parts) != "all" && Join(parts) != "first" && Join(parts) != "last"
  {
    assert Join(parts)[0] == parts[0][0];
    assert IsDigit(parts[0][0]);
  }

  // ----- writing any list and resolving it ------------------------------------------------------

  /** An item of a list as it may be written: nothing, a page, or a range with space around its dash. */
  datatype Item = Blank | One(page: nat) | Span(from: nat, to: nat, left: string, right: string)

  /** An item with the space around it. */
  datatype Spelled = Spelled(before: string, item: Item, after: string)

  predicate WellSpelled(x: Spelled) {
    && AllSpaces(x.before) && AllSpaces(x.after)
    && (x.item.Span? ==> AllSpaces(x.item.left) && AllSpaces(x.item.right))
  }

  function Written(item: Item): string {
    match item
    case Blank => ""
    case One(page) => Decimal(page)
    case Span(from, to, left, right) => Decimal(from) + Tail(left, right, Decimal(to))
  }

  function Text(x: Spelled): string {
    x.before + (Written(x.item) + x.after)
  }

  function Texts(xs: seq<Spelled>): (parts: seq<string>)
    ensures |parts| == |xs| && forall i :: 0 <= i < |xs| ==> parts[i] == Text(xs[i])
  {
    seq(|xs|, i requires 0 <= i < |xs| => Text(xs[i]))
  }

  /** The item is a page 0, a range from 0, or a reversed one whose ends differ as doubles. */
  predicate Faulty(item: Item) {
    match item
    case Blank => false
    case One(page) => page == 0
    case Span(from, to, _, _) => from == 0 || (to < from && ToDouble(from) != ToDouble(to))
  }

  predicate Covers(item: Item, page: nat) {
    match item
    case Blank => false
    case One(n) => page == n
    case Span(from, to, _, _) => from <= page <= to
  }

  lemma {:induction false} TrimEndIs(t: string, after: string)
    requires AllSpaces(after) && (t != "" ==> !IsSpace(t[|t| - 1]))
    ensures TrimEnd(t + after) == t
  {
    hide IsSpace;
    if after == "" {
      assert t + after == t;
    } else {
      var n := |after| - 1;
      assert (t + after)[|t + after| - 1] == after[n];
      assert (t + after)[..|t + after| - 1] == t + after[..n];
      TrimEndIs(t, after[..n]);
    }
  }

  lemma {:induction false} AllSpaceRun(s: string)
    requires AllSpaces(s)
    ensures SpaceRun(s) == |s|
  {
    SpaceRunIs(s, "");
    assert s + "" == s;
  }

  lemma TrimPadded(before: string, t: string, after: string)
    requires AllSpaces(before) && AllSpaces(after)
    requires t != "" ==> !IsSpace(t[0]) && !IsSpace(t[|t| - 1])
    ensures Trim(before + (t + after)) == t
  {
    hide IsSpace, TrimEnd;
    if t == "" {
      assert before + (t + after) == before + after;
      AllSpaceRun(before + after);
      TrimEndIs("", "");
      assert (before + after)[|before + after|..] == "" + "";
    } else {
      assert (t + after)[0] == t[0];
      SpaceRunIs(before, t + after);
      assert (before + (t + after))[|before|..] == t + after;
      TrimEndIs(t, after);
    }
  }

  /** The characters of a number, and of a range. */
  predicate Plain(c: char) {
    IsDigit(c) || c == '-' || IsSpace(c)
  }

  lemma PlainTail(left: string, right: string, b: string)
    requires AllSpaces(left) && AllSpaces(right) && IsNumber(b)
    ensures forall c :: c in Tail(left, right, b) ==> Plain(c)
  {
    hide IsDigit, IsSpace;
  }

  lemma WrittenShape(item: Item)
    requires WellSpelled(Spelled("", item, "")) && !item.Blank?
    ensures var t := Written(item); t != "" && IsDigit(t[0]) && IsDigit(t[|t| - 1]) && forall c :: c in t ==> Plain(c)
  {
    hide IsDigit, IsSpace;
    if item.One? {
      DecimalReads(item.page);
    } else {
      DecimalReads(item.from);
      DecimalReads(item.to);
      PlainTail(item.left, item.right, Decimal(item.to));
    }
  }

  lemma WrittenDenotes(item: Item) returns (from: nat, to: nat)
    requires WellSpelled(Spelled("", item, "")) && !item.Blank?
    ensures Denotes(Written(item), from, to)
    ensures Faulty(item) <==> !(1 <= from <= to || (to < from && ToDouble(from) == ToDouble(to)))
    ensures forall page: nat :: Covers(item, page) <==> from <= page <= to
  {
    hide IsDigit, IsSpace, ToDouble, Decimal, Value, IsNumber;
    if item.One? {
      DecimalReads(item.page);
      from, to := item.page, item.page;
    } else {
      DecimalReads(item.from);
      DecimalReads(item.to);
      from, to := item.from, item.to;
      assert IsRange(Written(item), Decimal(from), Decimal(to));
      ZeroIsNoBlur(from, to);
    }
  }

  lemma ZeroIsNoBlur(from: nat, to: nat)
    ensures to < from && ToDouble(from) == ToDouble(to) ==> from > 0
  {
  }

  /** What is written is read: the token is accepted unless faulty, and names the pages it covers. */
  lemma WrittenIsRead(item: Item)
    requires WellSpelled(Spelled("", item, "")) && !item.Blank?
    ensures var t := Written(item);
      && (Sensible(t) || Blurred(t) <==> !Faulty(item))
      && forall page: nat :: Names(t, page) <==> Covers(item, page)
  {
    var from, to := WrittenDenotes(item);
    var token := Written(item);
    hide Denotes, ToDouble, Written, Faulty, Covers;
    forall f: nat, t: nat | Denotes(token, f, t) ensures f == from && t == to {
      DenotesOnce(token, from, to, f, t);
    }
  }

  /** One part of the list, trimmed, is its item as written, and holds no comma. */
  lemma PartIsItem(x: Spelled)
    requires WellSpelled(x)
    ensures Trim(Text(x)) == Written(x.item) && ',' !in Text(x) && (x.item.Blank? <==> Written(x.item) == "")
    ensures Text(x) != "" ==> Plain(Text(x)[0])
  {
    var t := Written(x.item);
    if !x.item.Blank? {
      WrittenShape(x.item);
      SpacesAndDigits(t[0]);
      SpacesAndDigits(t[|t| - 1]);
    }
    hide IsDigit, Trim, Written;
    assert !Plain(',') by {
      CommaIsNotPlain();
    }
    TrimPadded(x.before, t, x.after);
    hide IsSpace;
    forall c | c in Text(x) ensures Plain(c) {
    }
  }

  lemma CommaIsNotPlain()
    ensures !Plain(',') && !Plain('a') && !Plain('f') && !Plain('l')
  {
  }

  /** Trimmed, the part is the item as written, and it means what the item says. */
  ghost predicate ReadsAs(part: string, item: Item) {
    var t := Trim(part);
    && (item.Blank? <==> t == "")
    && (!item.Blank? ==>
          && (Sensible(t) || Blurred(t) <==> !Faulty(item))
          && forall page: nat :: Names(t, page) <==> Covers(item, page))
  }

  lemma PartReads(x: Spelled)
    requires WellSpelled(x)
    ensures ReadsAs(Text(x), x.item) && ',' !in Text(x)
    ensures Text(x) != "" ==> Plain(Text(x)[0])
  {
    PartIsItem(x);
    if !x.item.Blank? {
      WrittenIsRead(x.item);
    }
    hide Trim, Written, Sensible, Blurred, Names, Faulty, Covers;
  }

  lemma SpelledIsNoKeyword(parts: seq<string>)
    requires parts != [] && Join(parts) != "" && (parts[0] != "" ==> Plain(parts[0][0]))
    ensures Join(parts) != "all" && Join(parts) != "first" && Join(parts) != "last"
  {
    CommaIsNotPlain();
    hide Plain;
    assert Join(parts)[0] == if parts[0] == "" then ',' else parts[0][0];
  }

  lemma ReadItems(xs: seq<Spelled>, parts: seq<string>, pageCount: nat, r: Result)
    requires |parts| == |xs| && forall i :: 0 <= i < |xs| ==> ReadsAs(parts[i], xs[i].item)
    requires r.Invalid? <==> exists token :: IsToken(parts, token) && !Sensible(token) && !Blurred(token)
    requires r.Pages? ==> Ascending(r.indices) && forall p :: p in r.indices <==> Selected(parts, pageCount, p)
    ensures r.Invalid? <==> exists i :: 0 <= i < |xs| && Faulty(xs[i].item)
    ensures r.Pages? ==> forall p ::
      p in r.indices <==> 0 <= p < pageCount && exists i :: 0 <= i < |xs| && Covers(xs[i].item, p + 1)
  {
    hide Trim, Written, Sensible, Blurred, Names, ToDouble;
    if i :| 0 <= i < |xs| && Faulty(xs[i].item) {
      assert IsToken(parts, Trim(parts[i]));
    }
    if r.Pages? {
      forall p | 0 <= p < pageCount
        ensures Selected(parts, pageCount, p) <==> exists i :: 0 <= i < |xs| && Covers(xs[i].item, p + 1)
      {
        if i :| 0 <= i < |xs| && Covers(xs[i].item, p + 1) {
          assert IsToken(parts, Trim(parts[i])) && Names(Trim(parts[i]), p + 1);
        }
      }
    }
  }

  /**
   * Any list, written with any white space around its items and their dashes and with any empty
   * items: it is rejected exactly when an item is faulty, and otherwise resolves to exactly the
   * existing pages that its items cover.
   */
  lemma WrittenListResolves(xs: seq<Spelled>, pageCount: nat, r: Result)
    requires xs != [] && (forall i :: 0 <= i < |xs| ==> WellSpelled(xs[i])) && Join(Texts(xs)) != ""
    requires Resolves(Some(Join(Texts(xs))), pageCount, r)
    ensures r.Invalid? <==> exists i :: 0 <= i < |xs| && Faulty(xs[i].item)
    ensures r.Pages? ==> Ascending(r.indices) && forall p ::
      p in r.indices <==> 0 <= p < pageCount && exists i :: 0 <= i < |xs| && Covers(xs[i].item, p + 1)
  {
    var parts := Texts(xs);
    hide WellSpelled, ReadsAs, Join, Texts, Split, Sensible, Blurred, Selected, IsToken, Faulty, Covers, Plain;
    forall i | 0 <= i < |xs| ensures ReadsAs(parts[i], xs[i].item) && ',' !in parts[i] {
      PartReads(xs[i]);
    }
    PartReads(xs[0]);
    SpelledIsNoKeyword(parts);
    SplitJoin(parts);
    ReadItems(xs, parts, pageCount, r);
  }

  function Singles(pages: seq<int>): (xs: seq<Spelled>)
    requires forall i :: 0 <= i < |pages| ==> pages[i] >= 0
    ensures |xs| == |pages| && forall i :: 0 <= i < |xs| ==> xs[i] == Spelled("", One(pages[i] + 1), "")
  {
    seq(|pages|, i requires 0 <= i < |pages| && pages[i] >= 0 => Spelled("", One(pages[i] + 1), ""))
  }

  lemma SinglesPrint(pages: seq<int>)
    requires forall i :: 0 <= i < |pages| ==> pages[i] >= 0
    ensures Texts(Singles(pages)) == Decimals(pages)
  {
    hide Decimal;
    forall i | 0 <= i < |pages| ensures Texts(Singles(pages))[i] == Decimals(pages)[i] {
      assert "" + (Decimal(pages[i] + 1) + "") == Decimal(pages[i] + 1);
    }
  }

  lemma SinglesCover(pages: seq<int>, pageCount: nat, p: int)
    requires forall i :: 0 <= i < |pages| ==> 0 <= pages[i] < pageCount
    ensures var xs := Singles(pages);
      p in pages <==> 0 <= p < pageCount && exists i :: 0 <= i < |xs| && Covers(xs[i].item, p + 1)
  {
    hide Singles;
    var xs := Singles(pages);
    if p in pages {
      var i :| 0 <= i < |pages| && pages[i] == p;
      assert Covers(xs[i].item, p + 1);
    }
  }

  lemma SinglesAreFine(pages: seq<int>)
    requires forall i :: 0 <= i < |pages| ==> pages[i] >= 0
    ensures forall i :: 0 <= i < |pages| ==> WellSpelled(Singles(pages)[i]) && !Faulty(Singles(pages)[i].item)
  {
    hide Singles, ToDouble;
  }

  /** For any non-empty ascending list of pages, printing it and resolving gives the list back. */
  lemma PrintThenResolve(pages: seq<int>, pageCount: nat, r: Result)
    requires pages != [] && Ascending(pages) && forall i :: 0 <= i < |pages| ==> 0 <= pages[i] < pageCount
    requires Resolves(Some(Print(pages)), pageCount, r)
    ensures r == Pages(pages)
  {
    DecimalReads(pages[0] + 1);
    PrintIsNoKeyword(Decimals(pages));
    SinglesPrint(pages);
    SinglesAreFine(pages);
    hide *;
    WrittenListResolves(Singles(pages), pageCount, r);
    forall p ensures r.Pages? ==> (p in pages <==> p in r.indices) {
      SinglesCover(pages, pageCount, p);
    }
    AscendingUnique(r.indices, pages);
  }

  /** A single number beyond the last page resolves to no page at all. */
  lemma LoneNumber(page: nat, pageCount: nat)
    requires page > pageCount
    ensures Resolves(Some(Decimal(page)), pageCount, Pages([]))
  {
    var s := Decimal(page);
    DecimalReads(page);
    NumbersAreTrim(s);
    SplitJoin([s]);
    assert Join([s]) == s;
    PrintIsNoKeyword([s]);
    hide Decimal, Value, IsNumber, Trim, Split, Names, Sensible, Blurred;
    forall token | IsToken([s], token) ensures token == s {
    }
    NumberIsSensible(s, page);
    forall p ensures !Selected([s], pageCount, p) {
      if 0 <= p < pageCount {
        NumberNames(s, p + 1);
      }
    }
  }

  lemma NumberIsSensible(token: string, page: nat)
    requires IsNumber(token) && Value(token) == page >= 1
    ensures Sensible(token)
  {
    NumberNames(token, page);
  }

  lemma NumberNames(token: string, page: nat)
    requires IsNumber(token) && Value(token) >= 1
    ensures token != "" && Sensible(token) && (Names(token, page) <==> page == Value(token))
  {
    hide Value;
    assert Denotes(token, Value(token), Value(token));
    forall f: nat, t: nat | Denotes(token, f, t) ensures f == t == Value(token) {
      DenotesOnce(token, Value(token), Value(token), f, t);
    }
  }
}
