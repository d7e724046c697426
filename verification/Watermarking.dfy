/**
 * Stamping a watermark: the list of pages it names is resolved against the pages of the rendered
 * file, and a list that names none of them leaves the file alone. Also what a render request asks
 * for, and which file it is entitled to.
 */
module Watermarking {
  import opened Common
  import PageSelection

  /** A PDF: how many pages it has, which of them were stamped, and whether it was encrypted. */
  datatype Pdf = Pdf(pages: nat, stamped: seq<int>, encrypted: bool, spoiled: bool)

  function Plain(pages: nat): Pdf {
    Pdf(pages, [], false, false)
  }

  /** Stamps these pages. Stamping an encrypted file spoils it. */
  function Stamp(pdf: Pdf, indices: seq<int>): Pdf {
    if indices == [] then pdf
    else if pdf.encrypted then pdf.(spoiled := true)
    else pdf.(stamped := indices)
  }

  function Encrypt(pdf: Pdf): Pdf {
    pdf.(encrypted := true)
  }

  /** An optional field of a request body, which validation lets be null. */
  datatype Field<+T> = Absent | Null | Given(value: T)

  /** Passwords and permissions; nothing here depends on what they are. */
  datatype Protection = Protection

  /** The pages to stamp (None: not given, or null), and whether there is anything that can be drawn. */
  datatype Watermark = Watermark(pages: Option<string>, drawable: bool)

  /** What the caller asked for. */
  datatype Request = Request(protection: Field<Protection>, watermark: Field<Watermark>)

  // ----- what a watermark comes to ------------------------------------------------------------

  /** The list is rejected: some token of it makes no sense. */
  ghost predicate Nonsense(pages: Option<string>, pageCount: nat) {
    PageSelection.Keyword(pages, pageCount).None?
    && exists token :: PageSelection.IsToken(PageSelection.Split(pages.value), token)
                       && !PageSelection.Sensible(token) && !PageSelection.Blurred(token)
  }

  /** The list, or keyword, names a page of a document of that many pages. */
  ghost predicate NamesAPage(pages: Option<string>, pageCount: nat) {
    if PageSelection.Keyword(pages, pageCount).Some? then pageCount > 0
    else exists p :: PageSelection.Selected(PageSelection.Split(pages.value), pageCount, p)
  }

  /** A watermark was given, and its list names a page of the document. */
  ghost predicate Shows(watermark: Field<Watermark>, pageCount: nat) {
    watermark.Given? && NamesAPage(watermark.value.pages, pageCount)
  }

  /** The request fails at stamping: a list without sense, or nothing to draw where it is needed. */
  ghost predicate Refused(watermark: Field<Watermark>, pageCount: nat) {
    watermark.Given?
    && (Nonsense(watermark.value.pages, pageCount) || (Shows(watermark, pageCount) && !watermark.value.drawable))
  }

  /** `stamps` are the pages to stamp: those the list resolves to, or none without a watermark. */
  ghost predicate Marks(watermark: Field<Watermark>, pageCount: nat, stamps: seq<int>) {
    if watermark.Given? then
      PageSelection.Resolves(watermark.value.pages, pageCount, PageSelection.Pages(stamps))
      && (stamps != [] ==> watermark.value.drawable)
    else stamps == []
  }

  /** The file a request is entitled to. */
  ghost predicate Entitled(q: Request, pdf: Pdf) {
    Marks(q.watermark, pdf.pages, pdf.stamped) && pdf.encrypted == q.protection.Given? && !pdf.spoiled
  }

  /** Stamping first and encrypting last gives the file; the other order spoils it. */
  lemma OrderMatters(q: Request, pages: nat, stamps: seq<int>)
    requires q.protection.Given? && stamps != [] && Marks(q.watermark, pages, stamps)
    ensures Entitled(q, Encrypt(Stamp(Plain(pages), stamps)))
    ensures Stamp(Encrypt(Plain(pages)), stamps).spoiled && !Entitled(q, Stamp(Encrypt(Plain(pages)), stamps))
  {
    hide Marks;
  }

  lemma KeywordNames(pages: Option<string>, pageCount: nat)
    requires PageSelection.Keyword(pages, pageCount).Some?
    ensures PageSelection.Keyword(pages, pageCount).value != [] <==> pageCount > 0
  {
  }

  lemma ResolvedNames(pages: Option<string>, pageCount: nat, stamps: seq<int>)
    requires PageSelection.Resolves(pages, pageCount, PageSelection.Pages(stamps))
    ensures stamps != [] <==> NamesAPage(pages, pageCount)
    ensures !Nonsense(pages, pageCount)
  {
    if PageSelection.Keyword(pages, pageCount).Some? {
      KeywordNames(pages, pageCount);
    } else {
      hide PageSelection.Selected, PageSelection.IsToken;
      assert stamps != [] ==> stamps[0] in stamps;
    }
  }

  /** A file is stamped if and only if a watermark was given and its list names one of the pages. */
  lemma StampedIff(watermark: Field<Watermark>, pageCount: nat, stamps: seq<int>)
    requires Marks(watermark, pageCount, stamps)
    ensures stamps != [] <==> Shows(watermark, pageCount)
    ensures !Refused(watermark, pageCount)
  {
    hide PageSelection.Resolves;
    if watermark.Given? {
      ResolvedNames(watermark.value.pages, pageCount, stamps);
    }
  }

  /** There is only one answer. */
  lemma MarksOnce(watermark: Field<Watermark>, pageCount: nat, a: seq<int>, b: seq<int>)
    requires Marks(watermark, pageCount, a) && Marks(watermark, pageCount, b)
    ensures a == b
  {
    if watermark.Given? && PageSelection.Keyword(watermark.value.pages, pageCount).None? {
      hide PageSelection.Selected, PageSelection.IsToken;
      AscendingUnique(a, b);
    }
  }

  /** The number of a page beyond the end is a list that makes sense and names no page. */
  lemma BeyondTheEnd(page: nat, pageCount: nat)
    requires page > pageCount
    ensures Marks(Given(Watermark(Some(PageSelection.Decimal(page)), true)), pageCount, [])
    ensures !NamesAPage(Some(PageSelection.Decimal(page)), pageCount)
  {
    PageSelection.LoneNumber(page, pageCount);
    ResolvedNames(Some(PageSelection.Decimal(page)), pageCount, []);
  }

  /** `WatermarkService.apply`; `ok` says whether loading, drawing and saving work. */
  method Apply(pdf: Pdf, watermark: Watermark, ok: bool) returns (r: Option<Pdf>, ghost stamps: seq<int>)
    requires pdf.pages <= PageSelection.MAX_PAGES
    ensures r.Some? <==> ok && !Refused(Given(watermark), pdf.pages)
    ensures !Refused(Given(watermark), pdf.pages) ==> Marks(Given(watermark), pdf.pages, stamps)
    ensures r.Some? ==> r.value == Stamp(pdf, stamps)
  {
    hide PageSelection.Selected, PageSelection.IsToken;
    stamps := [];
    var resolved := PageSelection.ResolvePages(watermark.pages, pdf.pages);
    match resolved
    case Invalid(_) =>
      r := None;
    case Pages(indices) =>
      stamps := indices;
      ResolvedNames(watermark.pages, pdf.pages, indices);
      if !ok || (indices != [] && !watermark.drawable) {
        r := None;
      } else {
        r := Some(Stamp(pdf, indices));
      }
  }
}
