/**
  The admin data table: how one cell value is shown (signature link,
  truncated text with a "View More" link, markup, or the value itself), the
  full-content modal, and the go-to-page input.
 */
module CustomTable {
  import opened Js
  import opened Options

  /** Cell text starting with this is a drawn signature. */
  const ImagePrefix: string := "data:image/png;base64"

  /** Longer cell text is cut to this many characters. */
  const MaxShown: nat := 100

  const InitialPageIndex: int := 0
  const InitialPageSize: int := 10
  const PageSizeOptions: seq<int> := [10, 20, 30, 40, 50]

  /** What a cell shows. */
  datatype Cell =
    | SignatureLink(content: string)             // "View Signature", opening `content`
    | Truncated(shown: string, content: string)  // `shown` then "...", and "View More" opening `content`
    | Markup(html: string)                       // `html` rendered as HTML
    | Plain(value: Value)                        // the value as it is

  /** Which body the modal has. */
  datatype ModalKind = ImageModal | HtmlModal

  /** `s.startsWith("data:image/png;base64")`. */
  predicate HasImagePrefix(s: string)
  {
    ImagePrefix <= s
  }

  /** `[a-z]` under the `i` flag. */
  predicate IsAsciiLetter(c: char)
  {
    'a' <= c <= 'z' || 'A' <= c <= 'Z'
  }

  /**
    A tag of `/<\/?[a-z][\s\S]*>/i` starting at position i: `<`, optionally `/`,
    a letter at k, and a `>` at some j after the letter.
   */
  ghost predicate TagAt(s: string, i: int)
    requires 0 <= i < |s|
  {
    s[i] == '<' &&
    exists k, j :: i < k < j < |s| && (k == i + 1 || (k == i + 2 && s[i + 1] == '/')) &&
      IsAsciiLetter(s[k]) && s[j] == '>'
  }

  /** Reference reading of the regular expression: a tag starts somewhere in `s`. */
  ghost predicate LooksLikeMarkup(s: string)
  {
    exists i :: 0 <= i < |s| && TagAt(s, i)
  }

  /** The rest of a tag after its `<`: an optional `/`, a letter, and later a `>`. */
  predicate TagFollows(t: string)
  {
    (|t| >= 1 && IsAsciiLetter(t[0]) && '>' in t[1..]) ||
    (|t| >= 2 && t[0] == '/' && IsAsciiLetter(t[1]) && '>' in t[2..])
  }

  /** The regular expression's test: try each position in turn for a `<` that starts a tag. */
  function TagTest(s: string): bool
    decreases |s|
  {
    if s == [] then false
    else (s[0] == '<' && TagFollows(s[1..])) || TagTest(s[1..])
  }

  /** A tag at position 0 is exactly a leading `<` followed by what `TagFollows` finds. */
  lemma TagAtStart(s: string)
    requires |s| > 0
    ensures (s[0] == '<' && TagFollows(s[1..])) <==> TagAt(s, 0)
  {
  }

  /** Dropping the first character moves every later tag one position left. */
  lemma TagAtShift(s: string, i: int)
    requires 1 <= i < |s|
    ensures TagAt(s, i) <==> TagAt(s[1..], i - 1)
  {
  }

  /** The regular expression's test agrees with its reference reading. */
  lemma {:induction false} TagTestCorrect(s: string)
    ensures TagTest(s) <==> LooksLikeMarkup(s)
    decreases |s|
  {
    if s != [] {
      var t := s[1..];
      TagTestCorrect(t);
      TagAtStart(s);
      if LooksLikeMarkup(t) {
        var i :| 0 <= i < |t| && TagAt(t, i);
        TagAtShift(s, i + 1);
      }
      if LooksLikeMarkup(s) {
        var i :| 0 <= i < |s| && TagAt(s, i);
        if i > 0 {
          TagAtShift(s, i);
        }
      }
    }
  }

  /**
    `renderCellContent`: the branches in the source's order. Any other value
    than a string, and a short string without a tag, is returned as it is.
   */
  function Render(content: Value): (r: Cell)
    ensures r.SignatureLink? <==> content.Str? && HasImagePrefix(content.s)
    ensures r.Truncated? <==> content.Str? && !HasImagePrefix(content.s) && |content.s| > MaxShown
    ensures r.Markup? <==>
      content.Str? && !HasImagePrefix(content.s) && |content.s| <= MaxShown && LooksLikeMarkup(content.s)
    ensures r.SignatureLink? ==> r.content == content.s
    ensures r.Truncated? ==> |r.shown| == MaxShown && r.shown <= content.s && r.content == content.s
    ensures r.Markup? ==> r.html == content.s
    ensures r.Plain? ==> r.value == content
  {
    match content
    case Str(s) =>
      if HasImagePrefix(s) then SignatureLink(s)
      else if |s| > MaxShown then Truncated(s[..MaxShown], s)
      else if (TagTestCorrect(s); TagTest(s)) then Markup(s)
      else Plain(content)
    case _ => Plain(content)
  }

  /** The length test comes before the tag test: long text with tags is truncated, not rendered. */
  lemma LengthBeforeMarkup(s: string)
    requires !HasImagePrefix(s) && |s| > MaxShown && LooksLikeMarkup(s)
    ensures Render(Str(s)) == Truncated(s[..MaxShown], s)
  {
  }

  /** The signature test comes first: prefixed text is a signature whatever its length or tags. */
  lemma SignatureFirst(s: string)
    requires HasImagePrefix(s)
    ensures Render(Str(s)) == SignatureLink(s)
  {
  }

  /** The modal's body for the content it holds. */
  function ModalFor(content: string): ModalKind
  {
    if HasImagePrefix(content) then ImageModal else HtmlModal
  }

  /** The content a cell's link opens, if it has one. */
  function LinkTarget(c: Cell): Option<string>
  {
    match c
    case SignatureLink(content) => Some(content)
    case Truncated(_, content) => Some(content)
    case _ => None
  }

  /** Following a cell's link shows the image modal exactly for signatures; truncated text always opens as HTML. */
  lemma LinkOpensMatchingModal(v: Value)
    requires LinkTarget(Render(v)).Some?
    ensures ModalFor(LinkTarget(Render(v)).value) == ImageModal <==> Render(v).SignatureLink?
    ensures LinkTarget(Render(v)).value == v.s
  {
  }

  /** The go-to-page input: an empty value goes to the first page, page n to index n - 1. */
  function GotoPageIndex(entered: Option<int>): (index: int)
    ensures entered.None? ==> index == 0
    ensures entered.Some? ==> index + 1 == entered.value
  {
    match entered
    case None => 0
    case Some(n) => n - 1
  }

  /** The page number shown for a page index. */
  function DisplayedPage(index: int): int
  {
    index + 1
  }

  /** Entering a page number and reading back the shown number agree; the first page is shown as 1. */
  lemma GotoPageRoundTrip(n: int)
    ensures DisplayedPage(GotoPageIndex(Some(n))) == n
    ensures DisplayedPage(GotoPageIndex(None)) == 1 == DisplayedPage(InitialPageIndex)
  {
  }

  /** The initial page size is the smallest offered size, and the offered sizes rise in steps of ten. */
  lemma PageSizeOptionsShape()
    ensures InitialPageSize == PageSizeOptions[0]
    ensures forall i :: 0 <= i < |PageSizeOptions| ==> PageSizeOptions[i] == 10 * (i + 1)
  {
  }

  /** The modal state of the table. */
  class TableModal {
    var isModalOpen: bool
    var modalContent: string

    constructor ()
      ensures !isModalOpen && modalContent == ""
      ensures ModalFor(modalContent) == HtmlModal
    {
      isModalOpen := false;
      modalContent := "";
    }

    /** `handleViewMore`: hold the full content and open the modal. */
    method HandleViewMore(content: string)
      modifies this
      ensures modalContent == content && isModalOpen
      ensures Shows() == ModalFor(content)
    {
      modalContent := content;
      isModalOpen := true;
    }

    /** Closing the modal keeps its content. */
    method Close()
      modifies this`isModalOpen
      ensures !isModalOpen
    {
      isModalOpen := false;
    }

    /** The body the modal renders: the image for a signature, HTML otherwise. */
    function Shows(): ModalKind
      reads this
    {
      ModalFor(modalContent)
    }
  }
}
