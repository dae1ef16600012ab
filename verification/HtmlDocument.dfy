/** The documents the HTML validator is to accept, as trees, and the events each is read as. */
module HtmlDocument {

  /** The lower-cased tags; the tokenizer that produces the events is not part of this model. */
  const HTML_VOID_ELEMENTS: set<string> :=
    {"area", "br", "col", "hr", "img", "input", "link", "meta", "param", "source", "track", "wbr"}
  const HTML_FORBIDDEN_ELEMENTS: set<string> :=
    {"applet", "base", "embed", "frame", "frameset", "iframe", "object", "portal"}

  /** What the parser hands over.  `attributesOk` is the verdict of the attribute checks, `codeOk` that
      of the script or style inspection, `blank` whether stripping the text leaves nothing. */
  datatype Event =
    | StartTag(tag: string, attributesOk: bool, selfClosing: bool)
    | EndTag(tag: string)
    | Data(text: string, blank: bool, codeOk: bool)
    | Comment
    | Decl(doctype: bool)
    | ProcessingInstruction
    | UnknownDecl

  datatype Limits = Limits(maxNesting: nat, maxTokens: nat)

  /** Sibling nodes, each with its children and the siblings after it. */
  datatype Forest =
    | Nil
    | Element(tag: string, children: Forest, next: Forest)
    | Void(tag: string, selfClosing: bool, next: Forest)
    | Text(text: string, blank: bool, codeOk: bool, next: Forest)
    | Note(next: Forest)

  function Flatten(f: Forest): seq<Event> {
    match f
    case Nil => []
    case Element(tag, children, next) => [StartTag(tag, true, false)] + Flatten(children) + [EndTag(tag)] + Flatten(next)
    case Void(tag, selfClosing, next) => [StartTag(tag, true, selfClosing)] + Flatten(next)
    case Text(text, blank, codeOk, next) => [Data(text, blank, codeOk)] + Flatten(next)
    case Note(next) => [Comment] + Flatten(next)
  }

  // The rules

  predicate TagAllowed(tag: string) {
    tag !in HTML_FORBIDDEN_ELEMENTS && tag != "form" && tag != "html"
  }

  predicate TextAllowed(parent: string, text: string, codeOk: bool) {
    text != "" ==> if parent == "script" || parent == "style" then codeOk else '<' !in text
  }

  /** Below `path`: allowed tags, no content in void elements, texts fit their parent, no element deeper
      than the limit, and `head` and `body` nowhere but directly in the root. */
  predicate ForestOk(f: Forest, path: seq<string>, maxNesting: nat)
    requires path != []
  {
    match f
    case Nil => true
    case Element(tag, children, next) =>
      && TagAllowed(tag) && tag !in HTML_VOID_ELEMENTS && |path| < maxNesting
      && (tag == "head" || tag == "body" ==> path == ["html"])
      && ForestOk(children, path + [tag], maxNesting) && ForestOk(next, path, maxNesting)
    case Void(tag, _, next) => TagAllowed(tag) && tag in HTML_VOID_ELEMENTS && ForestOk(next, path, maxNesting)
    case Text(text, _, codeOk, next) => TextAllowed(path[|path| - 1], text, codeOk) && ForestOk(next, path, maxNesting)
    case Note(next) => ForestOk(next, path, maxNesting)
  }

  /** The element tags at the top of a forest, in order. */
  function Outline(f: Forest): seq<string> {
    match f
    case Nil => []
    case Element(tag, _, next) => [tag] + Outline(next)
    case Void(_, _, next) => Outline(next)
    case Text(_, _, _, next) => Outline(next)
    case Note(next) => Outline(next)
  }

  /** At most one `head`, at most one `body`, and no `head` after the `body`. */
  predicate HeadThenBody(outline: seq<string>) {
    && (forall i, j :: 0 <= i < j < |outline| ==> !(outline[i] == "head" && outline[j] == "head"))
    && (forall i, j :: 0 <= i < j < |outline| ==> !(outline[i] == "body" && (outline[j] == "body" || outline[j] == "head")))
  }

  /** A document: what surrounds the root, and the root's children. */
  datatype Document = Document(before: seq<Event>, children: Forest, after: seq<Event>)

  function DocumentEvents(d: Document): seq<Event> {
    d.before + [StartTag("html", true, false)] + Flatten(d.children) + [EndTag("html")] + d.after
  }

  predicate Outside(e: Event) {
    e == Comment || e == Decl(true) || (e.Data? && (e.text == "" || e.blank))
  }

  function Doctypes(events: seq<Event>): nat {
    if events == [] then 0 else (if events[0].Decl? then 1 else 0) + Doctypes(events[1..])
  }

  predicate Counted(e: Event) {
    e.StartTag? || e.EndTag? || e.Decl?
  }

  /** The tokens that count towards the limit. */
  function Tokens(events: seq<Event>): nat {
    if events == [] then 0 else (if Counted(events[0]) then 1 else 0) + Tokens(events[1..])
  }

  /** One root named `html`; around it only blank text, comments and at most one doctype. */
  ghost predicate DocumentOk(d: Document, limits: Limits) {
    && (forall e :: e in d.before ==> Outside(e)) && (forall e :: e in d.after ==> Outside(e))
    && Doctypes(d.before) + Doctypes(d.after) <= 1
    && 1 <= limits.maxNesting && ForestOk(d.children, ["html"], limits.maxNesting) && HeadThenBody(Outline(d.children))
    && Tokens(DocumentEvents(d)) <= limits.maxTokens
  }

  lemma {:induction false} TokensConcat(a: seq<Event>, b: seq<Event>)
    ensures Tokens(a + b) == Tokens(a) + Tokens(b)
    decreases |a|
  {
    if a == [] {
      assert a + b == b;
    } else {
      assert (a + b)[1..] == a[1..] + b;
      TokensConcat(a[1..], b);
    }
  }

  /** Elements with an end tag, and void elements. */
  function Elements(f: Forest): nat {
    match f
    case Nil => 0
    case Element(_, children, next) => 1 + Elements(children) + Elements(next)
    case Void(_, _, next) => Elements(next)
    case Text(_, _, _, next) => Elements(next)
    case Note(next) => Elements(next)
  }

  function Voids(f: Forest): nat {
    match f
    case Nil => 0
    case Element(_, children, next) => Voids(children) + Voids(next)
    case Void(_, _, next) => 1 + Voids(next)
    case Text(_, _, _, next) => Voids(next)
    case Note(next) => Voids(next)
  }

  lemma {:induction false} ForestTokens(f: Forest)
    ensures Tokens(Flatten(f)) == 2 * Elements(f) + Voids(f)
  {
    match f
    case Nil =>
    case Element(tag, children, next) =>
      ForestTokens(children);
      ForestTokens(next);
      TokensConcat([StartTag(tag, true, false)] + Flatten(children) + [EndTag(tag)], Flatten(next));
      TokensConcat([StartTag(tag, true, false)] + Flatten(children), [EndTag(tag)]);
      TokensConcat([StartTag(tag, true, false)], Flatten(children));
    case Void(tag, selfClosing, next) =>
      ForestTokens(next);
      TokensConcat([StartTag(tag, true, selfClosing)], Flatten(next));
    case Text(text, blank, codeOk, next) =>
      ForestTokens(next);
      TokensConcat([Data(text, blank, codeOk)], Flatten(next));
    case Note(next) =>
      ForestTokens(next);
      TokensConcat([Comment], Flatten(next));
  }

  lemma {:induction false} OutsideTokens(events: seq<Event>)
    requires forall e :: e in events ==> Outside(e)
    ensures Tokens(events) == Doctypes(events)
    decreases |events|
  {
    if events != [] {
      assert events[0] in events;
      OutsideTokens(events[1..]);
    }
  }

  /** What counts towards the token limit: two for each element, the root included, one for each void element
      and each doctype; texts and comments are free. */
  lemma DocumentTokens(d: Document)
    requires (forall e :: e in d.before ==> Outside(e)) && forall e :: e in d.after ==> Outside(e)
    ensures Tokens(DocumentEvents(d)) ==
            2 * (1 + Elements(d.children)) + Voids(d.children) + Doctypes(d.before) + Doctypes(d.after)
  {
    OutsideTokens(d.before);
    OutsideTokens(d.after);
    ForestTokens(d.children);
    var html, end := [StartTag("html", true, false)], [EndTag("html")];
    TokensConcat(d.before + html + Flatten(d.children) + end, d.after);
    TokensConcat(d.before + html + Flatten(d.children), end);
    TokensConcat(d.before + html, Flatten(d.children));
    TokensConcat(d.before, html);
  }
}
