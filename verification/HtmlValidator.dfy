/** `_HtmlValidator`: a stack of open elements, a few flags and a token count, fed by parser events.  It
    accepts exactly the event sequences of the documents of HtmlDocument. */
module HtmlValidator {
  import opened Wrappers
  import opened HtmlDocument

  datatype Issue = HTML_MALFORMED | HTML_TOO_COMPLEX | EXTERNAL_DEPENDENCY

  datatype State = State(
    stack: seq<string>, rootSeen: bool, rootClosed: bool, doctypeSeen: bool, headSeen: bool, bodySeen: bool, tokens: nat)

  datatype Outcome = Next(state: State) | Reject(issue: Issue)

  const INITIAL: State := State([], false, false, false, false, false, 0)

  /** `_start_tag` after its token has been counted. */
  function StartStep(s: State, e: Event, limits: Limits): Outcome
    requires e.StartTag?
  {
    var tag := e.tag;
    if tag in HTML_FORBIDDEN_ELEMENTS || tag == "form" then Reject(EXTERNAL_DEPENDENCY)
    else if s.stack == [] && (tag != "html" || s.rootSeen || s.rootClosed) then Reject(HTML_MALFORMED)
    else if s.stack != [] && tag == "html" then Reject(HTML_MALFORMED)
    else if tag == "head" && (s.stack != ["html"] || s.headSeen || s.bodySeen) then Reject(HTML_MALFORMED)
    else if tag == "body" && (s.stack != ["html"] || s.bodySeen) then Reject(HTML_MALFORMED)
    else if !e.attributesOk then Reject(HTML_MALFORMED)
    else
      var seen := s.(rootSeen := s.rootSeen || s.stack == [], headSeen := s.headSeen || tag == "head", bodySeen := s.bodySeen || tag == "body");
      if tag in HTML_VOID_ELEMENTS then Next(seen)
      else if e.selfClosing then Reject(HTML_MALFORMED)
      else if |s.stack| >= limits.maxNesting then Reject(HTML_TOO_COMPLEX)
      else Next(seen.(stack := s.stack + [tag]))
  }

  function Step(s: State, e: Event, limits: Limits): Outcome {
    if Counted(e) && s.tokens + 1 > limits.maxTokens then Reject(HTML_TOO_COMPLEX)
    else
      var t := if Counted(e) then s.(tokens := s.tokens + 1) else s;
      match e
      case StartTag(_, _, _) => StartStep(t, e, limits)
      case EndTag(tag) =>
        if tag in HTML_VOID_ELEMENTS || t.stack == [] || t.stack[|t.stack| - 1] != tag then Reject(HTML_MALFORMED)
        else Next(t.(stack := t.stack[..|t.stack| - 1], rootClosed := t.rootClosed || tag == "html"))
      case Data(text, blank, codeOk) =>
        if text == "" then Next(t)
        else if t.stack == [] then (if blank then Next(t) else Reject(HTML_MALFORMED))
        else if t.stack[|t.stack| - 1] in {"script", "style"} then (if codeOk then Next(t) else Reject(EXTERNAL_DEPENDENCY))
        else if '<' in text then Reject(HTML_MALFORMED)
        else Next(t)
      case Comment => Next(t)
      case Decl(doctype) => if t.stack != [] || t.doctypeSeen || !doctype then Reject(HTML_MALFORMED) else Next(t.(doctypeSeen := true))
      case ProcessingInstruction => Reject(EXTERNAL_DEPENDENCY)
      case UnknownDecl => Reject(HTML_MALFORMED)
  }

  function Run(s: State, events: seq<Event>, limits: Limits): Outcome
    decreases |events|
  {
    if events == [] then Next(s)
    else
      match Step(s, events[0], limits)
      case Reject(issue) => Reject(issue)
      case Next(t) => Run(t, events[1..], limits)
  }

  /** Going on after an outcome. */
  function Resume(o: Outcome, events: seq<Event>, limits: Limits): Outcome {
    if o.Next? then Run(o.state, events, limits) else o
  }

  /** `finish` on the structure: the root was seen and closed and nothing is left open. */
  predicate Finished(o: Outcome) {
    o.Next? && o.state.rootSeen && o.state.rootClosed && o.state.stack == []
  }

  predicate Accepts(events: seq<Event>, limits: Limits) {
    Finished(Run(INITIAL, events, limits))
  }

  // The validator object

  class Validator {
    const limits: Limits
    var stack: seq<string>
    var rootSeen: bool
    var rootClosed: bool
    var doctypeSeen: bool
    var headSeen: bool
    var bodySeen: bool
    var tokenCount: nat

    function S(): State
      reads this
    {
      State(stack, rootSeen, rootClosed, doctypeSeen, headSeen, bodySeen, tokenCount)
    }

    constructor (limits: Limits)
      ensures this.limits == limits && S() == INITIAL
    {
      this.limits := limits;
      stack, rootSeen, rootClosed, doctypeSeen := [], false, false, false;
      headSeen, bodySeen, tokenCount := false, false, 0;
    }

    /** `_token`. */
    method Token() returns (issue: Option<Issue>)
      modifies this`tokenCount
      ensures tokenCount == old(tokenCount) + 1
      ensures issue == if tokenCount > limits.maxTokens then Some(HTML_TOO_COMPLEX) else None
    {
      tokenCount := tokenCount + 1;
      if tokenCount > limits.maxTokens { return Some(HTML_TOO_COMPLEX); }
      return None;
    }

    ghost predicate Did(before: State, e: Event, issue: Option<Issue>)
      reads this
    {
      Step(before, e, limits) == if issue.Some? then Reject(issue.value) else Next(S())
    }

    /** `_start_tag`. */
    method HandleStartTag(e: Event) returns (issue: Option<Issue>)
      requires e.StartTag?
      modifies this
      ensures Did(old(S()), e, issue)
    {
      issue := Token();
      if issue.Some? { return; }
      var tag := e.tag;
      if tag in HTML_FORBIDDEN_ELEMENTS { return Some(EXTERNAL_DEPENDENCY); }
      if tag == "form" { return Some(EXTERNAL_DEPENDENCY); }
      if stack == [] {
        if tag != "html" || rootSeen || rootClosed { return Some(HTML_MALFORMED); }
        rootSeen := true;
      } else if tag == "html" {
        return Some(HTML_MALFORMED);
      }
      if tag == "head" {
        if stack != ["html"] || headSeen || bodySeen { return Some(HTML_MALFORMED); }
        headSeen := true;
      }
      if tag == "body" {
        if stack != ["html"] || bodySeen { return Some(HTML_MALFORMED); }
        bodySeen := true;
      }
      if !e.attributesOk { return Some(HTML_MALFORMED); }
      if tag in HTML_VOID_ELEMENTS { return None; }
      if e.selfClosing { return Some(HTML_MALFORMED); }
      if |stack| >= limits.maxNesting { return Some(HTML_TOO_COMPLEX); }
      stack := stack + [tag];
      return None;
    }

    /** `handle_endtag`. */
    method HandleEndTag(tag: string) returns (issue: Option<Issue>)
      modifies this
      ensures Did(old(S()), EndTag(tag), issue)
    {
      issue := Token();
      if issue.Some? { return; }
      if tag in HTML_VOID_ELEMENTS || stack == [] || stack[|stack| - 1] != tag { return Some(HTML_MALFORMED); }
      stack := stack[..|stack| - 1];
      if tag == "html" { rootClosed := true; }
      return None;
    }

    /** `handle_data`, with the verdict of the code inspection. */
    method HandleData(text: string, blank: bool, codeOk: bool) returns (issue: Option<Issue>)
      ensures Did(old(S()), Data(text, blank, codeOk), issue)
    {
      if text == "" { return None; }
      if stack == [] { return if blank then None else Some(HTML_MALFORMED); }
      if stack[|stack| - 1] in {"script", "style"} { return if codeOk then None else Some(EXTERNAL_DEPENDENCY); }
      if '<' in text { return Some(HTML_MALFORMED); }
      return None;
    }

    /** `handle_decl`. */
    method HandleDecl(doctype: bool) returns (issue: Option<Issue>)
      modifies this
      ensures Did(old(S()), Decl(doctype), issue)
    {
      issue := Token();
      if issue.Some? { return; }
      if stack != [] || doctypeSeen || !doctype { return Some(HTML_MALFORMED); }
      doctypeSeen := true;
      return None;
    }

    method Handle(e: Event) returns (issue: Option<Issue>)
      modifies this
      ensures Did(old(S()), e, issue)
    {
      match e {
        case StartTag(_, _, _) => issue := HandleStartTag(e);
        case EndTag(tag) => issue := HandleEndTag(tag);
        case Data(text, blank, codeOk) => issue := HandleData(text, blank, codeOk);
        case Comment => issue := None;
        case Decl(doctype) => issue := HandleDecl(doctype);
        case ProcessingInstruction => issue := Some(EXTERNAL_DEPENDENCY);
        case UnknownDecl => issue := Some(HTML_MALFORMED);
      }
    }

    /** `finish`. */
    method Finish() returns (issue: Option<Issue>)
      ensures issue.None? <==> rootSeen && rootClosed && stack == []
    {
      if !rootSeen || !rootClosed || stack != [] { return Some(HTML_MALFORMED); }
      return None;
    }
  }

  /** Feeding all events and finishing raises no issue exactly when they are those of a document that
      meets the rules within the limits. */
  method Validate(events: seq<Event>, limits: Limits) returns (issue: Option<Issue>)
    ensures issue.None? <==> exists d: Document :: DocumentOk(d, limits) && events == DocumentEvents(d)
  {
    AcceptsExactlyDocuments(events, limits);
    var validator := new Validator(limits);
    for i := 0 to |events|
      invariant validator.limits == limits
      invariant Run(INITIAL, events, limits) == Run(validator.S(), events[i..], limits)
    {
      issue := validator.Handle(events[i]);
      assert events[i..][1..] == events[i + 1..] && events[i..][0] == events[i];
      if issue.Some? { return; }
    }
    issue := validator.Finish();
  }

  // A document is accepted.

  lemma {:induction false} RunConcat(s: State, a: seq<Event>, b: seq<Event>, limits: Limits)
    ensures Run(s, a + b, limits) == Resume(Run(s, a, limits), b, limits)
    decreases |a|
  {
    if a == [] {
      assert a + b == b;
    } else {
      assert (a + b)[0] == a[0] && (a + b)[1..] == a[1..] + b;
      var o := Step(s, a[0], limits);
      if o.Next? { RunConcat(o.state, a[1..], b, limits); }
    }
  }

  /** The flags after reading a forest. */
  function After(s: State, f: Forest): State {
    s.(headSeen := s.headSeen || (s.stack == ["html"] && "head" in Outline(f)),
       bodySeen := s.bodySeen || (s.stack == ["html"] && "body" in Outline(f)),
       tokens := s.tokens + Tokens(Flatten(f)))
  }

  /** The `head` and `body` children still to come fit what has been seen. */
  predicate FlagsFit(headSeen: bool, bodySeen: bool, outline: seq<string>) {
    && HeadThenBody(outline)
    && ("head" in outline ==> !headSeen && !bodySeen)
    && ("body" in outline ==> !bodySeen)
  }

  lemma OutlineTail(s: State, tag: string, rest: seq<string>)
    requires FlagsFit(s.headSeen, s.bodySeen, [tag] + rest)
    ensures FlagsFit(s.headSeen || tag == "head", s.bodySeen || tag == "body", rest)
    ensures tag == "head" ==> !s.headSeen && !s.bodySeen
    ensures tag == "body" ==> !s.bodySeen
  {
    var all := [tag] + rest;
    assert all[0] == tag && forall i :: 0 <= i < |rest| ==> rest[i] == all[i + 1];
    assert forall t :: t in rest ==> t in all;
  }

  lemma FirstEvent(s: State, e: Event, rest: seq<Event>, limits: Limits)
    ensures Run(s, [e] + rest, limits) == Resume(Step(s, e, limits), rest, limits)
    ensures Tokens([e] + rest) == (if Counted(e) then 1 else 0) + Tokens(rest)
  {
    assert ([e] + rest)[0] == e && ([e] + rest)[1..] == rest;
  }

  /** The state in which the children of an element are read. */
  function Inside(s: State, tag: string): State {
    s.(tokens := s.tokens + 1, stack := s.stack + [tag], headSeen := s.headSeen || tag == "head", bodySeen := s.bodySeen || tag == "body")
  }

  lemma Opens(s: State, tag: string, limits: Limits)
    requires s.stack != [] && s.rootSeen && TagAllowed(tag) && tag !in HTML_VOID_ELEMENTS && |s.stack| < limits.maxNesting
    requires tag == "head" ==> s.stack == ["html"] && !s.headSeen && !s.bodySeen
    requires tag == "body" ==> s.stack == ["html"] && !s.bodySeen
    requires s.tokens < limits.maxTokens
    ensures Step(s, StartTag(tag, true, false), limits) == Next(Inside(s, tag))
  {
  }

  lemma Closes(s: State, stack: seq<string>, tag: string, limits: Limits)
    requires s.stack == stack + [tag] && tag !in HTML_VOID_ELEMENTS && s.tokens < limits.maxTokens
    ensures Step(s, EndTag(tag), limits) ==
            Next(s.(tokens := s.tokens + 1, stack := stack, rootClosed := s.rootClosed || tag == "html"))
  {
    assert s.stack[..|s.stack| - 1] == stack;
  }

  lemma VoidPasses(s: State, tag: string, selfClosing: bool, limits: Limits)
    requires s.stack != [] && s.rootSeen && TagAllowed(tag) && tag in HTML_VOID_ELEMENTS && s.tokens < limits.maxTokens
    ensures Step(s, StartTag(tag, true, selfClosing), limits) == Next(s.(tokens := s.tokens + 1))
  {
    assert "head" !in HTML_VOID_ELEMENTS && "body" !in HTML_VOID_ELEMENTS;
  }

  lemma {:induction false} ForestAccepted(s: State, f: Forest, limits: Limits)
    requires s.stack != [] && s.rootSeen && ForestOk(f, s.stack, limits.maxNesting)
    requires s.stack == ["html"] ==> FlagsFit(s.headSeen, s.bodySeen, Outline(f))
    requires s.tokens + Tokens(Flatten(f)) <= limits.maxTokens
    ensures Run(s, Flatten(f), limits) == Next(After(s, f))
    decreases f, 1
  {
    match f {
      case Nil =>
      case Element(_, _, _) => ElementAccepted(s, f, limits);
      case Void(_, _, _) => VoidRead(s, f, limits);
      case Text(_, _, _, _) => TextRead(s, f, limits);
      case Note(_) => NoteRead(s, f, limits);
    }
  }

  lemma {:induction false} VoidRead(s: State, f: Forest, limits: Limits)
    requires f.Void? && s.stack != [] && s.rootSeen && ForestOk(f, s.stack, limits.maxNesting)
    requires s.stack == ["html"] ==> FlagsFit(s.headSeen, s.bodySeen, Outline(f))
    requires s.tokens + Tokens(Flatten(f)) <= limits.maxTokens
    ensures Run(s, Flatten(f), limits) == Next(After(s, f))
    decreases f, 0
  {
    AfterLeaf(s, s.(tokens := s.tokens + 1), StartTag(f.tag, true, f.selfClosing), f, f.next);
    ForestAccepted(s.(tokens := s.tokens + 1), f.next, limits);
    VoidAccepted(s, f, limits);
  }

  lemma {:induction false} TextRead(s: State, f: Forest, limits: Limits)
    requires f.Text? && s.stack != [] && s.rootSeen && ForestOk(f, s.stack, limits.maxNesting)
    requires s.stack == ["html"] ==> FlagsFit(s.headSeen, s.bodySeen, Outline(f))
    requires s.tokens + Tokens(Flatten(f)) <= limits.maxTokens
    ensures Run(s, Flatten(f), limits) == Next(After(s, f))
    decreases f, 0
  {
    AfterLeaf(s, s, Data(f.text, f.blank, f.codeOk), f, f.next);
    ForestAccepted(s, f.next, limits);
    LeafAccepted(s, s, Data(f.text, f.blank, f.codeOk), f, f.next, limits);
  }

  lemma {:induction false} NoteRead(s: State, f: Forest, limits: Limits)
    requires f.Note? && s.stack != [] && s.rootSeen && ForestOk(f, s.stack, limits.maxNesting)
    requires s.stack == ["html"] ==> FlagsFit(s.headSeen, s.bodySeen, Outline(f))
    requires s.tokens + Tokens(Flatten(f)) <= limits.maxTokens
    ensures Run(s, Flatten(f), limits) == Next(After(s, f))
    decreases f, 0
  {
    AfterLeaf(s, s, Comment, f, f.next);
    ForestAccepted(s, f.next, limits);
    LeafAccepted(s, s, Comment, f, f.next, limits);
  }

  lemma VoidAccepted(s: State, f: Forest, limits: Limits)
    requires f.Void? && s.stack != [] && s.rootSeen && TagAllowed(f.tag) && f.tag in HTML_VOID_ELEMENTS && s.tokens < limits.maxTokens
    requires var s1 := s.(tokens := s.tokens + 1); Run(s1, Flatten(f.next), limits) == Next(After(s1, f.next))
    ensures Run(s, Flatten(f), limits) == Next(After(s, f))
  {
    var e, s1 := StartTag(f.tag, true, f.selfClosing), s.(tokens := s.tokens + 1);
    AfterLeaf(s, s1, e, f, f.next);
    VoidPasses(s, f.tag, f.selfClosing, limits);
    LeafAccepted(s, s1, e, f, f.next, limits);
  }

  lemma LeafAccepted(s: State, s1: State, e: Event, f: Forest, next: Forest, limits: Limits)
    requires Step(s, e, limits) == Next(s1) && Flatten(f) == [e] + Flatten(next) && After(s, f) == After(s1, next)
    requires Run(s1, Flatten(next), limits) == Next(After(s1, next))
    ensures Run(s, Flatten(f), limits) == Next(After(s, f))
  {
    FirstEvent(s, e, Flatten(next), limits);
  }

  lemma {:induction false} ElementAccepted(s: State, f: Forest, limits: Limits)
    requires f.Element? && s.stack != [] && s.rootSeen && ForestOk(f, s.stack, limits.maxNesting)
    requires s.stack == ["html"] ==> FlagsFit(s.headSeen, s.bodySeen, Outline(f))
    requires s.tokens + Tokens(Flatten(f)) <= limits.maxTokens
    ensures Run(s, Flatten(f), limits) == Next(After(s, f))
    decreases f, 0
  {
    var tag, inner, rest := f.tag, Flatten(f.children), Flatten(f.next);
    if s.stack == ["html"] { OutlineTail(s, tag, Outline(f.next)); }
    ElementTokens(tag, inner, rest);
    var s1 := Inside(s, tag);
    Opens(s, tag, limits);
    assert s1.stack != ["html"];
    ForestAccepted(s1, f.children, limits);
    var s2 := After(s1, f.children);
    Closes(s2, s.stack, tag, limits);
    var s3 := s2.(tokens := s2.tokens + 1, stack := s.stack);
    assert s3.headSeen == (s.headSeen || tag == "head") && s3.bodySeen == (s.bodySeen || tag == "body");
    ForestAccepted(s3, f.next, limits);
    ElementRun(s, tag, s1, inner, s2, s3, rest, limits);
    ElementAfter(s, f, s3);
  }

  lemma ElementRun(s: State, tag: string, s1: State, inner: seq<Event>, s2: State, s3: State, rest: seq<Event>, limits: Limits)
    requires Step(s, StartTag(tag, true, false), limits) == Next(s1)
    requires Run(s1, inner, limits) == Next(s2)
    requires Step(s2, EndTag(tag), limits) == Next(s3)
    ensures Run(s, [StartTag(tag, true, false)] + inner + [EndTag(tag)] + rest, limits) == Run(s3, rest, limits)
  {
    var tail := [EndTag(tag)] + rest;
    assert [StartTag(tag, true, false)] + inner + [EndTag(tag)] + rest == [StartTag(tag, true, false)] + (inner + tail);
    FirstEvent(s, StartTag(tag, true, false), inner + tail, limits);
    RunConcat(s1, inner, tail, limits);
    FirstEvent(s2, EndTag(tag), rest, limits);
  }

  lemma ElementAfter(s: State, f: Forest, s3: State)
    requires f.Element? && s3.stack == s.stack
    requires f.tag == "head" || f.tag == "body" ==> s.stack == ["html"]
    requires s3 == s.(tokens := s.tokens + 2 + Tokens(Flatten(f.children)), headSeen := s.headSeen || f.tag == "head",
                      bodySeen := s.bodySeen || f.tag == "body")
    requires Tokens(Flatten(f)) == 2 + Tokens(Flatten(f.children)) + Tokens(Flatten(f.next))
    ensures After(s3, f.next) == After(s, f)
  {
    assert Outline(f) == [f.tag] + Outline(f.next);
  }

  lemma ElementTokens(tag: string, inner: seq<Event>, rest: seq<Event>)
    ensures Tokens([StartTag(tag, true, false)] + inner + [EndTag(tag)] + rest) == 2 + Tokens(inner) + Tokens(rest)
  {
    var opener, closer := StartTag(tag, true, false), EndTag(tag);
    TokensConcat([opener] + inner + [closer], rest);
    TokensConcat([opener] + inner, [closer]);
    TokensConcat([opener], inner);
    assert [opener][1..] == [] && [closer][1..] == [];
  }

  // What is accepted is a document.

  lemma OutlineCons(s: State, tag: string, rest: seq<string>)
    requires tag == "head" ==> !s.headSeen && !s.bodySeen
    requires tag == "body" ==> !s.bodySeen
    requires FlagsFit(s.headSeen || tag == "head", s.bodySeen || tag == "body", rest)
    ensures FlagsFit(s.headSeen, s.bodySeen, [tag] + rest)
  {
    var all := [tag] + rest;
    assert forall i :: 0 < i < |all| ==> all[i] == rest[i - 1] && all[i] in rest;
    assert forall t :: t in all ==> t == tag || t in rest;
  }

  lemma {:induction false} RunTokens(s: State, events: seq<Event>, limits: Limits)
    requires Run(s, events, limits).Next?
    ensures events != [] && Tokens(events) > 0 ==> s.tokens + Tokens(events) <= limits.maxTokens
    decreases |events|
  {
    if events != [] {
      RunTokens(Step(s, events[0], limits).state, events[1..], limits);
      if Tokens(events[1..]) > 0 {
        assert events[1..] != [];
      }
    }
  }

  lemma PrefixTokens(s: State, a: seq<Event>, b: seq<Event>, limits: Limits)
    requires Run(s, a + b, limits).Next? && s.tokens <= limits.maxTokens
    ensures s.tokens + Tokens(a) <= limits.maxTokens
  {
    TokensConcat(a, b);
    RunTokens(s, a + b, limits);
  }

  /** The events start with those of a forest that fits below the open elements, and go on with the
      end tag of the innermost. */
  ghost predicate Parsed(s: State, events: seq<Event>, limits: Limits, f: Forest, rest: seq<Event>)
    requires s.stack != []
  {
    && events == Flatten(f) + rest && rest != [] && rest[0] == EndTag(s.stack[|s.stack| - 1])
    && ForestOk(f, s.stack, limits.maxNesting)
    && (s.stack == ["html"] ==> FlagsFit(s.headSeen, s.bodySeen, Outline(f)))
    && s.tokens + Tokens(Flatten(f)) <= limits.maxTokens
    && Run(s, events, limits) == Run(After(s, f), rest, limits)
  }

  /** The run goes on to close an element that is open in `s`. */
  predicate Leaves(s: State, events: seq<Event>, limits: Limits) {
    && s.stack != [] && s.rootSeen && s.tokens <= limits.maxTokens
    && var o := Run(s, events, limits); o.Next? && |o.state.stack| < |s.stack|
  }

  lemma ParsedNil(s: State, events: seq<Event>, limits: Limits)
    requires Leaves(s, events, limits) && events[0].EndTag?
    ensures Parsed(s, events, limits, Nil, events)
  {
  }

  lemma TokensOfLeaf(e: Event, rest: seq<Event>)
    ensures Tokens([e] + rest) == (if Counted(e) then 1 else 0) + Tokens(rest)
  {
    assert ([e] + rest)[1..] == rest;
  }

  /** One event without content, before the siblings that follow it. */
  lemma ParsedLeaf(s: State, s1: State, events: seq<Event>, limits: Limits, f: Forest, next: Forest, rest: seq<Event>)
    requires s.stack != [] && events != [] && Run(s, events, limits) == Run(s1, events[1..], limits)
    requires s1 == s.(tokens := s.tokens + if Counted(events[0]) then 1 else 0)
    requires Flatten(f) == [events[0]] + Flatten(next) && Outline(f) == Outline(next)
    requires ForestOk(f, s.stack, limits.maxNesting)
    requires Parsed(s1, events[1..], limits, next, rest)
    ensures Parsed(s, events, limits, f, rest)
  {
    AfterLeaf(s, s1, events[0], f, next);
    LeafEvents(events, Flatten(next), rest);
  }

  lemma AfterLeaf(s: State, s1: State, e: Event, f: Forest, next: Forest)
    requires s1 == s.(tokens := s.tokens + if Counted(e) then 1 else 0)
    requires Flatten(f) == [e] + Flatten(next) && Outline(f) == Outline(next)
    ensures After(s, f) == After(s1, next) && s.tokens + Tokens(Flatten(f)) == s1.tokens + Tokens(Flatten(next))
  {
    TokensOfLeaf(e, Flatten(next));
  }

  lemma LeafEvents(events: seq<Event>, next: seq<Event>, rest: seq<Event>)
    requires events != [] && events[1..] == next + rest
    ensures events == [events[0]] + next + rest
  {
    assert events == [events[0]] + events[1..];
  }

  lemma VoidFits(s: State, e: Event, limits: Limits)
    requires s.stack != [] && e.StartTag? && e.tag in HTML_VOID_ELEMENTS && Step(s, e, limits).Next?
    ensures e == StartTag(e.tag, true, e.selfClosing) && TagAllowed(e.tag)
  {
  }

  lemma ParsedVoid(s: State, events: seq<Event>, limits: Limits, next: Forest, rest: seq<Event>)
    requires s.stack != [] && events != [] && events[0].StartTag? && events[0].tag in HTML_VOID_ELEMENTS
    requires Step(s, events[0], limits) == Next(s.(tokens := s.tokens + 1))
    requires Run(s, events, limits) == Run(s.(tokens := s.tokens + 1), events[1..], limits)
    requires Parsed(s.(tokens := s.tokens + 1), events[1..], limits, next, rest)
    ensures Parsed(s, events, limits, Void(events[0].tag, events[0].selfClosing, next), rest)
  {
    VoidFits(s, events[0], limits);
    ParsedLeaf(s, s.(tokens := s.tokens + 1), events, limits, Void(events[0].tag, events[0].selfClosing, next), next, rest);
  }

  lemma ParsedText(s: State, events: seq<Event>, limits: Limits, next: Forest, rest: seq<Event>)
    requires s.stack != [] && events != [] && events[0].Data? && Step(s, events[0], limits) == Next(s)
    requires Run(s, events, limits) == Run(s, events[1..], limits)
    requires Parsed(s, events[1..], limits, next, rest)
    ensures Parsed(s, events, limits, Text(events[0].text, events[0].blank, events[0].codeOk, next), rest)
  {
    ParsedLeaf(s, s, events, limits, Text(events[0].text, events[0].blank, events[0].codeOk, next), next, rest);
  }

  lemma ParsedNote(s: State, events: seq<Event>, limits: Limits, next: Forest, rest: seq<Event>)
    requires s.stack != [] && events != [] && events[0] == Comment
    requires Run(s, events, limits) == Run(s, events[1..], limits) && Parsed(s, events[1..], limits, next, rest)
    ensures Parsed(s, events, limits, Note(next), rest)
  {
    ParsedLeaf(s, s, events, limits, Note(next), next, rest);
  }

  /** The state after the end tag of an element. */
  function Left(s2: State, stack: seq<string>): State {
    s2.(tokens := s2.tokens + 1, stack := stack)
  }

  lemma ParsedElement(s: State, events: seq<Event>, limits: Limits, children: Forest, closing: seq<Event>, next: Forest, rest: seq<Event>)
    requires s.stack != [] && s.rootSeen && events != [] && events[0].StartTag? && events[0].tag !in HTML_VOID_ELEMENTS
    requires Step(s, events[0], limits).Next?
    requires Parsed(Inside(s, events[0].tag), events[1..], limits, children, closing)
    requires var s3 := Left(After(Inside(s, events[0].tag), children), s.stack);
             && Run(s, events, limits) == Run(s3, closing[1..], limits)
             && Parsed(s3, closing[1..], limits, next, rest)
    ensures Parsed(s, events, limits, Element(events[0].tag, children, next), rest)
  {
    var tag := events[0].tag;
    OpenedBy(s, events[0], limits);
    ElementTokens(tag, Flatten(children), Flatten(next));
    ElementEvents(events, tag, Flatten(children), closing, Flatten(next), rest);
    ParsedAround(s, Inside(s, tag), events, limits, tag, children, closing, next, rest);
  }

  lemma ParsedAround(s: State, s1: State, events: seq<Event>, limits: Limits, tag: string, children: Forest, closing: seq<Event>,
                     next: Forest, rest: seq<Event>)
    requires s.stack != [] && s1 == Inside(s, tag)
    requires TagAllowed(tag) && tag !in HTML_VOID_ELEMENTS && |s.stack| < limits.maxNesting
    requires tag == "head" ==> s.stack == ["html"] && !s.headSeen && !s.bodySeen
    requires tag == "body" ==> s.stack == ["html"] && !s.bodySeen
    requires ForestOk(children, s1.stack, limits.maxNesting)
    requires closing != []
    requires var s3 := Left(After(s1, children), s.stack);
             Run(s, events, limits) == Run(s3, closing[1..], limits) && Parsed(s3, closing[1..], limits, next, rest)
    requires events == Flatten(Element(tag, children, next)) + rest
    requires Tokens(Flatten(Element(tag, children, next))) == 2 + Tokens(Flatten(children)) + Tokens(Flatten(next))
    ensures Parsed(s, events, limits, Element(tag, children, next), rest)
  {
    var f, s3 := Element(tag, children, next), Left(After(s1, children), s.stack);
    assert s1.stack != ["html"];
    assert s3.headSeen == (s.headSeen || tag == "head") && s3.bodySeen == (s.bodySeen || tag == "body");
    if s.stack == ["html"] { FlagsAround(s, s3, tag, Outline(next)); }
    ElementAfter(s, f, s3);
  }

  lemma FlagsAround(s: State, s3: State, tag: string, rest: seq<string>)
    requires s3.headSeen == (s.headSeen || tag == "head") && s3.bodySeen == (s.bodySeen || tag == "body")
    requires tag == "head" ==> !s.headSeen && !s.bodySeen
    requires tag == "body" ==> !s.bodySeen
    requires FlagsFit(s3.headSeen, s3.bodySeen, rest)
    ensures FlagsFit(s.headSeen, s.bodySeen, [tag] + rest)
  {
    OutlineCons(s, tag, rest);
  }

  lemma LeavesOn(s: State, events: seq<Event>, limits: Limits)
    requires Leaves(s, events, limits)
    ensures events != [] && Step(s, events[0], limits).Next?
    ensures var t := Step(s, events[0], limits).state;
            && Run(s, events, limits) == Run(t, events[1..], limits)
            && (!events[0].EndTag? ==> Leaves(t, events[1..], limits))
    ensures match events[0]
            case EndTag(_) => true
            case StartTag(tag, _, _) =>
              Step(s, events[0], limits) == Next(if tag in HTML_VOID_ELEMENTS then s.(tokens := s.tokens + 1) else Inside(s, tag))
            case _ => Step(s, events[0], limits) == Next(s) && (events[0].Data? || events[0] == Comment)
  {
    assert "head" !in HTML_VOID_ELEMENTS && "body" !in HTML_VOID_ELEMENTS;
  }

  lemma ChildrenLeft(s: State, events: seq<Event>, limits: Limits, tag: string, children: Forest, closing: seq<Event>)
    requires Leaves(s, events, limits) && TagAllowed(tag) && closing != [] && closing[0] == EndTag(tag)
    requires Run(s, events, limits) == Run(After(Inside(s, tag), children), closing, limits)
    ensures var s3 := Left(After(Inside(s, tag), children), s.stack);
            Run(s, events, limits) == Run(s3, closing[1..], limits) && s3.tokens <= limits.maxTokens
  {
    var s2 := After(Inside(s, tag), children);
    assert Step(s2, closing[0], limits).Next?;
    ClosedBy(s2, s.stack, tag, limits);
  }

  /** Inside an element, the events up to its end tag are those of a forest that fits there. */
  lemma {:induction false} Parse(s: State, events: seq<Event>, limits: Limits) returns (f: Forest, rest: seq<Event>)
    requires Leaves(s, events, limits)
    ensures Parsed(s, events, limits, f, rest)
    decreases |events|
  {
    LeavesOn(s, events, limits);
    var next;
    match events[0] {
      case EndTag(_) =>
        ParsedNil(s, events, limits);
        f, rest := Nil, events;
      case StartTag(tag, _, selfClosing) =>
        if tag in HTML_VOID_ELEMENTS {
          next, rest := Parse(s.(tokens := s.tokens + 1), events[1..], limits);
          ParsedVoid(s, events, limits, next, rest);
          f := Void(tag, selfClosing, next);
        } else {
          var children, closing := Parse(Inside(s, tag), events[1..], limits);
          OpenedBy(s, events[0], limits);
          ChildrenLeft(s, events, limits, tag, children, closing);
          next, rest := Parse(Left(After(Inside(s, tag), children), s.stack), closing[1..], limits);
          ParsedElement(s, events, limits, children, closing, next, rest);
          f := Element(tag, children, next);
        }
      case Data(text, blank, codeOk) =>
        next, rest := Parse(s, events[1..], limits);
        ParsedText(s, events, limits, next, rest);
        f := Text(text, blank, codeOk, next);
      case Comment =>
        next, rest := Parse(s, events[1..], limits);
        ParsedNote(s, events, limits, next, rest);
        f := Note(next);
    }
  }

  lemma ElementEvents(events: seq<Event>, tag: string, inner: seq<Event>, closing: seq<Event>, next: seq<Event>, rest: seq<Event>)
    requires events != [] && events[0] == StartTag(tag, true, false) && events[1..] == inner + closing
    requires closing != [] && closing[0] == EndTag(tag) && closing[1..] == next + rest
    ensures events == [StartTag(tag, true, false)] + inner + [EndTag(tag)] + next + rest
  {
    assert events == [events[0]] + events[1..] && closing == [closing[0]] + closing[1..];
  }

  lemma OpenedBy(s: State, e: Event, limits: Limits)
    requires s.stack != [] && s.rootSeen && e.StartTag? && e.tag !in HTML_VOID_ELEMENTS && Step(s, e, limits).Next?
    ensures e == StartTag(e.tag, true, false) && TagAllowed(e.tag) && |s.stack| < limits.maxNesting
    ensures Step(s, e, limits) == Next(Inside(s, e.tag)) && s.tokens < limits.maxTokens
    ensures e.tag == "head" ==> s.stack == ["html"] && !s.headSeen && !s.bodySeen
    ensures e.tag == "body" ==> s.stack == ["html"] && !s.bodySeen
  {
  }

  lemma ClosedBy(s: State, stack: seq<string>, tag: string, limits: Limits)
    requires s.stack == stack + [tag] && Step(s, EndTag(tag), limits).Next?
    ensures Step(s, EndTag(tag), limits) ==
            Next(s.(tokens := s.tokens + 1, stack := stack, rootClosed := s.rootClosed || tag == "html"))
    ensures s.tokens < limits.maxTokens
  {
    assert s.stack[..|s.stack| - 1] == stack;
  }

  // Around the root

  function AfterOutside(s: State, misc: seq<Event>): State {
    s.(doctypeSeen := s.doctypeSeen || Doctypes(misc) > 0, tokens := s.tokens + Tokens(misc))
  }

  /** What surrounds the root is passed exactly when it is outside text with a first doctype. */
  lemma {:induction false} OutsideAccepted(s: State, misc: seq<Event>, limits: Limits)
    requires s.stack == [] && (forall e :: e in misc ==> Outside(e))
    requires (if s.doctypeSeen then 1 else 0) + Doctypes(misc) <= 1 && s.tokens + Tokens(misc) <= limits.maxTokens
    ensures Run(s, misc, limits) == Next(AfterOutside(s, misc))
    decreases |misc|
  {
    if misc != [] {
      assert Outside(misc[0]);
      var t := Step(s, misc[0], limits).state;
      OutsideAccepted(t, misc[1..], limits);
    }
  }

  lemma {:induction false} ParseOutside(s: State, events: seq<Event>, limits: Limits) returns (misc: seq<Event>, rest: seq<Event>)
    requires s.stack == [] && s.tokens <= limits.maxTokens && Run(s, events, limits).Next?
    ensures events == misc + rest && (forall e :: e in misc ==> Outside(e)) && (rest != [] ==> rest[0].StartTag?)
    ensures (if s.doctypeSeen then 1 else 0) + Doctypes(misc) <= 1 && s.tokens + Tokens(misc) <= limits.maxTokens
    ensures Run(s, events, limits) == Run(AfterOutside(s, misc), rest, limits)
    decreases |events|
  {
    if events == [] || events[0].StartTag? { return [], events; }
    var e := events[0];
    OutsideStep(s, e, limits);
    var more;
    more, rest := ParseOutside(Passed(s, e), events[1..], limits);
    misc := [e] + more;
    assert events == [e] + events[1..] && misc[1..] == more;
  }

  function Passed(s: State, e: Event): State {
    s.(doctypeSeen := s.doctypeSeen || e.Decl?, tokens := s.tokens + if Counted(e) then 1 else 0)
  }

  lemma OutsideStep(s: State, e: Event, limits: Limits)
    requires s.stack == [] && s.tokens <= limits.maxTokens && !e.StartTag? && Step(s, e, limits).Next?
    ensures Step(s, e, limits) == Next(Passed(s, e)) && Outside(e) && (e.Decl? ==> !s.doctypeSeen)
    ensures Passed(s, e).tokens <= limits.maxTokens
  {
  }

  function RootOpened(s: State): State {
    s.(rootSeen := true, stack := ["html"], tokens := s.tokens + 1)
  }

  function RootClosed(s: State): State {
    s.(rootClosed := true, stack := [], tokens := s.tokens + 1)
  }

  lemma DocumentTokens(d: Document)
    ensures Tokens(DocumentEvents(d)) == Tokens(d.before) + Tokens(Flatten(d.children)) + Tokens(d.after) + 2
  {
    var root := [StartTag("html", true, false)] + Flatten(d.children) + [EndTag("html")] + d.after;
    assert DocumentEvents(d) == d.before + root;
    TokensConcat(d.before, root);
    ElementTokens("html", Flatten(d.children), d.after);
  }

  lemma RootAccepted(s0: State, children: Forest, after: seq<Event>, limits: Limits)
    requires s0 == INITIAL.(tokens := s0.tokens, doctypeSeen := s0.doctypeSeen)
    requires 1 <= limits.maxNesting && ForestOk(children, ["html"], limits.maxNesting) && HeadThenBody(Outline(children))
    requires (forall e :: e in after ==> Outside(e)) && (if s0.doctypeSeen then 1 else 0) + Doctypes(after) <= 1
    requires s0.tokens + Tokens(Flatten(children)) + Tokens(after) + 2 <= limits.maxTokens
    ensures Finished(Run(s0, [StartTag("html", true, false)] + Flatten(children) + [EndTag("html")] + after, limits))
  {
    var s1 := RootOpened(s0);
    RootOpens(s0, limits);
    ForestAccepted(s1, children, limits);
    RootCloses(s0, children, limits);
    ElementRun(s0, "html", s1, Flatten(children), After(s1, children), RootClosed(After(s1, children)), after, limits);
    AfterRoot(RootClosed(After(s1, children)), after, limits);
  }

  lemma RootCloses(s0: State, children: Forest, limits: Limits)
    requires s0.tokens + 1 + Tokens(Flatten(children)) < limits.maxTokens
    ensures Step(After(RootOpened(s0), children), EndTag("html"), limits) == Next(RootClosed(After(RootOpened(s0), children)))
  {
    assert "html" !in HTML_VOID_ELEMENTS;
    Closes(After(RootOpened(s0), children), [], "html", limits);
  }

  lemma AfterRoot(s: State, after: seq<Event>, limits: Limits)
    requires s.stack == [] && s.rootSeen && s.rootClosed && (forall e :: e in after ==> Outside(e))
    requires (if s.doctypeSeen then 1 else 0) + Doctypes(after) <= 1 && s.tokens + Tokens(after) <= limits.maxTokens
    ensures Finished(Run(s, after, limits))
  {
    OutsideAccepted(s, after, limits);
  }

  lemma RootOpens(s0: State, limits: Limits)
    requires s0 == INITIAL.(tokens := s0.tokens, doctypeSeen := s0.doctypeSeen)
    requires 1 <= limits.maxNesting && s0.tokens < limits.maxTokens
    ensures Step(s0, StartTag("html", true, false), limits) == Next(RootOpened(s0))
  {
    assert "html" !in HTML_VOID_ELEMENTS && "html" !in HTML_FORBIDDEN_ELEMENTS;
  }

  lemma DocumentAccepted(d: Document, limits: Limits)
    requires DocumentOk(d, limits)
    ensures Accepts(DocumentEvents(d), limits)
  {
    DocumentTokens(d);
    OutsideAccepted(INITIAL, d.before, limits);
    RootAccepted(AfterOutside(INITIAL, d.before), d.children, d.after, limits);
    var root := [StartTag("html", true, false)] + Flatten(d.children) + [EndTag("html")] + d.after;
    RunConcat(INITIAL, d.before, root, limits);
    assert DocumentEvents(d) == d.before + root;
  }

  lemma RootOpensWith(s: State, e: Event, limits: Limits)
    requires s.stack == [] && e.StartTag? && Step(s, e, limits).Next?
    ensures e == StartTag("html", true, false) && !s.rootSeen && !s.rootClosed && 1 <= limits.maxNesting && s.tokens < limits.maxTokens
    ensures Step(s, e, limits) == Next(RootOpened(s))
  {
    assert "html" !in HTML_VOID_ELEMENTS;
  }

  /** From the start tag of the root on. */
  lemma ParseRoot(s0: State, events: seq<Event>, limits: Limits) returns (children: Forest, after: seq<Event>)
    requires s0.stack == [] && s0.tokens <= limits.maxTokens && events != [] && events[0].StartTag?
    requires !s0.headSeen && !s0.bodySeen && Finished(Run(s0, events, limits))
    ensures events == [StartTag("html", true, false)] + Flatten(children) + [EndTag("html")] + after
    ensures 1 <= limits.maxNesting && ForestOk(children, ["html"], limits.maxNesting) && HeadThenBody(Outline(children))
    ensures (forall e :: e in after ==> Outside(e)) && (if s0.doctypeSeen then 1 else 0) + Doctypes(after) <= 1
    ensures s0.tokens + Tokens(Flatten(children)) + Tokens(after) + 2 <= limits.maxTokens
  {
    RootOpensWith(s0, events[0], limits);
    var s1 := RootOpened(s0);
    var closing;
    children, closing := Parse(s1, events[1..], limits);
    var s2 := After(s1, children);
    ClosedBy(s2, [], "html", limits);
    var s3 := RootClosed(s2);
    var rest;
    after, rest := ParseOutside(s3, closing[1..], limits);
    NothingFollows(AfterOutside(s3, after), rest, limits);
    ElementEvents(events, "html", Flatten(children), closing, after, []);
    assert Flatten(children) + [EndTag("html")] + after + [] == Flatten(children) + [EndTag("html")] + after;
  }

  lemma ParseDocument(events: seq<Event>, limits: Limits) returns (d: Document)
    requires Accepts(events, limits)
    ensures DocumentOk(d, limits) && events == DocumentEvents(d)
  {
    var before, root := ParseOutside(INITIAL, events, limits);
    var children, after := ParseRoot(AfterOutside(INITIAL, before), root, limits);
    d := Document(before, children, after);
    assert Doctypes(before) + Doctypes(after) <= 1;
    DocumentTokens(d);
    RootEvents(events, before, root, d);
  }

  lemma RootEvents(events: seq<Event>, before: seq<Event>, root: seq<Event>, d: Document)
    requires events == before + root && d.before == before
    requires root == [StartTag("html", true, false)] + Flatten(d.children) + [EndTag("html")] + d.after
    ensures events == DocumentEvents(d)
  {
  }

  lemma NothingFollows(s: State, rest: seq<Event>, limits: Limits)
    requires s.stack == [] && s.rootSeen && Run(s, rest, limits).Next? && (rest != [] ==> rest[0].StartTag?)
    ensures rest == []
  {
    if rest != [] && Step(s, rest[0], limits).Next? { RootOpensWith(s, rest[0], limits); }
  }

  lemma AcceptsExactlyDocuments(events: seq<Event>, limits: Limits)
    ensures Accepts(events, limits) <==> exists d: Document :: DocumentOk(d, limits) && events == DocumentEvents(d)
  {
    if Accepts(events, limits) {
      var d := ParseDocument(events, limits);
    }
    forall d: Document | DocumentOk(d, limits) && events == DocumentEvents(d) ensures Accepts(events, limits) {
      DocumentAccepted(d, limits);
    }
  }
}
