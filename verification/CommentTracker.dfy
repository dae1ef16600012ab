/** `_track_unterminated_comment`: whether a comment is open after a text that arrives in chunks, from a
    flag and the last four characters.  The reference is one left-to-right reading of the whole text. */
module CommentTracker {

  const OPENER: string := "<!--"

  /** Outside a comment with the first `k` characters of the opener matched, or inside one with `d`
      dashes of the terminator matched. */
  datatype Mode = Out(k: nat) | In(d: nat)

  /** One character of the reference reading. */
  function Advance(m: Mode, c: char): Mode {
    match m
    case Out(k) =>
      if k < 4 && c == OPENER[k] then (if k == 3 then In(0) else Out(k + 1)) else if c == '<' then Out(1) else Out(0)
    case In(d) =>
      if c == '-' then In(if d == 0 then 1 else 2) else if c == '>' && d == 2 then Out(0) else In(0)
  }

  function Read(m: Mode, text: string): Mode
    decreases |text|
  {
    if text == [] then m else Read(Advance(m, text[0]), text[1..])
  }

  lemma {:induction false} ReadConcat(m: Mode, a: string, b: string)
    ensures Read(m, a + b) == Read(Read(m, a), b)
    decreases |a|
  {
    if a == [] {
      assert a + b == b;
    } else {
      assert (a + b)[0] == a[0] && (a + b)[1..] == a[1..] + b;
      ReadConcat(Advance(m, a[0]), a[1..], b);
    }
  }

  lemma ReadOne(m: Mode, a: string, c: char)
    ensures Read(m, a + [c]) == Advance(Read(m, a), c)
  {
    ReadConcat(m, a, [c]);
    assert [c][1..] == [];
  }

  predicate OpensAt(s: string, i: int) {
    0 <= i && i + 4 <= |s| && s[i] == '<' && s[i + 1] == '!' && s[i + 2] == '-' && s[i + 3] == '-'
  }

  predicate ClosesAt(s: string, i: int) {
    0 <= i && i + 3 <= |s| && s[i] == '-' && s[i + 1] == '-' && s[i + 2] == '>'
  }

  // The two searches

  /** `combined.find("<!--", cursor)`. */
  method FindOpener(s: string, from: nat) returns (i: int)
    requires from <= |s|
    ensures i < 0 ==> forall j :: from <= j ==> !OpensAt(s, j)
    ensures i >= 0 ==> from <= i && OpensAt(s, i) && forall j :: from <= j < i ==> !OpensAt(s, j)
  {
    i := from;
    while i < |s|
      invariant from <= i <= |s| && forall j :: from <= j < i ==> !OpensAt(s, j)
    {
      if OpensAt(s, i) { return; }
      i := i + 1;
    }
    i := -1;
  }

  /** `combined.find("-->", cursor)`. */
  method FindCloser(s: string, from: nat) returns (i: int)
    requires from <= |s|
    ensures i < 0 ==> forall j :: from <= j ==> !ClosesAt(s, j)
    ensures i >= 0 ==> from <= i && ClosesAt(s, i) && forall j :: from <= j < i ==> !ClosesAt(s, j)
  {
    i := from;
    while i < |s|
      invariant from <= i <= |s| && forall j :: from <= j < i ==> !ClosesAt(s, j)
    {
      if ClosesAt(s, i) { return; }
      i := i + 1;
    }
    i := -1;
  }

  /** The text before `p` ends in the first `k` characters of the opener. */
  predicate OpenerAt(s: string, p: nat, k: nat) {
    && k <= 3 && k <= p <= |s|
    && (k >= 1 ==> s[p - k] == '<') && (k >= 2 ==> s[p - k + 1] == '!') && (k >= 3 ==> s[p - k + 2] == '-')
  }

  lemma ReadNext(m: Mode, s: string, p: nat)
    requires p < |s|
    ensures Read(m, s[p..]) == Read(Advance(m, s[p]), s[p + 1..])
  {
    assert s[p..][0] == s[p] && s[p..][1..] == s[p + 1..];
  }

  /** One more character: the opener is complete, or as much of it as still can begin is matched. */
  lemma OpenerNext(s: string, p: nat, k: nat) returns (next: nat)
    requires OpenerAt(s, p, k) && p < |s|
    ensures OpensAt(s, p - k) && k == 3 ==> Advance(Out(k), s[p]) == In(0)
    ensures !(OpensAt(s, p - k) && k == 3) ==> Advance(Out(k), s[p]) == Out(next) && OpenerAt(s, p + 1, next)
    ensures next <= k + 1 && forall j :: p - k <= j < p + 1 - next && OpensAt(s, j) ==> k == 3 && j == p - k
  {
    next := if k < 3 && s[p] == OPENER[k] then k + 1 else if s[p] == '<' then 1 else 0;
    forall j | p - k <= j < p + 1 - next && OpensAt(s, j) ensures k == 3 && j == p - k {
      assert s[j + 0] == '<' && s[j + 1] == '!' && s[j + 2] == '-' && s[j + 3] == '-';
    }
  }

  lemma {:induction false} NoOpener(s: string, p: nat, k: nat)
    requires OpenerAt(s, p, k) && forall j :: p - k <= j ==> !OpensAt(s, j)
    ensures Read(Out(k), s[p..]).Out?
    decreases |s| - p
  {
    if p < |s| {
      ReadNext(Out(k), s, p);
      var next := OpenerNext(s, p, k);
      NoOpener(s, p + 1, next);
    }
  }

  lemma {:induction false} FirstOpener(s: string, p: nat, k: nat, i: nat)
    requires OpenerAt(s, p, k) && p - k <= i && OpensAt(s, i) && forall j :: p - k <= j < i ==> !OpensAt(s, j)
    ensures Read(Out(k), s[p..]) == Read(In(0), s[i + 4..])
    decreases |s| - p
  {
    ReadNext(Out(k), s, p);
    var next := OpenerNext(s, p, k);
    if !(OpensAt(s, p - k) && k == 3) { FirstOpener(s, p + 1, next, i); }
  }

  /** The text before `p` ends in `d` dashes. */
  predicate DashesAt(s: string, p: nat, d: nat) {
    d <= 2 && d <= p <= |s| && (d >= 1 ==> s[p - 1] == '-') && (d >= 2 ==> s[p - 2] == '-')
  }

  lemma CloserNext(s: string, p: nat, d: nat) returns (next: nat)
    requires DashesAt(s, p, d) && p < |s|
    ensures ClosesAt(s, p - d) && d == 2 ==> Advance(In(d), s[p]) == Out(0)
    ensures !(ClosesAt(s, p - d) && d == 2) ==> Advance(In(d), s[p]) == In(next) && DashesAt(s, p + 1, next)
    ensures next <= d + 1 && forall j :: p - d <= j < p + 1 - next && ClosesAt(s, j) ==> d == 2 && j == p - d
  {
    next := if s[p] != '-' then 0 else if d == 0 then 1 else 2;
    forall j | p - d <= j < p + 1 - next && ClosesAt(s, j) ensures d == 2 && j == p - d {
      assert s[j + 0] == '-' && s[j + 1] == '-' && s[j + 2] == '>';
    }
  }

  lemma {:induction false} NoCloser(s: string, p: nat, d: nat)
    requires DashesAt(s, p, d) && forall j :: p - d <= j ==> !ClosesAt(s, j)
    ensures Read(In(d), s[p..]).In?
    decreases |s| - p
  {
    if p < |s| {
      ReadNext(In(d), s, p);
      var next := CloserNext(s, p, d);
      NoCloser(s, p + 1, next);
    }
  }

  lemma {:induction false} FirstCloser(s: string, p: nat, d: nat, i: nat)
    requires DashesAt(s, p, d) && p - d <= i && ClosesAt(s, i) && forall j :: p - d <= j < i ==> !ClosesAt(s, j)
    ensures Read(In(d), s[p..]) == Read(Out(0), s[i + 3..])
    decreases |s| - p
  {
    ReadNext(In(d), s, p);
    var next := CloserNext(s, p, d);
    if !(ClosesAt(s, p - d) && d == 2) { FirstCloser(s, p + 1, next, i); }
  }

  /** A search for the opener from `cursor`, in terms of the reading. */
  lemma OpenerSearch(s: string, cursor: nat, i: int)
    requires cursor <= |s|
    requires i < 0 ==> forall j :: cursor <= j ==> !OpensAt(s, j)
    requires i >= 0 ==> cursor <= i && OpensAt(s, i) && forall j :: cursor <= j < i ==> !OpensAt(s, j)
    ensures if i < 0 then Read(Out(0), s[cursor..]).Out? else Read(Out(0), s[cursor..]) == Read(In(0), s[i + 4..])
  {
    if i < 0 { NoOpener(s, cursor, 0); } else { FirstOpener(s, cursor, 0, i); }
  }

  lemma CloserSearch(s: string, cursor: nat, i: int)
    requires cursor <= |s|
    requires i < 0 ==> forall j :: cursor <= j ==> !ClosesAt(s, j)
    requires i >= 0 ==> cursor <= i && ClosesAt(s, i) && forall j :: cursor <= j < i ==> !ClosesAt(s, j)
    ensures if i < 0 then Read(In(0), s[cursor..]).In? else Read(In(0), s[cursor..]) == Read(Out(0), s[i + 3..])
  {
    if i < 0 { NoCloser(s, cursor, 0); } else { FirstCloser(s, cursor, 0, i); }
  }

  // The tracker

  datatype Tracked = Tracked(isOpen: bool, tail: string)

  function Initial(isOpen: bool): Mode {
    if isOpen then In(0) else Out(0)
  }

  function LastFour(s: string): string {
    if |s| <= 4 then s else s[|s| - 4..]
  }

  /** One call: the kept tail is read again from the start of a comment or from outside one. */
  function Fed(t: Tracked, data: string): Tracked {
    Tracked(Read(Initial(t.isOpen), t.tail + data).In?, LastFour(t.tail + data))
  }

  class Tracker {
    var commentOpen: bool
    var markupTail: string

    function State(): Tracked
      reads this
    {
      Tracked(commentOpen, markupTail)
    }

    constructor ()
      ensures State() == Tracked(false, "")
    {
      commentOpen, markupTail := false, "";
    }

    /** `_track_unterminated_comment`. */
    method Feed(data: string)
      modifies this
      ensures State() == Fed(old(State()), data)
    {
      var combined := markupTail + data;
      var cursor := 0;
      while true
        invariant cursor <= |combined| && markupTail == old(markupTail)
        invariant Read(Initial(old(commentOpen)), combined) == Read(Initial(commentOpen), combined[cursor..])
        decreases |combined| - cursor
      {
        if commentOpen {
          var end := FindCloser(combined, cursor);
          CloserSearch(combined, cursor, end);
          if end < 0 {
            markupTail := LastFour(combined);
            return;
          }
          commentOpen := false;
          cursor := end + 3;
          continue;
        }
        var start := FindOpener(combined, cursor);
        OpenerSearch(combined, cursor, start);
        if start < 0 {
          markupTail := LastFour(combined);
          return;
        }
        commentOpen := true;
        cursor := start + 4;
      }
    }
  }

  function Concat(chunks: seq<string>): string {
    if chunks == [] then "" else Concat(chunks[..|chunks| - 1]) + chunks[|chunks| - 1]
  }

  function FeedAll(chunks: seq<string>): Tracked {
    if chunks == [] then Tracked(false, "") else Fed(FeedAll(chunks[..|chunks| - 1]), chunks[|chunks| - 1])
  }

  // The rule of section 13.1.6 of the WHATWG HTML standard

  /** A comment opens with the opener at `i`. */
  predicate OpensHere(text: string, i: nat) {
    OpensAt(text, i) && Read(Out(0), text[..i + 3]).Out?
  }

  /** An opening directly followed by ">" or "->". */
  predicate AbruptAt(text: string, i: nat) {
    && OpensHere(text, i) && i + 4 < |text|
    && (text[i + 4] == '>' || (text[i + 4] == '-' && i + 5 < |text| && text[i + 5] == '>'))
  }

  ghost predicate NonAbrupt(text: string) {
    forall i: nat :: !AbruptAt(text, i)
  }

  lemma PrefixNonAbrupt(a: string, b: string)
    requires NonAbrupt(a + b)
    ensures NonAbrupt(a)
  {
    forall i: nat ensures !AbruptAt(a, i) {
      if i + 4 < |a| { assert a[..i + 3] == (a + b)[..i + 3]; }
      assert !AbruptAt(a + b, i);
    }
  }

  // What the last characters say about the reading

  function Suffix(h: string): nat {
    var n := |h|;
    if n >= 3 && h[n - 3] == '<' && h[n - 2] == '!' && h[n - 1] == '-' then 3
    else if n >= 2 && h[n - 2] == '<' && h[n - 1] == '!' then 2
    else if n >= 1 && h[n - 1] == '<' then 1
    else 0
  }

  function TrailingDashes(h: string): nat {
    var n := |h|;
    if n >= 1 && h[n - 1] == '-' then (if n >= 2 && h[n - 2] == '-' then 2 else 1) else 0
  }

  lemma {:induction false} OutsideSuffix(h: string)
    ensures Read(Out(0), h).Out? ==> Read(Out(0), h).k == Suffix(h) && !OpensAt(h, |h| - 4)
    ensures Read(Out(0), h).In? ==> Read(Out(0), h).d <= 2
    decreases |h|
  {
    if h != [] {
      var init, c := h[..|h| - 1], h[|h| - 1];
      assert h == init + [c];
      OutsideSuffix(init);
      ReadOne(Out(0), init, c);
    }
  }

  /** Inside a comment: it has just opened, or just opened and gone on with one dash, or the last four
      characters hold no terminator and end in the dashes matched so far. */
  ghost predicate InsideKnown(h: string, d: nat) {
    || (|h| >= 4 && OpensHere(h, |h| - 4) && d == 0)
    || (|h| >= 5 && OpensHere(h, |h| - 5) && h[|h| - 1] == '-' && d == 1)
    || Settled(h, d)
  }

  predicate Settled(h: string, d: nat) {
    |h| >= 5 && d == TrailingDashes(h) && !ClosesAt(h, |h| - 3) && !ClosesAt(h, |h| - 4)
  }

  lemma {:induction false} InsideTail(h: string)
    requires NonAbrupt(h) && Read(Out(0), h).In?
    ensures InsideKnown(h, Read(Out(0), h).d)
    decreases |h|
  {
    var init, c := h[..|h| - 1], h[|h| - 1];
    assert h == init + [c];
    PrefixNonAbrupt(init, [c]);
    ReadOne(Out(0), init, c);
    OutsideSuffix(init);
    var m := Read(Out(0), init);
    if m.Out? {
      assert h[..|h| - 4 + 3] == init;
    } else {
      InsideTail(init);
      InsideStep(init, c, m.d);
    }
  }

  lemma InsideStep(init: string, c: char, d: nat)
    requires InsideKnown(init, d) && d <= 2 && NonAbrupt(init + [c]) && Advance(In(d), c).In?
    ensures InsideKnown(init + [c], Advance(In(d), c).d)
  {
    var h := init + [c];
    assert h[|h| - 1] == c && h[..|h| - 1] == init;
    if |init| >= 4 && OpensHere(init, |init| - 4) && d == 0 {
      assert h[..|h| - 5 + 3] == init[..|init| - 4 + 3];
      assert !AbruptAt(h, |init| - 4);
    } else if |init| >= 5 && OpensHere(init, |init| - 5) && init[|init| - 1] == '-' && d == 1 {
      assert h[..|h| - 6 + 3] == init[..|init| - 5 + 3];
      assert !AbruptAt(h, |init| - 5);
    }
  }

  // Reading the kept tail again

  function Resumed(h: string): Mode {
    Read(Initial(Read(Out(0), h).In?), LastFour(h))
  }

  lemma {:induction false} ShortInside(w: string)
    requires |w| <= 4 && !ClosesAt(w, 0) && !ClosesAt(w, 1)
    ensures Read(In(0), w) == In(TrailingDashes(w))
    decreases |w|
  {
    if w != [] {
      var init, c := w[..|w| - 1], w[|w| - 1];
      assert w == init + [c];
      ShortInside(init);
      ReadOne(In(0), init, c);
    }
  }

  lemma {:induction false} ShortOutside(w: string)
    requires |w| <= 4 && !OpensAt(w, 0)
    ensures Read(Out(0), w) == Out(Suffix(w))
    decreases |w|
  {
    if w != [] {
      var init, c := w[..|w| - 1], w[|w| - 1];
      assert w == init + [c];
      ShortOutside(init);
      ReadOne(Out(0), init, c);
    }
  }

  lemma ResumedOutside(h: string)
    requires Read(Out(0), h).Out?
    ensures Resumed(h) == Read(Out(0), h)
  {
    OutsideSuffix(h);
    var w := LastFour(h);
    assert OpensAt(w, 0) ==> OpensAt(h, |h| - 4);
    ShortOutside(w);
    assert Suffix(w) == Suffix(h);
  }

  lemma ResumedSettled(h: string, d: nat)
    requires Read(Out(0), h) == In(d) && Settled(h, d)
    ensures Resumed(h) == In(d)
  {
    var w := LastFour(h);
    assert forall j :: 0 <= j < 4 ==> w[j] == h[|h| - 4 + j];
    ShortInside(w);
  }

  lemma ResumedFresh(h: string)
    requires Read(Out(0), h).In? && |h| >= 4
    requires (h[|h| - 1] == '-' && h[|h| - 2] == '-') && !ClosesAt(h, |h| - 4) && !ClosesAt(h, |h| - 3)
    ensures Resumed(h) == In(2)
  {
    var w := LastFour(h);
    assert forall j :: 0 <= j < 4 ==> w[j] == h[|h| - 4 + j];
    ShortInside(w);
  }

  /** Reading on from the kept tail opens and closes comments as the reference does. */
  lemma ResumedAgrees(h: string, data: string)
    requires NonAbrupt(h + data)
    ensures Read(Resumed(h), data).In? == Read(Out(0), h + data).In?
  {
    ReadConcat(Out(0), h, data);
    PrefixNonAbrupt(h, data);
    var m := Read(Out(0), h);
    if m.Out? {
      ResumedOutside(h);
    } else {
      InsideTail(h);
      if Settled(h, m.d) {
        ResumedSettled(h, m.d);
      } else {
        ResumedFresh(h);
        FreshAgrees(h, data, m.d);
      }
    }
  }

  /** Right after an opening the tail looks like two dashes; without an abrupt end that makes no
      difference. */
  lemma FreshAgrees(h: string, data: string, d: nat)
    requires NonAbrupt(h + data)
    requires (|h| >= 4 && OpensHere(h, |h| - 4) && d == 0) || (|h| >= 5 && OpensHere(h, |h| - 5) && h[|h| - 1] == '-' && d == 1)
    ensures Read(In(2), data).In? == Read(In(d), data).In?
  {
    if data != [] {
      var i: nat := if d == 0 then |h| - 4 else |h| - 5;
      assert (h + data)[..i + 3] == h[..i + 3];
      assert OpensHere(h + data, i);
      assert !AbruptAt(h + data, i);
      assert (h + data)[|h|] == data[0];
      if d == 0 && data[0] == '-' && |data| > 1 {
        assert (h + data)[|h| + 1] == data[1];
        assert data[1..][0] == data[1];
      }
    }
  }

  /** However the text is split into calls, empty ones included, the flag and the tail are those of one
      reading of the whole text. */
  lemma {:induction false} ChunksReadAsWhole(chunks: seq<string>)
    requires NonAbrupt(Concat(chunks))
    ensures FeedAll(chunks) == Tracked(Read(Out(0), Concat(chunks)).In?, LastFour(Concat(chunks)))
    decreases |chunks|
  {
    if chunks != [] {
      var h, data := Concat(chunks[..|chunks| - 1]), chunks[|chunks| - 1];
      PrefixNonAbrupt(h, data);
      ChunksReadAsWhole(chunks[..|chunks| - 1]);
      ReadConcat(Initial(Read(Out(0), h).In?), LastFour(h), data);
      ResumedAgrees(h, data);
      assert LastFour(LastFour(h) + data) == LastFour(h + data);
    }
  }

  /** The flag after `chunks` is that of feeding the same text at once. */
  predicate SplitAgrees(chunks: seq<string>) {
    FeedAll(chunks).isOpen == FeedAll([Concat(chunks)]).isOpen
  }

  lemma FedAtOnce(text: string)
    ensures FeedAll([text]) == Tracked(Read(Out(0), text).In?, LastFour(text))
    ensures Concat([text]) == text
  {
    assert [text][..0] == [];
    assert "" + text == text;
  }

  predicate AbruptEnd(data: string) {
    data == ">" || data == "->"
  }

  lemma OpenedStaysOpen(data: string)
    requires AbruptEnd(data)
    ensures Read(In(0), data).In? && Read(In(2), data).Out?
  {
    assert "->"[1..] == ">" && ">"[1..] == "";
  }

  lemma JustOpened(h: string)
    requires |h| >= 4 && OpensHere(h, |h| - 4)
    ensures Read(Out(0), h) == In(0) && LastFour(h) == OPENER
  {
    var init := h[..|h| - 4 + 3];
    assert h == init + ['-'];
    ReadOne(Out(0), init, '-');
    OutsideSuffix(init);
    assert Suffix(init) == 3;
  }

  /** Fed at once, the opening before an abrupt end stays open. */
  lemma AtOnceOpen(h: string, data: string)
    requires Read(Out(0), h) == In(0) && AbruptEnd(data)
    ensures FeedAll([h + data]).isOpen
  {
    OpenedStaysOpen(data);
    ReadConcat(Out(0), h, data);
    FedAtOnce(h + data);
  }

  /** Fed in two calls it is closed by its own dashes. */
  lemma InTwoCallsClosed(h: string, data: string)
    requires Read(Out(0), h) == In(0) && LastFour(h) == OPENER && AbruptEnd(data)
    ensures !FeedAll([h, data]).isOpen
  {
    FedAtOnce(h);
    assert [h, data][..1] == [h];
    assert FeedAll([h, data]) == Fed(FeedAll([h]), data);
    ShortInside(OPENER);
    ReadConcat(In(0), OPENER, data);
    OpenedStaysOpen(data);
  }

  lemma TwoCallsDiffer(h: string, data: string)
    requires |h| >= 4 && OpensHere(h, |h| - 4) && AbruptEnd(data)
    ensures Concat([h, data]) == h + data && !SplitAgrees([h, data])
  {
    FedAtOnce(h);
    assert [h, data][..1] == [h];
    JustOpened(h);
    AtOnceOpen(h, data);
    InTwoCallsClosed(h, data);
  }

  lemma AbruptDisagrees(text: string, i: nat)
    requires AbruptAt(text, i)
    ensures exists chunks :: Concat(chunks) <= text && !SplitAgrees(chunks)
  {
    var n := if text[i + 4] == '>' then i + 5 else i + 6;
    var h, data := text[..i + 4], text[i + 4..n];
    assert h[..i + 3] == text[..i + 3];
    assert data[0] == text[i + 4] && (n == i + 6 ==> data[1] == text[i + 5]);
    assert data == if n == i + 5 then ">" else "->";
    TwoCallsDiffer(h, data);
    assert h + data == text[..n];
    assert Concat([h, data]) <= text;
  }

  /** Every way of splitting every beginning of the text gives the same flag exactly when no opening in
      it is directly followed by ">" or "->". */
  lemma SplitsAgreeExactlyWhenNonAbrupt(text: string)
    ensures (forall chunks :: Concat(chunks) <= text ==> SplitAgrees(chunks)) <==> NonAbrupt(text)
  {
    if NonAbrupt(text) {
      forall chunks | Concat(chunks) <= text ensures SplitAgrees(chunks) {
        var t := Concat(chunks);
        assert t + text[|t|..] == text;
        PrefixNonAbrupt(t, text[|t|..]);
        ChunksReadAsWhole(chunks);
        FedAtOnce(t);
      }
    } else {
      var i: nat :| AbruptAt(text, i);
      AbruptDisagrees(text, i);
    }
  }
}
