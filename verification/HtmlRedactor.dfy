/** The HTML redactor of content exports (scripts/f02_readonly_export.py).

    The input is the stream of parser events; `flagged` says that a tag's class or id matches the
    account and tracking words. */
module HtmlRedactor {

  datatype Event =
    | Start(tag: string, flagged: bool)
    | StartEnd(tag: string, flagged: bool)
    | End(tag: string)
    | Data(text: string)

  datatype Element = Element(tag: string, blocked: bool)

  /** A piece of output: an opening tag, a closing tag, or escaped text. */
  datatype Piece = Open(tag: string) | Close(tag: string) | Text(text: string)

  const SafeTags: set<string> := {"p", "h1", "h2", "h3", "h4", "h5", "h6", "blockquote", "ul", "ol", "li",
                                  "table", "tr", "td", "th", "figcaption", "br"}
  const BlockedTags: set<string> := {"script", "style", "form", "input", "button", "textarea", "select",
                                     "nav", "header", "footer", "iframe", "svg"}
  const VoidTags: set<string> := {"br", "img", "input", "meta", "link", "hr", "source", "area", "embed", "wbr",
                                  "col", "base", "param", "track"}

  function EscapeChar(c: char): string {
    if c == '&' then "&amp;" else if c == '<' then "&lt;" else if c == '>' then "&gt;"
    else if c == '"' then "&quot;" else if c == '\'' then "&#x27;" else [c]
  }

  /** `html.escape`. */
  function Escape(s: string): string {
    if s == [] then [] else EscapeChar(s[0]) + Escape(s[1..])
  }

  /** Escaped text never contains a tag, so every tag of the output is a piece of its own. */
  lemma {:induction false} EscapedHasNoTags(s: string)
    ensures '<' !in Escape(s) && '>' !in Escape(s) && '"' !in Escape(s) && '\'' !in Escape(s)
  {
    hide EscapeChar;
    if s != [] {
      CharHasNoTags(s[0]);
      EscapedHasNoTags(s[1..]);
    }
  }

  lemma CharHasNoTags(c: char)
    ensures forall d | d in EscapeChar(c) :: d != '<' && d != '>' && d != '"' && d != '\''
  {}

  datatype State = State(stack: seq<Element>, output: seq<Piece>)

  predicate InBlocked(stack: seq<Element>) {
    stack != [] && stack[|stack| - 1].blocked
  }

  function StartStep(s: State, tag: string, flagged: bool): State {
    var blocked := InBlocked(s.stack) || tag in BlockedTags || flagged;
    State(if tag in VoidTags then s.stack else s.stack + [Element(tag, blocked)],
          if !blocked && tag in SafeTags then s.output + [Open(tag)] else s.output)
  }

  /** Where the innermost open element with this tag is. */
  function Innermost(stack: seq<Element>, tag: string): (i: int)
    ensures -1 <= i < |stack|
    ensures i >= 0 ==> stack[i].tag == tag
    ensures forall j | i < j < |stack| :: stack[j].tag != tag
  {
    if stack == [] then -1
    else if stack[|stack| - 1].tag == tag then |stack| - 1
    else Innermost(stack[..|stack| - 1], tag)
  }

  function EndStep(s: State, tag: string): State {
    var i := Innermost(s.stack, tag);
    if i < 0 then s
    else State(s.stack[..i],
               if !s.stack[i].blocked && tag in SafeTags then s.output + [Close(tag)] else s.output)
  }

  function Step(s: State, e: Event): State {
    match e
    case Start(tag, flagged) => StartStep(s, tag, flagged)
    case StartEnd(tag, flagged) =>
      if tag in VoidTags then StartStep(s, tag, flagged) else EndStep(StartStep(s, tag, flagged), tag)
    case End(tag) => EndStep(s, tag)
    case Data(text) => if InBlocked(s.stack) then s else s.(output := s.output + [Text(Escape(text))])
  }

  function Run(s: State, events: seq<Event>): State {
    if events == [] then s else Step(Run(s, events[..|events| - 1]), events[|events| - 1])
  }

  class Redactor {
    var stack: seq<Element>
    var output: seq<Piece>

    function Now(): State
      reads this
    {
      State(stack, output)
    }

    constructor ()
      ensures Now() == State([], [])
    {
      stack, output := [], [];
    }

    method HandleStartTag(tag: string, flagged: bool)
      modifies this
      ensures Now() == StartStep(old(Now()), tag, flagged)
    {
      var blocked := (stack != [] && stack[|stack| - 1].blocked) || tag in BlockedTags || flagged;
      if !blocked && tag in SafeTags { output := output + [Open(tag)]; }
      if tag !in VoidTags { stack := stack + [Element(tag, blocked)]; }
    }

    method HandleEndTag(tag: string)
      modifies this
      ensures Now() == EndStep(old(Now()), tag)
    {
      var i := |stack| - 1;
      while i >= 0
        invariant -1 <= i < |stack| && stack == old(stack) && output == old(output)
        invariant forall j | i < j < |stack| :: stack[j].tag != tag
      {
        if stack[i].tag == tag {
          InnermostIs(stack, tag, i);
          var blocked := stack[i].blocked;
          stack := stack[..i];
          if !blocked && tag in SafeTags { output := output + [Close(tag)]; }
          return;
        }
        i := i - 1;
      }
      InnermostIs(stack, tag, i);
    }

    method HandleStartEndTag(tag: string, flagged: bool)
      modifies this
      ensures Now() == Step(old(Now()), StartEnd(tag, flagged))
    {
      HandleStartTag(tag, flagged);
      if tag !in VoidTags { HandleEndTag(tag); }
    }

    method HandleData(text: string)
      modifies this
      ensures Now() == Step(old(Now()), Data(text))
    {
      if stack == [] || !stack[|stack| - 1].blocked { output := output + [Text(Escape(text))]; }
    }

    /** `feed` over a whole stream of events. */
    method Feed(events: seq<Event>)
      modifies this
      ensures Now() == Run(old(Now()), events)
    {
      for n := 0 to |events|
        invariant Now() == Run(old(Now()), events[..n])
      {
        assert events[..n + 1][..n] == events[..n];
        match events[n]
        case Start(tag, flagged) => HandleStartTag(tag, flagged);
        case StartEnd(tag, flagged) => HandleStartEndTag(tag, flagged);
        case End(tag) => HandleEndTag(tag);
        case Data(text) => HandleData(text);
      }
      assert events[..|events|] == events;
    }
  }

  lemma InnermostIs(stack: seq<Element>, tag: string, i: int)
    requires -1 <= i < |stack| && (i >= 0 ==> stack[i].tag == tag)
    requires forall j | i < j < |stack| :: stack[j].tag != tag
    ensures Innermost(stack, tag) == i
  {}

  // ---------------------------------------------------------------- the blocked flag

  /** Everything inside a blocked element is blocked. */
  ghost predicate UpwardClosed(stack: seq<Element>) {
    forall i, j | 0 <= i < j < |stack| && stack[i].blocked :: stack[j].blocked
  }

  /** No event changes the output as long as an element that was blocked stays open. */
  lemma BlockedIsSilent(s: State, e: Event, i: nat)
    requires UpwardClosed(s.stack)
    ensures UpwardClosed(Step(s, e).stack)
    ensures i < |s.stack| && s.stack[i].blocked && i < |Step(s, e).stack| && Step(s, e).stack[i] == s.stack[i] ==>
              Step(s, e).output == s.output
  {
    if e.StartEnd? && e.tag !in VoidTags {
      var mid := StartStep(s, e.tag, e.flagged);
      InnermostIs(mid.stack, e.tag, |mid.stack| - 1);
    }
  }

  // ---------------------------------------------------------------- non-interference

  /** The elements that events open and leave open among themselves; none if they close an element
      that they did not open. */
  datatype Opened = Escapes | Opened(tags: seq<string>)

  function InnermostTag(tags: seq<string>, tag: string): (i: int)
    ensures -1 <= i < |tags|
    ensures i >= 0 ==> tags[i] == tag
    ensures forall j | i < j < |tags| :: tags[j] != tag
  {
    if tags == [] then -1
    else if tags[|tags| - 1] == tag then |tags| - 1
    else InnermostTag(tags[..|tags| - 1], tag)
  }

  function OwnElements(events: seq<Event>): Opened {
    if events == [] then Opened([])
    else
      var own := OwnElements(events[..|events| - 1]);
      if own.Escapes? then Escapes
      else
        match events[|events| - 1]
        case Start(tag, _) => if tag in VoidTags then own else Opened(own.tags + [tag])
        case StartEnd(_, _) => own
        case Data(_) => own
        case End(tag) =>
          var i := InnermostTag(own.tags, tag);
          if i < 0 then Escapes else Opened(own.tags[..i])
  }

  /** Content that closes everything that it opens, and nothing else. */
  predicate WellNested(events: seq<Event>) {
    OwnElements(events) == Opened([])
  }

  function Hidden(tags: seq<string>): seq<Element> {
    seq(|tags|, i requires 0 <= i < |tags| => Element(tags[i], true))
  }

  lemma HiddenAt(stack: seq<Element>, tags: seq<string>, k: nat)
    requires k < |tags|
    ensures |stack + Hidden(tags)| == |stack| + |tags|
    ensures (stack + Hidden(tags))[|stack| + k] == Element(tags[k], true)
  {}

  lemma InnermostAbove(stack: seq<Element>, tags: seq<string>, tag: string)
    requires InnermostTag(tags, tag) >= 0
    ensures Innermost(stack + Hidden(tags), tag) == |stack| + InnermostTag(tags, tag)
  {
    hide Innermost, InnermostTag, Hidden;
    var all, i := stack + Hidden(tags), InnermostTag(tags, tag);
    HiddenAt(stack, tags, i);
    forall j | |stack| + i < j < |all| ensures all[j].tag != tag {
      HiddenAt(stack, tags, j - |stack|);
    }
    InnermostIs(all, tag, |stack| + i);
  }

  /** Inside a blocked element, content that does not escape only stacks up blocked elements. */
  lemma {:induction false} BlockedContent(s: State, events: seq<Event>)
    requires InBlocked(s.stack) && OwnElements(events).Opened?
    ensures Run(s, events) == State(s.stack + Hidden(OwnElements(events).tags), s.output)
  {
    if events == [] {
      assert s.stack + Hidden([]) == s.stack;
    } else {
      var front, e := events[..|events| - 1], events[|events| - 1];
      BlockedContent(s, front);
      BlockedStep(s, OwnElements(front).tags, e);
    }
  }

  lemma BlockedStep(s: State, tags: seq<string>, e: Event)
    requires InBlocked(s.stack)
    ensures var before := State(s.stack + Hidden(tags), s.output);
      && InBlocked(before.stack)
      && (e.Start? ==>
            Step(before, e) == if e.tag in VoidTags then before
                               else State(s.stack + Hidden(tags + [e.tag]), s.output))
      && (e.StartEnd? || e.Data? ==> Step(before, e) == before)
      && (e.End? && InnermostTag(tags, e.tag) >= 0 ==>
            Step(before, e) == State(s.stack + Hidden(tags[..InnermostTag(tags, e.tag)]), s.output))
  {
    hide SafeTags, BlockedTags, VoidTags;
    var before := State(s.stack + Hidden(tags), s.output);
    match e
    case Start(tag, _) =>
      assert before.stack + [Element(tag, true)] == s.stack + Hidden(tags + [tag]);
    case StartEnd(tag, flagged) =>
      var mid := StartStep(before, tag, flagged);
      if tag !in VoidTags {
        InnermostIs(mid.stack, tag, |mid.stack| - 1);
        assert mid.stack[..|mid.stack| - 1] == before.stack;
      }
    case End(tag) =>
      if InnermostTag(tags, tag) >= 0 {
        InnermostAbove(s.stack, tags, tag);
        var i := InnermostTag(tags, tag);
        assert before.stack[..|s.stack| + i] == s.stack + Hidden(tags[..i]);
      }
    case Data(_) =>
  }

  lemma {:induction false} RunAppend(s: State, a: seq<Event>, b: seq<Event>)
    ensures Run(s, a + b) == Run(Run(s, a), b)
  {
    if b == [] {
      assert a + b == a;
    } else {
      var front := b[..|b| - 1];
      assert (a + b)[..|a + b| - 1] == a + front;
      RunAppend(s, a, front);
    }
  }

  /** Non-interference: what a blocked element contains, as long as it is well nested, does not
      matter for anything that is ever written. */
  lemma BlockedContentIsReplaceable(s: State, before: seq<Event>, a: seq<Event>, b: seq<Event>, after: seq<Event>)
    requires InBlocked(Run(s, before).stack) && WellNested(a) && WellNested(b)
    ensures Run(s, before + a + after) == Run(s, before + b + after) == Run(s, before + after)
  {
    var mid := Run(s, before);
    assert mid.stack + Hidden([]) == mid.stack;
    BlockedContent(mid, a);
    BlockedContent(mid, b);
    RunAppend(s, before, a);
    RunAppend(s, before, b);
    RunAppend(s, before + a, after);
    RunAppend(s, before + b, after);
    RunAppend(s, before, after);
  }

  // ---------------------------------------------------------------- what is written, without the flag

  /** A parsed element: its tag, and whether its class or id matched. */
  datatype Parsed = Parsed(tag: string, flagged: bool)

  function TagsOf(open: seq<Parsed>): seq<string> {
    seq(|open|, i requires 0 <= i < |open| => open[i].tag)
  }

  /** The elements that are open after the events, as a browser would nest them. */
  function OpenAfter(events: seq<Event>): seq<Parsed> {
    if events == [] then []
    else
      var open := OpenAfter(events[..|events| - 1]);
      match events[|events| - 1]
      case Start(tag, flagged) => if tag in VoidTags then open else open + [Parsed(tag, flagged)]
      case StartEnd(_, _) => open
      case Data(_) => open
      case End(tag) =>
        var i := InnermostTag(TagsOf(open), tag);
        if i < 0 then open else open[..i]
  }

  /** An element whose content never leaves the system. */
  predicate Withheld(e: Parsed) {
    || e.flagged
    || e.tag == "script" || e.tag == "style" || e.tag == "form" || e.tag == "input" || e.tag == "button"
    || e.tag == "textarea" || e.tag == "select" || e.tag == "nav" || e.tag == "header" || e.tag == "footer"
    || e.tag == "iframe" || e.tag == "svg"
  }

  /** No element of the list is withheld. */
  predicate AllShown(open: seq<Parsed>) {
    forall i | 0 <= i < |open| :: !Withheld(open[i])
  }

  function Shown(show: bool, piece: Piece): seq<Piece> {
    if show then [piece] else []
  }

  /** What an event writes when these elements are open: safe tags and escaped text, and nothing from
      within a withheld element. */
  function Writes(open: seq<Parsed>, e: Event): seq<Piece> {
    match e
    case Data(text) => Shown(AllShown(open), Text(Escape(text)))
    case Start(tag, flagged) => Shown(tag in SafeTags && AllShown(open + [Parsed(tag, flagged)]), Open(tag))
    case StartEnd(tag, flagged) =>
      var show := tag in SafeTags && AllShown(open + [Parsed(tag, flagged)]);
      Shown(show, Open(tag)) + Shown(show && tag !in VoidTags, Close(tag))
    case End(tag) =>
      var i := InnermostTag(TagsOf(open), tag);
      Shown(i >= 0 && tag in SafeTags && AllShown(open[..i + 1]), Close(tag))
  }

  function Written(events: seq<Event>): seq<Piece> {
    if events == [] then []
    else Written(events[..|events| - 1]) + Writes(OpenAfter(events[..|events| - 1]), events[|events| - 1])
  }

  lemma WithheldTags(tag: string)
    ensures tag in BlockedTags <==> Withheld(Parsed(tag, false))
  {}

  /** The stack is the list of open elements, and an element is blocked exactly if it or one around it
      is withheld. */
  ghost predicate Flags(stack: seq<Element>, open: seq<Parsed>) {
    && |stack| == |open|
    && forall i | 0 <= i < |stack| :: stack[i].tag == open[i].tag && (stack[i].blocked <==> !AllShown(open[..i + 1]))
  }

  lemma FlagsInBlocked(stack: seq<Element>, open: seq<Parsed>)
    requires Flags(stack, open)
    ensures InBlocked(stack) <==> !AllShown(open)
  {
    if stack != [] { assert open[..|stack| - 1 + 1] == open; }
  }

  lemma FlagsPush(stack: seq<Element>, open: seq<Parsed>, tag: string, flagged: bool)
    requires Flags(stack, open)
    ensures var blocked := InBlocked(stack) || tag in BlockedTags || flagged;
      && (blocked <==> !AllShown(open + [Parsed(tag, flagged)]))
      && Flags(stack + [Element(tag, blocked)], open + [Parsed(tag, flagged)])
  {
    hide BlockedTags, Withheld;
    var more, e := open + [Parsed(tag, flagged)], Parsed(tag, flagged);
    FlagsInBlocked(stack, open);
    WithheldTags(tag);
    assert Withheld(e) <==> flagged || tag in BlockedTags by { FlaggedIsWithheld(tag, flagged); }
    assert more[|open|] == e && forall i | 0 <= i < |open| :: more[i] == open[i];
    assert more[..|stack| + 1] == more;
    forall i {:trigger stack[i]} | 0 <= i < |stack| ensures more[..i + 1] == open[..i + 1] {}
  }

  lemma FlaggedIsWithheld(tag: string, flagged: bool)
    ensures Withheld(Parsed(tag, flagged)) <==> flagged || Withheld(Parsed(tag, false))
  {}

  lemma FlagsCut(stack: seq<Element>, open: seq<Parsed>, i: nat)
    requires Flags(stack, open) && i <= |stack|
    ensures Flags(stack[..i], open[..i])
  {
    hide Withheld;
    forall j {:trigger stack[j]} | 0 <= j < i ensures open[..i][..j + 1] == open[..j + 1] {}
  }

  lemma FlagsInnermost(stack: seq<Element>, open: seq<Parsed>, tag: string)
    requires Flags(stack, open)
    ensures Innermost(stack, tag) == InnermostTag(TagsOf(open), tag)
  {
    hide AllShown;
    var tags := TagsOf(open);
    var i := InnermostTag(tags, tag);
    forall j | i < j < |stack| ensures stack[j].tag != tag {
      assert tags[j] == open[j].tag;
    }
    InnermostIs(stack, tag, i);
  }

  lemma StartWrites(s: State, open: seq<Parsed>, tag: string, flagged: bool)
    requires Flags(s.stack, open)
    ensures var s' := StartStep(s, tag, flagged);
      && s'.output == s.output + Shown(tag in SafeTags && AllShown(open + [Parsed(tag, flagged)]), Open(tag))
      && Flags(s'.stack, if tag in VoidTags then open else open + [Parsed(tag, flagged)])
  {
    hide SafeTags, BlockedTags, VoidTags, AllShown, InBlocked, Flags;
    FlagsPush(s.stack, open, tag, flagged);
    assert s.output + [] == s.output;
  }

  lemma EndWrites(s: State, open: seq<Parsed>, tag: string)
    requires Flags(s.stack, open)
    ensures var s', i := EndStep(s, tag), InnermostTag(TagsOf(open), tag);
      && s'.output == s.output + Shown(i >= 0 && tag in SafeTags && AllShown(open[..i + 1]), Close(tag))
      && Flags(s'.stack, if i < 0 then open else open[..i])
  {
    hide SafeTags, BlockedTags, VoidTags, AllShown;
    FlagsInnermost(s.stack, open, tag);
    var i := Innermost(s.stack, tag);
    if i >= 0 { FlagsCut(s.stack, open, i); }
    assert s.output + [] == s.output;
  }

  lemma StepWrites(s: State, open: seq<Parsed>, e: Event)
    requires Flags(s.stack, open)
    ensures Step(s, e).output == s.output + Writes(open, e)
    ensures Flags(Step(s, e).stack,
                  match e
                  case Start(tag, flagged) => if tag in VoidTags then open else open + [Parsed(tag, flagged)]
                  case StartEnd(_, _) => open
                  case Data(_) => open
                  case End(tag) =>
                    var i := InnermostTag(TagsOf(open), tag);
                    if i < 0 then open else open[..i])
  {
    hide SafeTags, BlockedTags, VoidTags, AllShown, Flags, StartStep, EndStep, InBlocked, InnermostTag, TagsOf;
    match e
    case Start(tag, flagged) => StartWrites(s, open, tag, flagged);
    case End(tag) => EndWrites(s, open, tag);
    case Data(_) =>
      FlagsInBlocked(s.stack, open);
      assert s.output + [] == s.output;
    case StartEnd(tag, flagged) =>
      StartWrites(s, open, tag, flagged);
      if tag in VoidTags {
        assert Shown(false, Close(tag)) == [];
      } else {
        var more := open + [Parsed(tag, flagged)];
        EndWrites(StartStep(s, tag, flagged), more, tag);
        LastIsInnermost(open, tag, flagged);
        assert more[..|open|] == open && more[..|open| + 1] == more;
      }
  }

  lemma LastIsInnermost(open: seq<Parsed>, tag: string, flagged: bool)
    ensures InnermostTag(TagsOf(open + [Parsed(tag, flagged)]), tag) == |open|
  {
    assert TagsOf(open + [Parsed(tag, flagged)])[|open|] == tag;
  }

  /** The redactor writes exactly the safe tags and the escaped text that lie outside every withheld
      element: the inherited flag is the same as looking at all open elements. */
  lemma {:induction false} RunWrites(events: seq<Event>)
    ensures Run(State([], []), events).output == Written(events)
    ensures Flags(Run(State([], []), events).stack, OpenAfter(events))
  {
    hide Step, Writes, Flags;
    if events == [] {
      NothingOpen();
    } else {
      var front := events[..|events| - 1];
      RunWrites(front);
      StepWrites(Run(State([], []), front), OpenAfter(front), events[|events| - 1]);
    }
  }

  lemma NothingOpen()
    ensures Flags([], [])
  {}

  // ---------------------------------------------------------------- escaping

  /** What a reader of the output makes of its character references. */
  function Unescape(s: string): string {
    if s == [] then []
    else if "&amp;" <= s then "&" + Unescape(s[5..])
    else if "&lt;" <= s then "<" + Unescape(s[4..])
    else if "&gt;" <= s then ">" + Unescape(s[4..])
    else if "&quot;" <= s then "\"" + Unescape(s[6..])
    else if "&#x27;" <= s then "'" + Unescape(s[6..])
    else [s[0]] + Unescape(s[1..])
  }

  lemma UnescapeChar(c: char, rest: string)
    ensures Unescape(EscapeChar(c) + rest) == [c] + Unescape(rest)
  {
    var e := EscapeChar(c) + rest;
    assert e[|EscapeChar(c)|..] == rest;
    if |EscapeChar(c)| == 1 {
      assert e[0] == c != '&';
      assert !("&amp;" <= e) && !("&lt;" <= e) && !("&gt;" <= e) && !("&quot;" <= e) && !("&#x27;" <= e) by {
        NoReference(e);
      }
    } else {
      ReferencesDiffer(e, EscapeChar(c));
      assert IsReference("&amp;") && IsReference("&lt;") && IsReference("&gt;");
      assert IsReference("&quot;") && IsReference("&#x27;");
    }
  }

  lemma NoReference(e: string)
    requires e != [] && e[0] != '&'
    ensures !("&amp;" <= e) && !("&lt;" <= e) && !("&gt;" <= e) && !("&quot;" <= e) && !("&#x27;" <= e)
  {
    assert "&amp;"[0] == '&' && "&lt;"[0] == '&' && "&gt;"[0] == '&' && "&quot;"[0] == '&' && "&#x27;"[0] == '&';
  }

  predicate IsReference(s: string) {
    s in {"&amp;", "&lt;", "&gt;", "&quot;", "&#x27;"}
  }

  /** The second character tells the references apart. */
  lemma ReferencesDiffer(e: string, reference: string)
    requires reference <= e && IsReference(reference)
    ensures forall other | IsReference(other) && other <= e :: other == reference
  {
    assert "&amp;"[1] == 'a' && "&lt;"[1] == 'l' && "&gt;"[1] == 'g' && "&quot;"[1] == 'q' && "&#x27;"[1] == '#';
    forall other | IsReference(other) && other <= e ensures other == reference {
      assert other[1] == e[1] == reference[1];
    }
  }

  /** Escaping loses nothing: a reader gets the text back. */
  lemma {:induction false} EscapeReadsBack(s: string)
    ensures Unescape(Escape(s)) == s
  {
    hide Unescape, EscapeChar;
    if s != [] {
      EscapeReadsBack(s[1..]);
      UnescapeChar(s[0], Escape(s[1..]));
      assert s == [s[0]] + s[1..];
    } else {
      UnescapeNothing();
    }
  }

  lemma UnescapeNothing()
    ensures Unescape([]) == []
  {}

  // ---------------------------------------------------------------- tag balance

  function Opens(output: seq<Piece>, tag: string): nat {
    if output == [] then 0
    else Opens(output[..|output| - 1], tag) + (if output[|output| - 1] == Open(tag) then 1 else 0)
  }

  function Closes(output: seq<Piece>, tag: string): nat {
    if output == [] then 0
    else Closes(output[..|output| - 1], tag) + (if output[|output| - 1] == Close(tag) then 1 else 0)
  }

  function Visible(stack: seq<Element>, tag: string): nat {
    if stack == [] then 0
    else Visible(stack[..|stack| - 1], tag)
         + (if stack[|stack| - 1] == Element(tag, false) then 1 else 0)
  }

  /** Every visible open element has an opening tag of its own that is not closed yet. */
  ghost predicate Balanced(s: State) {
    && UpwardClosed(s.stack)
    && (forall tag | tag in SafeTags :: Closes(s.output, tag) + Visible(s.stack, tag) <= Opens(s.output, tag))
    && forall n, tag | 0 <= n <= |s.output| :: Closes(s.output[..n], tag) <= Opens(s.output[..n], tag)
  }

  lemma PieceSnoc(output: seq<Piece>, piece: Piece, tag: string)
    ensures Opens(output + [piece], tag) == Opens(output, tag) + (if piece == Open(tag) then 1 else 0)
    ensures Closes(output + [piece], tag) == Closes(output, tag) + (if piece == Close(tag) then 1 else 0)
  {
    assert (output + [piece])[..|output|] == output;
  }

  lemma {:induction false} VisibleCut(stack: seq<Element>, i: nat, tag: string)
    requires i <= |stack|
    ensures Visible(stack[..i], tag) <= Visible(stack, tag)
    ensures i < |stack| && stack[i] == Element(tag, false) ==> Visible(stack[..i], tag) + 1 <= Visible(stack, tag)
    decreases |stack|
  {
    if i == |stack| {
      assert stack[..i] == stack;
    } else {
      VisibleCut(stack[..|stack| - 1], i, tag);
      assert stack[..|stack| - 1][..i] == stack[..i];
    }
  }

  /** One more piece keeps the output balanced if a closing tag has an opening one to match. */
  lemma BalancedPiece(output: seq<Piece>, piece: Piece)
    requires forall n, tag | 0 <= n <= |output| :: Closes(output[..n], tag) <= Opens(output[..n], tag)
    requires piece.Close? ==> Closes(output, piece.tag) < Opens(output, piece.tag)
    ensures forall n, tag | 0 <= n <= |output + [piece]| ::
              Closes((output + [piece])[..n], tag) <= Opens((output + [piece])[..n], tag)
  {
    var all := output + [piece];
    forall n, tag | 0 <= n <= |all| ensures Closes(all[..n], tag) <= Opens(all[..n], tag) {
      if n <= |output| {
        assert all[..n] == output[..n];
      } else {
        assert all[..n] == all && output[..|output|] == output;
        PieceSnoc(output, piece, tag);
      }
    }
  }

  lemma StartKeepsBalance(s: State, tag: string, flagged: bool)
    requires Balanced(s)
    ensures Balanced(StartStep(s, tag, flagged))
  {
    hide SafeTags, BlockedTags, VoidTags, UpwardClosed;
    var s' := StartStep(s, tag, flagged);
    assert UpwardClosed(s'.stack) by { BlockedIsSilent(s, Start(tag, flagged), 0); }
    BalancedPiece(s.output, Open(tag));
    forall t ensures Visible(s.stack + [Element(tag, false)], t) == Visible(s.stack, t) + (if t == tag then 1 else 0)
      ensures Visible(s.stack + [Element(tag, true)], t) == Visible(s.stack, t)
    {
      assert (s.stack + [Element(tag, false)])[..|s.stack|] == s.stack;
      assert (s.stack + [Element(tag, true)])[..|s.stack|] == s.stack;
    }
    forall t ensures Opens(s.output + [Open(tag)], t) == Opens(s.output, t) + (if t == tag then 1 else 0)
      ensures Closes(s.output + [Open(tag)], t) == Closes(s.output, t)
    {
      PieceSnoc(s.output, Open(tag), t);
    }
  }

  lemma EndKeepsBalance(s: State, tag: string)
    requires Balanced(s)
    ensures Balanced(EndStep(s, tag))
  {
    hide SafeTags, BlockedTags, VoidTags, UpwardClosed, Innermost;
    var i, s' := Innermost(s.stack, tag), EndStep(s, tag);
    if i >= 0 {
      assert UpwardClosed(s'.stack) by { BlockedIsSilent(s, End(tag), 0); }
      forall t ensures Visible(s.stack[..i], t) + (if s.stack[i] == Element(t, false) then 1 else 0)
                       <= Visible(s.stack, t)
      {
        VisibleCut(s.stack, i, t);
      }
      if !s.stack[i].blocked && tag in SafeTags {
        assert s.stack[i] == Element(tag, false);
        BalancedPiece(s.output, Close(tag));
        forall t ensures Opens(s.output + [Close(tag)], t) == Opens(s.output, t)
          ensures Closes(s.output + [Close(tag)], t) == Closes(s.output, t) + (if t == tag then 1 else 0)
        {
          PieceSnoc(s.output, Close(tag), t);
        }
      }
    }
  }

  lemma StepKeepsBalance(s: State, e: Event)
    requires Balanced(s)
    ensures Balanced(Step(s, e))
  {
    hide SafeTags, BlockedTags, VoidTags, Balanced, StartStep, EndStep;
    match e
    case Start(tag, flagged) => StartKeepsBalance(s, tag, flagged);
    case StartEnd(tag, flagged) =>
      StartKeepsBalance(s, tag, flagged);
      EndKeepsBalance(StartStep(s, tag, flagged), tag);
    case End(tag) => EndKeepsBalance(s, tag);
    case Data(text) => TextKeepsBalance(s, Text(Escape(text)));
  }

  lemma TextKeepsBalance(s: State, piece: Piece)
    requires Balanced(s) && piece.Text?
    ensures Balanced(s.(output := s.output + [piece]))
  {
    hide SafeTags;
    BalancedPiece(s.output, piece);
    forall t ensures Opens(s.output + [piece], t) == Opens(s.output, t)
      ensures Closes(s.output + [piece], t) == Closes(s.output, t)
    {
      PieceSnoc(s.output, piece, t);
    }
  }

  lemma FreshIsBalanced()
    ensures Balanced(State([], []))
  {}

  /** Every prefix of a redacted document has at least as many opening as closing tags, for every
      tag, and the blocked flag is upward closed on the stack. */
  lemma {:induction false} RunKeepsBalance(events: seq<Event>)
    ensures Balanced(Run(State([], []), events))
  {
    hide Balanced, Step;
    if events == [] {
      FreshIsBalanced();
    } else {
      RunKeepsBalance(events[..|events| - 1]);
      StepKeepsBalance(Run(State([], []), events[..|events| - 1]), events[|events| - 1]);
    }
  }
}
