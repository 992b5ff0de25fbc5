/**
 Composing an agent's prompt under the turn-size limit. A string is the sequence of its bytes; rendered timestamps and
 the sections naming a turn's context come as strings.
 */
module Prompt {
  import opened Options

  const MAX_PROMPT: int := 120_000
  const NOTE := "(earlier messages omitted to fit the turn size limit)"
  const FULL_HEADER := "Conversation so far:"
  const NEW_HEADER := "New messages since your last turn:"

  datatype Message = Message(stamp: string, author: string, body: string)

  /** A memory to be read: its name and id. */
  datatype Memory = Memory(name: string, id: string)

  /** A play run's part of a turn; an empty name leaves the play itself out. */
  datatype Play = Play(name: string, instructions: string, blocks: seq<string>, custom: string, conclude: seq<Memory>)

  datatype Input = Input(
    intro: string, footer: string, target: string, play: Option<Play>, memories: seq<Memory>, messages: seq<Message>,
    requestAuthor: string, requestStamp: string, requestBody: string)

  // ------------------------------------------------------------------ what is running and its context

  /** The fixed wording of the sections, but for names; a reply line is its start and end around the author's. */
  datatype Texts = Texts(
    chat: string, play: string, replyStart: string, replyEnd: string, memories: string, conclude: string, name: string,
    customStart: string, customEnd: string)

  /** What is running, for whom, and where the final reply goes. */
  function Opening(texts: Texts, line: string, author: string): (r: string)
    ensures r != ""
  {
    line + author + ".\n" + texts.replyStart + author + texts.replyEnd
  }

  function MemoryLines(refs: seq<Memory>): seq<string> {
    seq(|refs|, k requires 0 <= k < |refs| => "- " + refs[k].name + " (id " + refs[k].id + ")")
  }

  /** Each memory under its opening line; nothing when there is none to name. */
  function MemoryList(opening: string, refs: seq<Memory>): string {
    if refs == [] then "" else Listed(opening, MemoryLines(refs))
  }

  function ContextSections(texts: Texts, i: Input): seq<string> {
    if i.play.None? then
      [Opening(texts, texts.chat, i.requestAuthor), i.target, MemoryList(texts.memories, i.memories)]
    else
      [Opening(texts, texts.play, i.requestAuthor)] + PlaySections(texts, i, i.play.value)
  }

  function PlaySections(texts: Texts, i: Input, p: Play): seq<string> {
    (if p.name == "" then [] else [texts.name + p.name + "\n" + p.instructions])
    + ([i.target] + (p.blocks + ([MemoryList(texts.memories, i.memories)] + PlayEnd(texts, i.requestAuthor, p))))
  }

  function PlayEnd(texts: Texts, author: string, p: Play): seq<string> {
    (if p.custom == "" then [] else [texts.customStart + author + texts.customEnd + p.custom])
    + [MemoryList(texts.conclude, p.conclude)]
  }

  /** The memories written one by one under their opening line. */
  method WriteMemories(opening: string, refs: seq<Memory>) returns (r: string)
    ensures r == MemoryList(opening, refs)
  {
    if |refs| == 0 {
      return "";
    }
    r := opening;
    ghost var all := MemoryLines(refs);
    for k := 0 to |refs|
      invariant r == Listed(opening, all[..k])
    {
      assert all[..k + 1][..k] == all[..k];
      r := r + "\n- " + refs[k].name + " (id " + refs[k].id + ")";
      assert all[k] == "- " + refs[k].name + " (id " + refs[k].id + ")";
      ListedByLine(opening, all, k);
    }
    assert all[..|refs|] == all;
  }

  lemma ListedByLine(opening: string, lines: seq<string>, k: nat)
    requires k < |lines|
    ensures Listed(opening, lines[..k + 1]) == Listed(opening, lines[..k]) + ("\n" + lines[k])
  {
    assert lines[..k + 1][..k] == lines[..k];
  }

  /** The sections appended one by one. */
  method WriteContext(texts: Texts, i: Input) returns (sections: seq<string>)
    ensures sections == ContextSections(texts, i)
  {
    var reply := texts.replyStart + i.requestAuthor + texts.replyEnd;
    var memories := WriteMemories(texts.memories, i.memories);
    if i.play.None? {
      var line := texts.chat + i.requestAuthor + ".\n" + reply;
      assert line == Opening(texts, texts.chat, i.requestAuthor);
      sections := [line, i.target, memories];
      return;
    }
    var p := i.play.value;
    var opening := texts.play + i.requestAuthor + ".\n" + reply;
    sections := [opening];
    if p.name != "" {
      sections := sections + [texts.name + p.name + "\n" + p.instructions];
    }
    sections := sections + [i.target];
    sections := sections + p.blocks;
    sections := sections + [memories];
    if p.custom != "" {
      sections := sections + [texts.customStart + i.requestAuthor + texts.customEnd + p.custom];
    }
    var conclude := WriteMemories(texts.conclude, p.conclude);
    sections := sections + [conclude];
    ghost var named := if p.name == "" then [] else [texts.name + p.name + "\n" + p.instructions];
    ghost var custom := if p.custom == "" then []
    else [texts.customStart + i.requestAuthor + texts.customEnd + p.custom];
    assert opening == Opening(texts, texts.play, i.requestAuthor);
    Regrouped([opening], named, [i.target], p.blocks, [memories], custom, [conclude]);
  }

  lemma Regrouped<T>(a: seq<T>, b: seq<T>, c: seq<T>, d: seq<T>, e: seq<T>, f: seq<T>, g: seq<T>)
    ensures a + b + c + d + e + f + g == a + (b + (c + (d + (e + (f + g)))))
    ensures b == [] ==> a + b == a
    ensures f == [] ==> a + b + c + d + e + f == a + b + c + d + e
  {
  }

  // ------------------------------------------------------------------ joining sections

  function NonEmpty(sections: seq<string>): seq<string> {
    if sections == [] then []
    else NonEmpty(sections[..|sections| - 1]) + if sections[|sections| - 1] != "" then [sections[|sections| - 1]]
         else []
  }

  /** Strings with a separator between each two. */
  function Join(parts: seq<string>, sep: string): string {
    if parts == [] then "" else if |parts| == 1 then parts[0]
    else Join(parts[..|parts| - 1], sep) + sep + parts[|parts| - 1]
  }

  method JoinSections(sections: seq<string>) returns (r: string)
    ensures r == Join(NonEmpty(sections), "\n\n")
    ensures ReadsAs(r, sections)
  {
    var kept := [];
    for i := 0 to |sections|
      invariant kept == NonEmpty(sections[..i])
    {
      assert sections[..i + 1][..i] == sections[..i];
      if sections[i] != "" {
        kept := kept + [sections[i]];
      }
    }
    assert sections[..|sections|] == sections;
    r := Join(kept, "\n\n");
    JoinedReads(sections);
  }

  /** The bytes of joined sections: each with the blank line that follows it, but for the last one's. */
  function Size(sections: seq<string>): nat {
    if sections == [] then 0
    else Size(sections[..|sections| - 1]) + if sections[|sections| - 1] != "" then |sections[|sections| - 1]| + 2 else 0
  }

  lemma {:induction false} JoinedSize(sections: seq<string>)
    ensures NonEmpty(sections) == [] <==> Size(sections) == 0
    ensures |Join(NonEmpty(sections), "\n\n")| == if Size(sections) == 0 then 0 else Size(sections) - 2
    decreases |sections|
  {
    if sections != [] {
      var front, last := sections[..|sections| - 1], sections[|sections| - 1];
      JoinedSize(front);
      if last != "" {
        assert NonEmpty(sections)[..|NonEmpty(front)|] == NonEmpty(front);
      } else {
        assert NonEmpty(sections) == NonEmpty(front);
      }
    }
  }

  lemma {:induction false} SizeAppend(a: seq<string>, b: seq<string>)
    ensures Size(a + b) == Size(a) + Size(b)
    decreases |b|
  {
    if b == [] {
      assert a + b == a;
    } else {
      SizeAppend(a, b[..|b| - 1]);
      assert (a + b)[..|a + b| - 1] == a + b[..|b| - 1];
    }
  }

  /** Joined lists of parts: the one's text, the separator, the other's. */
  lemma {:induction false} JoinAppend(a: seq<string>, b: seq<string>, sep: string)
    requires a != [] && b != []
    ensures Join(a + b, sep) == Join(a, sep) + sep + Join(b, sep)
    decreases |b|
  {
    var front, last := b[..|b| - 1], b[|b| - 1];
    assert (a + b)[..|a + b| - 1] == a + front;
    if front == [] {
      assert a + front == a && b == [last];
    } else {
      JoinAppend(a, front, sep);
      assert Join(a, sep) + sep + Join(front, sep) + sep + last == Join(a, sep) + sep + (Join(front, sep) + sep + last);
    }
  }

  lemma {:induction false} NonEmptyAppend(a: seq<string>, b: seq<string>)
    ensures NonEmpty(a + b) == NonEmpty(a) + NonEmpty(b)
    decreases |b|
  {
    if b == [] {
      assert a + b == a;
    } else {
      var front := b[..|b| - 1];
      NonEmptyAppend(a, front);
      assert (a + b)[..|a + b| - 1] == a + front;
    }
  }

  lemma OneSection(section: string)
    ensures NonEmpty([section]) == if section == "" then [] else [section]
    ensures Join([section], "\n\n") == section
    ensures Size([section]) == if section == "" then 0 else |section| + 2
  {
    assert [section][..0] == [];
  }

  /**
   Section `j` stands in the text, if it is not empty, after all those before it; a blank line follows it unless
   nothing does, and then the text ends.
   */
  ghost predicate Stands(text: string, sections: seq<string>, j: nat)
    requires j < |sections|
  {
    var at, section := Size(sections[..j]), sections[j];
    section != "" ==>
      && at + |section| <= |text| && text[at..at + |section|] == section
      && if Size(sections[j + 1..]) == 0 then at + |section| == |text|
         else at + |section| + 2 <= |text| && text[at + |section|..at + |section| + 2] == "\n\n"
  }

  /** The text is its non-empty sections in their order, a blank line between each two. */
  ghost predicate ReadsAs(text: string, sections: seq<string>) {
    && |text| == (if Size(sections) == 0 then 0 else Size(sections) - 2)
    && forall j :: 0 <= j < |sections| ==> Stands(text, sections, j)
  }

  ghost function Text(sections: seq<string>): string { Join(NonEmpty(sections), "\n\n") }

  lemma TextAppend(a: seq<string>, b: seq<string>)
    ensures Text(a + b) == if Size(a) == 0 then Text(b) else if Size(b) == 0 then Text(a)
                           else Text(a) + "\n\n" + Text(b)
  {
    NonEmptyAppend(a, b);
    JoinedSize(a);
    JoinedSize(b);
    var before, after := NonEmpty(a), NonEmpty(b);
    if before == [] {
      assert before + after == after;
    } else if after == [] {
      assert before + after == before;
    } else {
      JoinAppend(before, after, "\n\n");
    }
  }

  /** What stands before a section, and what from its end on. */
  ghost function Ahead(head: seq<string>): string {
    if Size(head) == 0 then "" else Text(head) + "\n\n"
  }

  ghost function Behind(tail: seq<string>): string {
    if Size(tail) == 0 then "" else "\n\n" + Text(tail)
  }

  /** A text cut at a section. */
  lemma CutAtASection(head: seq<string>, section: string, tail: seq<string>)
    requires section != ""
    ensures Text(head + ([section] + tail)) == Ahead(head) + section + Behind(tail)
    ensures |Ahead(head)| == Size(head)
  {
    OneSection(section);
    SizeAppend([section], tail);
    TextAppend(head, [section] + tail);
    TextAppend([section], tail);
    JoinedSize(head);
    SizeIsNeverSmall(head);
    var rest := section + Behind(tail);
    assert Text([section] + tail) == rest by { assert section + "" == section; }
    assert Ahead(head) + section + Behind(tail) == Ahead(head) + rest;
  }

  lemma Placed(before: string, section: string, after: string)
    ensures var text := before + section + after;
            && text[|before|..|before| + |section|] == section
            && text[|before| + |section|..] == after
  {
  }

  lemma SectionStands(sections: seq<string>, j: nat)
    requires j < |sections|
    ensures Stands(Text(sections), sections, j)
  {
    var head, section, tail := sections[..j], sections[j], sections[j + 1..];
    if section != "" {
      assert sections == head + ([section] + tail);
      CutAtASection(head, section, tail);
      Placed(Ahead(head), section, Behind(tail));
      if Size(tail) > 0 { assert Behind(tail)[..2] == "\n\n"; }
    }
  }

  /** Joined sections read in order, each at the place the sizes of those before it give. */
  lemma JoinedReads(sections: seq<string>)
    ensures ReadsAs(Text(sections), sections)
  {
    JoinedSize(sections);
    forall j | 0 <= j < |sections| ensures Stands(Text(sections), sections, j) {
      SectionStands(sections, j);
    }
  }

  /** It starts with the first section and ends with the last. */
  lemma ReadsFromFirstToLast(text: string, sections: seq<string>)
    requires sections != [] && ReadsAs(text, sections)
    ensures |sections[0]| <= |text| && text[..|sections[0]|] == sections[0]
    ensures var last := sections[|sections| - 1];
            |last| <= |text| && text[|text| - |last|..] == last
  {
    var n := |sections| - 1;
    assert Stands(text, sections, 0) && Stands(text, sections, n);
    assert sections[..0] == [] && sections[n + 1..] == [];
  }

  /** A section put between others adds its bytes, and a blank line unless it stands alone. */
  lemma SectionAdds(head: seq<string>, section: string, tail: seq<string>)
    ensures var fixed := |Join(NonEmpty(head + tail), "\n\n")|;
            && |Join(NonEmpty(head + [section] + tail), "\n\n")| ==
               fixed + (if section == "" then 0 else if fixed == 0 then |section| else 2 + |section|)
  {
    JoinedSize(head + tail);
    JoinedSize(head + [section] + tail);
    SizeAppend(head, tail);
    SizeAppend(head + [section], tail);
    SizeAppend(head, [section]);
    assert [section][..0] == [];
    SizeIsNeverSmall(head + tail);
  }

  /** Sections that are not all empty hold at least one byte beside a blank line. */
  lemma {:induction false} SizeIsNeverSmall(sections: seq<string>)
    ensures Size(sections) == 0 || Size(sections) > 2
    decreases |sections|
  {
    if sections != [] { SizeIsNeverSmall(sections[..|sections| - 1]); }
  }

  // ------------------------------------------------------------------ fitting the conversation

  function LineOf(m: Message): string { m.stamp + m.author + ": " + m.body }

  function LinesOf(messages: seq<Message>): (r: seq<string>)
    ensures |r| == |messages|
    ensures forall i :: 0 <= i < |r| ==> r[i] == LineOf(messages[i])
  {
    seq(|messages|, i requires 0 <= i < |messages| => LineOf(messages[i]))
  }

  /** The bytes of lines with the newline before each. */
  function Cost(lines: seq<string>): nat {
    if lines == [] then 0 else |lines[0]| + 1 + Cost(lines[1..])
  }

  lemma {:induction false} CostAppend(a: seq<string>, b: seq<string>)
    ensures Cost(a + b) == Cost(a) + Cost(b)
    decreases |a|
  {
    if a == [] {
      assert a + b == b;
    } else {
      assert (a + b)[1..] == a[1..] + b;
      CostAppend(a[1..], b);
    }
  }

  /** The suffix from `start` fits a budget and no longer suffix does; a negative budget is none. */
  ghost predicate LongestFitting(lines: seq<string>, budget: int, start: nat) {
    && start <= |lines|
    && Cost(lines[start..]) <= Max(budget, 0)
    && forall j :: 0 <= j < start ==> Cost(lines[j..]) > Max(budget, 0)
  }

  function Max(a: int, b: int): int { if a >= b then a else b }

  /** Every message's line, and what they cost. */
  method Render(messages: seq<Message>) returns (lines: seq<string>, total: nat)
    ensures lines == LinesOf(messages) && total == Cost(lines)
  {
    ghost var all := LinesOf(messages);
    lines, total := [], 0;
    for i := 0 to |messages|
      invariant lines == all[..i] && total == Cost(lines)
    {
      var line := messages[i].stamp + messages[i].author + ": " + messages[i].body;
      CostAppend(lines, [line]);
      lines, total := lines + [line], total + |line| + 1;
    }
  }

  /** Where the lines fit once the oldest are dropped, one by one. */
  method DropOldest(lines: seq<string>, cost: nat, room: nat) returns (start: nat)
    requires cost == Cost(lines)
    ensures start <= |lines| && Cost(lines[start..]) <= room
    ensures forall j :: 0 <= j < start ==> Cost(lines[j..]) > room
  {
    var total := cost;
    start := 0;
    assert lines[0..] == lines;
    while start < |lines| && total > room
      invariant start <= |lines| && total == Cost(lines[start..])
      invariant forall j :: 0 <= j < start ==> Cost(lines[j..]) > room
    {
      assert lines[start..][1..] == lines[start + 1..];
      total := total - (|lines[start]| + 1);
      start := start + 1;
    }
  }

  /** Keeps the longest run of newest lines that fits, and says whether any was dropped. */
  method FitContext(messages: seq<Message>, budget: int) returns (kept: seq<string>, truncated: bool)
    ensures |kept| <= |messages|
    ensures kept == LinesOf(messages)[|messages| - |kept|..]
    ensures LongestFitting(LinesOf(messages), budget, |messages| - |kept|)
    ensures truncated <==> |kept| < |messages|
  {
    var room := Max(budget, 0);
    var lines, total := Render(messages);
    assert lines[0..] == lines;
    if total <= room {
      return lines, false;
    }
    var start := DropOldest(lines, total, room);
    kept, truncated := lines[start..], true;
  }

  /** The conversation under its header, noting that lines were dropped. */
  function Block(header: string, lines: seq<string>, truncated: bool): string {
    if lines == [] && !truncated then "" else Listed(header + if truncated then "\n" + NOTE else "", lines)
  }

  function Listed(opening: string, lines: seq<string>): string
    decreases |lines|
  {
    if lines == [] then opening else Listed(opening, lines[..|lines| - 1]) + "\n" + lines[|lines| - 1]
  }

  lemma {:induction false} ListedSize(opening: string, lines: seq<string>)
    ensures |Listed(opening, lines)| == |opening| + Cost(lines)
    decreases |lines|
  {
    if lines != [] {
      var front := lines[..|lines| - 1];
      ListedSize(opening, front);
      assert lines == front + [lines[|lines| - 1]];
      CostAppend(front, [lines[|lines| - 1]]);
    }
  }

  method ConversationBlock(header: string, messages: seq<Message>, budget: int) returns (r: string, ghost start: nat)
    ensures LongestFitting(LinesOf(messages), budget, start)
    ensures r == Block(header, LinesOf(messages)[start..], start > 0)
  {
    var lines, truncated := FitContext(messages, budget);
    start := |messages| - |lines|;
    assert lines == LinesOf(messages)[start..] && truncated == (start > 0);
    if |lines| == 0 && !truncated {
      return "", start;
    }
    var opening := header;
    if truncated {
      opening := header + ("\n" + NOTE);
    }
    r := WriteLines(opening, lines);
    ghost var shown := header + if truncated then "\n" + NOTE else "";
    assert opening == shown by { assert header + "" == header; }
  }

  method WriteLines(opening: string, lines: seq<string>) returns (r: string)
    ensures r == Listed(opening, lines)
  {
    r := opening;
    for i := 0 to |lines|
      invariant r == Listed(opening, lines[..i])
    {
      assert lines[..i + 1][..i] == lines[..i];
      r := r + "\n" + lines[i];
    }
    assert lines[..|lines|] == lines;
  }

  // ------------------------------------------------------------------ the bound

  /** What the sections beside the conversation leave it. */
  function Budget(fixed: nat, header: string): int {
    MAX_PROMPT - fixed - 2 - |header| - 1 - |NOTE|
  }

  lemma FixedTexts()
    ensures |NOTE| == 53 && |FULL_HEADER| == 20 && |NEW_HEADER| == 34
  {
  }

  /** The bytes of a conversation cut at the longest suffix that fits. */
  lemma BlockSize(header: string, lines: seq<string>, budget: int, start: nat)
    requires LongestFitting(lines, budget, start) && header != ""
    ensures var r := Block(header, lines[start..], start > 0);
            && (r == "" <==> lines == [])
            && (lines != [] && budget >= 0 ==> |r| <= |header| + 1 + |NOTE| + budget)
            && (lines != [] && budget < 0 ==> |r| == |header| + 1 + |NOTE|)
  {
    var opening := header + if start > 0 then "\n" + NOTE else "";
    ListedSize(opening, lines[start..]);
    assert lines[0..] == lines;
  }

  /**
   The composed prompt keeps the limit exactly when the conversation's budget is not negative, or there is no
   conversation and the rest alone keeps it. With a negative budget every line is dropped, and header and note still
   overrun.
   */
  lemma PromptKeepsTheLimit(head: seq<string>, tail: seq<string>, header: string, lines: seq<string>, start: nat)
    requires header in {FULL_HEADER, NEW_HEADER}
    requires LongestFitting(lines, Budget(|Join(NonEmpty(head + tail), "\n\n")|, header), start)
    ensures var fixed := |Join(NonEmpty(head + tail), "\n\n")|;
            && (|Join(NonEmpty(head + [Block(header, lines[start..], start > 0)] + tail), "\n\n")| <= MAX_PROMPT <==>
                Budget(fixed, header) >= 0 || (lines == [] && fixed <= MAX_PROMPT))
  {
    var fixed := |Join(NonEmpty(head + tail), "\n\n")|;
    FixedTexts();
    BlockSize(header, lines, Budget(fixed, header), start);
    SectionAdds(head, Block(header, lines[start..], start > 0), tail);
  }

  function RequestBlock(i: Input): string {
    if i.requestBody == "" then "" else "New message from " + i.requestAuthor + i.requestStamp + ":\n" + i.requestBody
  }

  method WriteRequest(i: Input) returns (r: string)
    ensures r == RequestBlock(i)
    ensures i.requestBody != "" ==> |i.requestBody| <= |r| && r[|r| - |i.requestBody|..] == i.requestBody
  {
    if i.requestBody == "" {
      return "";
    }
    r := "New message from " + i.requestAuthor + i.requestStamp + ":\n" + i.requestBody;
  }

  /**
   A fresh session's prompt: the intro first, then what is running, its context, the conversation and the request, and
   the footer last, each where the ones before it end. `start` is
   the first message kept.
   */
  method ComposePrompt(texts: Texts, i: Input) returns (prompt: string, ghost start: nat)
    ensures var head, tail := [i.intro] + ContextSections(texts, i), [RequestBlock(i), i.footer];
            var fixed := |Join(NonEmpty(head + tail), "\n\n")|;
            && LongestFitting(LinesOf(i.messages), Budget(fixed, FULL_HEADER), start)
            && ReadsAs(prompt, head + [Block(FULL_HEADER, LinesOf(i.messages)[start..], start > 0)] + tail)
            && (|prompt| <= MAX_PROMPT <==>
                Budget(fixed, FULL_HEADER) >= 0 ||
                (i.messages == [] && fixed <= MAX_PROMPT))
    ensures |i.intro| <= |prompt| && prompt[..|i.intro|] == i.intro
    ensures |i.footer| <= |prompt| && prompt[|prompt| - |i.footer|..] == i.footer
  {
    var context := WriteContext(texts, i);
    var request := WriteRequest(i);
    var head, tail := [i.intro] + context, [request, i.footer];
    var rest := JoinSections(head + tail);
    var conversation;
    conversation, start := ConversationBlock(FULL_HEADER, i.messages, Budget(|rest|, FULL_HEADER));
    var sections := head + [conversation] + tail;
    prompt := JoinSections(sections);
    PromptKeepsTheLimit(head, tail, FULL_HEADER, LinesOf(i.messages), start);
    ReadsFromFirstToLast(prompt, sections);
    assert sections[0] == i.intro && sections[|sections| - 1] == i.footer;
  }

  /**
   A reused session's prompt: a play's start sends its context whole; any other turn the new messages and the request.
   */
  method ComposeIncrementalPrompt(texts: Texts, i: Input) returns (prompt: string, ghost start: nat)
    ensures i.play.Some? && i.requestBody == "" ==> ReadsAs(prompt, ContextSections(texts, i))
    ensures !(i.play.Some? && i.requestBody == "") ==>
              && LongestFitting(LinesOf(i.messages), Budget(|RequestBlock(i)|, NEW_HEADER), start)
              && ReadsAs(prompt, [Block(NEW_HEADER, LinesOf(i.messages)[start..], start > 0), RequestBlock(i)])
              && (|prompt| <= MAX_PROMPT <==>
                  Budget(|RequestBlock(i)|, NEW_HEADER) >= 0 ||
                  (i.messages == [] && |RequestBlock(i)| <= MAX_PROMPT))
    ensures i.requestBody != "" ==>
              |i.requestBody| <= |prompt| && prompt[|prompt| - |i.requestBody|..] == i.requestBody
  {
    if i.play.Some? && i.requestBody == "" {
      start := 0;
      var context := WriteContext(texts, i);
      prompt := JoinSections(context);
      return;
    }
    var request := WriteRequest(i);
    var conversation;
    conversation, start := ConversationBlock(NEW_HEADER, i.messages, Budget(|request|, NEW_HEADER));
    var sections := [conversation, request];
    prompt := JoinSections(sections);
    ReadsFromFirstToLast(prompt, sections);
    IncrementalSize(i, start);
  }

  lemma IncrementalSize(i: Input, start: nat)
    requires LongestFitting(LinesOf(i.messages), Budget(|RequestBlock(i)|, NEW_HEADER), start)
    ensures |Text([Block(NEW_HEADER, LinesOf(i.messages)[start..], start > 0), RequestBlock(i)])| <= MAX_PROMPT <==>
            Budget(|RequestBlock(i)|, NEW_HEADER) >= 0 || (i.messages == [] && |RequestBlock(i)| <= MAX_PROMPT)
  {
    var request := RequestBlock(i);
    var conversation := Block(NEW_HEADER, LinesOf(i.messages)[start..], start > 0);
    assert [] + [conversation] + [request] == [conversation, request];
    assert [] + [request] == [request];
    OneSection(request);
    PromptKeepsTheLimit([], [request], NEW_HEADER, LinesOf(i.messages), start);
  }

  /**
   A play's start on a reused session has no budget: its target alone makes the composed prompt longer than any limit.
   */
  method APlayStartHasNoLimit(texts: Texts, limit: nat) returns (prompt: string)
    ensures |prompt| > limit
  {
    var start := Input("", "", seq(limit, _ => 'x'), Some(Play("", "", [], "", [])), [], [], "", "", "");
    ghost var kept;
    prompt, kept := ComposeIncrementalPrompt(texts, start);
    PlayStartSize(texts, start, limit);
  }

  lemma PlayStartSize(texts: Texts, i: Input, limit: nat)
    requires i.play.Some? && i.play.value.name == "" && i.play.value.blocks == [] && |i.target| == limit
    ensures Size(ContextSections(texts, i)) > limit + 2
  {
    var opening, p := Opening(texts, texts.play, i.requestAuthor), i.play.value;
    var rest := p.blocks + ([MemoryList(texts.memories, i.memories)] + PlayEnd(texts, i.requestAuthor, p));
    assert [] + ([i.target] + rest) == [i.target] + rest;
    SecondSectionSize(opening, i.target, rest);
  }

  lemma SecondSectionSize(first: string, second: string, rest: seq<string>)
    requires first != ""
    ensures Size([first] + ([second] + rest)) > |second| + 2
  {
    SizeAppend([first], [second] + rest);
    SizeAppend([second], rest);
    OneSection(first);
    OneSection(second);
  }
}
