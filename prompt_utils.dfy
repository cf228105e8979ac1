/**
 * Attaching files to an agent's instruction: the first agent of the tree in
 * pre-order with the target name gets a block appended to its instruction
 * that lists the files and holds each file's content with braces and
 * brackets escaped as HTML entities.
 */
module PromptUtils {
  import opened Wrappers
  import opened Text
  import opened AgentConfig
  import OptimizerTypes
  import AgentMetadataCollector

  // ---------------------------------------------------------------------
  // Escaping braces and brackets
  // ---------------------------------------------------------------------

  /** The characters a template engine would interpret. */
  const Brackets: set<char> := {'{', '}', '[', ']'}

  /** The entity a bracket character is written as. */
  function Entity(c: char): string
  {
    if c == '{' then "&#123;" else if c == '}' then "&#125;" else if c == '[' then "&#91;" else "&#93;"
  }

  /** The escaping of the source, one `replace` per character. */
  function Escape(s: string): string
  {
    var a := Replace(s, "{", "&#123;");
    var b := Replace(a, "}", "&#125;");
    var c := Replace(b, "[", "&#91;");
    Replace(c, "]", "&#93;")
  }

  /** `s` with each character of `done` written as its entity and every other character kept. */
  function EscapedWith(s: string, done: set<char>): string
  {
    if s == [] then []
    else (if s[0] in done then Entity(s[0]) else [s[0]]) + EscapedWith(s[1..], done)
  }

  lemma EntityChars(c: char)
    ensures |Entity(c)| >= 5 && Entity(c)[0] == '&'
    ensures forall i :: 0 <= i < |Entity(c)| ==> Entity(c)[i] !in Brackets
    ensures forall i :: 1 <= i < |Entity(c)| ==> Entity(c)[i] != '&'
  {
  }

  /** Replacing skips over a prefix that does not hold the target's first character. */
  lemma {:induction false} ReplaceSkip(x: string, rest: string, t: string, r: string)
    requires t != [] && t[0] !in x
    ensures Replace(x + rest, t, r) == x + Replace(rest, t, r)
    decreases |x|
  {
    if x != [] {
      var s := x + rest;
      if |s| >= |t| {
        assert s[..|t|][0] == x[0];
        assert s[1..] == x[1..] + rest;
      }
      ReplaceSkip(x[1..], rest, t, r);
      assert [x[0]] + x[1..] == x;
    } else {
      assert x + rest == rest;
    }
  }

  /** Replacing consumes a leading occurrence of the target. */
  lemma ReplaceHit(t: string, rest: string, r: string)
    requires t != []
    ensures Replace(t + rest, t, r) == r + Replace(rest, t, r)
  {
    assert (t + rest)[..|t|] == t;
    assert (t + rest)[|t|..] == rest;
  }

  lemma EscapedWithNone(s: string)
    ensures EscapedWith(s, {}) == s
  {
  }

  /** One `replace` of the escaping turns one more bracket character into its entity. */
  lemma {:induction false} EscapeStep(s: string, done: set<char>, c: char)
    requires c in Brackets && c !in done && done <= Brackets
    ensures Replace(EscapedWith(s, done), [c], Entity(c)) == EscapedWith(s, done + {c})
    decreases |s|
  {
    if s != [] {
      var rest := EscapedWith(s[1..], done);
      EscapeStep(s[1..], done, c);
      if s[0] in done {
        EntityChars(s[0]);
        ReplaceSkip(Entity(s[0]), rest, [c], Entity(c));
      } else if s[0] == c {
        ReplaceHit([c], rest, Entity(c));
      } else {
        ReplaceSkip([s[0]], rest, [c], Entity(c));
      }
    }
  }

  /** The four `replace` calls escape every bracket character. */
  lemma EscapeIsEscapedWith(s: string)
    ensures Escape(s) == EscapedWith(s, Brackets)
  {
    EscapedWithNone(s);
    EscapeStep(s, {}, '{');
    EscapeStep(s, {'{'}, '}');
    EscapeStep(s, {'{', '}'}, '[');
    EscapeStep(s, {'{', '}', '['}, ']');
    assert {} + {'{'} == {'{'};
    assert {'{'} + {'}'} == {'{', '}'};
    assert {'{', '}'} + {'['} == {'{', '}', '['};
    assert {'{', '}', '['} + {']'} == Brackets;
  }

  lemma {:induction false} EscapedWithHasNoBrackets(s: string)
    ensures forall i :: 0 <= i < |EscapedWith(s, Brackets)| ==> EscapedWith(s, Brackets)[i] !in Brackets
    decreases |s|
  {
    if s != [] {
      EscapedWithHasNoBrackets(s[1..]);
      EntityChars(s[0]);
      var head := if s[0] in Brackets then Entity(s[0]) else [s[0]];
      var rest := EscapedWith(s[1..], Brackets);
      assert EscapedWith(s, Brackets) == head + rest;
      forall i | 0 <= i < |head + rest| ensures (head + rest)[i] !in Brackets {
        if i >= |head| {
          assert (head + rest)[i] == rest[i - |head|];
        }
      }
    }
  }

  /** Escaped content holds no brace and no bracket. */
  lemma EscapeRemovesBrackets(s: string)
    ensures forall i :: 0 <= i < |Escape(s)| ==> Escape(s)[i] !in Brackets
  {
    EscapeIsEscapedWith(s);
    EscapedWithHasNoBrackets(s);
  }

  /** Two different bracket entities differ within their first five characters. */
  lemma EntitiesDiffer(d: char, c: char)
    requires d in Brackets && c in Brackets && d != c
    ensures Entity(d)[2] != Entity(c)[2] || Entity(d)[3] != Entity(c)[3] || Entity(d)[4] != Entity(c)[4]
  {
  }

  /** Decoding skips over the entity of a different character. */
  lemma OtherEntitySkipped(d: char, c: char, rest: string)
    requires d in Brackets && c in Brackets && d != c
    ensures Replace(Entity(d) + rest, Entity(c), [c]) == Entity(d) + Replace(rest, Entity(c), [c])
  {
    var x := Entity(d);
    var t := Entity(c);
    EntityChars(d);
    EntityChars(c);
    EntitiesDiffer(d, c);
    NoMatchAtHead(x, rest, t);
    AmpOnlyFirst(d);
    SkipHead(x, rest, t, [c]);
  }

  /** A head that `t` does not start, and whose later characters cannot start `t`, is kept whole. */
  lemma SkipHead(x: string, rest: string, t: string, r: string)
    requires t != [] && x != [] && t[0] !in x[1..]
    requires |x + rest| >= |t| ==> (x + rest)[..|t|] != t
    ensures Replace(x + rest, t, r) == x + Replace(rest, t, r)
  {
    ReplaceAfterHead(x + rest, t, r);
    assert (x + rest)[1..] == x[1..] + rest;
    ReplaceSkip(x[1..], rest, t, r);
    AppendAssoc([x[0]], x[1..], Replace(rest, t, r));
    assert [x[0]] + x[1..] == x;
  }

  /** An entity's ampersand is its only one. */
  lemma AmpOnlyFirst(d: char)
    ensures '&' !in Entity(d)[1..]
  {
  }

  /** A text that starts with a different entity does not start with `t`. */
  lemma NoMatchAtHead(x: string, rest: string, t: string)
    requires |x| >= 5 && |t| >= 5
    requires x[2] != t[2] || x[3] != t[3] || x[4] != t[4]
    ensures |x + rest| >= |t| ==> (x + rest)[..|t|] != t
  {
    if |x + rest| >= |t| {
      var h := (x + rest)[..|t|];
      assert h[2] == x[2] && h[3] == x[3] && h[4] == x[4];
    }
  }

  /** Where `t` does not start the text, `replace` keeps the first character and goes on after it. */
  lemma ReplaceAfterHead(s: string, t: string, r: string)
    requires t != [] && s != [] && (|s| >= |t| ==> s[..|t|] != t)
    ensures Replace(s, t, r) == [s[0]] + Replace(s[1..], t, r)
  {
  }

  /** `t` occurs nowhere in `s`. */
  predicate NowhereIn(s: string, t: string)
  {
    forall j :: 0 <= j <= |s| ==> !OccursAt(s, t, j)
  }

  lemma NowhereInTail(s: string, t: string)
    requires s != [] && NowhereIn(s, t)
    ensures NowhereIn(s[1..], t) && !OccursAt(s, t, 0)
  {
    forall j | 0 <= j <= |s| - 1 ensures !OccursAt(s[1..], t, j) {
      OccursShifted(s, t, j);
    }
  }

  /** An occurrence in the tail is an occurrence one place later in the text. */
  lemma OccursShifted(s: string, t: string, j: nat)
    requires s != [] && j <= |s| - 1
    ensures OccursAt(s[1..], t, j) == OccursAt(s, t, j + 1)
  {
    if j + |t| <= |s| - 1 {
      assert s[j + 1..j + 1 + |t|] == s[1..][j..j + |t|];
    }
  }

  /** An escaped text starts with a text free of `&` only where the original already did. */
  lemma {:induction false} EscapedPrefix(x: string, done: set<char>, u: string)
    requires done <= Brackets && '&' !in u
    requires StartsWith(EscapedWith(x, done), u)
    ensures StartsWith(x, u)
    decreases |u|
  {
    if u != [] {
      var head := if x[0] in done then Entity(x[0]) else [x[0]];
      EntityChars(x[0]);
      assert EscapedWith(x, done)[0] == head[0];
      assert x[0] !in done;
      var rest := EscapedWith(x[1..], done);
      assert EscapedWith(x, done) == [x[0]] + rest;
      assert rest[..|u| - 1] == u[1..];
      EscapedPrefix(x[1..], done, u[1..]);
      assert x[..|u|] == [x[0]] + x[1..][..|u| - 1];
    }
  }

  /** A head character followed by escaped text starts an entity only where the original text does. */
  lemma EntityAtHead(s: string, done: set<char>, c: char)
    requires s != [] && s[0] !in done && done <= Brackets && c in Brackets
    ensures StartsWith([s[0]] + EscapedWith(s[1..], done), Entity(c)) ==> OccursAt(s, Entity(c), 0)
  {
    var t := Entity(c);
    var x := [s[0]] + EscapedWith(s[1..], done);
    EntityChars(c);
    AmpOnlyFirst(c);
    if StartsWith(x, t) {
      assert EscapedWith(s[1..], done)[..|t| - 1] == t[1..];
      EscapedPrefix(s[1..], done, t[1..]);
      assert s[..|t|] == [s[0]] + s[1..][..|t| - 1];
    }
  }

  /** An ampersand that does not start the entity in the original does not start it once the rest is escaped. */
  lemma AmpersandHeadSkipped(s: string, done: set<char>, c: char)
    requires s != [] && s[0] !in done && done <= Brackets && c in Brackets
    requires !OccursAt(s, Entity(c), 0)
    ensures Replace([s[0]] + EscapedWith(s[1..], done), Entity(c), [c]) ==
            [s[0]] + Replace(EscapedWith(s[1..], done), Entity(c), [c])
  {
    var x := [s[0]] + EscapedWith(s[1..], done);
    EntityChars(c);
    EntityAtHead(s, done, c);
    ReplaceAfterHead(x, Entity(c), [c]);
    assert x[1..] == EscapedWith(s[1..], done);
  }

  /** One `replace` of the decoding turns one kind of entity back into its character. */
  lemma {:induction false} DecodeStep(s: string, done: set<char>, c: char)
    requires NowhereIn(s, Entity(c))
    requires c in done && done <= Brackets
    ensures Replace(EscapedWith(s, done), Entity(c), [c]) == EscapedWith(s, done - {c})
    decreases |s|
  {
    if s != [] {
      var rest := EscapedWith(s[1..], done);
      NowhereInTail(s, Entity(c));
      DecodeStep(s[1..], done, c);
      EntityChars(c);
      if s[0] == c {
        ReplaceHit(Entity(c), rest, [c]);
      } else if s[0] in done {
        OtherEntitySkipped(s[0], c, rest);
      } else {
        AmpersandHeadSkipped(s, done, c);
      }
    }
  }

  /** `t` not in `s`: no occurrence anywhere. */
  lemma NotContained(s: string, t: string)
    requires !Contains(s, t)
    ensures NowhereIn(s, t)
  {
  }

  /**
   * Decoding the escaped content gives the content back whenever none of
   * the four entity strings occurs in it.
   */
  lemma DecodeEscapeRoundTrip(s: string)
    requires !Contains(s, "&#123;") && !Contains(s, "&#125;") && !Contains(s, "&#91;") && !Contains(s, "&#93;")
    ensures AgentMetadataCollector.DecodeEntities(Escape(s)) == s
  {
    NotContained(s, "&#123;");
    NotContained(s, "&#125;");
    NotContained(s, "&#91;");
    NotContained(s, "&#93;");
    EscapeIsEscapedWith(s);
    DecodeStep(s, Brackets, '{');
    assert Brackets - {'{'} == {'}', '[', ']'};
    DecodeStep(s, {'}', '[', ']'}, '}');
    assert {'}', '[', ']'} - {'}'} == {'[', ']'};
    DecodeStep(s, {'[', ']'}, '[');
    assert {'[', ']'} - {'['} == {']'};
    DecodeStep(s, {']'}, ']');
    assert {']'} - {']'} == {};
    EscapedWithNone(s);
  }

  // ---------------------------------------------------------------------
  // The appended block
  // ---------------------------------------------------------------------

  /** One element of `grouped_files`. */
  datatype FileData = FileData(fileName: string, fileContent: string)

  function FileNames(files: seq<FileData>): (r: seq<string>)
    ensures |r| == |files|
    ensures forall i :: 0 <= i < |files| ==> r[i] == files[i].fileName
  {
    seq(|files|, i requires 0 <= i < |files| => files[i].fileName)
  }

  /** The line naming every file. */
  function Header(files: seq<FileData>): string
  {
    "\n\nFocus on the content from the following files: " + Join(FileNames(files), ", ") + "\n"
  }

  function ContentMarker(name: string): string
  {
    "\n--- Content from " + name + " ---\n"
  }

  function EndMarker(name: string): string
  {
    "\n--- End of " + name + " ---\n"
  }

  /** The part of the block for one file: its markers around its escaped content. */
  function Section(f: FileData): string
  {
    ContentMarker(f.fileName) + "\n```python\n" + Escape(f.fileContent) + "\n```\n" + EndMarker(f.fileName)
  }

  function Sections(files: seq<FileData>): (r: seq<string>)
    ensures |r| == |files|
    ensures forall i :: 0 <= i < |files| ==> r[i] == Section(files[i])
  {
    seq(|files|, i requires 0 <= i < |files| => Section(files[i]))
  }

  /** The text appended to the matched agent's instruction. */
  function AdditionalContent(files: seq<FileData>): string
  {
    Header(files) + Join(Sections(files), "")
  }

  lemma ConcatRegroup(t: string, a: string, b: string, c: string, d: string, e: string)
    ensures ((t + a) + ((b + c) + d)) + e == t + ((((a + b) + c) + d) + e)
  {
  }

  /** A text placed in front of a join shifts every part's offset by its length. */
  lemma PrefixedPartAt(h: string, parts: seq<string>, i: nat)
    requires i < |parts|
    ensures StartsWith(h + Join(parts, ""), h)
    ensures OccursAt(h + Join(parts, ""), parts[i], |h| + JoinOffset(parts, "", i))
  {
    JoinPartAt(parts, "", i);
    OccursAfterPrefix(h, Join(parts, ""), parts[i], JoinOffset(parts, "", i));
  }

  lemma OccursAfterPrefix(h: string, body: string, sub: string, o: int)
    requires OccursAt(body, sub, o)
    ensures StartsWith(h + body, h)
    ensures OccursAt(h + body, sub, |h| + o)
  {
    assert (h + body)[..|h|] == h;
    assert (h + body)[|h| + o..|h| + o + |sub|] == body[o..o + |sub|];
  }

  lemma SectionsStep(files: seq<FileData>, i: nat)
    requires i < |files|
    ensures Join(Sections(files)[..i + 1], "") == Join(Sections(files)[..i], "") + Section(files[i])
  {
    assert Sections(files)[..i + 1] == Sections(files)[..i] + [Section(files[i])];
    if i == 0 {
      assert Sections(files)[..1] == [Section(files[0])];
    } else {
      JoinAppend(Sections(files)[..i], Section(files[i]), "");
    }
  }

  /** One more file's markers and escaped content extend the text by that file's section. */
  lemma BuildStep(files: seq<FileData>, i: nat, before: string, escaped: string, text: string)
    requires i < |files|
    requires before == Header(files) + Join(Sections(files)[..i], "")
    requires escaped == Replace(Replace(Replace(Replace(files[i].fileContent, "{", "&#123;"), "}", "&#125;"),
                                        "[", "&#91;"), "]", "&#93;")
    requires text == ((before + ContentMarker(files[i].fileName)) + (("\n```python\n" + escaped) + "\n```\n"))
                     + EndMarker(files[i].fileName)
    ensures text == Header(files) + Join(Sections(files)[..i + 1], "")
  {
    var f := files[i];
    ConcatRegroup(before, ContentMarker(f.fileName), "\n```python\n", escaped, "\n```\n", EndMarker(f.fileName));
    SectionsStep(files, i);
  }

  /** The loop of the source that builds the appended text file by file. */
  method BuildAdditionalContent(files: seq<FileData>) returns (text: string)
    ensures text == AdditionalContent(files)
  {
    text := Header(files);
    var i := 0;
    while i < |files|
      invariant 0 <= i <= |files|
      invariant text == Header(files) + Join(Sections(files)[..i], "")
    {
      var f := files[i];
      ghost var before := text;
      text := text + ContentMarker(f.fileName);
      var escaped := f.fileContent;
      escaped := Replace(escaped, "{", "&#123;");
      escaped := Replace(escaped, "}", "&#125;");
      escaped := Replace(escaped, "[", "&#91;");
      escaped := Replace(escaped, "]", "&#93;");
      text := text + ("\n```python\n" + escaped + "\n```\n");
      text := text + EndMarker(f.fileName);
      BuildStep(files, i, before, escaped, text);
      i := i + 1;
    }
    assert Sections(files)[..|files|] == Sections(files);
  }

  /** Each section begins with its file's content marker and ends with its end marker. */
  lemma SectionMarkers(f: FileData)
    ensures StartsWith(Section(f), ContentMarker(f.fileName))
    ensures EndsWith(Section(f), EndMarker(f.fileName))
  {
    var sec := Section(f);
    var cm := ContentMarker(f.fileName);
    var em := EndMarker(f.fileName);
    var mid := "\n```python\n" + Escape(f.fileContent) + "\n```\n";
    assert sec == cm + (mid + em);
    assert sec[..|cm|] == cm;
    assert sec == (cm + mid) + em;
    assert sec[|sec| - |em|..] == em;
  }

  /**
   * The block names the files in order and then holds one section per file,
   * in the same order: each section sits whole at its offset, and the next
   * section begins where it ends.
   */
  lemma AppendedBlockLayout(files: seq<FileData>, i: nat)
    requires i < |files|
    ensures StartsWith(AdditionalContent(files), Header(files))
    ensures OccursAt(AdditionalContent(files), Section(files[i]),
                     |Header(files)| + JoinOffset(Sections(files), "", i))
    ensures i + 1 < |files| ==>
      JoinOffset(Sections(files), "", i + 1) == JoinOffset(Sections(files), "", i) + |Section(files[i])|
  {
    PrefixedPartAt(Header(files), Sections(files), i);
    JoinPartAt(Sections(files), "", i);
  }

  // ---------------------------------------------------------------------
  // Finding the target agent
  // ---------------------------------------------------------------------

  /** The matched node's new instruction: its old one (missing or None read as empty) plus the block. */
  function AppendedInstruction(previous: Option<string>, block: string): string
  {
    previous.GetOr("") + block
  }

  /**
   * `_append_to_agent_config`: a node named `target` takes the block and
   * stops the walk; otherwise its sub-agents are tried left to right. The
   * flag says whether some node took it.
   */
  function AppendNode(c: Config, target: string, block: string): (Config, bool)
    decreases c, 1
  {
    if c.name == Some(target) then
      (c.(instruction := Some(AppendedInstruction(c.instruction, block))), true)
    else
      match c.subAgents
      case Agents(list) =>
        var (updated, found) := AppendList(list, target, block);
        (c.(subAgents := Agents(updated)), found)
      case _ => (c, false)
  }

  function AppendList(cs: seq<Config>, target: string, block: string): (seq<Config>, bool)
    decreases cs, 0
  {
    if cs == [] then ([], false)
    else
      var (head, found) := AppendNode(cs[0], target, block);
      if found then ([head] + cs[1..], true)
      else
        var (tail, foundLater) := AppendList(cs[1..], target, block);
        ([cs[0]] + tail, foundLater)
  }

  /** The node the walk stops at, when there is one: the first in pre-order named `target`. */
  predicate FirstNamedHas(nodes: seq<Config>, target: string, instruction: string, block: string)
  {
    FirstNamed(nodes, target) < |nodes| ==>
      instruction == AppendedInstruction(nodes[FirstNamed(nodes, target)].instruction, block)
  }

  /**
   * Appending is the walk that sets a prompt, with the prompt being the first
   * matching node's instruction extended by the block.
   */
  lemma {:induction false} AppendNodeIsUpdate(c: Config, target: string, block: string, p: string)
    requires FirstNamedHas(Flatten(c), target, p, block)
    ensures AppendNode(c, target, block) == OptimizerTypes.UpdateNode(c, target, p)
    decreases c, 1
  {
    if c.name != Some(target) {
      match c.subAgents
      case Agents(list) =>
        FirstNamedHasSplit([c], FlattenAll(list), target, p, block);
        AppendListIsUpdate(list, target, block, p);
      case _ =>
    }
  }

  lemma {:induction false} AppendListIsUpdate(cs: seq<Config>, target: string, block: string, p: string)
    requires FirstNamedHas(FlattenAll(cs), target, p, block)
    ensures AppendList(cs, target, block) == OptimizerTypes.UpdateList(cs, target, p)
    decreases cs, 0
  {
    if cs != [] {
      var first := Flatten(cs[0]);
      OptimizerTypes.FlattenAllCons(cs);
      FirstNamedHasSplit(first, FlattenAll(cs[1..]), target, p, block);
      AppendNodeIsUpdate(cs[0], target, block, p);
      OptimizerTypes.UpdateNodeSpec(cs[0], target, p);
      if FirstNamed(first, target) >= |first| {
        AppendListIsUpdate(cs[1..], target, block, p);
      }
    }
  }

  /** The stopping node of a concatenation is in its first part, or else in its second. */
  lemma FirstNamedHasSplit(first: seq<Config>, rest: seq<Config>, target: string, p: string, block: string)
    requires FirstNamedHas(first + rest, target, p, block)
    ensures FirstNamedHas(first, target, p, block)
    ensures FirstNamed(first, target) >= |first| ==> FirstNamedHas(rest, target, p, block)
  {
    FirstNamedAppend(first, rest, target);
    var k := FirstNamed(first, target);
    if k < |first| {
      assert (first + rest)[k] == first[k];
    } else {
      var k' := FirstNamed(rest, target);
      if k' < |rest| {
        assert (first + rest)[|first| + k'] == rest[k'];
      }
    }
  }

  /** `append_content_to_agent_config`: the flag, and the tree with the block appended. */
  method AppendContentToAgentConfig(c: Config, target: string, files: seq<FileData>)
    returns (found: bool, updated: Config)
    ensures (updated, found) == AppendNode(c, target, AdditionalContent(files))
  {
    var block := BuildAdditionalContent(files);
    var r := AppendNode(c, target, block);
    updated, found := r.0, r.1;
  }

  /**
   * The walk reports success iff some node is named `target`; then only the
   * first such node in pre-order changes, and only its instruction, which
   * becomes its old instruction followed by the block. Otherwise nothing changes.
   */
  lemma AppendNodeSpec(c: Config, target: string, block: string)
    ensures AppendNode(c, target, block).1 == HasNamed(c, target)
    ensures !HasNamed(c, target) ==> AppendNode(c, target, block).0 == c
    ensures HasNamed(c, target) ==>
      var k := FirstNamed(Flatten(c), target);
      var previous := Flatten(c)[k].instruction;
      && Labels(AppendNode(c, target, block).0) ==
           OptimizerTypes.Relabel(Labels(c), k, AppendedInstruction(previous, block))
      && StartsWith(AppendedInstruction(previous, block), previous.GetOr(""))
  {
    var k := FirstNamed(Flatten(c), target);
    var p := if k < |Flatten(c)| then AppendedInstruction(Flatten(c)[k].instruction, block) else "";
    AppendNodeIsUpdate(c, target, block, p);
    OptimizerTypes.UpdateNodeSpec(c, target, p);
  }
}
