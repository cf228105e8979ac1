/**
 * Structured metadata about every agent of a configuration after template
 * processing: word-limited previews, the files attached to instructions, a
 * flat pre-order list of the agents with their parents' names, and summary
 * counts. The two regular-expression scans of an instruction (file blocks
 * and likely template values) are given as functions.
 */
module AgentMetadataCollector {
  import opened Wrappers
  import opened Text
  import opened AgentConfig
  import Dicts

  /** The word limit of file-content previews and the default of instruction previews. */
  const PreviewWords: nat := 256

  /** `truncate_text_to_words(text, max_words)`. */
  function TruncateTextToWords(text: string, maxWords: nat): string
  {
    if text == [] then ""
    else
      var words := Words(text);
      if |words| <= maxWords then text
      else Join(words[..maxWords], " ") + "..."
  }

  lemma EllipsisIsWord()
    ensures IsWord("...")
    ensures Words("...") == ["..."]
  {
    assert forall i :: 0 <= i < 3 ==> "..."[i] == '.';
    WordsOfWord("...");
  }

  /**
   * Empty text stays empty and text within the limit is returned as it is;
   * longer text keeps its first `maxWords` words, the last of them carrying
   * the ellipsis, so the result never has more words than the limit (one,
   * for a limit of 0).
   */
  lemma TruncateTextToWordsSpec(text: string, maxWords: nat)
    ensures text == "" ==> TruncateTextToWords(text, maxWords) == ""
    ensures |Words(text)| <= maxWords ==> TruncateTextToWords(text, maxWords) == text
    ensures |Words(text)| > maxWords >= 1 ==>
      Words(TruncateTextToWords(text, maxWords)) ==
        Words(text)[..maxWords - 1] + [Words(text)[maxWords - 1] + "..."]
    ensures |Words(text)| > maxWords == 0 ==> TruncateTextToWords(text, maxWords) == "..."
    ensures |Words(TruncateTextToWords(text, maxWords))| <= if maxWords == 0 then 1 else maxWords
  {
    var words := Words(text);
    EllipsisIsWord();
    if text != [] && |words| > maxWords {
      if maxWords >= 1 {
        WordsOfJoinThen(words[..maxWords], "...");
        assert words[..maxWords][..maxWords - 1] == words[..maxWords - 1];
      }
    } else if text == [] {
      assert words == [];
    }
  }

  /** Truncating a truncated text changes nothing. */
  lemma TruncateTextToWordsIdempotent(text: string, maxWords: nat)
    ensures TruncateTextToWords(TruncateTextToWords(text, maxWords), maxWords) ==
      TruncateTextToWords(text, maxWords)
  {
    TruncateTextToWordsSpec(text, maxWords);
    var r := TruncateTextToWords(text, maxWords);
    TruncateTextToWordsSpec(r, maxWords);
    EllipsisIsWord();
  }

  /** With a positive limit, the text changes exactly when it has more words than the limit. */
  lemma TruncatedIffOverLimit(text: string, maxWords: nat)
    requires maxWords >= 1
    ensures TruncateTextToWords(text, maxWords) != text <==> |Words(text)| > maxWords
  {
    TruncateTextToWordsSpec(text, maxWords);
  }

  /** Undoes the escaping of braces and brackets, one entity after the other. */
  function DecodeEntities(s: string): string
  {
    var a := Replace(s, "&#123;", "{");
    var b := Replace(a, "&#125;", "}");
    var c := Replace(b, "&#91;", "[");
    Replace(c, "&#93;", "]")
  }

  /** The four groups of one match of the file-block pattern. */
  datatype FileBlock = FileBlock(startName: string, fileType: string, content: string, endName: string)

  /** One entry of `attached_files`. */
  datatype AttachedFile = AttachedFile(
    fileName: string,
    fileType: string,
    contentPreview: string,
    originalContentLength: nat,
    isTruncated: bool)

  /** The entry a matched block yields, or nothing when its start and end names differ. */
  function AttachedFileOf(b: FileBlock): Option<AttachedFile>
  {
    var name := Strip(b.startName);
    if name != Strip(b.endName) then None
    else
      var decoded := DecodeEntities(Strip(b.content));
      Some(AttachedFile(name, Strip(b.fileType), TruncateTextToWords(decoded, PreviewWords),
                        |decoded|, |Words(decoded)| > PreviewWords))
  }

  /**
   * A block yields an entry exactly when its stripped names agree; the entry
   * measures the decoded content, and it is flagged as truncated exactly when
   * its preview differs from the decoded content.
   */
  lemma AttachedFileSpec(b: FileBlock)
    ensures AttachedFileOf(b).Some? <==> Strip(b.startName) == Strip(b.endName)
    ensures AttachedFileOf(b).Some? ==>
      var f := AttachedFileOf(b).value;
      var decoded := DecodeEntities(Strip(b.content));
      && f.fileName == Strip(b.startName)
      && f.originalContentLength == |decoded|
      && (f.isTruncated <==> f.contentPreview != decoded)
      && (f.isTruncated <==> |Words(decoded)| > PreviewWords)
  {
    TruncatedIffOverLimit(DecodeEntities(Strip(b.content)), PreviewWords);
  }

  /** The entries of a list of matched blocks, in match order. */
  function AttachedFilesOf(blocks: seq<FileBlock>): seq<AttachedFile>
  {
    FilterMap(blocks, AttachedFileOf)
  }

  /** `extract_attached_files_from_instruction`, given the blocks the pattern matches. */
  method ExtractAttachedFilesFromInstruction(instruction: string, findBlocks: string -> seq<FileBlock>)
    returns (files: seq<AttachedFile>)
    ensures files == AttachedFilesOf(findBlocks(instruction))
  {
    files := KeepEntries(findBlocks(instruction), AttachedFileOf);
  }

  /** The loop over the matched blocks, appending the entry each one yields. */
  method KeepEntries<E>(blocks: seq<FileBlock>, entryOf: FileBlock -> Option<E>) returns (files: seq<E>)
    ensures files == FilterMap(blocks, entryOf)
  {
    files := [];
    var i := 0;
    while i < |blocks|
      invariant 0 <= i <= |blocks|
      invariant files == FilterMap(blocks[..i], entryOf)
    {
      FilterMapStep(blocks, entryOf, i);
      var entry := entryOf(blocks[i]);
      if entry.Some? {
        files := files + [entry.value];
      }
      i := i + 1;
    }
    WholePrefix(blocks);
  }

  /**
   * Every entry comes from a block whose names agree, every such block gives
   * its entry, and there is never more than one entry per block.
   */
  lemma AttachedFilesSpec(blocks: seq<FileBlock>)
    ensures |AttachedFilesOf(blocks)| <= |blocks|
    ensures forall f :: f in AttachedFilesOf(blocks) ==>
      exists i :: 0 <= i < |blocks| && Strip(blocks[i].startName) == Strip(blocks[i].endName) &&
        AttachedFileOf(blocks[i]) == Some(f)
    ensures forall i :: 0 <= i < |blocks| && Strip(blocks[i].startName) == Strip(blocks[i].endName) ==>
      AttachedFileOf(blocks[i]).Some? && AttachedFileOf(blocks[i]).value in AttachedFilesOf(blocks)
    ensures (forall i :: 0 <= i < |blocks| ==> Strip(blocks[i].startName) == Strip(blocks[i].endName)) ==>
      |AttachedFilesOf(blocks)| == |blocks|
  {
    FilterMapSpec(blocks, AttachedFileOf);
    forall i | 0 <= i < |blocks|
      ensures AttachedFileOf(blocks[i]).Some? <==> Strip(blocks[i].startName) == Strip(blocks[i].endName)
    {
      AttachedFileSpec(blocks[i]);
    }
  }

  /** The regular-expression scans of an instruction. */
  datatype Scanners = Scanners(
    fileBlocks: string -> seq<FileBlock>,
    templateValues: string -> seq<string>)

  /** An `AgentMetadata` record. */
  datatype AgentMetadata = AgentMetadata(
    name: string,
    agentType: string,
    model: Option<string>,
    instruction: string,
    description: string,
    outputKey: Option<string>,
    tools: seq<string>,
    attachedFiles: seq<AttachedFile>,
    templateVariablesUsed: seq<string>,
    instructionLength: nat,
    subAgents: seq<AgentMetadata>)

  /** The name reported for one entry of `tools`. */
  function ToolName(t: Tool): string
  {
    match t
    case ToolDict(functionName, _, toolClass, _, _) => functionName.GetOr(toolClass.GetOr("Unknown Tool"))
    case ToolObject(funcName, typeName) => funcName.GetOr(typeName)
    case ToolText(_) => "str"
  }

  function ToolNames(ts: seq<Tool>): (r: seq<string>)
    ensures |r| == |ts|
    ensures forall i :: 0 <= i < |ts| ==> r[i] == ToolName(ts[i])
  {
    seq(|ts|, i requires 0 <= i < |ts| => ToolName(ts[i]))
  }

  /** `collect_agent_metadata`: the record of an agent and, in order, of its sub-agents. */
  function CollectAgentMetadata(c: Config, scan: Scanners): (m: AgentMetadata)
    ensures m.name == c.name.GetOr("Unknown Agent")
    ensures m.agentType == c.agentClass.GetOr("Unknown")
    ensures m.instruction == c.instruction.GetOr("")
    ensures m.instructionLength == |m.instruction|
    ensures |m.tools| == |c.tools|
    ensures |m.subAgents| == |Children(c)|
    ensures forall i :: 0 <= i < |Children(c)| ==>
      m.subAgents[i].name == Children(c)[i].name.GetOr("Unknown Agent")
    decreases c, 1
  {
    var instruction := c.instruction.GetOr("");
    AgentMetadata(
      c.name.GetOr("Unknown Agent"),
      c.agentClass.GetOr("Unknown"),
      c.model,
      instruction,
      c.description.GetOr(""),
      c.outputKey,
      ToolNames(c.tools),
      AttachedFilesOf(scan.fileBlocks(instruction)),
      scan.templateValues(instruction),
      |instruction|,
      match c.subAgents
      case Agents(cs) => CollectAll(cs, scan)
      case _ => [])
  }

  function CollectAll(cs: seq<Config>, scan: Scanners): (ms: seq<AgentMetadata>)
    ensures |ms| == |cs|
    ensures forall i :: 0 <= i < |cs| ==> ms[i] == CollectAgentMetadata(cs[i], scan)
    decreases cs, 0
  {
    if cs == [] then [] else [CollectAgentMetadata(cs[0], scan)] + CollectAll(cs[1..], scan)
  }

  /** The dictionary `agent_metadata_to_dict` makes of a record. */
  datatype MetadataDict = MetadataDict(
    name: string,
    agentType: string,
    model: Option<string>,
    description: string,
    outputKey: Option<string>,
    tools: seq<string>,
    attachedFiles: seq<AttachedFile>,
    templateVariablesUsed: seq<string>,
    instructionLength: nat,
    instructionPreview: string,
    subAgents: seq<MetadataDict>)

  /**
   * `agent_metadata_to_dict`: the record without its instruction, which is
   * replaced by a preview of at most `previewWords` words (the guard for an
   * empty instruction gives what truncation would give anyway).
   */
  function AgentMetadataToDict(m: AgentMetadata, previewWords: nat): (d: MetadataDict)
    ensures d.name == m.name && d.agentType == m.agentType
    ensures d.instructionPreview == TruncateTextToWords(m.instruction, previewWords)
    ensures |d.subAgents| == |m.subAgents|
  {
    MetadataDict(
      m.name, m.agentType, m.model, m.description, m.outputKey, m.tools, m.attachedFiles,
      m.templateVariablesUsed, m.instructionLength,
      if m.instruction != "" then TruncateTextToWords(m.instruction, previewWords) else "",
      seq(|m.subAgents|, i requires 0 <= i < |m.subAgents| => AgentMetadataToDict(m.subAgents[i], previewWords)))
  }

  /** One entry of `all_agents`: the agent's dictionary plus the three keys added while flattening. */
  datatype FlatEntry = FlatEntry(
    info: MetadataDict,
    parentAgent: Option<string>,
    hasSubAgents: bool,
    subAgentCount: nat)

  /** `_flatten_agents`: the agent, then each sub-agent's entries, in pre-order. */
  function FlattenAgents(m: AgentMetadata, parent: Option<string>, previewWords: nat): (es: seq<FlatEntry>)
    ensures |es| >= 1
    decreases m, 1
  {
    [FlatEntry(AgentMetadataToDict(m, previewWords), parent, |m.subAgents| > 0, |m.subAgents|)]
      + FlattenAgentsAll(m.subAgents, Some(m.name), previewWords)
  }

  function FlattenAgentsAll(ms: seq<AgentMetadata>, parent: Option<string>, previewWords: nat): seq<FlatEntry>
    decreases ms, 0
  {
    if ms == [] then []
    else FlattenAgents(ms[0], parent, previewWords) + FlattenAgentsAll(ms[1..], parent, previewWords)
  }

  /** `_calculate_max_depth`: the deepest level reached, counting this record as `currentDepth`. */
  function CalculateMaxDepth(m: AgentMetadata, currentDepth: int): int
    decreases m, 1
  {
    if m.subAgents == [] then currentDepth
    else MaxSubDepth(m.subAgents, currentDepth + 1)
  }

  function MaxSubDepth(ms: seq<AgentMetadata>, depth: int): int
    requires ms != []
    decreases ms, 0
  {
    var h := CalculateMaxDepth(ms[0], depth);
    if |ms| == 1 then h
    else
      var t := MaxSubDepth(ms[1..], depth);
      if h >= t then h else t
  }

  /** Starting from depth `d`, the metadata reaches `d - 1` plus the depth of the configuration tree. */
  lemma {:induction false} MaxDepthOfMetadata(c: Config, scan: Scanners, d: int)
    ensures CalculateMaxDepth(CollectAgentMetadata(c, scan), d) == d + Depth(c) - 1
    decreases c, 1
  {
    match c.subAgents
    case Agents(cs) =>
      if cs != [] {
        MaxDepthOfMetadataAll(cs, scan, d + 1);
      }
    case _ =>
  }

  lemma {:induction false} MaxDepthOfMetadataAll(cs: seq<Config>, scan: Scanners, d: int)
    requires cs != []
    ensures MaxSubDepth(CollectAll(cs, scan), d) == d + MaxDepth(cs) - 1
    decreases cs, 0
  {
    var ms := CollectAll(cs, scan);
    MaxDepthOfMetadata(cs[0], scan, d);
    if |cs| > 1 {
      assert ms[1..] == CollectAll(cs[1..], scan);
      MaxDepthOfMetadataAll(cs[1..], scan, d);
    }
  }

  /** What the summary reads from one entry: its name, its type and how many sub-agents it has. */
  function EntryViews(es: seq<FlatEntry>): (r: seq<(string, string, nat)>)
    ensures |r| == |es|
    ensures forall i :: 0 <= i < |es| ==> r[i] == (es[i].info.name, es[i].info.agentType, es[i].subAgentCount)
  {
    seq(|es|, i requires 0 <= i < |es| => (es[i].info.name, es[i].info.agentType, es[i].subAgentCount))
  }

  /** The same three facts read from configuration nodes, with the defaults of `collect_agent_metadata`. */
  function NodeViews(cs: seq<Config>): (r: seq<(string, string, nat)>)
    ensures |r| == |cs|
    ensures forall i :: 0 <= i < |cs| ==>
      r[i] == (cs[i].name.GetOr("Unknown Agent"), cs[i].agentClass.GetOr("Unknown"), |Children(cs[i])|)
  {
    seq(|cs|, i requires 0 <= i < |cs| =>
      (cs[i].name.GetOr("Unknown Agent"), cs[i].agentClass.GetOr("Unknown"), |Children(cs[i])|))
  }

  lemma EntryViewsAppend(a: seq<FlatEntry>, b: seq<FlatEntry>)
    ensures EntryViews(a + b) == EntryViews(a) + EntryViews(b)
  {
    assert forall i :: 0 <= i < |a| + |b| ==> (a + b)[i] == if i < |a| then a[i] else b[i - |a|];
  }

  lemma NodeViewsAppend(a: seq<Config>, b: seq<Config>)
    ensures NodeViews(a + b) == NodeViews(a) + NodeViews(b)
  {
    assert forall i :: 0 <= i < |a| + |b| ==> (a + b)[i] == if i < |a| then a[i] else b[i - |a|];
  }

  /**
   * The flattened metadata lists the configuration's nodes in pre-order: one
   * entry per node, with that node's name, type and sub-agent count.
   */
  lemma {:induction false} FlattenFollowsConfig(c: Config, scan: Scanners, parent: Option<string>, previewWords: nat)
    ensures EntryViews(FlattenAgents(CollectAgentMetadata(c, scan), parent, previewWords)) == NodeViews(Flatten(c))
    decreases c, 1
  {
    var m := CollectAgentMetadata(c, scan);
    var head := FlatEntry(AgentMetadataToDict(m, previewWords), parent, |m.subAgents| > 0, |m.subAgents|);
    var rest := FlattenAgentsAll(m.subAgents, Some(m.name), previewWords);
    EntryViewsAppend([head], rest);
    HeadView(c, head, m, previewWords);
    match c.subAgents
    case Agents(cs) =>
      FlattenAllFollowsConfig(cs, scan, Some(m.name), previewWords);
      NodeViewsAppend([c], FlattenAll(cs));
    case _ =>
  }

  /** The entry of a node reads the node's name, type and sub-agent count. */
  lemma HeadView(c: Config, head: FlatEntry, m: AgentMetadata, previewWords: nat)
    requires m.name == c.name.GetOr("Unknown Agent") && m.agentType == c.agentClass.GetOr("Unknown")
    requires |m.subAgents| == |Children(c)|
    requires head.info == AgentMetadataToDict(m, previewWords) && head.subAgentCount == |m.subAgents|
    ensures EntryViews([head]) == NodeViews([c])
  {
  }

  lemma {:induction false} FlattenAllFollowsConfig(cs: seq<Config>, scan: Scanners, parent: Option<string>, previewWords: nat)
    ensures EntryViews(FlattenAgentsAll(CollectAll(cs, scan), parent, previewWords)) == NodeViews(FlattenAll(cs))
    decreases cs, 0
  {
    if cs != [] {
      var ms := CollectAll(cs, scan);
      assert ms[1..] == CollectAll(cs[1..], scan);
      FlattenFollowsConfig(cs[0], scan, parent, previewWords);
      FlattenAllFollowsConfig(cs[1..], scan, parent, previewWords);
      EntryViewsAppend(FlattenAgents(ms[0], parent, previewWords), FlattenAgentsAll(ms[1..], parent, previewWords));
      NodeViewsAppend(Flatten(cs[0]), FlattenAll(cs[1..]));
    }
  }

  /** The sum of the `sub_agent_count` values of a list of entries. */
  function SubAgentCountSum(es: seq<FlatEntry>): nat
  {
    if es == [] then 0 else es[0].subAgentCount + SubAgentCountSum(es[1..])
  }

  lemma {:induction false} SubAgentCountSumAppend(a: seq<FlatEntry>, b: seq<FlatEntry>)
    ensures SubAgentCountSum(a + b) == SubAgentCountSum(a) + SubAgentCountSum(b)
    decreases |a|
  {
    if a == [] {
      assert a + b == b;
    } else {
      assert (a + b)[1..] == a[1..] + b;
      SubAgentCountSumAppend(a[1..], b);
    }
  }

  /** Every entry but the first is counted once among its parent's sub-agents. */
  lemma {:induction false} FlattenSubAgentCounts(m: AgentMetadata, parent: Option<string>, previewWords: nat)
    ensures SubAgentCountSum(FlattenAgents(m, parent, previewWords)) + 1 == |FlattenAgents(m, parent, previewWords)|
    decreases m, 1
  {
    var es := FlattenAgents(m, parent, previewWords);
    assert es[1..] == FlattenAgentsAll(m.subAgents, Some(m.name), previewWords);
    FlattenAllSubAgentCounts(m.subAgents, Some(m.name), previewWords);
  }

  lemma {:induction false} FlattenAllSubAgentCounts(ms: seq<AgentMetadata>, parent: Option<string>, previewWords: nat)
    ensures SubAgentCountSum(FlattenAgentsAll(ms, parent, previewWords)) + |ms| == |FlattenAgentsAll(ms, parent, previewWords)|
    decreases ms, 0
  {
    if ms != [] {
      FlattenSubAgentCounts(ms[0], parent, previewWords);
      FlattenAllSubAgentCounts(ms[1..], parent, previewWords);
      SubAgentCountSumAppend(FlattenAgents(ms[0], parent, previewWords), FlattenAgentsAll(ms[1..], parent, previewWords));
    }
  }

  /** Each entry's parent is `top` or the name of an earlier entry that has sub-agents. */
  predicate ParentsEarlier(es: seq<FlatEntry>, top: Option<string>)
  {
    forall i :: 0 <= i < |es| ==>
      es[i].parentAgent == top ||
      exists j :: 0 <= j < i && es[j].hasSubAgents && es[i].parentAgent == Some(es[j].info.name)
  }

  lemma ParentsEarlierAppend(a: seq<FlatEntry>, b: seq<FlatEntry>, top: Option<string>)
    requires ParentsEarlier(a, top) && ParentsEarlier(b, top)
    ensures ParentsEarlier(a + b, top)
  {
    var ab := a + b;
    forall i | |a| <= i < |ab| && ab[i].parentAgent != top
      ensures exists j :: 0 <= j < i && ab[j].hasSubAgents && ab[i].parentAgent == Some(ab[j].info.name)
    {
      assert ab[i] == b[i - |a|];
      var j :| 0 <= j < i - |a| && b[j].hasSubAgents && b[i - |a|].parentAgent == Some(b[j].info.name);
      assert ab[j + |a|] == b[j];
    }
    forall i | 0 <= i < |a| && ab[i].parentAgent != top
      ensures exists j :: 0 <= j < i && ab[j].hasSubAgents && ab[i].parentAgent == Some(ab[j].info.name)
    {
      assert ab[i] == a[i];
      var j :| 0 <= j < i && a[j].hasSubAgents && a[i].parentAgent == Some(a[j].info.name);
      assert ab[j] == a[j];
    }
  }

  /**
   * The first entry carries the parent passed in; every later entry names as
   * its parent an earlier entry that has sub-agents.
   */
  lemma {:induction false} FlattenParents(m: AgentMetadata, parent: Option<string>, previewWords: nat)
    ensures FlattenAgents(m, parent, previewWords)[0].parentAgent == parent
    ensures var es := FlattenAgents(m, parent, previewWords);
      forall i :: 1 <= i < |es| ==>
        exists j :: 0 <= j < i && es[j].hasSubAgents && es[i].parentAgent == Some(es[j].info.name)
    decreases m, 1
  {
    var es := FlattenAgents(m, parent, previewWords);
    var rest := FlattenAgentsAll(m.subAgents, Some(m.name), previewWords);
    assert es[1..] == rest;
    FlattenAllParents(m.subAgents, Some(m.name), previewWords);
    forall i | 1 <= i < |es|
      ensures exists j :: 0 <= j < i && es[j].hasSubAgents && es[i].parentAgent == Some(es[j].info.name)
    {
      assert es[i] == rest[i - 1];
      assert m.subAgents != [];
      if rest[i - 1].parentAgent == Some(m.name) {
        assert es[0].hasSubAgents && es[0].info.name == m.name;
      } else {
        var j :| 0 <= j < i - 1 && rest[j].hasSubAgents && rest[i - 1].parentAgent == Some(rest[j].info.name);
        assert es[j + 1] == rest[j];
      }
    }
  }

  lemma {:induction false} FlattenAllParents(ms: seq<AgentMetadata>, parent: Option<string>, previewWords: nat)
    ensures ParentsEarlier(FlattenAgentsAll(ms, parent, previewWords), parent)
    decreases ms, 0
  {
    if ms != [] {
      var first := FlattenAgents(ms[0], parent, previewWords);
      FlattenParents(ms[0], parent, previewWords);
      FlattenAllParents(ms[1..], parent, previewWords);
      ParentsEarlierAppend(first, FlattenAgentsAll(ms[1..], parent, previewWords), parent);
    }
  }

  /** How many entries have attached files. */
  function WithFilesCount(es: seq<FlatEntry>): nat
  {
    if es == [] then 0
    else WithFilesCount(es[..|es| - 1]) + (if es[|es| - 1].info.attachedFiles != [] then 1 else 0)
  }

  /** How many entries have tools. */
  function WithToolsCount(es: seq<FlatEntry>): nat
  {
    if es == [] then 0
    else WithToolsCount(es[..|es| - 1]) + (if es[|es| - 1].info.tools != [] then 1 else 0)
  }

  /** How many attached files the entries have together. */
  function AttachedFileTotal(es: seq<FlatEntry>): nat
  {
    if es == [] then 0
    else AttachedFileTotal(es[..|es| - 1]) + |es[|es| - 1].info.attachedFiles|
  }

  function AgentTypes(es: seq<FlatEntry>): (r: seq<string>)
    ensures |r| == |es|
    ensures forall i :: 0 <= i < |es| ==> r[i] == es[i].info.agentType
  {
    seq(|es|, i requires 0 <= i < |es| => es[i].info.agentType)
  }

  function ClassNames(cs: seq<Config>): (r: seq<string>)
    ensures |r| == |cs|
    ensures forall i :: 0 <= i < |cs| ==> r[i] == cs[i].agentClass.GetOr("Unknown")
  {
    seq(|cs|, i requires 0 <= i < |cs| => cs[i].agentClass.GetOr("Unknown"))
  }

  datatype Summary = Summary(
    totalAgents: nat,
    agentsWithAttachedFiles: nat,
    agentsWithTools: nat,
    totalAttachedFiles: nat,
    agentTypes: seq<(string, nat)>,
    hierarchyDepth: int)

  /** The dictionary `collect_all_agents_metadata` returns. */
  datatype AllAgentsMetadata = AllAgentsMetadata(
    rootAgent: MetadataDict,
    allAgents: seq<FlatEntry>,
    summary: Summary)

  /** Entries that read as the nodes have the nodes' types, one per node. */
  lemma TypesOfViews(es: seq<FlatEntry>, cs: seq<Config>)
    requires EntryViews(es) == NodeViews(cs)
    ensures |es| == |cs| && AgentTypes(es) == ClassNames(cs)
  {
    assert |EntryViews(es)| == |NodeViews(cs)|;
    forall k | 0 <= k < |es| ensures AgentTypes(es)[k] == ClassNames(cs)[k] {
      assert EntryViews(es)[k].1 == NodeViews(cs)[k].1;
    }
  }

  /**
   * `collect_all_agents_metadata`: one entry per node of the configuration in
   * pre-order, a type count per agent type that adds up to the number of
   * agents, and the depth of the configuration tree.
   */
  method CollectAllAgentsMetadata(c: Config, scan: Scanners, previewWords: nat) returns (r: AllAgentsMetadata)
    ensures r.rootAgent == AgentMetadataToDict(CollectAgentMetadata(c, scan), previewWords)
    ensures r.allAgents == FlattenAgents(CollectAgentMetadata(c, scan), None, previewWords)
    ensures r.summary.totalAgents == NodeCount(c) == |r.allAgents|
    ensures r.summary.agentsWithAttachedFiles == WithFilesCount(r.allAgents)
    ensures r.summary.agentsWithTools == WithToolsCount(r.allAgents)
    ensures r.summary.totalAttachedFiles == AttachedFileTotal(r.allAgents)
    ensures AgentTypes(r.allAgents) == ClassNames(Flatten(c))
    ensures r.summary.agentTypes == Dicts.Tally(ClassNames(Flatten(c)))
    ensures Dicts.SumValues(r.summary.agentTypes) == r.summary.totalAgents
    ensures r.summary.hierarchyDepth == Depth(c)
  {
    var root := CollectAgentMetadata(c, scan);
    var all := FlattenAgents(root, None, previewWords);
    var withFiles, withTools, fileTotal, types := CountEntries(all);
    FlattenFollowsConfig(c, scan, None, previewWords);
    TypesOfViews(all, Flatten(c));
    Dicts.TallySum(AgentTypes(all));
    MaxDepthOfMetadata(c, scan, 1);
    r := AllAgentsMetadata(
      AgentMetadataToDict(root, previewWords),
      all,
      Summary(|all|, withFiles, withTools, fileTotal, types, CalculateMaxDepth(root, 1)));
  }

  /** One more entry adds its own share to each count. */
  lemma CountStep(all: seq<FlatEntry>, i: nat)
    requires i < |all|
    ensures WithFilesCount(all[..i + 1]) == WithFilesCount(all[..i]) + (if all[i].info.attachedFiles != [] then 1 else 0)
    ensures WithToolsCount(all[..i + 1]) == WithToolsCount(all[..i]) + (if all[i].info.tools != [] then 1 else 0)
    ensures AttachedFileTotal(all[..i + 1]) == AttachedFileTotal(all[..i]) + |all[i].info.attachedFiles|
    ensures Dicts.Tally(AgentTypes(all[..i + 1])) == Dicts.Increment(Dicts.Tally(AgentTypes(all[..i])), all[i].info.agentType)
  {
    assert all[..i + 1][..i] == all[..i];
    assert AgentTypes(all[..i + 1])[..i] == AgentTypes(all[..i]);
  }

  /** The counting loop over `all_agents`. */
  method CountEntries(all: seq<FlatEntry>)
    returns (withFiles: nat, withTools: nat, fileTotal: nat, types: seq<(string, nat)>)
    ensures withFiles == WithFilesCount(all)
    ensures withTools == WithToolsCount(all)
    ensures fileTotal == AttachedFileTotal(all)
    ensures types == Dicts.Tally(AgentTypes(all))
  {
    withFiles, withTools, fileTotal := 0, 0, 0;
    types := [];
    var i := 0;
    while i < |all|
      invariant 0 <= i <= |all|
      invariant withFiles == WithFilesCount(all[..i])
      invariant withTools == WithToolsCount(all[..i])
      invariant fileTotal == AttachedFileTotal(all[..i])
      invariant types == Dicts.Tally(AgentTypes(all[..i]))
    {
      var e := all[i];
      CountStep(all, i);
      if e.info.attachedFiles != [] {
        withFiles := withFiles + 1;
      }
      if e.info.tools != [] {
        withTools := withTools + 1;
      }
      fileTotal := fileTotal + |e.info.attachedFiles|;
      types := Dicts.Increment(types, e.info.agentType);
      i := i + 1;
    }
    assert all[..|all|] == all;
  }
}
