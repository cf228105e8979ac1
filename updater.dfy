/**
 * The prompt updater (agent_optimizer/updater.py): applying suggestions to a
 * configuration with a history of what changed, structural validation of a
 * configuration, and the prompt difference between two configurations.
 */
module Updater {
  import opened Wrappers
  import opened Json
  import opened AgentConfig
  import opened OptimizerTypes
  import Text

  /** `d.get(id, "")` on a prompt map. */
  function PromptOr(prompts: map<string, string>, id: string): string
  {
    if id in prompts then prompts[id] else ""
  }

  /** One applied change, as recorded in the update history. */
  datatype Change = Change(agentId: string, oldPrompt: string, newPrompt: string, reason: string, confidence: real)

  /** One `update_history` entry. */
  datatype UpdateRecord = UpdateRecord(changes: seq<Change>, totalSuggestions: nat, appliedSuggestions: nat)

  /** Python's `s[:n]`, including a negative `n` that counts from the end. */
  function SliceTo<T>(s: seq<T>, n: int): (r: seq<T>)
    ensures |r| <= |s| && r == s[..|r|]
    ensures 0 <= n ==> |r| == if n < |s| then n else |s|
  {
    if n >= 0 then (if n < |s| then s[..n] else s)
    else if |s| + n > 0 then s[..|s| + n] else []
  }

  /** The suggestions considered: all of them unless `max_suggestions` is a non-zero number. */
  function Considered(suggestions: seq<PromptSuggestion>, maxSuggestions: Option<int>): seq<PromptSuggestion>
  {
    if maxSuggestions.Some? && maxSuggestions.value != 0 then SliceTo(suggestions, maxSuggestions.value)
    else suggestions
  }

  /**
   * Applying one suggestion: the new configuration, and the change when the
   * agent's prompt differs afterwards. When reading the prompts raises, or
   * the update raises before it reaches the agent, the handler skips the
   * suggestion and the configuration stays as it was; the update rewrites
   * only an instruction, so the second reading raises exactly when the
   * first does (`UpdateKeepsExtractRaises`).
   */
  function ApplyOne(c: Config, s: PromptSuggestion): (Config, Option<Change>)
  {
    if ExtractRaises(c) || UpdateRaises(c, s.agentId) then (c, None)
    else
    var oldPrompt := PromptOr(ExtractAgentPrompts(c), s.agentId);
    var next := UpdateAgentPrompt(c, s.agentId, s.newPrompt);
    var newPrompt := PromptOr(ExtractAgentPrompts(next), s.agentId);
    if newPrompt != oldPrompt then (next, Some(Change(s.agentId, oldPrompt, newPrompt, s.reason, s.confidence)))
    else (next, None)
  }

  /** The state after the first suggestions: configuration, applied suggestions, changes. */
  datatype Applied = Applied(config: Config, applied: seq<PromptSuggestion>, changes: seq<Change>)

  /** The suggestions applied one after the other, in order. */
  function ApplyAll(c: Config, ss: seq<PromptSuggestion>): Applied
  {
    if ss == [] then Applied(c, [], [])
    else
      var before := ApplyAll(c, ss[..|ss| - 1]);
      var s := ss[|ss| - 1];
      var (next, change) := ApplyOne(before.config, s);
      if change.Some? then Applied(next, before.applied + [s], before.changes + [change.value])
      else Applied(next, before.applied, before.changes)
  }

  /** `xs` is `ys` with some elements left out, order kept. */
  predicate Subsequence<T(==)>(xs: seq<T>, ys: seq<T>)
    decreases |ys|
  {
    if ys == [] then xs == []
    else
      Subsequence(xs, ys[..|ys| - 1]) ||
      (xs != [] && xs[|xs| - 1] == ys[|ys| - 1] && Subsequence(xs[..|xs| - 1], ys[..|ys| - 1]))
  }

  /** Each applied suggestion has its change, for the same agent, with a prompt that differs. */
  predicate ChangesMatch(applied: seq<PromptSuggestion>, changes: seq<Change>)
  {
    && |changes| == |applied|
    && forall i :: 0 <= i < |applied| ==>
      changes[i].agentId == applied[i].agentId && changes[i].oldPrompt != changes[i].newPrompt
  }

  /**
   * The applied suggestions are the considered ones whose agent's prompt
   * changed, in their original order, each with one recorded change.
   */
  lemma {:induction false} ApplyAllSpec(c: Config, ss: seq<PromptSuggestion>)
    ensures Subsequence(ApplyAll(c, ss).applied, ss)
    ensures |ApplyAll(c, ss).applied| <= |ss|
    ensures ChangesMatch(ApplyAll(c, ss).applied, ApplyAll(c, ss).changes)
  {
    if ss != [] {
      var init := ss[..|ss| - 1];
      ApplyAllSpec(c, init);
      ApplyAllStep(c, ss, init, ApplyAll(c, init), ss[|ss| - 1]);
    }
  }

  /** One more suggestion keeps the correspondence and the order. */
  lemma ApplyAllStep(c: Config, ss: seq<PromptSuggestion>, init: seq<PromptSuggestion>, before: Applied, s: PromptSuggestion)
    requires ss != [] && init == ss[..|ss| - 1] && s == ss[|ss| - 1] && before == ApplyAll(c, init)
    requires Subsequence(before.applied, init) && |before.applied| <= |init|
    requires ChangesMatch(before.applied, before.changes)
    ensures Subsequence(ApplyAll(c, ss).applied, ss)
    ensures |ApplyAll(c, ss).applied| <= |ss|
    ensures ChangesMatch(ApplyAll(c, ss).applied, ApplyAll(c, ss).changes)
  {
    var change := ApplyOne(before.config, s).1;
    if change.Some? {
      ApplyOneChange(before.config, s);
      SubsequenceSnoc(before.applied, ss);
      ChangesSnoc(before.applied, before.changes, s, change.value);
    } else {
      SubsequenceSkip(before.applied, ss);
    }
  }

  /** A recorded change is for the suggestion's agent and changes its prompt. */
  lemma ApplyOneChange(c: Config, s: PromptSuggestion)
    requires ApplyOne(c, s).1.Some?
    ensures ApplyOne(c, s).1.value.agentId == s.agentId
    ensures ApplyOne(c, s).1.value.oldPrompt != ApplyOne(c, s).1.value.newPrompt
  {
  }

  lemma SubsequenceSnoc<T>(xs: seq<T>, ys: seq<T>)
    requires ys != [] && Subsequence(xs, ys[..|ys| - 1])
    ensures Subsequence(xs + [ys[|ys| - 1]], ys)
  {
    var a := xs + [ys[|ys| - 1]];
    assert a[..|a| - 1] == xs;
  }

  lemma SubsequenceSkip<T>(xs: seq<T>, ys: seq<T>)
    requires ys != [] && Subsequence(xs, ys[..|ys| - 1])
    ensures Subsequence(xs, ys)
  {
  }

  lemma ChangesSnoc(applied: seq<PromptSuggestion>, changes: seq<Change>, s: PromptSuggestion, ch: Change)
    requires ChangesMatch(applied, changes)
    requires ch.agentId == s.agentId && ch.oldPrompt != ch.newPrompt
    ensures ChangesMatch(applied + [s], changes + [ch])
  {
  }

  /**
   * For an agent named exactly once, in a tree whose prompts can be read and
   * which the update walks to the agent without raising, a suggestion is
   * applied exactly when its prompt differs from the agent's current
   * prompt, and it then becomes that agent's prompt.
   */
  lemma ApplyOneNamedOnce(c: Config, s: PromptSuggestion)
    requires NamedOnce(c, s.agentId) && !ExtractRaises(c) && !UpdateRaises(c, s.agentId)
    ensures var (next, change) := ApplyOne(c, s);
      && PromptOr(ExtractAgentPrompts(next), s.agentId) == s.newPrompt
      && (change.Some? <==> PromptOr(ExtractAgentPrompts(c), s.agentId) != s.newPrompt)
  {
    UpdateThenExtract(c, s.agentId, s.newPrompt);
  }

  /** When reading the prompts raises, every suggestion is skipped and nothing changes. */
  lemma {:induction false} ApplyAllUnreadable(c: Config, ss: seq<PromptSuggestion>)
    requires ExtractRaises(c)
    ensures ApplyAll(c, ss) == Applied(c, [], [])
  {
    if ss != [] {
      ApplyAllUnreadable(c, ss[..|ss| - 1]);
    }
  }

  /** A suggestion for an agent the configuration does not contain is never applied and changes nothing. */
  lemma ApplyOneMissing(c: Config, s: PromptSuggestion)
    requires !HasNamed(c, s.agentId)
    ensures ApplyOne(c, s) == (c, None)
  {
    UpdateNodeSpec(c, s.agentId, s.newPrompt);
  }

  /** Applying the suggestions up to `ss[i]` is applying `ss[i]` after the ones before it. */
  lemma ApplyAllNext(c: Config, ss: seq<PromptSuggestion>, i: nat)
    requires i < |ss|
    ensures var before := ApplyAll(c, ss[..i]);
      var (next, change) := ApplyOne(before.config, ss[i]);
      ApplyAll(c, ss[..i + 1]) ==
        if change.Some? then Applied(next, before.applied + [ss[i]], before.changes + [change.value])
        else Applied(next, before.applied, before.changes)
  {
    assert ss[..i + 1][..i] == ss[..i];
  }

  /** A suggestion on a tree that reads and updates without raising: the update, and the change if the prompt differs. */
  lemma ApplyOneReads(c: Config, s: PromptSuggestion)
    requires !ExtractRaises(c) && !UpdateRaises(c, s.agentId)
    ensures var next := UpdateAgentPrompt(c, s.agentId, s.newPrompt);
      var oldPrompt := PromptOr(ExtractAgentPrompts(c), s.agentId);
      var newPrompt := PromptOr(ExtractAgentPrompts(next), s.agentId);
      ApplyOne(c, s) == (next, if newPrompt != oldPrompt then Some(Change(s.agentId, oldPrompt, newPrompt, s.reason, s.confidence)) else None)
  {
  }

  /** The suggestion updater with its history of applications. */
  class PromptUpdater {
    var updateHistory: seq<UpdateRecord>

    constructor ()
      ensures updateHistory == []
    {
      updateHistory := [];
    }

    /**
     * `PromptUpdater.apply_suggestions`: applies the considered suggestions
     * in order to a copy of the configuration and appends one history entry
     * recording how many were considered and how many were applied.
     */
    method ApplySuggestions(agentConfig: Config, suggestions: seq<PromptSuggestion>, maxSuggestions: Option<int>)
      returns (updated: Config, applied: seq<PromptSuggestion>)
      modifies this
      ensures var considered := Considered(suggestions, maxSuggestions);
        var outcome := ApplyAll(agentConfig, considered);
        && updated == outcome.config
        && applied == outcome.applied
        && updateHistory == old(updateHistory) + [UpdateRecord(outcome.changes, |considered|, |applied|)]
    {
      updated := agentConfig;
      applied := [];
      var considered := Considered(suggestions, maxSuggestions);
      var changes: seq<Change> := [];
      var i := 0;
      while i < |considered|
        invariant 0 <= i <= |considered|
        invariant Applied(updated, applied, changes) == ApplyAll(agentConfig, considered[..i])
        invariant updateHistory == old(updateHistory)
      {
        var s := considered[i];
        ApplyAllNext(agentConfig, considered, i);
        if ExtractRaises(updated) || UpdateRaises(updated, s.agentId) {
          // reading the prompts or the update raises; the handler skips the suggestion
          i := i + 1;
          continue;
        }
        ApplyOneReads(updated, s);
        var oldPrompt := PromptOr(ExtractAgentPrompts(updated), s.agentId);
        updated := UpdateAgentPrompt(updated, s.agentId, s.newPrompt);
        var newPrompt := PromptOr(ExtractAgentPrompts(updated), s.agentId);
        if newPrompt != oldPrompt {
          applied := applied + [s];
          changes := changes + [Change(s.agentId, oldPrompt, newPrompt, s.reason, s.confidence)];
        }
        i := i + 1;
      }
      assert considered[..|considered|] == considered;
      updateHistory := updateHistory + [UpdateRecord(changes, |considered|, |applied|)];
    }
  }

  // ---------------------------------------------------------------------
  // Validation
  // ---------------------------------------------------------------------

  /** The value handed to `validate_configuration`: an agent dictionary or something else. */
  datatype Candidate = DictValue(config: Config) | NonDictValue

  /** "Missing required field" errors for the root, in the order name, class, module. */
  function RequiredFieldErrors(c: Config): (r: seq<string>)
    ensures r == [] <==> c.name.Some? && c.agentClass.Some? && c.agentModule.Some?
  {
    (if c.name.None? then ["Missing required field: name"] else []) +
    (if c.agentClass.None? then ["Missing required field: class"] else []) +
    (if c.agentModule.None? then ["Missing required field: module"] else [])
  }

  /** `_validate_agent_structure`: errors for one node, then for its sub-agents in order. */
  function StructureErrors(c: Config, path: string): seq<string>
    decreases c, 1
  {
    var own :=
      (if c.name.Some? && c.agentClass.None? then ["Agent " + path + " missing 'class' field"] else []) +
      (if c.name.Some? && c.agentModule.None? then ["Agent " + path + " missing 'module' field"] else []);
    match c.subAgents
    case NotAList(_) => own + ["sub_agents at " + path + " must be a list"]
    case Agents(list) => own + StructureErrorsAll(list, path, 0)
    case Absent => own
  }

  function StructureErrorsAll(cs: seq<Config>, path: string, start: nat): seq<string>
    decreases cs, 0
  {
    if cs == [] then []
    else
      StructureErrors(cs[0], path + ".sub_agents[" + Text.NatToString(start) + "]")
      + StructureErrorsAll(cs[1..], path, start + 1)
  }

  /** A node is structurally sound: named nodes carry `class` and `module`, `sub_agents` is a list when present. */
  predicate SoundNode(c: Config)
  {
    (c.name.Some? ==> c.agentClass.Some? && c.agentModule.Some?) && !c.subAgents.NotAList?
  }

  /** Every node of a list is sound. */
  predicate AllSound(nodes: seq<Config>)
  {
    forall i :: 0 <= i < |nodes| ==> SoundNode(nodes[i])
  }

  lemma AllSoundAppend(xs: seq<Config>, ys: seq<Config>)
    ensures AllSound(xs + ys) <==> AllSound(xs) && AllSound(ys)
  {
    if AllSound(xs + ys) {
      forall i | 0 <= i < |xs| ensures SoundNode(xs[i]) { assert (xs + ys)[i] == xs[i]; }
      forall i | 0 <= i < |ys| ensures SoundNode(ys[i]) { assert (xs + ys)[|xs| + i] == ys[i]; }
    }
  }

  /** The structure check finds nothing exactly when every node of the tree is sound. */
  lemma {:induction false} StructureErrorsSpec(c: Config, path: string)
    ensures StructureErrors(c, path) == [] <==> AllSound(Flatten(c))
    decreases c, 1
  {
    match c.subAgents
    case Agents(list) =>
      StructureErrorsAllSpec(list, path, 0);
      AllSoundAppend([c], FlattenAll(list));
    case Absent =>
    case NotAList(_) =>
  }

  lemma {:induction false} StructureErrorsAllSpec(cs: seq<Config>, path: string, start: nat)
    ensures StructureErrorsAll(cs, path, start) == [] <==> AllSound(FlattenAll(cs))
    decreases cs, 0
  {
    if cs != [] {
      StructureErrorsSpec(cs[0], path + ".sub_agents[" + Text.NatToString(start) + "]");
      StructureErrorsAllSpec(cs[1..], path, start + 1);
      AllSoundAppend(Flatten(cs[0]), FlattenAll(cs[1..]));
    }
  }

  /** The prompt names in the order the extracted dictionary keeps them: first insertion. */
  function PromptKeyOrder(ls: seq<Label>): (r: seq<string>)
    ensures forall k :: k in r <==> k in CollectPrompts(ls)
  {
    if ls == [] then []
    else
      var init := PromptKeyOrder(ls[..|ls| - 1]);
      var l := ls[|ls| - 1];
      if l.fields.name.Some? && l.fields.instruction.Some? && l.fields.name.value !in init then
        init + [l.fields.name.value]
      else init
  }

  /** "Empty prompt" errors for the extracted prompts that are empty or whitespace. */
  function EmptyPromptErrors(keys: seq<string>, prompts: map<string, string>): (r: seq<string>)
    requires forall k :: k in keys ==> k in prompts
    ensures r == [] <==> forall k :: k in keys ==> Text.Strip(prompts[k]) != ""
  {
    if keys == [] then []
    else
      var k := keys[0];
      (if Text.Strip(prompts[k]) == "" then ["Empty prompt for agent: " + k] else [])
      + EmptyPromptErrors(keys[1..], prompts)
  }

  /** `agent_dict.get('name', 'unnamed')`. */
  function NameOrUnnamed(c: Config): string
  {
    c.name.GetOr("unnamed")
  }

  /** The errors the circular-reference check appended, and the message of the exception that ended it, if any. */
  datatype Checked = Checked(errors: seq<string>, raised: Option<string>)

  /** The message of the exception visiting a node with this `sub_agents` shape raises in the check, which `.get`s each item. */
  function GetRaiseMessage(v: NonListValue): string
  {
    if Iterable(v) then StrGetText else NotIterableText(v)
  }

  /**
   * `_check_circular_references`: a node whose name is already on the
   * current path is reported with the path leading to it and not descended
   * into; `visited` holds the names on the path. A `sub_agents` value the
   * loop cannot iterate, or whose first item is a string, raises, which ends
   * the whole check with the errors appended so far.
   */
  function CircularCheck(c: Config, path: seq<string>, visited: set<string>): Checked
    decreases c, 1
  {
    var name := NameOrUnnamed(c);
    if name in visited then Checked(["Circular reference detected: " + Text.Join(path + [name], " -> ")], None)
    else
      match c.subAgents
      case Agents(list) => CircularCheckAll(list, path + [name], visited + {name})
      case NotAList(v) => if UpdateRaisesAt(NonListKind(v)) then Checked([], Some(GetRaiseMessage(v))) else Checked([], None)
      case Absent => Checked([], None)
  }

  function CircularCheckAll(cs: seq<Config>, path: seq<string>, visited: set<string>): Checked
    decreases cs, 0
  {
    if cs == [] then Checked([], None)
    else
      var first := CircularCheck(cs[0], path, visited);
      if first.raised.Some? then first
      else
        var rest := CircularCheckAll(cs[1..], path, visited);
        Checked(first.errors + rest.errors, rest.raised)
  }

  /** On a tree whose every `sub_agents` value is a list or missing, the check never raises. */
  lemma {:induction false} CircularCheckSound(c: Config, path: seq<string>, visited: set<string>)
    requires AllSound(Flatten(c))
    ensures CircularCheck(c, path, visited).raised.None?
    decreases c, 1
  {
    match c.subAgents
    case Agents(list) =>
      AllSoundAppend([c], FlattenAll(list));
      if NameOrUnnamed(c) !in visited {
        CircularCheckAllSound(list, path + [NameOrUnnamed(c)], visited + {NameOrUnnamed(c)});
      }
    case Absent =>
    case NotAList(_) =>
  }

  lemma {:induction false} CircularCheckAllSound(cs: seq<Config>, path: seq<string>, visited: set<string>)
    requires AllSound(FlattenAll(cs))
    ensures CircularCheckAll(cs, path, visited).raised.None?
    decreases cs, 0
  {
    if cs != [] {
      AllSoundAppend(Flatten(cs[0]), FlattenAll(cs[1..]));
      CircularCheckSound(cs[0], path, visited);
      CircularCheckAllSound(cs[1..], path, visited);
    }
  }

  /** The names along every root-to-node path of the tree, one path per node. */
  function NamePaths(c: Config): seq<seq<string>>
    decreases c, 1
  {
    var below := match c.subAgents
      case Agents(list) => NamePathsAll(list)
      case _ => [];
    [[NameOrUnnamed(c)]] + Prefixed(NameOrUnnamed(c), below)
  }

  function NamePathsAll(cs: seq<Config>): seq<seq<string>>
    decreases cs, 0
  {
    if cs == [] then [] else NamePaths(cs[0]) + NamePathsAll(cs[1..])
  }

  function Prefixed(name: string, ps: seq<seq<string>>): (r: seq<seq<string>>)
    ensures |r| == |ps| && forall i :: 0 <= i < |ps| ==> r[i] == [name] + ps[i]
  {
    seq(|ps|, i requires 0 <= i < |ps| => [name] + ps[i])
  }

  predicate Distinct(names: seq<string>)
  {
    forall i, j :: 0 <= i < j < |names| ==> names[i] != names[j]
  }

  /** No name repeats along any path that starts with `path`. */
  predicate PathsDistinct(path: seq<string>, ps: seq<seq<string>>)
  {
    forall i :: 0 <= i < |ps| ==> Distinct(path + ps[i])
  }

  lemma PathsDistinctAppend(path: seq<string>, xs: seq<seq<string>>, ys: seq<seq<string>>)
    ensures PathsDistinct(path, xs + ys) <==> PathsDistinct(path, xs) && PathsDistinct(path, ys)
  {
    if PathsDistinct(path, xs) && PathsDistinct(path, ys) {
      forall i | 0 <= i < |xs + ys| ensures Distinct(path + (xs + ys)[i]) {
        if i >= |xs| { assert (xs + ys)[i] == ys[i - |xs|]; }
      }
    }
    if PathsDistinct(path, xs + ys) {
      forall i | 0 <= i < |xs| ensures Distinct(path + xs[i]) {
        assert (xs + ys)[i] == xs[i];
      }
      forall i | 0 <= i < |ys| ensures Distinct(path + ys[i]) {
        assert (xs + ys)[|xs| + i] == ys[i];
      }
    }
  }

  lemma PathsDistinctPrefixed(path: seq<string>, name: string, ps: seq<seq<string>>)
    ensures PathsDistinct(path, Prefixed(name, ps)) <==> PathsDistinct(path + [name], ps)
  {
    forall i | 0 <= i < |ps| ensures path + Prefixed(name, ps)[i] == (path + [name]) + ps[i] { }
  }

  /**
   * With `visited` the names on a path whose names are distinct, a check
   * that does not raise reports nothing exactly when no name repeats along
   * any path from the root to a node of the tree.
   */
  lemma {:induction false} CircularCheckSpec(c: Config, path: seq<string>, visited: set<string>)
    requires Distinct(path) && visited == set n | n in path
    requires CircularCheck(c, path, visited).raised.None?
    ensures CircularCheck(c, path, visited).errors == [] <==> PathsDistinct(path, NamePaths(c))
    decreases c, 1
  {
    var name := NameOrUnnamed(c);
    var rest := match c.subAgents
      case Agents(list) => NamePathsAll(list)
      case _ => [];
    PathsDistinctAppend(path, [[name]], Prefixed(name, rest));
    PathsDistinctPrefixed(path, name, rest);
    if name in visited {
      var j :| 0 <= j < |path| && path[j] == name;
      assert (path + [name])[j] == (path + [name])[|path|];
      assert [[name]][0] == [name];
      assert !Distinct(path + [[name]][0]);
    } else {
      assert Distinct(path + [name]);
      assert visited + {name} == set n | n in path + [name];
      assert PathsDistinct(path, [[name]]);
      match c.subAgents {
        case Agents(list) => CircularCheckAllSpec(list, path + [name], visited + {name});
        case Absent =>
        case NotAList(_) =>
      }
    }
  }

  lemma {:induction false} CircularCheckAllSpec(cs: seq<Config>, path: seq<string>, visited: set<string>)
    requires Distinct(path) && visited == set n | n in path
    requires CircularCheckAll(cs, path, visited).raised.None?
    ensures CircularCheckAll(cs, path, visited).errors == [] <==> PathsDistinct(path, NamePathsAll(cs))
    decreases cs, 0
  {
    if cs != [] {
      CircularCheckSpec(cs[0], path, visited);
      CircularCheckAllSpec(cs[1..], path, visited);
      PathsDistinctAppend(path, NamePaths(cs[0]), NamePathsAll(cs[1..]));
    }
  }

  /**
   * `PromptUpdater.validate_configuration`: validity and the errors found;
   * valid exactly when there are no errors. An exception inside the checks
   * ends them; the handler appends its message to the errors found so far.
   */
  function ValidateConfiguration(candidate: Candidate): (r: (bool, seq<string>))
    ensures r.0 <==> r.1 == []
    ensures candidate.NonDictValue? ==> r == (false, ["Configuration must be a dictionary"])
    ensures candidate.DictValue? && ExtractRaises(candidate.config) ==>
      r.1 == RequiredFieldErrors(candidate.config) + StructureErrors(candidate.config, "root")
        + ["Configuration validation error: " + ExtractRaiseMessage(candidate.config)]
  {
    match candidate
    case NonDictValue => (false, ["Configuration must be a dictionary"])
    case DictValue(c) =>
      var found := RequiredFieldErrors(c) + StructureErrors(c, "root");
      if ExtractRaises(c) then
        // `extract_agent_prompts` raises; the empty-prompt and circular checks never run
        (false, found + ["Configuration validation error: " + ExtractRaiseMessage(c)])
      else
      var prompts := ExtractAgentPrompts(c);
      var circular := CircularCheck(c, [], {});
      var errors :=
        found
        + EmptyPromptErrors(PromptKeyOrder(Labels(c)), prompts)
        + circular.errors
        + (if circular.raised.Some? then ["Configuration validation error: " + circular.raised.value] else []);
      (errors == [], errors)
  }

  /** Every structural condition the validator enforces on an agent dictionary. */
  predicate WellFormedConfig(c: Config)
  {
    && c.name.Some? && c.agentClass.Some? && c.agentModule.Some?
    && AllSound(Flatten(c))
    && (forall k :: k in ExtractAgentPrompts(c) ==> Text.Strip(ExtractAgentPrompts(c)[k]) != "")
    && PathsDistinct([], NamePaths(c))
  }

  /**
   * A dictionary is accepted exactly when the root has `name`, `class` and
   * `module`, every node is sound, no extracted prompt is blank, and no
   * name repeats along a path from the root.
   */
  lemma ValidateConfigurationSpec(c: Config)
    ensures ValidateConfiguration(DictValue(c)).0 <==> WellFormedConfig(c)
  {
    StructureErrorsSpec(c, "root");
    if ExtractRaises(c) {
      UnreadableUnsound(c);
    } else if AllSound(Flatten(c)) {
      CircularCheckSound(c, [], {});
      assert {} == set n: string | n in [];
      CircularCheckSpec(c, [], {});
    }
  }

  /** A tree whose prompts cannot be read has a node whose `sub_agents` is not a list. */
  lemma UnreadableUnsound(c: Config)
    requires ExtractRaises(c)
    ensures !AllSound(Flatten(c))
  {
    var k := FirstRaise(Labels(c), Extracting);
    assert Labels(c)[k] == LabelOf(Flatten(c)[k]);
    assert !SoundNode(Flatten(c)[k]);
  }

  /** `PromptUpdater.get_prompt_diff`: every agent whose prompt differs, a missing prompt read as "". */
  function GetPromptDiff(oldConfig: Config, newConfig: Config): map<string, (string, string)>
  {
    var before := ExtractAgentPrompts(oldConfig);
    var after := ExtractAgentPrompts(newConfig);
    map id | id in before.Keys + after.Keys && PromptOr(before, id) != PromptOr(after, id)
      :: (PromptOr(before, id), PromptOr(after, id))
  }

  /** Comparing a configuration with itself finds no difference. */
  lemma PromptDiffSelf(c: Config)
    ensures GetPromptDiff(c, c) == map[]
  {
  }

  /**
   * After setting a new prompt for the one agent named `id`, the difference
   * is exactly that agent, from its old prompt (or "") to the new one.
   */
  lemma PromptDiffAfterUpdate(c: Config, id: string, prompt: string)
    requires NamedOnce(c, id)
    requires PromptOr(ExtractAgentPrompts(c), id) != prompt
    ensures GetPromptDiff(c, UpdateAgentPrompt(c, id, prompt)) ==
      map[id := (PromptOr(ExtractAgentPrompts(c), id), prompt)]
  {
    UpdateThenExtract(c, id, prompt);
  }
}
