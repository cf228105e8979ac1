/**
 * The agent configuration dictionary shared by the optimizer and the
 * framework utilities: a tree of agent dictionaries whose keys may be absent,
 * linked through `sub_agents`.
 */
module AgentConfig {
  import opened Wrappers
  import opened Json

  /** A value whose Python type the validators coerce (`max_iterations`): an int, a bool, a float, a text or anything else. */
  datatype Scalar = IntValue(i: int) | BoolValue(b: bool) | FloatValue(x: real) | TextValue(s: string) | OtherValue

  /**
   * One entry of an agent's `tools` list: a tool dictionary, a string, or any
   * other object, known by the name of the function it wraps (if any) and its
   * type name.
   */
  datatype Tool =
    | ToolDict(functionName: Option<string>, functionModule: Option<string>,
               toolClass: Option<string>, toolModule: Option<string>, agent: Option<Config>)
    | ToolObject(funcName: Option<string>, typeName: string)
    | ToolText(text: string)

  /** A `sub_agents` value that is present but not a list: None, a boolean, a number, a string or a dictionary. */
  type NonListValue = v: Json | !v.JArray? witness JNull

  /** The `sub_agents` key: missing, a list of agent dictionaries, or a value that is not a list. */
  datatype SubAgents = Absent | Agents(list: seq<Config>) | NotAList(value: NonListValue)

  /** An agent dictionary; `None` stands for a missing key, and a missing or empty `tools` for no tools. */
  datatype Config = Config(
    name: Option<string>,
    agentClass: Option<string>,
    agentModule: Option<string>,
    instruction: Option<string>,
    description: Option<string>,
    globalInstruction: Option<string>,
    model: Option<string>,
    outputKey: Option<string>,
    maxIterations: Option<Scalar>,
    tools: seq<Tool>,
    subAgents: SubAgents)

  /** An agent dictionary with every key missing. */
  function EmptyConfig(): Config
  {
    Config(None, None, None, None, None, None, None, None, None, [], Absent)
  }

  /**
   * The sub-agents a traversal visits. A `sub_agents` value that is not a
   * list contributes no agents here: a loop over it either raises (None, a
   * boolean or a number, see `Traversable`) or yields strings, the
   * characters of a string or the keys of a dictionary, which each walk
   * treats in its own way.
   */
  function Children(c: Config): (r: seq<Config>)
    ensures forall i :: 0 <= i < |r| ==> r[i] < c
  {
    match c.subAgents
    case Agents(list) => list
    case _ => []
  }

  /** Every agent dictionary of the tree in pre-order: the node, then each sub-agent's tree left to right. */
  function Flatten(c: Config): (r: seq<Config>)
    ensures |r| >= 1 && r[0] == c
    decreases c, 1
  {
    match c.subAgents
    case Agents(list) => [c] + FlattenAll(list)
    case _ => [c]
  }

  /** The pre-order of a list of trees, one after the other. */
  function FlattenAll(cs: seq<Config>): seq<Config>
    decreases cs, 0
  {
    if cs == [] then [] else Flatten(cs[0]) + FlattenAll(cs[1..])
  }

  lemma {:induction false} FlattenAllAppend(cs: seq<Config>, ds: seq<Config>)
    ensures FlattenAll(cs + ds) == FlattenAll(cs) + FlattenAll(ds)
    decreases |cs|
  {
    if cs == [] {
      assert cs + ds == ds;
    } else {
      assert (cs + ds)[1..] == cs[1..] + ds;
      FlattenAllAppend(cs[1..], ds);
    }
  }

  /** A loop over the node's `sub_agents` raises `TypeError`: the value is None, a boolean or a number. */
  predicate IterationRaises(c: Config)
  {
    c.subAgents.NotAList? && !Iterable(c.subAgents.value)
  }

  /**
   * A loop over `sub_agents` at every node of the tree goes through: no
   * node holds None, a boolean or a number there. A walk that iterates
   * every node's `sub_agents` raises on a tree that is not traversable.
   */
  predicate Traversable(c: Config)
    decreases c, 1
  {
    match c.subAgents
    case Absent => true
    case NotAList(v) => Iterable(v)
    case Agents(list) => TraversableAll(list)
  }

  predicate TraversableAll(cs: seq<Config>)
    decreases cs, 0
  {
    forall i :: 0 <= i < |cs| ==> Traversable(cs[i])
  }

  /** No node of the list holds a `sub_agents` value a loop raises on. */
  predicate IterablesOnly(nodes: seq<Config>)
  {
    forall i :: 0 <= i < |nodes| ==> !IterationRaises(nodes[i])
  }

  lemma IterablesOnlyAppend(xs: seq<Config>, ys: seq<Config>)
    ensures IterablesOnly(xs + ys) <==> IterablesOnly(xs) && IterablesOnly(ys)
  {
    if IterablesOnly(xs + ys) {
      forall i | 0 <= i < |xs| ensures !IterationRaises(xs[i]) { assert (xs + ys)[i] == xs[i]; }
      forall i | 0 <= i < |ys| ensures !IterationRaises(ys[i]) { assert (xs + ys)[|xs| + i] == ys[i]; }
    }
  }

  /** A tree is traversable exactly when none of the nodes of its pre-order holds None, a boolean or a number as `sub_agents`. */
  lemma {:induction false} TraversableSpec(c: Config)
    ensures Traversable(c) <==> IterablesOnly(Flatten(c))
    decreases c, 1
  {
    match c.subAgents
    case Agents(list) =>
      TraversableAllSpec(list);
      IterablesOnlyAppend([c], FlattenAll(list));
    case Absent =>
    case NotAList(_) =>
  }

  lemma {:induction false} TraversableAllSpec(cs: seq<Config>)
    ensures TraversableAll(cs) <==> IterablesOnly(FlattenAll(cs))
    decreases cs, 0
  {
    if cs != [] {
      TraversableSpec(cs[0]);
      TraversableAllSpec(cs[1..]);
      IterablesOnlyAppend(Flatten(cs[0]), FlattenAll(cs[1..]));
      assert TraversableAll(cs) <==> Traversable(cs[0]) && TraversableAll(cs[1..]) by {
        if Traversable(cs[0]) && TraversableAll(cs[1..]) {
          forall i | 0 <= i < |cs| ensures Traversable(cs[i]) {
            if i > 0 { assert cs[i] == cs[1..][i - 1]; }
          }
        }
      }
    }
  }

  /** The number of agent dictionaries in the tree. */
  function NodeCount(c: Config): nat
  {
    |Flatten(c)|
  }

  /** The shape of a node's `sub_agents` key, without the sub-agents themselves. */
  datatype Kind = NoKey | ListOf(count: nat) | NonListKind(value: NonListValue)

  function KindOf(s: SubAgents): Kind
  {
    match s
    case Absent => NoKey
    case Agents(l) => ListOf(|l|)
    case NotAList(v) => NonListKind(v)
  }

  /** Everything a node holds apart from its sub-agents, plus how many it has. */
  datatype Label = Label(fields: Config, kind: Kind)

  function LabelOf(c: Config): Label
  {
    Label(c.(subAgents := Absent), KindOf(c.subAgents))
  }

  function LabelsOf(nodes: seq<Config>): (r: seq<Label>)
    ensures |r| == |nodes|
    ensures forall i :: 0 <= i < |nodes| ==> r[i] == LabelOf(nodes[i])
  {
    seq(|nodes|, i requires 0 <= i < |nodes| => LabelOf(nodes[i]))
  }

  /** The labels of a tree in pre-order; they determine the tree. */
  function Labels(c: Config): seq<Label>
  {
    LabelsOf(Flatten(c))
  }

  /** The index of the first node named `id`, or the number of nodes when there is none. */
  function FirstNamed(nodes: seq<Config>, id: string): (k: nat)
    ensures k <= |nodes|
    ensures k < |nodes| ==> nodes[k].name == Some(id)
    ensures forall j :: 0 <= j < k ==> nodes[j].name != Some(id)
  {
    if nodes == [] then 0
    else if nodes[0].name == Some(id) then 0
    else 1 + FirstNamed(nodes[1..], id)
  }

  lemma {:induction false} FirstNamedAppend(xs: seq<Config>, ys: seq<Config>, id: string)
    ensures FirstNamed(xs + ys, id) ==
      if FirstNamed(xs, id) < |xs| then FirstNamed(xs, id) else |xs| + FirstNamed(ys, id)
    decreases |xs|
  {
    if xs == [] {
      assert xs + ys == ys;
    } else {
      assert (xs + ys)[1..] == xs[1..] + ys;
      FirstNamedAppend(xs[1..], ys, id);
    }
  }

  /** Whether some node of the tree is named `id`. */
  predicate HasNamed(c: Config, id: string)
  {
    FirstNamed(Flatten(c), id) < NodeCount(c)
  }

  /** The depth of the tree: 1 for a node without sub-agents. */
  function Depth(c: Config): (d: nat)
    ensures d >= 1
    decreases c, 1
  {
    match c.subAgents
    case Agents(list) => 1 + MaxDepth(list)
    case _ => 1
  }

  function MaxDepth(cs: seq<Config>): nat
    decreases cs, 0
  {
    if cs == [] then 0
    else
      var h := Depth(cs[0]);
      var t := MaxDepth(cs[1..]);
      if h >= t then h else t
  }
}
