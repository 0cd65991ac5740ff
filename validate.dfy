/**
 * Validation of a resolved dataflow descriptor before it is spawned: every
 * node and operator source must be found, every input must be mapped to an
 * output that exists, every node's `send_stdout_as` must resolve, and the
 * Python runtime must be usable when some operator is written in Python.
 *
 * What the real code asks of the filesystem, of URL parsing and of the Python
 * installation is an `Environment` of oracles.
 */
module Validate {
  import opened Wrappers

  type NodeId = string
  type OperatorId = string
  type DataId = string

  /** Where an input's messages come from. */
  datatype InputMapping =
    | Timer(intervalMillis: nat)
    | User(source: NodeId, output: DataId)

  /** One `(input_id, input)` entry of a node's inputs, in the map's iteration order. */
  datatype InputEntry = InputEntry(id: DataId, mapping: InputMapping)

  datatype OperatorSource =
    | SharedLibrary(path: string)
    | Python(source: string)
    | Wasm(path: string)

  datatype OperatorConfig = OperatorConfig(inputs: seq<InputEntry>, outputs: set<DataId>, source: OperatorSource)

  datatype OperatorDefinition = OperatorDefinition(id: OperatorId, config: OperatorConfig)

  /** A custom node: its `source` and its `run_config` inputs and outputs. */
  datatype CustomNode = CustomNode(source: string, inputs: seq<InputEntry>, outputs: set<DataId>)

  datatype CoreNodeKind =
    | Custom(custom: CustomNode)
    | Runtime(operators: seq<OperatorDefinition>)

  /** A node after aliases are resolved: its id, the machine it is deployed on, and its kind. */
  datatype ResolvedNode = ResolvedNode(id: NodeId, machine: string, kind: CoreNodeKind)

  /** The custom-node sources that run a shell command or are dynamic nodes. */
  const ShellSource: string := "shell"
  const DynamicSource: string := "dynamic"

  /**
   * The oracles the checks consult:
   * `urls` the sources `source_is_url` accepts; `resolvable` the custom-node
   * sources `resolve_path` finds from the working directory; `adjusted` the
   * result of `adjust_shared_library_path` for each library path it accepts;
   * `existing` the paths that exist when joined to the working directory;
   * `absolute` the sources whose `source_to_path` is an absolute path;
   * `stdoutResolvable` the nodes whose `send_stdout_as` resolves;
   * `pythonRuntimeOk` whether `check_python_runtime` succeeds.
   */
  datatype Environment = Environment(
    urls: set<string>,
    resolvable: set<string>,
    adjusted: map<string, string>,
    existing: set<string>,
    absolute: set<string>,
    stdoutResolvable: set<NodeId>,
    pythonRuntimeOk: bool)

  /** The reasons `check_dataflow` gives for rejecting a dataflow. */
  datatype CheckError =
    | SourceNotFound(source: string)
    | RemoteNodePathRelative(node: NodeId)
    | SharedLibraryPathInvalid(path: string)
    | NoSharedLibrary(path: string)
    | RemoteOperatorPathRelative(operator: OperatorId)
    | NoPythonLibrary(path: string)
    | RemotePythonOperatorPathRelative(operator: OperatorId)
    | NoWasmLibrary(path: string)
    | RemoteWasmOperatorPathRelative(operator: OperatorId)
    | SourceNodeMissing(source: NodeId, input: string)
    | OutputMissing(source: NodeId, output: DataId, input: string)
    | SourceOperatorMissing(source: NodeId, operator: OperatorId, input: string)
    | OperatorOutputMissing(source: NodeId, operator: OperatorId, output: DataId, input: string)
    | StdoutUnresolvable(node: NodeId)
    | PythonRuntimeUnusable

  // ---------------------------------------------------------------------
  // `check_input`
  // ---------------------------------------------------------------------

  /** `nodes.iter().find(|n| n.id == id)`: the first node with that id. */
  function FindNode(nodes: seq<ResolvedNode>, id: NodeId): (r: Option<ResolvedNode>)
    ensures r.None? <==> forall i | 0 <= i < |nodes| :: nodes[i].id != id
    ensures r.Some? ==> exists i | 0 <= i < |nodes| ::
      nodes[i] == r.value && r.value.id == id && forall j | 0 <= j < i :: nodes[j].id != id
  {
    if nodes == [] then None
    else if nodes[0].id == id then Some(nodes[0])
    else
      var r := FindNode(nodes[1..], id);
      assert r.Some? ==> exists i | 1 <= i < |nodes| ::
        nodes[i] == r.value && r.value.id == id && forall j | 0 <= j < i :: nodes[j].id != id by {
        if r.Some? {
          var i :| 0 <= i < |nodes[1..]| && nodes[1..][i] == r.value && r.value.id == id
            && forall j | 0 <= j < i :: nodes[1..][j].id != id;
          assert nodes[i + 1] == r.value;
          assert forall j | 0 <= j < i + 1 :: nodes[j].id != id by {
            forall j | 0 <= j < i + 1 ensures nodes[j].id != id {
              if j > 0 { assert nodes[j] == nodes[1..][j - 1]; }
            }
          }
        }
      }
      r
  }

  /** `operators.iter().find(|o| o.id == id)`: the first operator with that id. */
  function FindOperator(operators: seq<OperatorDefinition>, id: OperatorId): (r: Option<OperatorDefinition>)
    ensures r.None? <==> forall k | 0 <= k < |operators| :: operators[k].id != id
    ensures r.Some? ==> exists k | 0 <= k < |operators| ::
      operators[k] == r.value && r.value.id == id && forall j | 0 <= j < k :: operators[j].id != id
  {
    if operators == [] then None
    else if operators[0].id == id then Some(operators[0])
    else
      var r := FindOperator(operators[1..], id);
      assert r.Some? ==> exists k | 1 <= k < |operators| ::
        operators[k] == r.value && r.value.id == id && forall j | 0 <= j < k :: operators[j].id != id by {
        if r.Some? {
          var k :| 0 <= k < |operators[1..]| && operators[1..][k] == r.value && r.value.id == id
            && forall j | 0 <= j < k :: operators[1..][j].id != id;
          assert operators[k + 1] == r.value;
          assert forall j | 0 <= j < k + 1 :: operators[j].id != id by {
            forall j | 0 <= j < k + 1 ensures operators[j].id != id {
              if j > 0 { assert operators[j] == operators[1..][j - 1]; }
            }
          }
        }
      }
      r
  }

  /**
   * `s.split_once(sep).unwrap_or_default()`: the text before and after the
   * first `sep`, or two empty strings when `sep` does not occur.
   */
  function SplitOnce(s: string, sep: char): (r: (string, string))
    ensures sep in s ==> s == r.0 + [sep] + r.1 && sep !in r.0
    ensures sep !in s ==> r == ("", "")
  {
    if sep in s then
      var k := FirstIndexOf(s, sep);
      assert s == s[..k] + [sep] + s[k + 1..];
      (s[..k], s[k + 1..])
    else ("", "")
  }

  /** The position of the first `sep` in `s`. */
  function FirstIndexOf(s: string, sep: char): (k: nat)
    requires sep in s
    ensures k < |s| && s[k] == sep && sep !in s[..k]
  {
    if s[0] == sep then 0
    else
      var k := FirstIndexOf(s[1..], sep);
      assert s[..k + 1] == [s[0]] + s[1..][..k];
      k + 1
  }

  /** `check_input`: whether one input mapping names an existing output. */
  function CheckInput(mapping: InputMapping, nodes: seq<ResolvedNode>, inputIdStr: string): (r: Outcome<CheckError>)
  {
    match mapping
    case Timer(_) => Pass
    case User(source, output) =>
      match FindNode(nodes, source)
      case None => Fail(SourceNodeMissing(source, inputIdStr))
      case Some(sourceNode) =>
        match sourceNode.kind
        case Custom(custom) =>
          if output in custom.outputs then Pass else Fail(OutputMissing(source, output, inputIdStr))
        case Runtime(operators) =>
          var (operatorId, operatorOutput) := SplitOnce(output, '/');
          match FindOperator(operators, operatorId)
          case None => Fail(SourceOperatorMissing(source, operatorId, inputIdStr))
          case Some(operator) =>
            if operatorOutput in operator.config.outputs then Pass
            else Fail(OperatorOutputMissing(source, operatorId, operatorOutput, inputIdStr))
  }

  /** A timer input is always accepted. */
  lemma TimerInputAccepted(interval: nat, nodes: seq<ResolvedNode>, inputIdStr: string)
    ensures CheckInput(Timer(interval), nodes, inputIdStr) == Pass
  {
  }

  /** A user input whose source node does not exist is rejected, naming the source. */
  lemma MissingSourceNodeRejected(source: NodeId, output: DataId, nodes: seq<ResolvedNode>, inputIdStr: string)
    requires forall i | 0 <= i < |nodes| :: nodes[i].id != source
    ensures CheckInput(User(source, output), nodes, inputIdStr) == Fail(SourceNodeMissing(source, inputIdStr))
  {
  }

  /** From a custom node, an input is accepted exactly when the node declares the output. */
  lemma CustomSourceInput(source: NodeId, output: DataId, nodes: seq<ResolvedNode>, i: nat, inputIdStr: string)
    requires i < |nodes| && nodes[i].id == source && nodes[i].kind.Custom?
    requires forall j | 0 <= j < i :: nodes[j].id != source
    ensures CheckInput(User(source, output), nodes, inputIdStr) == Pass <==> output in nodes[i].kind.custom.outputs
  {
    var found := FindNode(nodes, source);
    var k :| 0 <= k < |nodes| && nodes[k] == found.value && found.value.id == source
      && forall j | 0 <= j < k :: nodes[j].id != source;
    assert k == i;
  }

  /**
   * From a runtime node, the output is read as `operator/output` split at the
   * first `/`, and is accepted exactly when the first operator with that id
   * declares that output.
   */
  lemma RuntimeSourceInput(source: NodeId, output: DataId, nodes: seq<ResolvedNode>, i: nat, inputIdStr: string)
    requires i < |nodes| && nodes[i].id == source && nodes[i].kind.Runtime?
    requires forall j | 0 <= j < i :: nodes[j].id != source
    ensures var (operatorId, operatorOutput) := SplitOnce(output, '/');
      var operators := nodes[i].kind.operators;
      CheckInput(User(source, output), nodes, inputIdStr) == Pass <==>
        exists k | 0 <= k < |operators| ::
          && operators[k].id == operatorId
          && (forall j | 0 <= j < k :: operators[j].id != operatorId)
          && operatorOutput in operators[k].config.outputs
  {
    var found := FindNode(nodes, source);
    var n :| 0 <= n < |nodes| && nodes[n] == found.value && found.value.id == source
      && forall j | 0 <= j < n :: nodes[j].id != source;
    assert n == i;
    RuntimeCheckInput(source, output, nodes, i, inputIdStr);
    var (operatorId, operatorOutput) := SplitOnce(output, '/');
    var operators := nodes[i].kind.operators;
    var op := FindOperator(operators, operatorId);
    if op.Some? {
      var k :| 0 <= k < |operators| && operators[k] == op.value && op.value.id == operatorId
        && forall j | 0 <= j < k :: operators[j].id != operatorId;
    }
  }

  /** The runtime branch of `check_input`, once the source node is found. */
  lemma RuntimeCheckInput(source: NodeId, output: DataId, nodes: seq<ResolvedNode>, i: nat, inputIdStr: string)
    requires i < |nodes| && FindNode(nodes, source) == Some(nodes[i]) && nodes[i].kind.Runtime?
    ensures var (operatorId, operatorOutput) := SplitOnce(output, '/');
      var op := FindOperator(nodes[i].kind.operators, operatorId);
      CheckInput(User(source, output), nodes, inputIdStr) == Pass <==> op.Some? && operatorOutput in op.value.config.outputs
  {
  }

  // ---------------------------------------------------------------------
  // Source checks
  // ---------------------------------------------------------------------

  /** The distinct machines the nodes are deployed on. */
  function Machines(nodes: seq<ResolvedNode>): set<string> {
    set i | 0 <= i < |nodes| :: nodes[i].machine
  }

  /** A dataflow is local when its nodes use at most one distinct machine. */
  predicate IsLocal(nodes: seq<ResolvedNode>) {
    |Machines(nodes)| <= 1
  }

  /** Local exactly when every two nodes are deployed on the same machine. */
  lemma IsLocalIffOneMachine(nodes: seq<ResolvedNode>)
    ensures IsLocal(nodes) <==> forall i, j | 0 <= i < |nodes| && 0 <= j < |nodes| :: nodes[i].machine == nodes[j].machine
  {
    var m := Machines(nodes);
    if forall i, j | 0 <= i < |nodes| && 0 <= j < |nodes| :: nodes[i].machine == nodes[j].machine {
      if nodes != [] {
        assert m == {nodes[0].machine};
      } else {
        assert m == {};
      }
    } else {
      var i, j :| 0 <= i < |nodes| && 0 <= j < |nodes| && nodes[i].machine != nodes[j].machine;
      assert {nodes[i].machine, nodes[j].machine} <= m;
      assert |{nodes[i].machine, nodes[j].machine}| == 2;
      SubsetCardinality({nodes[i].machine, nodes[j].machine}, m);
    }
  }

  lemma SubsetCardinality<T>(a: set<T>, b: set<T>)
    requires a <= b
    ensures |a| <= |b|
  {
    assert b == a + (b - a);
  }

  /** The source check of a custom node. */
  function CustomSourceCheck(node: ResolvedNode, source: string, local: bool, env: Environment): (r: Outcome<CheckError>) {
    if source == ShellSource || source == DynamicSource then Pass
    else if source in env.urls then Pass
    else if local then
      if source in env.resolvable then Pass else Fail(SourceNotFound(source))
    else if source !in env.absolute then Fail(RemoteNodePathRelative(node.id))
    else Pass
  }

  /** The source check of one operator of a runtime node. */
  function OperatorSourceCheck(op: OperatorDefinition, local: bool, env: Environment): (r: Outcome<CheckError>) {
    match op.config.source
    case SharedLibrary(path) =>
      if path in env.urls then Pass
      else if local then
        if path !in env.adjusted then Fail(SharedLibraryPathInvalid(path))
        else if env.adjusted[path] in env.existing then Pass
        else Fail(NoSharedLibrary(env.adjusted[path]))
      else if path !in env.absolute then Fail(RemoteOperatorPathRelative(op.id))
      else Pass
    case Python(path) =>
      if path in env.urls then Pass
      else if local then
        if path in env.existing then Pass else Fail(NoPythonLibrary(path))
      else if path !in env.absolute then Fail(RemotePythonOperatorPathRelative(op.id))
      else Pass
    case Wasm(path) =>
      if path in env.urls then Pass
      else if local then
        if path in env.existing then Pass else Fail(NoWasmLibrary(path))
      else if path !in env.absolute then Fail(RemoteWasmOperatorPathRelative(op.id))
      else Pass
  }

  /** The operators of a runtime node, checked in order until one fails. */
  function OperatorsSourceCheck(ops: seq<OperatorDefinition>, local: bool, env: Environment): (r: Outcome<CheckError>)
    decreases |ops|
  {
    if ops == [] then Pass
    else
      var r := OperatorSourceCheck(ops[0], local, env);
      if r.Fail? then r else OperatorsSourceCheck(ops[1..], local, env)
  }

  function NodeSourceCheck(node: ResolvedNode, local: bool, env: Environment): (r: Outcome<CheckError>) {
    match node.kind
    case Custom(custom) => CustomSourceCheck(node, custom.source, local, env)
    case Runtime(ops) => OperatorsSourceCheck(ops, local, env)
  }

  /** The first pass: node and operator sources, node by node, until one fails. */
  function SourcesCheck(nodes: seq<ResolvedNode>, local: bool, env: Environment): (r: Outcome<CheckError>)
    decreases |nodes|
  {
    if nodes == [] then Pass
    else
      var r := NodeSourceCheck(nodes[0], local, env);
      if r.Fail? then r else SourcesCheck(nodes[1..], local, env)
  }

  /** The first failure aborts the pass: its error is that of the first node whose check fails. */
  lemma {:induction false} SourcesCheckFirstFailure(nodes: seq<ResolvedNode>, local: bool, env: Environment)
    ensures SourcesCheck(nodes, local, env) == Pass <==> forall i | 0 <= i < |nodes| :: NodeSourceCheck(nodes[i], local, env) == Pass
    ensures SourcesCheck(nodes, local, env).Fail? ==> exists i | 0 <= i < |nodes| ::
      && NodeSourceCheck(nodes[i], local, env) == SourcesCheck(nodes, local, env)
      && forall j | 0 <= j < i :: NodeSourceCheck(nodes[j], local, env) == Pass
    decreases |nodes|
  {
    if nodes != [] {
      SourcesCheckFirstFailure(nodes[1..], local, env);
      if NodeSourceCheck(nodes[0], local, env).Pass? && SourcesCheck(nodes, local, env).Fail? {
        var i :| 0 <= i < |nodes[1..]| && NodeSourceCheck(nodes[1..][i], local, env) == SourcesCheck(nodes[1..], local, env)
          && forall j | 0 <= j < i :: NodeSourceCheck(nodes[1..][j], local, env) == Pass;
        assert NodeSourceCheck(nodes[i + 1], local, env) == SourcesCheck(nodes, local, env);
        forall j | 0 <= j < i + 1 ensures NodeSourceCheck(nodes[j], local, env) == Pass {
          if j > 0 { assert nodes[j] == nodes[1..][j - 1]; }
        }
      }
      if forall i | 0 <= i < |nodes| :: NodeSourceCheck(nodes[i], local, env) == Pass {
        assert forall i | 0 <= i < |nodes[1..]| :: nodes[1..][i] == nodes[i + 1];
      }
    }
  }

  /** Pass of every operator is exactly what the operators' pass checks. */
  lemma {:induction false} OperatorsSourceCheckAll(ops: seq<OperatorDefinition>, local: bool, env: Environment)
    ensures OperatorsSourceCheck(ops, local, env) == Pass <==> forall k | 0 <= k < |ops| :: OperatorSourceCheck(ops[k], local, env) == Pass
    decreases |ops|
  {
    if ops != [] {
      OperatorsSourceCheckAll(ops[1..], local, env);
      assert forall k | 0 <= k < |ops[1..]| :: ops[1..][k] == ops[k + 1];
    }
  }

  /** A path that is neither a URL nor absolute: rejected on a distributed deployment. */
  predicate RelativeNonUrl(path: string, env: Environment) {
    path !in env.urls && path !in env.absolute
  }

  /** The path a node or operator is loaded from, if it is checked at all. */
  function CheckedPath(source: OperatorSource): string {
    match source
    case SharedLibrary(path) => path
    case Python(path) => path
    case Wasm(path) => path
  }

  /**
   * On a distributed deployment, a custom node whose source is a relative
   * path (not a shell or dynamic source and not a URL) makes the dataflow
   * fail, and so does an operator whose library or script is at a
   * relative path.
   */
  lemma RemoteRelativePathRejected(nodes: seq<ResolvedNode>, env: Environment, i: nat)
    requires !IsLocal(nodes) && i < |nodes|
    requires match nodes[i].kind
      case Custom(c) => c.source != ShellSource && c.source != DynamicSource && RelativeNonUrl(c.source, env)
      case Runtime(ops) => exists k | 0 <= k < |ops| :: RelativeNonUrl(CheckedPath(ops[k].config.source), env)
    ensures DataflowCheck(nodes, env).Fail?
  {
    SourcesCheckFirstFailure(nodes, false, env);
    if nodes[i].kind.Runtime? {
      OperatorsSourceCheckAll(nodes[i].kind.operators, false, env);
    }
  }

  /** On a distributed deployment, an absolute path is accepted without looking at the filesystem. */
  lemma RemoteAbsolutePathAccepted(op: OperatorDefinition, node: ResolvedNode, env: Environment)
    ensures CheckedPath(op.config.source) in env.absolute ==> OperatorSourceCheck(op, false, env) == Pass
    ensures node.kind.Custom? && node.kind.custom.source in env.absolute ==> NodeSourceCheck(node, false, env) == Pass
  {
  }

  /** Environments that differ at most in what exists on the local filesystem. */
  predicate SameRemoteView(env: Environment, env': Environment) {
    env.urls == env'.urls && env.absolute == env'.absolute
  }

  /** On a distributed deployment the source pass never consults the filesystem. */
  lemma {:induction false} RemoteSourcesIgnoreFilesystem(nodes: seq<ResolvedNode>, env: Environment, env': Environment)
    requires SameRemoteView(env, env')
    ensures SourcesCheck(nodes, false, env) == SourcesCheck(nodes, false, env')
    decreases |nodes|
  {
    if nodes != [] {
      if nodes[0].kind.Runtime? {
        RemoteOperatorsIgnoreFilesystem(nodes[0].kind.operators, env, env');
      }
      RemoteSourcesIgnoreFilesystem(nodes[1..], env, env');
    }
  }

  lemma {:induction false} RemoteOperatorsIgnoreFilesystem(ops: seq<OperatorDefinition>, env: Environment, env': Environment)
    requires SameRemoteView(env, env')
    ensures OperatorsSourceCheck(ops, false, env) == OperatorsSourceCheck(ops, false, env')
    decreases |ops|
  {
    if ops != [] {
      RemoteOperatorsIgnoreFilesystem(ops[1..], env, env');
    }
  }

  /** Sources that are never checked: shell and dynamic sources, and URLs. */
  predicate Unchecked(node: ResolvedNode, env: Environment) {
    match node.kind
    case Custom(c) => c.source == ShellSource || c.source == DynamicSource || c.source in env.urls
    case Runtime(ops) => forall k | 0 <= k < |ops| :: CheckedPath(ops[k].config.source) in env.urls
  }

  /** Shell and dynamic sources are never path-checked and URL sources are accepted unchecked, locally or not. */
  lemma UncheckedSourcesPass(nodes: seq<ResolvedNode>, local: bool, env: Environment)
    requires forall i | 0 <= i < |nodes| :: Unchecked(nodes[i], env)
    ensures SourcesCheck(nodes, local, env) == Pass
  {
    forall i | 0 <= i < |nodes| ensures NodeSourceCheck(nodes[i], local, env) == Pass {
      if nodes[i].kind.Runtime? {
        OperatorsSourceCheckAll(nodes[i].kind.operators, local, env);
      }
    }
    SourcesCheckFirstFailure(nodes, local, env);
  }

  // ---------------------------------------------------------------------
  // Input, `send_stdout_as` and Python passes
  // ---------------------------------------------------------------------

  /** The inputs of one node or operator, checked in order until one fails; `prefix` starts each input's name. */
  function EntriesCheck(entries: seq<InputEntry>, nodes: seq<ResolvedNode>, prefix: string): (r: Outcome<CheckError>)
    decreases |entries|
  {
    if entries == [] then Pass
    else
      var r := CheckInput(entries[0].mapping, nodes, prefix + entries[0].id);
      if r.Fail? then r else EntriesCheck(entries[1..], nodes, prefix)
  }

  /** How an operator's input is named in error messages: `operator/node/input`. */
  function OperatorInputPrefix(op: OperatorDefinition, node: ResolvedNode): string {
    op.id + "/" + node.id + "/"
  }

  /** How a custom node's input is named in error messages: `node/input`. */
  function NodeInputPrefix(node: ResolvedNode): string {
    node.id + "/"
  }

  function OperatorsInputsCheck(ops: seq<OperatorDefinition>, node: ResolvedNode, nodes: seq<ResolvedNode>): (r: Outcome<CheckError>)
    decreases |ops|
  {
    if ops == [] then Pass
    else
      var r := EntriesCheck(ops[0].config.inputs, nodes, OperatorInputPrefix(ops[0], node));
      if r.Fail? then r else OperatorsInputsCheck(ops[1..], node, nodes)
  }

  function NodeInputsCheck(node: ResolvedNode, nodes: seq<ResolvedNode>): (r: Outcome<CheckError>) {
    match node.kind
    case Custom(custom) => EntriesCheck(custom.inputs, nodes, NodeInputPrefix(node))
    case Runtime(ops) => OperatorsInputsCheck(ops, node, nodes)
  }

  /** The second pass over `remaining`, a suffix of `nodes`. */
  function InputsCheck(remaining: seq<ResolvedNode>, nodes: seq<ResolvedNode>): (r: Outcome<CheckError>)
    decreases |remaining|
  {
    if remaining == [] then Pass
    else
      var r := NodeInputsCheck(remaining[0], nodes);
      if r.Fail? then r else InputsCheck(remaining[1..], nodes)
  }

  /** The third pass: every node's `send_stdout_as` must resolve. */
  function StdoutCheck(nodes: seq<ResolvedNode>, env: Environment): (r: Outcome<CheckError>)
    decreases |nodes|
  {
    if nodes == [] then Pass
    else if nodes[0].id !in env.stdoutResolvable then Fail(StdoutUnresolvable(nodes[0].id))
    else StdoutCheck(nodes[1..], env)
  }

  function OperatorsHavePython(ops: seq<OperatorDefinition>): bool
    decreases |ops|
  {
    ops != [] && (ops[0].config.source.Python? || OperatorsHavePython(ops[1..]))
  }

  /** Whether the first pass sees a Python operator. */
  function HasPythonOperator(nodes: seq<ResolvedNode>): bool
    decreases |nodes|
  {
    nodes != [] && ((nodes[0].kind.Runtime? && OperatorsHavePython(nodes[0].kind.operators)) || HasPythonOperator(nodes[1..]))
  }

  /** `check_dataflow`: the three passes in order, then the Python runtime if a Python operator was seen. */
  function DataflowCheck(nodes: seq<ResolvedNode>, env: Environment): (r: Outcome<CheckError>) {
    var sources := SourcesCheck(nodes, IsLocal(nodes), env);
    if sources.Fail? then sources
    else
      var inputs := InputsCheck(nodes, nodes);
      if inputs.Fail? then inputs
      else
        var stdout := StdoutCheck(nodes, env);
        if stdout.Fail? then stdout
        else if HasPythonOperator(nodes) && !env.pythonRuntimeOk then Fail(PythonRuntimeUnusable)
        else Pass
  }

  /** The inputs pass iff each passes `check_input`; on failure, the error is that of the first failing input. */
  lemma {:induction false} EntriesCheckAll(entries: seq<InputEntry>, nodes: seq<ResolvedNode>, prefix: string)
    ensures EntriesCheck(entries, nodes, prefix) == Pass <==>
      forall k | 0 <= k < |entries| :: CheckInput(entries[k].mapping, nodes, prefix + entries[k].id) == Pass
    ensures EntriesCheck(entries, nodes, prefix).Fail? ==> exists k | 0 <= k < |entries| ::
      && CheckInput(entries[k].mapping, nodes, prefix + entries[k].id) == EntriesCheck(entries, nodes, prefix)
      && forall j | 0 <= j < k :: CheckInput(entries[j].mapping, nodes, prefix + entries[j].id) == Pass
    decreases |entries|
  {
    if entries != [] {
      EntriesCheckAll(entries[1..], nodes, prefix);
      assert forall k | 0 <= k < |entries[1..]| :: entries[1..][k] == entries[k + 1];
      if CheckInput(entries[0].mapping, nodes, prefix + entries[0].id).Pass? && EntriesCheck(entries, nodes, prefix).Fail? {
        var k :| 0 <= k < |entries[1..]|
          && CheckInput(entries[1..][k].mapping, nodes, prefix + entries[1..][k].id) == EntriesCheck(entries[1..], nodes, prefix)
          && forall j | 0 <= j < k :: CheckInput(entries[1..][j].mapping, nodes, prefix + entries[1..][j].id) == Pass;
        assert CheckInput(entries[k + 1].mapping, nodes, prefix + entries[k + 1].id) == EntriesCheck(entries, nodes, prefix);
      }
    }
  }

  /** A runtime node's operators pass iff each operator's inputs pass; on failure, the error is that of the first failing operator. */
  lemma {:induction false} OperatorsInputsCheckAll(ops: seq<OperatorDefinition>, node: ResolvedNode, nodes: seq<ResolvedNode>)
    ensures OperatorsInputsCheck(ops, node, nodes) == Pass <==>
      forall k | 0 <= k < |ops| :: EntriesCheck(ops[k].config.inputs, nodes, OperatorInputPrefix(ops[k], node)) == Pass
    ensures OperatorsInputsCheck(ops, node, nodes).Fail? ==> exists k | 0 <= k < |ops| ::
      && EntriesCheck(ops[k].config.inputs, nodes, OperatorInputPrefix(ops[k], node)) == OperatorsInputsCheck(ops, node, nodes)
      && forall j | 0 <= j < k :: EntriesCheck(ops[j].config.inputs, nodes, OperatorInputPrefix(ops[j], node)) == Pass
    decreases |ops|
  {
    if ops != [] {
      OperatorsInputsCheckAll(ops[1..], node, nodes);
      assert forall k | 0 <= k < |ops[1..]| :: ops[1..][k] == ops[k + 1];
      if EntriesCheck(ops[0].config.inputs, nodes, OperatorInputPrefix(ops[0], node)).Pass? && OperatorsInputsCheck(ops, node, nodes).Fail? {
        var k :| 0 <= k < |ops[1..]|
          && EntriesCheck(ops[1..][k].config.inputs, nodes, OperatorInputPrefix(ops[1..][k], node)) == OperatorsInputsCheck(ops[1..], node, nodes)
          && forall j | 0 <= j < k :: EntriesCheck(ops[1..][j].config.inputs, nodes, OperatorInputPrefix(ops[1..][j], node)) == Pass;
        assert EntriesCheck(ops[k + 1].config.inputs, nodes, OperatorInputPrefix(ops[k + 1], node)) == OperatorsInputsCheck(ops, node, nodes);
      }
    }
  }

  /** The input pass succeeds iff every node's inputs pass; on failure, the error is that of the first failing node. */
  lemma {:induction false} InputsCheckAll(remaining: seq<ResolvedNode>, nodes: seq<ResolvedNode>)
    ensures InputsCheck(remaining, nodes) == Pass <==> forall i | 0 <= i < |remaining| :: NodeInputsCheck(remaining[i], nodes) == Pass
    ensures InputsCheck(remaining, nodes).Fail? ==> exists i | 0 <= i < |remaining| ::
      && NodeInputsCheck(remaining[i], nodes) == InputsCheck(remaining, nodes)
      && forall j | 0 <= j < i :: NodeInputsCheck(remaining[j], nodes) == Pass
    decreases |remaining|
  {
    if remaining != [] {
      InputsCheckAll(remaining[1..], nodes);
      assert forall i | 0 <= i < |remaining[1..]| :: remaining[1..][i] == remaining[i + 1];
      if NodeInputsCheck(remaining[0], nodes).Pass? && InputsCheck(remaining, nodes).Fail? {
        var i :| 0 <= i < |remaining[1..]|
          && NodeInputsCheck(remaining[1..][i], nodes) == InputsCheck(remaining[1..], nodes)
          && forall j | 0 <= j < i :: NodeInputsCheck(remaining[1..][j], nodes) == Pass;
        assert NodeInputsCheck(remaining[i + 1], nodes) == InputsCheck(remaining, nodes);
      }
    }
  }

  /**
   * The `send_stdout_as` pass succeeds iff every node's setting resolves; on
   * failure, the error names the first node whose setting does not.
   */
  lemma {:induction false} StdoutCheckFirstFailure(nodes: seq<ResolvedNode>, env: Environment)
    ensures StdoutCheck(nodes, env) == Pass <==> forall i | 0 <= i < |nodes| :: nodes[i].id in env.stdoutResolvable
    ensures StdoutCheck(nodes, env).Fail? ==> exists i | 0 <= i < |nodes| ::
      && StdoutCheck(nodes, env) == Fail(StdoutUnresolvable(nodes[i].id))
      && nodes[i].id !in env.stdoutResolvable
      && forall j | 0 <= j < i :: nodes[j].id in env.stdoutResolvable
    decreases |nodes|
  {
    if nodes != [] {
      StdoutCheckFirstFailure(nodes[1..], env);
      assert forall i | 0 <= i < |nodes[1..]| :: nodes[1..][i] == nodes[i + 1];
      if nodes[0].id in env.stdoutResolvable && StdoutCheck(nodes, env).Fail? {
        var i :| 0 <= i < |nodes[1..]|
          && StdoutCheck(nodes[1..], env) == Fail(StdoutUnresolvable(nodes[1..][i].id))
          && nodes[1..][i].id !in env.stdoutResolvable
          && forall j | 0 <= j < i :: nodes[1..][j].id in env.stdoutResolvable;
        assert nodes[i + 1] == nodes[1..][i];
      }
    }
  }

  /** Every input of every custom node and every operator names an existing output. */
  ghost predicate AllInputsValid(nodes: seq<ResolvedNode>) {
    forall i | 0 <= i < |nodes| ::
      match nodes[i].kind
      case Custom(c) =>
        forall k | 0 <= k < |c.inputs| :: CheckInput(c.inputs[k].mapping, nodes, NodeInputPrefix(nodes[i]) + c.inputs[k].id) == Pass
      case Runtime(ops) =>
        forall m, k | 0 <= m < |ops| && 0 <= k < |ops[m].config.inputs| ::
          CheckInput(ops[m].config.inputs[k].mapping, nodes, OperatorInputPrefix(ops[m], nodes[i]) + ops[m].config.inputs[k].id) == Pass
  }

  /** The input pass succeeds exactly when every input of every custom node and operator passes `check_input`. */
  lemma InputsPassIffAllValid(nodes: seq<ResolvedNode>)
    ensures InputsCheck(nodes, nodes) == Pass <==> AllInputsValid(nodes)
  {
    InputsCheckAll(nodes, nodes);
    forall i | 0 <= i < |nodes|
      ensures NodeInputsCheck(nodes[i], nodes) == Pass <==>
        match nodes[i].kind
        case Custom(c) =>
          forall k | 0 <= k < |c.inputs| :: CheckInput(c.inputs[k].mapping, nodes, NodeInputPrefix(nodes[i]) + c.inputs[k].id) == Pass
        case Runtime(ops) =>
          forall m, k | 0 <= m < |ops| && 0 <= k < |ops[m].config.inputs| ::
            CheckInput(ops[m].config.inputs[k].mapping, nodes, OperatorInputPrefix(ops[m], nodes[i]) + ops[m].config.inputs[k].id) == Pass
    {
      match nodes[i].kind
      case Custom(c) =>
        EntriesCheckAll(c.inputs, nodes, NodeInputPrefix(nodes[i]));
      case Runtime(ops) =>
        OperatorsInputsCheckAll(ops, nodes[i], nodes);
        forall m | 0 <= m < |ops| {
          EntriesCheckAll(ops[m].config.inputs, nodes, OperatorInputPrefix(ops[m], nodes[i]));
        }
    }
  }

  /** An accepted dataflow has every input mapped to an existing output. */
  lemma AcceptedDataflowHasValidInputs(nodes: seq<ResolvedNode>, env: Environment)
    requires DataflowCheck(nodes, env) == Pass
    ensures AllInputsValid(nodes)
  {
    InputsPassIffAllValid(nodes);
  }

  /** A Python operator is seen exactly when some runtime node has an operator with a Python source. */
  lemma {:induction false} HasPythonOperatorIff(nodes: seq<ResolvedNode>)
    ensures HasPythonOperator(nodes) <==>
      exists i, k | 0 <= i < |nodes| && nodes[i].kind.Runtime? && 0 <= k < |nodes[i].kind.operators| ::
        nodes[i].kind.operators[k].config.source.Python?
    decreases |nodes|
  {
    if nodes != [] {
      HasPythonOperatorIff(nodes[1..]);
      if nodes[0].kind.Runtime? {
        OperatorsHavePythonIff(nodes[0].kind.operators);
      }
      if exists i, k | 0 <= i < |nodes| && nodes[i].kind.Runtime? && 0 <= k < |nodes[i].kind.operators| ::
          nodes[i].kind.operators[k].config.source.Python? {
        var i, k :| 0 <= i < |nodes| && nodes[i].kind.Runtime? && 0 <= k < |nodes[i].kind.operators| &&
          nodes[i].kind.operators[k].config.source.Python?;
        if i > 0 {
          assert nodes[1..][i - 1] == nodes[i];
        }
      }
      if HasPythonOperator(nodes[1..]) {
        var i, k :| 0 <= i < |nodes[1..]| && nodes[1..][i].kind.Runtime? && 0 <= k < |nodes[1..][i].kind.operators| &&
          nodes[1..][i].kind.operators[k].config.source.Python?;
        assert nodes[i + 1] == nodes[1..][i];
      }
    }
  }

  lemma {:induction false} OperatorsHavePythonIff(ops: seq<OperatorDefinition>)
    ensures OperatorsHavePython(ops) <==> exists k | 0 <= k < |ops| :: ops[k].config.source.Python?
    decreases |ops|
  {
    if ops != [] {
      OperatorsHavePythonIff(ops[1..]);
      assert forall k | 0 <= k < |ops[1..]| :: ops[1..][k] == ops[k + 1];
    }
  }

  /**
   * The Python runtime is consulted only when some operator is written in
   * Python, and then, once every pass succeeded, decides the outcome.
   */
  lemma PythonRuntimeGated(nodes: seq<ResolvedNode>, env: Environment)
    ensures !HasPythonOperator(nodes) ==>
      DataflowCheck(nodes, env) == DataflowCheck(nodes, env.(pythonRuntimeOk := !env.pythonRuntimeOk))
    ensures HasPythonOperator(nodes) && DataflowCheck(nodes, env.(pythonRuntimeOk := true)) == Pass ==>
      DataflowCheck(nodes, env.(pythonRuntimeOk := false)) == Fail(PythonRuntimeUnusable)
  {
    var flipped := env.(pythonRuntimeOk := !env.pythonRuntimeOk);
    StdoutIgnoresPython(nodes, env, flipped);
    StdoutIgnoresPython(nodes, env.(pythonRuntimeOk := true), env.(pythonRuntimeOk := false));
    SourcesIgnorePython(nodes, IsLocal(nodes), env, flipped);
    SourcesIgnorePython(nodes, IsLocal(nodes), env.(pythonRuntimeOk := true), env.(pythonRuntimeOk := false));
  }

  lemma {:induction false} StdoutIgnoresPython(nodes: seq<ResolvedNode>, env: Environment, env': Environment)
    requires env.stdoutResolvable == env'.stdoutResolvable
    ensures StdoutCheck(nodes, env) == StdoutCheck(nodes, env')
    decreases |nodes|
  {
    if nodes != [] {
      StdoutIgnoresPython(nodes[1..], env, env');
    }
  }

  lemma {:induction false} SourcesIgnorePython(nodes: seq<ResolvedNode>, local: bool, env: Environment, env': Environment)
    requires env' == env.(pythonRuntimeOk := env'.pythonRuntimeOk)
    ensures SourcesCheck(nodes, local, env) == SourcesCheck(nodes, local, env')
    decreases |nodes|
  {
    if nodes != [] {
      if nodes[0].kind.Runtime? {
        OperatorsIgnorePython(nodes[0].kind.operators, local, env, env');
      }
      SourcesIgnorePython(nodes[1..], local, env, env');
    }
  }

  lemma {:induction false} OperatorsIgnorePython(ops: seq<OperatorDefinition>, local: bool, env: Environment, env': Environment)
    requires env' == env.(pythonRuntimeOk := env'.pythonRuntimeOk)
    ensures OperatorsSourceCheck(ops, local, env) == OperatorsSourceCheck(ops, local, env')
    decreases |ops|
  {
    if ops != [] {
      OperatorsIgnorePython(ops[1..], local, env, env');
    }
  }

  // ---------------------------------------------------------------------
  // `check_dataflow`, step by step
  // ---------------------------------------------------------------------

  /** The first pass of `check_dataflow`: every node's and operator's source, noting whether an operator is Python. */
  method CheckSources(nodes: seq<ResolvedNode>, isLocal: bool, env: Environment)
    returns (r: Outcome<CheckError>, hasPythonOperator: bool)
    ensures r == SourcesCheck(nodes, isLocal, env)
    ensures r.Pass? ==> hasPythonOperator == HasPythonOperator(nodes)
  {
    hasPythonOperator := false;
    for i := 0 to |nodes|
      invariant SourcesCheck(nodes, isLocal, env) == SourcesCheck(nodes[i..], isLocal, env)
      invariant HasPythonOperator(nodes) == (hasPythonOperator || HasPythonOperator(nodes[i..]))
    {
      assert nodes[i..][1..] == nodes[i + 1..];
      var node := nodes[i];
      match node.kind {
        case Custom(custom) =>
          var check := CustomSourceCheck(node, custom.source, isLocal, env);
          if check.Fail? {
            return check, hasPythonOperator;
          }
        case Runtime(operators) =>
          for k := 0 to |operators|
            invariant OperatorsSourceCheck(operators, isLocal, env) == OperatorsSourceCheck(operators[k..], isLocal, env)
            invariant HasPythonOperator(nodes) == (hasPythonOperator || OperatorsHavePython(operators[k..]) || HasPythonOperator(nodes[i + 1..]))
          {
            assert operators[k..][1..] == operators[k + 1..];
            var op := operators[k];
            if op.config.source.Python? {
              hasPythonOperator := true;
            }
            var check := OperatorSourceCheck(op, isLocal, env);
            if check.Fail? {
              return check, hasPythonOperator;
            }
          }
      }
    }
    r := Pass;
  }

  /** The second pass of `check_dataflow`: every input of every node and operator names an existing output. */
  method CheckInputs(nodes: seq<ResolvedNode>) returns (r: Outcome<CheckError>)
    ensures r == InputsCheck(nodes, nodes)
  {
    for i := 0 to |nodes|
      invariant InputsCheck(nodes, nodes) == InputsCheck(nodes[i..], nodes)
    {
      assert nodes[i..][1..] == nodes[i + 1..];
      var node := nodes[i];
      match node.kind {
        case Custom(custom) =>
          for k := 0 to |custom.inputs|
            invariant EntriesCheck(custom.inputs, nodes, NodeInputPrefix(node)) == EntriesCheck(custom.inputs[k..], nodes, NodeInputPrefix(node))
          {
            assert custom.inputs[k..][1..] == custom.inputs[k + 1..];
            var input := custom.inputs[k];
            var check := CheckInput(input.mapping, nodes, node.id + "/" + input.id);
            if check.Fail? {
              return check;
            }
          }
        case Runtime(operators) =>
          for m := 0 to |operators|
            invariant OperatorsInputsCheck(operators, node, nodes) == OperatorsInputsCheck(operators[m..], node, nodes)
          {
            assert operators[m..][1..] == operators[m + 1..];
            var op := operators[m];
            for k := 0 to |op.config.inputs|
              invariant EntriesCheck(op.config.inputs, nodes, OperatorInputPrefix(op, node))
                == EntriesCheck(op.config.inputs[k..], nodes, OperatorInputPrefix(op, node))
            {
              assert op.config.inputs[k..][1..] == op.config.inputs[k + 1..];
              var input := op.config.inputs[k];
              var check := CheckInput(input.mapping, nodes, op.id + "/" + node.id + "/" + input.id);
              if check.Fail? {
                return check;
              }
            }
          }
      }
    }
    r := Pass;
  }

  /** The third pass of `check_dataflow`: every node's `send_stdout_as` resolves. */
  method CheckStdout(nodes: seq<ResolvedNode>, env: Environment) returns (r: Outcome<CheckError>)
    ensures r == StdoutCheck(nodes, env)
  {
    for i := 0 to |nodes|
      invariant StdoutCheck(nodes, env) == StdoutCheck(nodes[i..], env)
    {
      assert nodes[i..][1..] == nodes[i + 1..];
      if nodes[i].id !in env.stdoutResolvable {
        return Fail(StdoutUnresolvable(nodes[i].id));
      }
    }
    r := Pass;
  }

  /**
   * `check_dataflow`: the three passes with early exits, then the Python
   * runtime when the first pass saw a Python operator.
   */
  method CheckDataflow(nodes: seq<ResolvedNode>, env: Environment) returns (r: Outcome<CheckError>)
    ensures r == DataflowCheck(nodes, env)
  {
    var isLocal := |Machines(nodes)| <= 1;
    var hasPythonOperator;
    r, hasPythonOperator := CheckSources(nodes, isLocal, env);
    if r.Fail? {
      return;
    }
    r := CheckInputs(nodes);
    if r.Fail? {
      return;
    }
    r := CheckStdout(nodes, env);
    if r.Fail? {
      return;
    }
    if hasPythonOperator && !env.pythonRuntimeOk {
      return Fail(PythonRuntimeUnusable);
    }
    return Pass;
  }
}
