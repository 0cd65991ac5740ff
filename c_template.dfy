/**
 * `dora new --lang c`: creates a C dataflow or a C custom node from the
 * built-in templates. Names are checked first; then directories are created
 * and files written one by one, and the first failing step aborts, leaving
 * what was done so far in place.
 *
 * The filesystem is a set of directories and a map from file paths to
 * contents; a path is its sequence of components below the working
 * directory, which is the empty path.
 */
module CTemplate {
  import opened Wrappers

  type Path = seq<string>

  /** What `dora new` is asked to create. */
  datatype Kind = Operator | CustomNode | Dataflow

  /** The built-in template texts and the workspace directory the CMake file may point to. */
  datatype Templates = Templates(
    node: string,
    talker: string,
    listener: string,
    operator: string,
    dataflowYml: string,
    cmake: string,
    nodeApiHeader: string,
    operatorApiHeader: string,
    operatorTypesHeader: string,
    workspaceDir: string)

  datatype Entity = DataflowName | NodeName | OperatorName
  datatype NameFault = ContainsSlash | ContainsDash | NotAscii

  datatype CreateError =
    | OperatorsDeprecated
    | InvalidName(entity: Entity, fault: NameFault)
    | CreateDirFailed(dir: Path)
    | WriteFailed(file: Path)

  // ---------------------------------------------------------------------
  // Names
  // ---------------------------------------------------------------------

  predicate IsAscii(s: string) {
    forall i | 0 <= i < |s| :: s[i] as int < 128
  }

  /**
   * The name checks of `create_dataflow`, `create_custom_node` and
   * `create_operator`, in their order: no `/`, for operators no `-`, and
   * ASCII only.
   */
  function CheckName(name: string, entity: Entity): (r: Outcome<CreateError>)
    ensures '/' in name ==> r == Fail(InvalidName(entity, ContainsSlash))
    ensures entity == OperatorName && '/' !in name && '-' in name ==> r == Fail(InvalidName(entity, ContainsDash))
    ensures r == Fail(InvalidName(entity, NotAscii)) <==>
      '/' !in name && !(entity == OperatorName && '-' in name) && !IsAscii(name)
    ensures r == Pass <==> '/' !in name && !(entity == OperatorName && '-' in name) && IsAscii(name)
  {
    if '/' in name then Fail(InvalidName(entity, ContainsSlash))
    else if entity == OperatorName && '-' in name then Fail(InvalidName(entity, ContainsDash))
    else if !IsAscii(name) then Fail(InvalidName(entity, NotAscii))
    else Pass
  }

  // ---------------------------------------------------------------------
  // `str::replace`
  // ---------------------------------------------------------------------

  /** Whether `pat` occurs in `s` starting at position `j`. */
  predicate MatchAt(s: string, pat: string, j: nat) {
    j + |pat| <= |s| && s[j..j + |pat|] == pat
  }

  /** `s.replace(pat, rep)`: every non-overlapping occurrence of `pat`, from left to right, becomes `rep`. */
  function Replace(s: string, pat: string, rep: string): (r: string)
    requires pat != []
    decreases |s|
  {
    if |s| < |pat| then s
    else if s[..|pat|] == pat then rep + Replace(s[|pat|..], pat, rep)
    else [s[0]] + Replace(s[1..], pat, rep)
  }

  /** No occurrence of `pat` in `s` starts before position `n`. */
  ghost predicate NoMatchBefore(s: string, pat: string, n: nat) {
    forall j | 0 <= j < n :: !MatchAt(s, pat, j)
  }

  /** Dropping the first character moves every start position one to the left. */
  lemma NoMatchShift(s: string, pat: string, n: nat)
    requires 0 < n && s != [] && NoMatchBefore(s, pat, n)
    ensures NoMatchBefore(s[1..], pat, n - 1)
  {
    forall j | 0 <= j < n - 1 ensures !MatchAt(s[1..], pat, j) {
      assert !MatchAt(s, pat, j + 1);
      if j + |pat| <= |s[1..]| {
        assert s[1..][j..j + |pat|] == s[j + 1..j + 1 + |pat|];
      }
    }
  }

  /** A text without the pattern is left unchanged. */
  lemma {:induction false} NoMatchIsIdentity(s: string, pat: string, rep: string)
    requires pat != [] && NoMatchBefore(s, pat, |s|)
    ensures Replace(s, pat, rep) == s
    decreases |s|
  {
    if |s| >= |pat| {
      assert !MatchAt(s, pat, 0);
      NoMatchShift(s, pat, |s|);
      NoMatchIsIdentity(s[1..], pat, rep);
      assert s == [s[0]] + s[1..];
    }
  }

  /** A prefix in which no occurrence of the pattern starts is copied through unchanged. */
  lemma {:induction false} ReplaceSkips(a: string, b: string, pat: string, rep: string)
    requires pat != [] && NoMatchBefore(a + b, pat, |a|)
    ensures Replace(a + b, pat, rep) == a + Replace(b, pat, rep)
    decreases |a|
  {
    var s := a + b;
    if a == [] {
      assert s == b;
    } else if |s| >= |pat| {
      assert !MatchAt(s, pat, 0);
      NoMatchShift(s, pat, |a|);
      assert s[1..] == a[1..] + b;
      ReplaceSkips(a[1..], b, pat, rep);
      calc {
        Replace(s, pat, rep);
        [s[0]] + Replace(s[1..], pat, rep);
        [a[0]] + (a[1..] + Replace(b, pat, rep));
        { assert a == [a[0]] + a[1..]; }
        a + Replace(b, pat, rep);
      }
    }
  }

  /** The parts joined by `sep`. */
  function Join(parts: seq<string>, sep: string): string
    requires parts != []
    decreases |parts|
  {
    if |parts| == 1 then parts[0] else parts[0] + sep + Join(parts[1..], sep)
  }

  /**
   * The parts of a text split at the occurrences `replace` finds: in each
   * part followed by the pattern, the first match starts after the part;
   * the last part has no match.
   */
  ghost predicate SplitsAt(parts: seq<string>, pat: string) {
    && parts != []
    && (forall i | 0 <= i < |parts| - 1 :: NoMatchBefore(parts[i] + pat, pat, |parts[i]|))
    && NoMatchBefore(parts[|parts| - 1], pat, |parts[|parts| - 1]|)
  }

  lemma SplitsAtTail(parts: seq<string>, pat: string)
    requires |parts| > 1 && SplitsAt(parts, pat)
    ensures SplitsAt(parts[1..], pat)
  {
    assert forall i | 0 <= i < |parts[1..]| :: parts[1..][i] == parts[i + 1];
  }

  /** Whether a match starts in `p` depends only on the first characters after it. */
  lemma NoMatchBeforeExtend(p: string, pat: string, rest: string)
    requires NoMatchBefore(p + pat, pat, |p|)
    ensures NoMatchBefore(p + (pat + rest), pat, |p|)
  {
    var s := p + (pat + rest);
    forall j | 0 <= j < |p| ensures !MatchAt(s, pat, j) {
      assert !MatchAt(p + pat, pat, j);
      assert s[j..j + |pat|] == (p + pat)[j..j + |pat|];
    }
  }

  /** `replace` turns the text the parts make with the pattern into the text they make with the replacement. */
  lemma {:induction false} ReplaceJoin(parts: seq<string>, pat: string, rep: string)
    requires pat != [] && SplitsAt(parts, pat)
    ensures Replace(Join(parts, pat), pat, rep) == Join(parts, rep)
    decreases |parts|
  {
    if |parts| == 1 {
      NoMatchIsIdentity(parts[0], pat, rep);
    } else {
      var p, rest := parts[0], Join(parts[1..], pat);
      SplitsAtTail(parts, pat);
      ReplaceJoin(parts[1..], pat, rep);
      NoMatchBeforeExtend(p, pat, rest);
      ReplaceSkips(p, pat + rest, pat, rep);
      assert (pat + rest)[..|pat|] == pat && (pat + rest)[|pat|..] == rest;
      assert p + pat + rest == p + (pat + rest);
    }
  }

  /** The placeholder of the dataflow template and the value it gets. */
  const NamePlaceholder: string := "___name___"
  const PathPlaceholder: string := "__DORA_PATH__"

  /** `create_cmakefile`: the CMake template pointing at the workspace with `use_path_deps`, else at nothing. */
  function CmakeContents(usePathDeps: bool, t: Templates): string {
    Replace(t.cmake, PathPlaceholder, if usePathDeps then t.workspaceDir else "")
  }

  // ---------------------------------------------------------------------
  // The filesystem and the steps of each command
  // ---------------------------------------------------------------------

  datatype FsState = FsState(dirs: set<Path>, files: map<Path, string>)

  datatype FsOp = MakeDir(dir: Path) | WriteFile(file: Path, contents: string)

  function Parent(p: Path): Path
    requires p != []
  {
    p[..|p| - 1]
  }

  /**
   * `fs::create_dir` fails when the path exists, when its parent is not a
   * directory, or when a component is empty (as the empty name gives).
   */
  predicate CanCreateDir(st: FsState, p: Path) {
    p != [] && "" !in p && p !in st.dirs && p !in st.files && Parent(p) in st.dirs
  }

  /** `fs::write` creates or truncates a file; it fails when the parent is not a directory or the path is one. */
  predicate CanWrite(st: FsState, p: Path) {
    p != [] && "" !in p && p !in st.dirs && Parent(p) in st.dirs
  }

  /** Performs the steps in order; the first failing step aborts, keeping the effects of the earlier ones. */
  function Execute(st: FsState, ops: seq<FsOp>): (r: (FsState, Outcome<CreateError>))
    decreases |ops|
  {
    if ops == [] then (st, Pass)
    else match ops[0]
      case MakeDir(p) =>
        if CanCreateDir(st, p) then Execute(st.(dirs := st.dirs + {p}), ops[1..]) else (st, Fail(CreateDirFailed(p)))
      case WriteFile(p, contents) =>
        if CanWrite(st, p) then Execute(st.(files := st.files[p := contents]), ops[1..]) else (st, Fail(WriteFailed(p)))
  }

  /** The root directory: the given path, or the name itself. */
  function Root(name: string, path: Option<Path>): Path {
    if path.Some? then path.value else [name]
  }

  function CustomNodeSteps(root: Path, template: string, t: Templates): seq<FsOp> {
    [MakeDir(root), WriteFile(root + ["node.c"], template), WriteFile(root + ["node_api.h"], t.nodeApiHeader)]
  }

  function OperatorSteps(root: Path, t: Templates): seq<FsOp> {
    [ MakeDir(root), WriteFile(root + ["operator.c"], t.operator),
      WriteFile(root + ["operator_api.h"], t.operatorApiHeader), WriteFile(root + ["operator_types.h"], t.operatorTypesHeader)]
  }

  function DataflowSteps(root: Path, name: string, usePathDeps: bool, t: Templates): seq<FsOp> {
    [MakeDir(root), WriteFile(root + ["dataflow.yml"], Replace(t.dataflowYml, NamePlaceholder, name))]
      + CustomNodeSteps(root + ["talker_1"], t.talker, t)
      + CustomNodeSteps(root + ["talker_2"], t.talker, t)
      + CustomNodeSteps(root + ["listener_1"], t.listener, t)
      + [WriteFile(root + ["CMakeLists.txt"], CmakeContents(usePathDeps, t))]
  }

  /** The directories a sequence of steps creates, in order. */
  function CreatedDirs(ops: seq<FsOp>): seq<Path> {
    if ops == [] then [] else (if ops[0].MakeDir? then [ops[0].dir] else []) + CreatedDirs(ops[1..])
  }

  lemma {:induction false} CreatedDirsAppend(a: seq<FsOp>, b: seq<FsOp>)
    ensures CreatedDirs(a + b) == CreatedDirs(a) + CreatedDirs(b)
    decreases |a|
  {
    if a == [] {
      assert a + b == b;
    } else {
      assert (a + b)[1..] == a[1..] + b;
      CreatedDirsAppend(a[1..], b);
    }
  }

  /** A custom node creates its root and nothing else. */
  lemma CustomNodeCreatesRoot(root: Path, template: string, t: Templates)
    ensures CreatedDirs(CustomNodeSteps(root, template, t)) == [root]
  {
    var ops := CustomNodeSteps(root, template, t);
    assert CreatedDirs(ops[3..]) == [];
    assert CreatedDirs(ops[2..]) == CreatedDirs(ops[3..]);
    assert CreatedDirs(ops[1..]) == CreatedDirs(ops[2..]);
  }

  /**
   * A dataflow is created as its root, then exactly the sub-nodes
   * `talker_1`, `talker_2` and `listener_1` under it, and it finishes with
   * `CMakeLists.txt`.
   */
  lemma DataflowStepsShape(root: Path, name: string, usePathDeps: bool, t: Templates)
    ensures CreatedDirs(DataflowSteps(root, name, usePathDeps, t)) ==
      [root, root + ["talker_1"], root + ["talker_2"], root + ["listener_1"]]
    ensures var ops := DataflowSteps(root, name, usePathDeps, t);
      ops[|ops| - 1] == WriteFile(root + ["CMakeLists.txt"], CmakeContents(usePathDeps, t))
  {
    var head := [MakeDir(root), WriteFile(root + ["dataflow.yml"], Replace(t.dataflowYml, NamePlaceholder, name))];
    var n1 := CustomNodeSteps(root + ["talker_1"], t.talker, t);
    var n2 := CustomNodeSteps(root + ["talker_2"], t.talker, t);
    var n3 := CustomNodeSteps(root + ["listener_1"], t.listener, t);
    var tail := [WriteFile(root + ["CMakeLists.txt"], CmakeContents(usePathDeps, t))];
    CustomNodeCreatesRoot(root + ["talker_1"], t.talker, t);
    CustomNodeCreatesRoot(root + ["talker_2"], t.talker, t);
    CustomNodeCreatesRoot(root + ["listener_1"], t.listener, t);
    CreatedDirsAppend(head, n1);
    CreatedDirsAppend(head + n1, n2);
    CreatedDirsAppend(head + n1 + n2, n3);
    CreatedDirsAppend(head + n1 + n2 + n3, tail);
    assert CreatedDirs(head) == [root];
    assert CreatedDirs(n1) == [root + ["talker_1"]];
    assert CreatedDirs(n2) == [root + ["talker_2"]];
    assert CreatedDirs(n3) == [root + ["listener_1"]];
    assert CreatedDirs(tail) == [];
  }

  /** Running two step sequences one after the other; a failure in the first skips the second. */
  lemma {:induction false} ExecuteAppend(st: FsState, a: seq<FsOp>, b: seq<FsOp>)
    ensures Execute(st, a + b) ==
      (var (mid, o) := Execute(st, a); if o.Pass? then Execute(mid, b) else (mid, o))
    decreases |a|
  {
    if a == [] {
      assert a + b == b;
    } else {
      assert (a + b)[0] == a[0] && (a + b)[1..] == a[1..] + b;
      match a[0]
      case MakeDir(p) =>
        if CanCreateDir(st, p) {
          ExecuteAppend(st.(dirs := st.dirs + {p}), a[1..], b);
        }
      case WriteFile(p, contents) =>
        if CanWrite(st, p) {
          ExecuteAppend(st.(files := st.files[p := contents]), a[1..], b);
        }
    }
  }

  /** Once a prefix of the steps fails, the whole list fails the same way. */
  lemma ExecuteStops(st: FsState, a: seq<FsOp>, b: seq<FsOp>)
    requires Execute(st, a).1.Fail? && a <= b
    ensures Execute(st, b) == Execute(st, a)
  {
    ExecuteAppend(st, a, b[|a|..]);
    assert b == a + b[|a|..];
  }

  /** Three step sequences that succeed one after the other succeed together. */
  lemma ExecuteThree(st: FsState, a: seq<FsOp>, b: seq<FsOp>, c: seq<FsOp>, s1: FsState, s2: FsState, s3: FsState)
    requires Execute(st, a) == (s1, Pass) && Execute(s1, b) == (s2, Pass) && Execute(s2, c) == (s3, Pass)
    ensures Execute(st, a + b + c) == (s3, Pass)
  {
    ExecuteAppend(st, a, b);
    ExecuteAppend(st, a + b, c);
  }

  // ---------------------------------------------------------------------
  // The commands
  // ---------------------------------------------------------------------

  /** `create_custom_node`: the name checks, then the node's directory, `node.c` and `node_api.h`. */
  function CustomNodeCommand(st: FsState, name: string, path: Option<Path>, template: string, t: Templates): (FsState, Outcome<CreateError>) {
    var check := CheckName(name, NodeName);
    if check.Fail? then (st, check) else Execute(st, CustomNodeSteps(Root(name, path), template, t))
  }

  /** `create_operator`: the operator name checks, then its directory, source and two headers. */
  function OperatorCommand(st: FsState, name: string, path: Option<Path>, t: Templates): (FsState, Outcome<CreateError>) {
    var check := CheckName(name, OperatorName);
    if check.Fail? then (st, check) else Execute(st, OperatorSteps(Root(name, path), t))
  }

  /** `create_dataflow`: the name checks, then the root, `dataflow.yml`, three nodes and `CMakeLists.txt`. */
  function DataflowCommand(st: FsState, name: string, path: Option<Path>, usePathDeps: bool, t: Templates): (FsState, Outcome<CreateError>) {
    var check := CheckName(name, DataflowName);
    if check.Fail? then (st, check) else Execute(st, DataflowSteps(Root(name, path), name, usePathDeps, t))
  }

  /** `create`: operators are refused; nodes use the node template. */
  function CreateCommand(st: FsState, kind: Kind, name: string, path: Option<Path>, usePathDeps: bool, t: Templates): (FsState, Outcome<CreateError>) {
    match kind
    case Operator => (st, Fail(OperatorsDeprecated))
    case CustomNode => CustomNodeCommand(st, name, path, t.node, t)
    case Dataflow => DataflowCommand(st, name, path, usePathDeps, t)
  }

  /** `create` never touches the filesystem for an operator, and fails exactly as the steps of the chosen command. */
  lemma CreateOutcomes(st: FsState, kind: Kind, name: string, path: Option<Path>, usePathDeps: bool, t: Templates)
    ensures kind == Operator ==> CreateCommand(st, kind, name, path, usePathDeps, t) == (st, Fail(OperatorsDeprecated))
    ensures kind != Operator && CheckName(name, if kind == Dataflow then DataflowName else NodeName).Fail? ==>
      CreateCommand(st, kind, name, path, usePathDeps, t).0 == st
    ensures kind == Dataflow && CheckName(name, DataflowName).Pass? ==>
      CreateCommand(st, kind, name, path, usePathDeps, t) == Execute(st, DataflowSteps(Root(name, path), name, usePathDeps, t))
  {
  }

  // ---------------------------------------------------------------------
  // A fresh root receives the whole project
  // ---------------------------------------------------------------------

  /** `p` is `r` or lies below it. */
  predicate Under(r: Path, p: Path) {
    |r| <= |p| && p[..|r|] == r
  }

  /** Nothing exists at `r` or below it. */
  ghost predicate Fresh(st: FsState, r: Path) {
    (forall p | p in st.dirs :: !Under(r, p)) && (forall p | p in st.files :: !Under(r, p))
  }

  predicate Absent(st: FsState, p: Path) {
    p !in st.dirs && p !in st.files
  }

  /** The state a successful `create_custom_node` leaves behind. */
  function WithNode(st: FsState, root: Path, template: string, t: Templates): FsState {
    FsState(st.dirs + {root}, st.files[root + ["node.c"] := template][root + ["node_api.h"] := t.nodeApiHeader])
  }

  /** The state after the root and `dataflow.yml`. */
  function WithDataflowFile(st: FsState, root: Path, name: string, t: Templates): FsState {
    FsState(st.dirs + {root}, st.files[root + ["dataflow.yml"] := Replace(t.dataflowYml, NamePlaceholder, name)])
  }

  /** The three nodes of a dataflow added below its root. */
  function WithNodes(st: FsState, root: Path, t: Templates): FsState {
    WithNode(WithNode(WithNode(st, root + ["talker_1"], t.talker, t),
      root + ["talker_2"], t.talker, t), root + ["listener_1"], t.listener, t)
  }

  /**
   * The project `create_dataflow` lays out under `root`: the root and its
   * three node directories, `dataflow.yml` with the name substituted, each
   * node's source and header, and the CMake file.
   */
  function DataflowTree(st: FsState, root: Path, name: string, usePathDeps: bool, t: Templates): FsState {
    var withNodes := WithNodes(WithDataflowFile(st, root, name, t), root, t);
    withNodes.(files := withNodes.files[root + ["CMakeLists.txt"] := CmakeContents(usePathDeps, t)])
  }

  /** What a node's steps need: an existing parent and nothing yet at the places they fill. */
  predicate NodeSlotFree(st: FsState, c: Path) {
    && c != [] && "" !in c && Parent(c) in st.dirs && Absent(st, c)
    && c + ["node.c"] !in st.dirs && c + ["node_api.h"] !in st.dirs
  }

  lemma NodeOnFreeSlot(st: FsState, c: Path, template: string, t: Templates)
    requires NodeSlotFree(st, c)
    ensures Execute(st, CustomNodeSteps(c, template, t)) == (WithNode(st, c, template, t), Pass)
  {
    var n, h := c + ["node.c"], c + ["node_api.h"];
    assert Parent(n) == c && Parent(h) == c;
    var ops := CustomNodeSteps(c, template, t);
    var st1 := st.(dirs := st.dirs + {c});
    var st2 := st1.(files := st1.files[n := template]);
    var st3 := st2.(files := st2.files[h := t.nodeApiHeader]);
    assert CanCreateDir(st, c) && CanWrite(st1, n) && CanWrite(st2, h);
    calc {
      Execute(st, ops);
      Execute(st1, ops[1..]);
      { assert ops[1..][0] == WriteFile(n, template) && ops[1..][1..] == ops[2..]; }
      Execute(st2, ops[2..]);
      { assert ops[2..][0] == WriteFile(h, t.nodeApiHeader) && ops[2..][1..] == []; }
      Execute(st3, []);
    }
  }

  /** The places below `root` that `create_dataflow` fills. */
  predicate DataflowSlotsFree(st: FsState, root: Path) {
    && root != [] && "" !in root && Parent(root) in st.dirs && Absent(st, root)
    && Absent(st, root + ["dataflow.yml"]) && Absent(st, root + ["CMakeLists.txt"])
    && Absent(st, root + ["talker_1"]) && Absent(st, root + ["talker_2"]) && Absent(st, root + ["listener_1"])
    && Absent(st, root + ["talker_1"] + ["node.c"]) && Absent(st, root + ["talker_1"] + ["node_api.h"])
    && Absent(st, root + ["talker_2"] + ["node.c"]) && Absent(st, root + ["talker_2"] + ["node_api.h"])
    && Absent(st, root + ["listener_1"] + ["node.c"]) && Absent(st, root + ["listener_1"] + ["node_api.h"])
  }

  lemma FreshSlots(st: FsState, root: Path)
    requires root != [] && "" !in root && Parent(root) in st.dirs && Fresh(st, root)
    ensures DataflowSlotsFree(st, root)
  {
    AbsentBelow(st, root, root);
    AbsentBelow(st, root, root + ["dataflow.yml"]);
    AbsentBelow(st, root, root + ["CMakeLists.txt"]);
    FreshNodeSlots(st, root, "talker_1");
    FreshNodeSlots(st, root, "talker_2");
    FreshNodeSlots(st, root, "listener_1");
  }

  lemma AbsentBelow(st: FsState, root: Path, p: Path)
    requires Fresh(st, root) && |root| <= |p| && p[..|root|] == root
    ensures Absent(st, p)
  {
    assert Under(root, p);
  }

  lemma FreshNodeSlots(st: FsState, root: Path, child: string)
    requires Fresh(st, root)
    ensures Absent(st, root + [child]) && Absent(st, root + [child] + ["node.c"]) && Absent(st, root + [child] + ["node_api.h"])
  {
    var c := root + [child];
    assert c[..|root|] == root;
    assert (c + ["node.c"])[..|root|] == root && (c + ["node_api.h"])[..|root|] == root;
    AbsentBelow(st, root, c);
    AbsentBelow(st, root, c + ["node.c"]);
    AbsentBelow(st, root, c + ["node_api.h"]);
  }

  /** Distinct children of one directory are distinct paths. */
  lemma ChildrenDiffer(root: Path, a: string, b: string)
    requires a != b
    ensures root + [a] != root + [b]
  {
    assert (root + [a])[|root|] == a && (root + [b])[|root|] == b;
  }

  lemma DataflowChildrenDiffer(root: Path)
    ensures root + ["talker_1"] != root + ["dataflow.yml"]
    ensures root + ["talker_2"] != root + ["dataflow.yml"] && root + ["talker_2"] != root + ["talker_1"]
    ensures root + ["listener_1"] != root + ["dataflow.yml"] && root + ["listener_1"] != root + ["talker_1"]
    ensures root + ["listener_1"] != root + ["talker_2"]
    ensures root + ["CMakeLists.txt"] != root + ["talker_1"] && root + ["CMakeLists.txt"] != root + ["talker_2"]
    ensures root + ["CMakeLists.txt"] != root + ["listener_1"] && root + ["CMakeLists.txt"] != root + ["dataflow.yml"]
  {
    ChildrenDiffer(root, "talker_1", "dataflow.yml");
    ChildrenDiffer(root, "talker_2", "dataflow.yml");
    ChildrenDiffer(root, "talker_2", "talker_1");
    ChildrenDiffer(root, "listener_1", "dataflow.yml");
    ChildrenDiffer(root, "listener_1", "talker_1");
    ChildrenDiffer(root, "listener_1", "talker_2");
    ChildrenDiffer(root, "CMakeLists.txt", "talker_1");
    ChildrenDiffer(root, "CMakeLists.txt", "talker_2");
    ChildrenDiffer(root, "CMakeLists.txt", "listener_1");
    ChildrenDiffer(root, "CMakeLists.txt", "dataflow.yml");
  }

  lemma HeadOnFreeSlots(st: FsState, root: Path, name: string, t: Templates)
    requires DataflowSlotsFree(st, root)
    ensures Execute(st, [MakeDir(root), WriteFile(root + ["dataflow.yml"], Replace(t.dataflowYml, NamePlaceholder, name))])
      == (WithDataflowFile(st, root, name, t), Pass)
  {
    var yml := root + ["dataflow.yml"];
    var head := [MakeDir(root), WriteFile(yml, Replace(t.dataflowYml, NamePlaceholder, name))];
    assert Parent(yml) == root;
    var st1 := st.(dirs := st.dirs + {root});
    assert CanCreateDir(st, root) && CanWrite(st1, yml);
    calc {
      Execute(st, head);
      Execute(st1, head[1..]);
      { assert head[1..][0] == head[1] && head[1..][1..] == []; }
      Execute(st1.(files := st1.files[yml := Replace(t.dataflowYml, NamePlaceholder, name)]), []);
    }
  }

  lemma NodesOnFreeSlots(st: FsState, root: Path, name: string, t: Templates)
    requires DataflowSlotsFree(st, root)
    ensures var st1 := WithDataflowFile(st, root, name, t);
      Execute(st1, CustomNodeSteps(root + ["talker_1"], t.talker, t)
        + CustomNodeSteps(root + ["talker_2"], t.talker, t)
        + CustomNodeSteps(root + ["listener_1"], t.listener, t)) == (WithNodes(st1, root, t), Pass)
  {
    var t1, t2, l1 := root + ["talker_1"], root + ["talker_2"], root + ["listener_1"];
    var st1 := WithDataflowFile(st, root, name, t);
    SlotsAfterHead(st, root, name, t);
    NodeOnFreeSlot(st1, t1, t.talker, t);
    var st2 := WithNode(st1, t1, t.talker, t);
    NodeOnFreeSlot(st2, t2, t.talker, t);
    var st3 := WithNode(st2, t2, t.talker, t);
    NodeOnFreeSlot(st3, l1, t.listener, t);
    ExecuteThree(st1, CustomNodeSteps(t1, t.talker, t), CustomNodeSteps(t2, t.talker, t),
      CustomNodeSteps(l1, t.listener, t), st2, st3, WithNodes(st1, root, t));
  }

  /** After the root and `dataflow.yml`, each node finds its places free once the earlier nodes exist. */
  lemma SlotsAfterHead(st: FsState, root: Path, name: string, t: Templates)
    requires DataflowSlotsFree(st, root)
    ensures var st1 := WithDataflowFile(st, root, name, t);
      && NodeSlotFree(st1, root + ["talker_1"])
      && NodeSlotFree(WithNode(st1, root + ["talker_1"], t.talker, t), root + ["talker_2"])
      && NodeSlotFree(WithNode(WithNode(st1, root + ["talker_1"], t.talker, t), root + ["talker_2"], t.talker, t), root + ["listener_1"])
  {
    ChildrenDiffer(root, "talker_1", "dataflow.yml");
    ChildrenDiffer(root, "talker_2", "dataflow.yml");
    ChildrenDiffer(root, "talker_2", "talker_1");
    var st1 := WithDataflowFile(st, root, name, t);
    assert Parent(root + ["talker_1"]) == root && Parent(root + ["talker_2"]) == root;
    ListenerSlot(st, root, name, t);
  }

  lemma ListenerSlot(st: FsState, root: Path, name: string, t: Templates)
    requires DataflowSlotsFree(st, root)
    ensures var st1 := WithDataflowFile(st, root, name, t);
      NodeSlotFree(WithNode(WithNode(st1, root + ["talker_1"], t.talker, t), root + ["talker_2"], t.talker, t), root + ["listener_1"])
  {
    ChildrenDiffer(root, "listener_1", "dataflow.yml");
    ChildrenDiffer(root, "listener_1", "talker_1");
    ChildrenDiffer(root, "listener_1", "talker_2");
    assert Parent(root + ["listener_1"]) == root;
  }

  lemma CmakeOnFreeSlot(st: FsState, root: Path, name: string, usePathDeps: bool, t: Templates)
    requires DataflowSlotsFree(st, root)
    ensures var st4 := WithNodes(WithDataflowFile(st, root, name, t), root, t);
      Execute(st4, [WriteFile(root + ["CMakeLists.txt"], CmakeContents(usePathDeps, t))])
        == (DataflowTree(st, root, name, usePathDeps, t), Pass)
  {
    DataflowChildrenDiffer(root);
    var cmake := root + ["CMakeLists.txt"];
    assert Parent(cmake) == root;
    var st4 := WithNodes(WithDataflowFile(st, root, name, t), root, t);
    assert CanWrite(st4, cmake);
  }

  /** With all the places free, the steps of a dataflow all succeed and lay out `DataflowTree`. */
  lemma DataflowStepsOnFreeSlots(st: FsState, root: Path, name: string, usePathDeps: bool, t: Templates)
    requires DataflowSlotsFree(st, root)
    ensures Execute(st, DataflowSteps(root, name, usePathDeps, t)) == (DataflowTree(st, root, name, usePathDeps, t), Pass)
  {
    var head := [MakeDir(root), WriteFile(root + ["dataflow.yml"], Replace(t.dataflowYml, NamePlaceholder, name))];
    var nodes := CustomNodeSteps(root + ["talker_1"], t.talker, t)
      + CustomNodeSteps(root + ["talker_2"], t.talker, t)
      + CustomNodeSteps(root + ["listener_1"], t.listener, t);
    var tail := [WriteFile(root + ["CMakeLists.txt"], CmakeContents(usePathDeps, t))];
    assert DataflowSteps(root, name, usePathDeps, t) == head + nodes + tail;
    HeadOnFreeSlots(st, root, name, t);
    NodesOnFreeSlots(st, root, name, t);
    CmakeOnFreeSlot(st, root, name, usePathDeps, t);
    var st1 := WithDataflowFile(st, root, name, t);
    ExecuteThree(st, head, nodes, tail, st1, WithNodes(st1, root, t), DataflowTree(st, root, name, usePathDeps, t));
  }

  /**
   * On a root without empty components whose parent exists and at which
   * nothing exists yet, `create_dataflow` with a valid name succeeds and
   * lays out exactly `DataflowTree`.
   */
  lemma DataflowOnFreshRoot(st: FsState, name: string, path: Option<Path>, usePathDeps: bool, t: Templates)
    requires CheckName(name, DataflowName).Pass?
    requires var root := Root(name, path); root != [] && "" !in root && Parent(root) in st.dirs && Fresh(st, root)
    ensures DataflowCommand(st, name, path, usePathDeps, t) == (DataflowTree(st, Root(name, path), name, usePathDeps, t), Pass)
  {
    FreshSlots(st, Root(name, path));
    DataflowStepsOnFreeSlots(st, Root(name, path), name, usePathDeps, t);
  }

  /** The tree adds exactly the root and its three node directories, and leaves every file that existed before as it was. */
  lemma DataflowTreeKeeps(st: FsState, root: Path, name: string, usePathDeps: bool, t: Templates)
    requires DataflowSlotsFree(st, root)
    ensures var after := DataflowTree(st, root, name, usePathDeps, t);
      && after.dirs == st.dirs + {root, root + ["talker_1"], root + ["talker_2"], root + ["listener_1"]}
      && (forall p | p in st.files :: p in after.files && after.files[p] == st.files[p])
  {
  }

  /** The tree holds `dataflow.yml` with the name substituted and the CMake file. */
  lemma DataflowTreeFiles(st: FsState, root: Path, name: string, usePathDeps: bool, t: Templates)
    ensures var after := DataflowTree(st, root, name, usePathDeps, t);
      && root + ["dataflow.yml"] in after.files
      && after.files[root + ["dataflow.yml"]] == Replace(t.dataflowYml, NamePlaceholder, name)
      && root + ["CMakeLists.txt"] in after.files
      && after.files[root + ["CMakeLists.txt"]] == CmakeContents(usePathDeps, t)
  {
    var yml := root + ["dataflow.yml"];
    var st1 := WithDataflowFile(st, root, name, t);
    var st4 := WithNodes(st1, root, t);
    assert yml in st4.files && st4.files[yml] == st1.files[yml];
    ChildrenDiffer(root, "CMakeLists.txt", "dataflow.yml");
  }

  /** Each node directory of the tree holds its template source. */
  lemma DataflowTreeSources(st: FsState, root: Path, name: string, usePathDeps: bool, t: Templates)
    ensures var after := DataflowTree(st, root, name, usePathDeps, t);
      && root + ["talker_1"] + ["node.c"] in after.files && after.files[root + ["talker_1"] + ["node.c"]] == t.talker
      && root + ["talker_2"] + ["node.c"] in after.files && after.files[root + ["talker_2"] + ["node.c"]] == t.talker
      && root + ["listener_1"] + ["node.c"] in after.files && after.files[root + ["listener_1"] + ["node.c"]] == t.listener
  {
    DataflowChildrenDiffer(root);
    var t1, t2, l1 := root + ["talker_1"], root + ["talker_2"], root + ["listener_1"];
    NodeFilesDiffer(t1);
    NodeFilesDiffer(t2);
    NodeFilesDiffer(l1);
    SiblingFilesDiffer(t1, t2);
    SiblingFilesDiffer(t1, l1);
    SiblingFilesDiffer(t2, l1);
  }

  /**
   * Seen as the parts between its `___name___` placeholders, the written
   * `dataflow.yml` is those parts joined by the dataflow's name.
   */
  lemma DataflowYmlNamed(st: FsState, root: Path, name: string, usePathDeps: bool, t: Templates, parts: seq<string>)
    requires SplitsAt(parts, NamePlaceholder) && t.dataflowYml == Join(parts, NamePlaceholder)
    ensures DataflowTree(st, root, name, usePathDeps, t).files[root + ["dataflow.yml"]] == Join(parts, name)
  {
    DataflowTreeFiles(st, root, name, usePathDeps, t);
    ReplaceJoin(parts, NamePlaceholder, name);
  }

  /**
   * Seen as the parts between its `__DORA_PATH__` placeholders, the CMake
   * file is those parts joined by the workspace directory with
   * `use_path_deps`, and by nothing without.
   */
  lemma CmakePathFilled(usePathDeps: bool, t: Templates, parts: seq<string>)
    requires SplitsAt(parts, PathPlaceholder) && t.cmake == Join(parts, PathPlaceholder)
    ensures CmakeContents(usePathDeps, t) == Join(parts, if usePathDeps then t.workspaceDir else "")
  {
    ReplaceJoin(parts, PathPlaceholder, if usePathDeps then t.workspaceDir else "");
  }

  /** The empty name passes the name checks, but its directory cannot be created: nothing changes. */
  lemma EmptyNameFails(st: FsState, usePathDeps: bool, template: string, t: Templates)
    ensures DataflowCommand(st, "", None, usePathDeps, t) == (st, Fail(CreateDirFailed([""])))
    ensures CustomNodeCommand(st, "", None, template, t) == (st, Fail(CreateDirFailed([""])))
  {
    assert CheckName("", DataflowName) == Pass && CheckName("", NodeName) == Pass;
  }

  /** Without a path, a custom node is created in the directory named after it. */
  lemma NodeRootDefaultsToName(st: FsState, name: string, template: string, t: Templates)
    requires CheckName(name, NodeName).Pass? && NodeSlotFree(st, [name])
    ensures CustomNodeCommand(st, name, None, template, t) == (WithNode(st, [name], template, t), Pass)
    ensures [name] in CustomNodeCommand(st, name, None, template, t).0.dirs
    ensures var files := CustomNodeCommand(st, name, None, template, t).0.files;
      [name, "node.c"] in files && files[[name, "node.c"]] == template
  {
    NodeOnFreeSlot(st, [name], template, t);
    NodeFilesDiffer([name]);
    assert [name] + ["node.c"] == [name, "node.c"];
  }

  lemma NodeFilesDiffer(c: Path)
    ensures c + ["node.c"] != c + ["node_api.h"]
  {
    assert (c + ["node.c"])[|c|] == "node.c" && (c + ["node_api.h"])[|c|] == "node_api.h";
  }

  /** The files of two node directories of the same depth that differ are different. */
  lemma SiblingFilesDiffer(a: Path, b: Path)
    requires |a| == |b| && a != b
    ensures a + ["node.c"] != b + ["node.c"] && a + ["node.c"] != b + ["node_api.h"]
  {
    assert (a + ["node.c"])[..|a|] == a && (b + ["node.c"])[..|b|] == b && (b + ["node_api.h"])[..|b|] == b;
  }


  /** The filesystem as the commands see it. */
  class FileSystem {
    var dirs: set<Path>
    var files: map<Path, string>

    /** A filesystem in which only the working directory exists. */
    constructor ()
      ensures dirs == {[]} && files == map[]
    {
      dirs := {[]};
      files := map[];
    }

    function State(): FsState
      reads this
    {
      FsState(dirs, files)
    }

    /** `fs::create_dir`. */
    method CreateDir(p: Path) returns (ok: bool)
      modifies this
      ensures ok == CanCreateDir(old(State()), p)
      ensures State() == if ok then old(State()).(dirs := old(dirs) + {p}) else old(State())
    {
      ok := p != [] && "" !in p && p !in dirs && p !in files && p[..|p| - 1] in dirs;
      if ok {
        dirs := dirs + {p};
      }
    }

    /** `fs::write`. */
    method Write(p: Path, contents: string) returns (ok: bool)
      modifies this
      ensures ok == CanWrite(old(State()), p)
      ensures State() == if ok then old(State()).(files := old(files)[p := contents]) else old(State())
    {
      ok := p != [] && "" !in p && p !in dirs && p[..|p| - 1] in dirs;
      if ok {
        files := files[p := contents];
      }
    }
  }

  /** `create_custom_node`. */
  method CreateCustomNode(fs: FileSystem, name: string, path: Option<Path>, template: string, t: Templates)
    returns (r: Outcome<CreateError>)
    modifies fs
    ensures (fs.State(), r) == CustomNodeCommand(old(fs.State()), name, path, template, t)
  {
    r := CheckName(name, NodeName);
    if r.Fail? {
      return;
    }
    var root := Root(name, path);
    ghost var ops := CustomNodeSteps(root, template, t);
    ghost var st0 := fs.State();
    var ok := fs.CreateDir(root);
    if !ok {
      return Fail(CreateDirFailed(root));
    }
    assert Execute(st0, ops) == Execute(fs.State(), ops[1..]);
    assert ops[1..][0] == WriteFile(root + ["node.c"], template);
    ghost var st1 := fs.State();
    ok := fs.Write(root + ["node.c"], template);
    if !ok {
      return Fail(WriteFailed(root + ["node.c"]));
    }
    assert Execute(st1, ops[1..]) == Execute(fs.State(), ops[1..][1..]);
    assert ops[1..][1..] == [WriteFile(root + ["node_api.h"], t.nodeApiHeader)];
    ghost var st2 := fs.State();
    ok := fs.Write(root + ["node_api.h"], t.nodeApiHeader);
    if !ok {
      return Fail(WriteFailed(root + ["node_api.h"]));
    }
    assert ops[1..][1..][1..] == [];
    assert Execute(st2, ops[1..][1..]) == (fs.State(), Pass);
    r := Pass;
  }

  /** `create_operator`, which `create` no longer reaches. */
  method CreateOperator(fs: FileSystem, name: string, path: Option<Path>, t: Templates) returns (r: Outcome<CreateError>)
    modifies fs
    ensures (fs.State(), r) == OperatorCommand(old(fs.State()), name, path, t)
  {
    r := CheckName(name, OperatorName);
    if r.Fail? {
      return;
    }
    var root := Root(name, path);
    ghost var ops := OperatorSteps(root, t);
    ghost var st0 := fs.State();
    var ok := fs.CreateDir(root);
    if !ok {
      return Fail(CreateDirFailed(root));
    }
    assert Execute(st0, ops) == Execute(fs.State(), ops[1..]);
    assert ops[1..][0] == WriteFile(root + ["operator.c"], t.operator);
    ghost var st1 := fs.State();
    ok := fs.Write(root + ["operator.c"], t.operator);
    if !ok {
      return Fail(WriteFailed(root + ["operator.c"]));
    }
    assert Execute(st1, ops[1..]) == Execute(fs.State(), ops[2..]);
    assert ops[2..][0] == WriteFile(root + ["operator_api.h"], t.operatorApiHeader);
    ghost var st2 := fs.State();
    ok := fs.Write(root + ["operator_api.h"], t.operatorApiHeader);
    if !ok {
      return Fail(WriteFailed(root + ["operator_api.h"]));
    }
    assert Execute(st2, ops[2..]) == Execute(fs.State(), ops[3..]);
    assert ops[3..] == [WriteFile(root + ["operator_types.h"], t.operatorTypesHeader)];
    ghost var st3 := fs.State();
    ok := fs.Write(root + ["operator_types.h"], t.operatorTypesHeader);
    if !ok {
      return Fail(WriteFailed(root + ["operator_types.h"]));
    }
    assert ops[3..][1..] == [];
    assert Execute(st3, ops[3..]) == (fs.State(), Pass);
    r := Pass;
  }

  /** `create_cmakefile`. */
  method CreateCmakefile(fs: FileSystem, root: Path, usePathDeps: bool, t: Templates) returns (r: Outcome<CreateError>)
    modifies fs
    ensures (fs.State(), r) == Execute(old(fs.State()), [WriteFile(root + ["CMakeLists.txt"], CmakeContents(usePathDeps, t))])
  {
    var cmakeFile;
    if usePathDeps {
      cmakeFile := Replace(t.cmake, PathPlaceholder, t.workspaceDir);
    } else {
      cmakeFile := Replace(t.cmake, PathPlaceholder, "");
    }
    var cmakePath := root + ["CMakeLists.txt"];
    var ok := fs.Write(cmakePath, cmakeFile);
    if !ok {
      return Fail(WriteFailed(cmakePath));
    }
    r := Pass;
  }

  /** `create_dataflow`. */
  method CreateDataflow(fs: FileSystem, name: string, path: Option<Path>, usePathDeps: bool, t: Templates)
    returns (r: Outcome<CreateError>)
    modifies fs
    ensures (fs.State(), r) == DataflowCommand(old(fs.State()), name, path, usePathDeps, t)
  {
    r := CheckName(name, DataflowName);
    if r.Fail? {
      return;
    }
    var root := Root(name, path);
    ghost var start := fs.State();
    ghost var head := [MakeDir(root), WriteFile(root + ["dataflow.yml"], Replace(t.dataflowYml, NamePlaceholder, name))];
    ghost var p2 := head + CustomNodeSteps(root + ["talker_1"], t.talker, t);
    ghost var p3 := p2 + CustomNodeSteps(root + ["talker_2"], t.talker, t);
    ghost var p4 := p3 + CustomNodeSteps(root + ["listener_1"], t.listener, t);
    ghost var all := p4 + [WriteFile(root + ["CMakeLists.txt"], CmakeContents(usePathDeps, t))];
    assert DataflowSteps(root, name, usePathDeps, t) == all;
    SubNodeNamesValid();

    var ok := fs.CreateDir(root);
    if !ok {
      return Fail(CreateDirFailed(root));
    }
    var dataflowYml := Replace(t.dataflowYml, NamePlaceholder, name);
    var dataflowYmlPath := root + ["dataflow.yml"];
    ghost var st1 := fs.State();
    ok := fs.Write(dataflowYmlPath, dataflowYml);
    if !ok {
      assert Execute(start, head) == (fs.State(), Fail(WriteFailed(dataflowYmlPath))) by {
        assert head[1..][0] == head[1];
      }
      assert head <= all;
      ExecuteStops(start, head, all);
      return Fail(WriteFailed(dataflowYmlPath));
    }
    assert Execute(start, head) == (fs.State(), Pass) by {
      assert Execute(start, head) == Execute(st1, head[1..]);
      assert head[1..][0] == head[1] && head[1..][1..] == [];
      assert Execute(st1, head[1..]) == Execute(fs.State(), []);
    }
    r := CreateCustomNode(fs, "talker_1", Some(root + ["talker_1"]), t.talker, t);
    ExecuteAppend(start, head, p2[|head|..]);
    assert p2 == head + p2[|head|..];
    if r.Fail? {
      assert p2 <= all;
      ExecuteStops(start, p2, all);
      return;
    }
    r := CreateCustomNode(fs, "talker_2", Some(root + ["talker_2"]), t.talker, t);
    ExecuteAppend(start, p2, p3[|p2|..]);
    assert p3 == p2 + p3[|p2|..];
    if r.Fail? {
      assert p3 <= all;
      ExecuteStops(start, p3, all);
      return;
    }
    r := CreateCustomNode(fs, "listener_1", Some(root + ["listener_1"]), t.listener, t);
    ExecuteAppend(start, p3, p4[|p3|..]);
    assert p4 == p3 + p4[|p3|..];
    if r.Fail? {
      ExecuteAppend(start, p4, all[|p4|..]);
      assert all == p4 + all[|p4|..];
      return;
    }
    r := CreateCmakefile(fs, root, usePathDeps, t);
    ExecuteAppend(start, p4, all[|p4|..]);
    assert all == p4 + all[|p4|..];
  }

  /** The sub-node names of a dataflow pass the node name checks. */
  lemma SubNodeNamesValid()
    ensures CheckName("talker_1", NodeName) == Pass
    ensures CheckName("talker_2", NodeName) == Pass
    ensures CheckName("listener_1", NodeName) == Pass
  {
  }

  /** `create`: the entry point of `dora new --lang c`. */
  method Create(fs: FileSystem, kind: Kind, name: string, path: Option<Path>, usePathDeps: bool, t: Templates)
    returns (r: Outcome<CreateError>)
    modifies fs
    ensures (fs.State(), r) == CreateCommand(old(fs.State()), kind, name, path, usePathDeps, t)
  {
    match kind
    case Operator =>
      r := Fail(OperatorsDeprecated);
    case CustomNode =>
      r := CreateCustomNode(fs, name, path, t.node, t);
    case Dataflow =>
      r := CreateDataflow(fs, name, path, usePathDeps, t);
  }
}
