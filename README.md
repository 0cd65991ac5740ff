# dora core logic in Dafny

This project models six small pieces of the dora dataflow framework and proves properties of them.

- **Validate**: the validator that a resolved dataflow descriptor passes before it is spawned (`check_dataflow` and `check_input`). It runs three passes, stopping at the first failure:
  1. node and operator sources;
  2. input mappings;
  3. `send_stdout_as`.

  After these, it checks the Python runtime, but only when some operator is written in Python.
- **EventStream**: the node side of the event stream.
  - The background thread asks the daemon for batches of events. It hands back drop tokens and forwards events to the node.
  - `recv_common` turns what the node receives into the user-facing `Event`.
- **TcpFraming**: the coordinator's length-prefixed TCP framing. A frame is an 8-byte little-endian `u64` length followed by the payload.
- **CTemplate**: `dora new --lang c`.
  - Name checks.
  - `str::replace` of the `___name___` and `__DORA_PATH__` placeholders.
  - The steps that create a dataflow or a custom node. They run against a filesystem made of a set of directories and a map from paths to file contents.
- **LibraryName**: `library_filename` of the C++ example's build script. The result is the platform prefix, the name, then the platform suffix.
- **PythonNode**: the loop of the mixed-language example's Python node. It reads at most 100 events, answers each `INPUT`, and stops at `STOP` or at any other event type.

Shared modules:
- `Wrappers` holds the `Option`, `Outcome` and `Result` types.
- `Bytes` holds the `byte` type.

Code that changes state is modelled as imperative Dafny:
- The `for` loops of `check_dataflow` with their `has_python_operator` flag.
- The background loop with its `tx`, `drop_tokens` and `'outer` loop.
- The header and payload reads of `tcp_receive` into preallocated buffers.
- The `create_*` functions over a `FileSystem` object.
- The three pushes of `library_filename`.
- The Python `for` loop over a `Node` object.

Each method's postcondition ties its result, or the new state, to a specification function. The lemmas then state the properties of that function.

Environment facts are inputs of the model:
- In `Validate`, what the real code learns from the filesystem, from URL parsing, from path resolution and from the Python installation is an `Environment` of oracle sets and flags.
- In `EventStream`, the rendezvous channel sends and the acknowledgement-channel outcomes of each event are a `Delivery` per event.
- The shared-memory mapping is a function parameter `mapShm`.
- In `CTemplate`, the template texts embedded with `include_str!` and the workspace directory are a `Templates` parameter.

## Model

| member | source | states |
|---|---|---|
| Validate.FindNode | libraries/core/src/descriptor/validate.rs:176 | None exactly when no node has the id; otherwise the first node with that id |
| Validate.FindOperator | libraries/core/src/descriptor/validate.rs:193-197 | None exactly when no operator has the id; otherwise the first operator with that id |
| Validate.SplitOnce | libraries/core/src/descriptor/validate.rs:189 | with a `/`, the text is the part before the first `/`, the `/`, then the rest, and the first part has no `/`; without one, both parts are empty |
| Validate.FirstIndexOf | libraries/core/src/descriptor/validate.rs:189 | the index of the first occurrence of the separator |
| Validate.CheckInput | libraries/core/src/descriptor/validate.rs:168-215 | `check_input` over one mapping: timers pass; a user mapping needs its source node and, through the split at the first `/` for a runtime node, the operator and its output, each failure with its own error; its cases are stated by the four lemmas below |
| Validate.TimerInputAccepted | libraries/core/src/descriptor/validate.rs:174 | a timer input always passes `check_input` |
| Validate.MissingSourceNodeRejected | libraries/core/src/descriptor/validate.rs:176-178 | an input whose source node does not exist is rejected with the source-node-missing error |
| Validate.CustomSourceInput | libraries/core/src/descriptor/validate.rs:180-186 | with a custom source node, the input passes iff that node declares the output |
| Validate.RuntimeSourceInput | libraries/core/src/descriptor/validate.rs:188-209 | with a runtime source node, the input passes iff the first operator whose id is the text before the first `/` declares the output after it |
| Validate.IsLocal | libraries/core/src/descriptor/validate.rs:25-30 | local means at most one distinct deploy machine; `IsLocalIffOneMachine` states it as all nodes sharing a machine |
| Validate.IsLocalIffOneMachine | libraries/core/src/descriptor/validate.rs:25-30 | the dataflow is local iff all nodes are deployed on the same machine |
| Validate.CustomSourceCheck | libraries/core/src/descriptor/validate.rs:35-57 | a custom node's source: shell and dynamic sources and URLs pass; locally the path must resolve; remotely it must be absolute |
| Validate.OperatorsSourceCheck | libraries/core/src/descriptor/validate.rs:59-128 | a runtime node's operators, in order until one fails; `OperatorsSourceCheckAll` states it |
| Validate.NodeSourceCheck | libraries/core/src/descriptor/validate.rs:33-130 | one node of the first pass: its custom source, or its operators; `SourcesCheckFirstFailure` uses it |
| Validate.OperatorSourceCheck | libraries/core/src/descriptor/validate.rs:59-127 | one operator's shared-library, Python or Wasm source: URLs pass; locally the adjusted library path or the file must exist; remotely the path must be absolute, each failure with its own error |
| Validate.SourcesCheck | libraries/core/src/descriptor/validate.rs:32-131 | the first pass, node by node until the first failure; `SourcesCheckFirstFailure` states it |
| Validate.SourcesCheckFirstFailure | libraries/core/src/descriptor/validate.rs:32-131 | the source pass succeeds iff every node's source check passes; on failure its error is that of the first failing node |
| Validate.OperatorsSourceCheckAll | libraries/core/src/descriptor/validate.rs:59-128 | a runtime node's sources pass iff each of its operators passes |
| Validate.RemoteRelativePathRejected | libraries/core/src/descriptor/validate.rs:46-53 | on a distributed deployment, a relative non-URL node path rejects the dataflow; so does a relative shared-library, Python or Wasm path (also lines 69-76, 92-99 and 113-120) |
| Validate.RemoteAbsolutePathAccepted | libraries/core/src/descriptor/validate.rs:46-55 | on a distributed deployment, an absolute node or operator path is accepted (also lines 69-81, 92-104 and 113-125) |
| Validate.RemoteSourcesIgnoreFilesystem | libraries/core/src/descriptor/validate.rs:46-55 | on a distributed deployment, the source pass gives the same outcome whatever exists on the local filesystem |
| Validate.RemoteOperatorsIgnoreFilesystem | libraries/core/src/descriptor/validate.rs:69-125 | likewise for a runtime node's operators |
| Validate.UncheckedSourcesPass | libraries/core/src/descriptor/validate.rs:36-41 | shell and dynamic sources, and URL sources of nodes and operators (lines 62-63, 86-87, 107-108), pass the source pass, locally or not |
| Validate.EntriesCheckAll | libraries/core/src/descriptor/validate.rs:137-139 | a list of inputs passes iff each input passes `check_input` under its prefixed name; otherwise the error is that of the first failing input |
| Validate.OperatorsInputsCheckAll | libraries/core/src/descriptor/validate.rs:142-150 | a runtime node's inputs pass iff every operator's inputs pass; otherwise the error is that of the first failing operator |
| Validate.InputsCheck | libraries/core/src/descriptor/validate.rs:133-153 | the second pass, node by node until the first failing input; `InputsCheckAll`, `OperatorsInputsCheckAll` and `EntriesCheckAll` state that it passes iff every input passes and otherwise returns the first failing input's error |
| Validate.EntriesCheck | libraries/core/src/descriptor/validate.rs:137-139 | the inputs of one node or operator, in order until one fails; `EntriesCheckAll` states it |
| Validate.NodeInputPrefix | libraries/core/src/descriptor/validate.rs:138 | a custom node's input is named `node/input` in errors |
| Validate.OperatorInputPrefix | libraries/core/src/descriptor/validate.rs:147 | an operator's input is named `operator/node/input` in errors |
| Validate.OperatorsInputsCheck | libraries/core/src/descriptor/validate.rs:142-150 | a runtime node's operators, in order until one fails; `OperatorsInputsCheckAll` states it |
| Validate.NodeInputsCheck | libraries/core/src/descriptor/validate.rs:134-152 | one node of the second pass; `InputsCheckAll` uses it |
| Validate.StdoutCheck | libraries/core/src/descriptor/validate.rs:155-159 | the third pass: the first node whose `send_stdout_as` does not resolve fails it; `StdoutCheckFirstFailure` states it |
| Validate.StdoutCheckFirstFailure | libraries/core/src/descriptor/validate.rs:155-159 | the pass succeeds iff every node's `send_stdout_as` resolves; otherwise its error names the first node whose setting does not |
| Validate.DataflowCheck | libraries/core/src/descriptor/validate.rs:17-166 | `check_dataflow`: the three passes in order, then the Python runtime when a Python operator exists; its properties are the lemmas of this module |
| Validate.HasPythonOperator | libraries/core/src/descriptor/validate.rs:84 | the flag the first pass sets at a Python operator; `HasPythonOperatorIff` states it |
| Validate.InputsCheckAll | libraries/core/src/descriptor/validate.rs:134-153 | the input pass succeeds iff every node's inputs pass; otherwise the error is that of the first failing node |
| Validate.InputsPassIffAllValid | libraries/core/src/descriptor/validate.rs:133-153 | the input pass succeeds iff every input of every custom node and every operator passes `check_input` |
| Validate.AcceptedDataflowHasValidInputs | libraries/core/src/descriptor/validate.rs:133-153 | an accepted dataflow has every input mapped to an existing output |
| Validate.HasPythonOperatorIff | libraries/core/src/descriptor/validate.rs:84 | the flag is raised iff some runtime node has an operator with a Python source |
| Validate.OperatorsHavePythonIff | libraries/core/src/descriptor/validate.rs:83-84 | within one runtime node, the flag is raised iff one of its operators is Python |
| Validate.PythonRuntimeGated | libraries/core/src/descriptor/validate.rs:161-163 | without a Python operator, the runtime's state does not change the verdict; with one, an otherwise accepted dataflow is rejected iff the runtime is unusable |
| Validate.StdoutIgnoresPython | libraries/core/src/descriptor/validate.rs:156-159 | the `send_stdout_as` pass depends only on which nodes resolve |
| Validate.SourcesIgnorePython | libraries/core/src/descriptor/validate.rs:32-131 | the source pass does not consult the Python runtime |
| Validate.OperatorsIgnorePython | libraries/core/src/descriptor/validate.rs:59-128 | likewise for one runtime node's operators |
| Validate.CheckSources | libraries/core/src/descriptor/validate.rs:32-131 | the first pass's loops give the source pass's outcome; when they pass, the flag says whether a Python operator was seen |
| Validate.CheckInputs | libraries/core/src/descriptor/validate.rs:133-153 | the second pass's nested loops give the input pass's outcome |
| Validate.CheckStdout | libraries/core/src/descriptor/validate.rs:155-159 | the third pass's loop fails at the first node whose `send_stdout_as` does not resolve |
| Validate.CheckDataflow | libraries/core/src/descriptor/validate.rs:17-166 | `check_dataflow` gives the outcome of the three passes in order, stopping at the first failure, then the Python runtime check |
| EventStream.RecvCommon | apis/rust/node/src/daemon_connection/event_stream.rs:163-219 | None iff the channel is disconnected; an error event iff the item is a fatal error, an internal event, or a shared-memory input whose mapping fails; the texts of the fatal and internal errors |
| EventStream.ControlEventsPassThrough | apis/rust/node/src/daemon_connection/event_stream.rs:173-175 | `Stop`, `Reload` and `InputClosed` reach the node with the same fields |
| EventStream.InputsPassThrough | apis/rust/node/src/daemon_connection/event_stream.rs:176-196 | an input without data or with inline data keeps its id, metadata and bytes; shared memory arrives mapped with the event's acknowledgement channel, or as an error when mapping fails |
| EventStream.Step | apis/rust/node/src/daemon_connection/event_stream.rs:62-124 | one event: `AllInputsClosed` closes `tx`, `OutputDropped` reports its token, any other event is skipped with `tx` closed, ends the loop when the node hung up, and otherwise is forwarded and its acknowledgement outcome handled |
| EventStream.DaemonData.DropTokenOf | apis/rust/node/src/daemon_connection/event_stream.rs:63-66 | only shared-memory data carries a drop token |
| EventStream.TokenOf | apis/rust/node/src/daemon_connection/event_stream.rs:63-85 | an event's drop token: that of its shared-memory data, and none for any other event |
| EventStream.NodeEvent.IsInternal | apis/rust/node/src/daemon_connection/event_stream.rs:67-83 | `AllInputsClosed` and `OutputDropped` are handled by the loop and never forwarded |
| EventStream.Batch | apis/rust/node/src/daemon_connection/event_stream.rs:62-125 | the inner loop: steps until one breaks the loop; `BatchSplit`, `BatchDelivers` and the other batch lemmas state it |
| EventStream.Run | apis/rust/node/src/daemon_connection/event_stream.rs:41-126 | the `'outer` loop: take the pending tokens into a request, then end, retry or handle the batch |
| EventStream.Report | apis/rust/node/src/daemon_connection/event_stream.rs:127-139 | a failed loop reports its error as `FatalError` only while `tx` is open and the node takes it |
| EventStream.EventLoop | apis/rust/node/src/daemon_connection/event_stream.rs:39-139 | the whole thread from its initial state; `NodeNeverSeesInternalEvents`, `EventLoopDelivers` and `AckMessageEndsLoop` state it |
| EventStream.BatchSplit | apis/rust/node/src/daemon_connection/event_stream.rs:62-125 | handling a batch in two parts is handling it whole, unless the first part breaks the loop |
| EventStream.ClosedStreamDeliversNothing | apis/rust/node/src/daemon_connection/event_stream.rs:87-124 | with `tx` closed, a batch forwards nothing, collects no token and does not break the loop |
| EventStream.AllInputsClosedCutsOff | apis/rust/node/src/daemon_connection/event_stream.rs:67-72 | `AllInputsClosed` is not forwarded; nothing after it in the batch is forwarded; and `tx` is closed afterwards |
| EventStream.ClosedRunDeliversNothing | apis/rust/node/src/daemon_connection/event_stream.rs:41-126 | once `tx` is closed, no later batch forwards anything, and the loop cannot end in an error |
| EventStream.BatchForwards | apis/rust/node/src/daemon_connection/event_stream.rs:87-98 | every item a batch forwards is a non-internal event with its own acknowledgement channel |
| EventStream.RunForwards | apis/rust/node/src/daemon_connection/event_stream.rs:41-126 | the same holds over the whole loop |
| EventStream.NodeNeverSeesInternalEvents | apis/rust/node/src/daemon_connection/event_stream.rs:62-138 | the node never receives `AllInputsClosed` or `OutputDropped`; a fatal error comes only last, only after a failed run, and only while `tx` is open |
| EventStream.ForwardedEventsAreNotInternalErrors | apis/rust/node/src/daemon_connection/event_stream.rs:198-215 | a forwarded item becomes an error event only if it is a fatal error or a shared-memory input |
| EventStream.OutputDroppedIsReported | apis/rust/node/src/daemon_connection/event_stream.rs:73-83 | the tokens of `OutputDropped` events that the finished-drop-token channel accepts are appended to it, in order |
| EventStream.DropTokensCollectedOnDisconnect | apis/rust/node/src/daemon_connection/event_stream.rs:101-118 | pending tokens grow by exactly the tokens of forwarded events whose acknowledgement channel was dropped; a timed-out event's token is leaked |
| EventStream.StepCollects | apis/rust/node/src/daemon_connection/event_stream.rs:87-118 | one forwarded event that does not break the loop keeps `tx` open and adds its collected token |
| EventStream.BatchKeepsRequests | apis/rust/node/src/daemon_connection/event_stream.rs:62-125 | handling a batch sends no request |
| EventStream.RunKeepsRequests | apis/rust/node/src/daemon_connection/event_stream.rs:41-61 | the loop only appends to the requests it has sent |
| EventStream.RequestCarriesPendingTokens | apis/rust/node/src/daemon_connection/event_stream.rs:42-44 | the first request the loop sends carries every pending drop token, and requests already sent stay as they were |
| EventStream.PendingTokensTaken | apis/rust/node/src/daemon_connection/event_stream.rs:42-44 | the pending list is emptied by each request: the next request carries exactly the tokens collected in the batch between, or none after any other reply |
| EventStream.ReplyOutcomes | apis/rust/node/src/daemon_connection/event_stream.rs:45-61 | an empty batch ends the loop successfully; an unexpected reply or a failed request makes the loop ask again |
| EventStream.AckMessageIsFatal | apis/rust/node/src/daemon_connection/event_stream.rs:101-106 | a message on a forwarded event's acknowledgement channel breaks the loop with the fatal error, after the event was delivered |
| EventStream.AckMessageFailsBatch | apis/rust/node/src/daemon_connection/event_stream.rs:87-106 | the same inside a batch, whatever came before it, with `tx` still open |
| EventStream.AckMessageEndsLoop | apis/rust/node/src/daemon_connection/event_stream.rs:101-138 | the whole thread then fails with that error, and the node receives it as the last item |
| EventStream.ForwardedItems | apis/rust/node/src/daemon_connection/event_stream.rs:62-118 | the items a batch forwards to a node that takes them: each non-internal event in order, as a `NodeEvent` item with its own acknowledgement channel, up to the first `AllInputsClosed` |
| EventStream.BatchDelivers | apis/rust/node/src/daemon_connection/event_stream.rs:62-125 | a batch that goes on from an open `tx` delivers exactly `ForwardedItems`, nothing lost or twice, and leaves `tx` open iff it holds no `AllInputsClosed` |
| EventStream.StepDelivers | apis/rust/node/src/daemon_connection/event_stream.rs:87-118 | one event other than `AllInputsClosed` that does not break the loop keeps `tx` open and is delivered unless internal |
| EventStream.NodeHangUpEndsBatch | apis/rust/node/src/daemon_connection/event_stream.rs:87-98 | when the node no longer takes events, the loop ends successfully there and neither that event nor any later one is forwarded |
| EventStream.RunItems | apis/rust/node/src/daemon_connection/event_stream.rs:41-126 | what a node that takes every event receives: each batch's forwarded items in turn, up to the first empty batch or the batch with `AllInputsClosed` |
| EventStream.RunDelivers | apis/rust/node/src/daemon_connection/event_stream.rs:41-126 | with such a node, the loop delivers exactly `RunItems` and never fails |
| EventStream.EventLoopDelivers | apis/rust/node/src/daemon_connection/event_stream.rs:39-139 | the whole thread: such a node receives every non-internal event in the order the daemon sent it, and no fatal error |
| EventStream.ForwardBatch | apis/rust/node/src/daemon_connection/event_stream.rs:62-125 | the inner loop over one batch ends in the state and control that the batch specification gives |
| EventStream.BackgroundLoop | apis/rust/node/src/daemon_connection/event_stream.rs:39-139 | the background thread ends in the state and result of the loop specification, including the final fatal-error report |
| TcpFraming.LeBytes | binaries/coordinator/src/tcp_utils.rs:8 | encoding gives exactly `width` bytes |
| TcpFraming.FromLeBytes | binaries/coordinator/src/tcp_utils.rs:20 | `u64::from_le_bytes`; `DecodeEncode` and `EncodeDecode` make it the inverse of `LeBytes` |
| TcpFraming.DecodeEncode | binaries/coordinator/src/tcp_utils.rs:8 | little-endian decoding inverts encoding for every value that fits the width (line 20) |
| TcpFraming.EncodeDecode | binaries/coordinator/src/tcp_utils.rs:20 | every byte sequence is the encoding of its decoded value |
| TcpFraming.Header | binaries/coordinator/src/tcp_utils.rs:8 | the header is 8 bytes long |
| TcpFraming.Frame | binaries/coordinator/src/tcp_utils.rs:8-10 | the bytes `tcp_send` writes: header, then message; `FrameLayout` states its layout |
| TcpFraming.FrameLayout | binaries/coordinator/src/tcp_utils.rs:8-10 | a frame is 8 + length bytes, its tail is the unchanged message, and its header decodes to the length |
| TcpFraming.DecodeFrame | binaries/coordinator/src/tcp_utils.rs:16-25 | receiving fails iff the stream ends inside the header or inside the declared payload; otherwise the stream is header, payload of the declared length, then the rest |
| TcpFraming.ReceiveAfterSend | binaries/coordinator/src/tcp_utils.rs:6-25 | from a stream that starts with the frame of `m`, receiving gives `m` and leaves exactly what follows |
| TcpFraming.DecodeFrames | binaries/coordinator/src/tcp_utils.rs:16-25 | repeated receives give exactly the requested number of messages |
| TcpFraming.FramesDecodeInOrder | binaries/coordinator/src/tcp_utils.rs:17-23 | consecutive frames are received in order |
| TcpFraming.Connection.constructor | binaries/coordinator/src/tcp_utils.rs:16 | a connection starts with the peer's bytes unread and nothing written |
| TcpFraming.Connection.WriteAll | binaries/coordinator/src/tcp_utils.rs:9-10 | `write_all` appends the buffer to what was written |
| TcpFraming.Connection.ReadExact | binaries/coordinator/src/tcp_utils.rs:19 | `read_exact` succeeds iff enough bytes remain; on success it fills the buffer with the next bytes and consumes them, otherwise the stream is used up (also line 23) |
| TcpFraming.TcpSend | binaries/coordinator/src/tcp_utils.rs:6-14 | `tcp_send` writes exactly the frame of the message |
| TcpFraming.TcpReceive | binaries/coordinator/src/tcp_utils.rs:16-25 | `tcp_receive` succeeds iff the stream holds a whole frame; it returns the payload and leaves the rest, and otherwise fails with an unexpected end of file |
| CTemplate.CheckName | binaries/cli/src/template/c/mod.rs:37-42 | a `/` is rejected first, then (for operators, lines 72-80) a `-`, then non-ASCII (also lines 131-136); the name passes iff none of these applies |
| CTemplate.Replace | binaries/cli/src/template/c/mod.rs:49 | `str::replace`, also at lines 113 and 115: leftmost, non-overlapping occurrences; `NoMatchIsIdentity`, `ReplaceSkips` and `ReplaceJoin` state it |
| CTemplate.CmakeContents | binaries/cli/src/template/c/mod.rs:110-116 | the CMake template with `__DORA_PATH__` filled by the workspace directory or by nothing; `CmakePathFilled` states it |
| CTemplate.CanCreateDir | binaries/cli/src/template/c/mod.rs:46 | when `create_dir` succeeds: a non-empty path without empty components, nothing there yet, and a directory as parent |
| CTemplate.CanWrite | binaries/cli/src/template/c/mod.rs:51 | when `write` succeeds: a path without empty components that is not a directory, below a directory |
| CTemplate.Execute | binaries/cli/src/template/c/mod.rs:44-57 | the steps in order, each `?` aborting at the first failure with the earlier effects kept; `ExecuteAppend` and `ExecuteStops` state it |
| CTemplate.Root | binaries/cli/src/template/c/mod.rs:45 | the given path, or else the name as a relative path (also lines 83 and 139) |
| CTemplate.CustomNodeSteps | binaries/cli/src/template/c/mod.rs:140-148 | the node's directory, `node.c` with the template, then `node_api.h`; `CustomNodeCreatesRoot` and `NodeOnFreeSlot` state it |
| CTemplate.OperatorSteps | binaries/cli/src/template/c/mod.rs:84-95 | the operator's directory, `operator.c`, `operator_api.h`, then `operator_types.h` |
| CTemplate.DataflowSteps | binaries/cli/src/template/c/mod.rs:46-57 | root, `dataflow.yml`, the three nodes, then `CMakeLists.txt`; `DataflowStepsShape` and `DataflowStepsOnFreeSlots` state it |
| CTemplate.NoMatchIsIdentity | binaries/cli/src/template/c/mod.rs:49 | `replace` leaves a text without the placeholder unchanged |
| CTemplate.ReplaceSkips | binaries/cli/src/template/c/mod.rs:49 | a prefix with no occurrence starting in it is copied through unchanged |
| CTemplate.ReplaceJoin | binaries/cli/src/template/c/mod.rs:49 | a text made of parts separated by the placeholder becomes the same parts separated by the replacement |
| CTemplate.CreatedDirsAppend | binaries/cli/src/template/c/mod.rs:30-65 | the directories of two step lists are those of the first, then those of the second |
| CTemplate.CustomNodeCreatesRoot | binaries/cli/src/template/c/mod.rs:139-148 | a custom node creates its root directory and no other |
| CTemplate.DataflowStepsShape | binaries/cli/src/template/c/mod.rs:54-57 | a dataflow creates, in order, the root, then `talker_1`, `talker_2` and `listener_1` under it, and its last step writes `CMakeLists.txt` |
| CTemplate.ExecuteAppend | binaries/cli/src/template/c/mod.rs:44-57 | two step lists run one after the other, and a failure in the first skips the second |
| CTemplate.ExecuteStops | binaries/cli/src/template/c/mod.rs:44-57 | once a prefix of the steps fails, the whole list fails the same way |
| CTemplate.ExecuteThree | binaries/cli/src/template/c/mod.rs:44-57 | three step lists that each succeed also succeed together |
| CTemplate.CustomNodeCommand | binaries/cli/src/template/c/mod.rs:126-158 | `create_custom_node`: the name checks, then its directory and two files |
| CTemplate.OperatorCommand | binaries/cli/src/template/c/mod.rs:69-105 | `create_operator`: the operator name checks, then its directory and three files |
| CTemplate.DataflowCommand | binaries/cli/src/template/c/mod.rs:30-65 | `create_dataflow`: the name checks, then root, `dataflow.yml`, three nodes and the CMake file |
| CTemplate.CreateCommand | binaries/cli/src/template/c/mod.rs:13-28 | `create`: operators refused, the other kinds dispatched; `CreateOutcomes` states it |
| CTemplate.CreateOutcomes | binaries/cli/src/template/c/mod.rs:13-28 | the operator kind is refused and the filesystem is untouched; a name that fails its checks leaves the filesystem untouched; a valid dataflow runs exactly its steps |
| CTemplate.NodeOnFreeSlot | binaries/cli/src/template/c/mod.rs:139-148 | where the node's places are free, a custom node creates its directory, `node.c` and `node_api.h` |
| CTemplate.FreshSlots | binaries/cli/src/template/c/mod.rs:44-57 | a fresh root under an existing directory leaves every place the dataflow fills free |
| CTemplate.DataflowStepsOnFreeSlots | binaries/cli/src/template/c/mod.rs:44-57 | on free places, the dataflow's steps all succeed and lay out exactly the project tree |
| CTemplate.DataflowOnFreshRoot | binaries/cli/src/template/c/mod.rs:30-65 | with a valid name and a fresh root whose parent exists, `create_dataflow` succeeds and lays out exactly the project tree |
| CTemplate.DataflowTreeKeeps | binaries/cli/src/template/c/mod.rs:44-57 | the tree adds exactly the root and its three node directories, and keeps every existing file as it was |
| CTemplate.DataflowTreeFiles | binaries/cli/src/template/c/mod.rs:49-57 | the tree holds `dataflow.yml` with the name substituted, and the CMake file |
| CTemplate.DataflowTreeSources | binaries/cli/src/template/c/mod.rs:54-56 | each node directory holds its template's `node.c` |
| CTemplate.DataflowYmlNamed | binaries/cli/src/template/c/mod.rs:49-52 | the written `dataflow.yml` is the template's parts with every `___name___` replaced by the name |
| CTemplate.CmakePathFilled | binaries/cli/src/template/c/mod.rs:110-116 | the CMake file is the template's parts joined by the workspace directory with `use_path_deps`, otherwise by the empty string |
| CTemplate.NodeRootDefaultsToName | binaries/cli/src/template/c/mod.rs:139-145 | without a path, a custom node is created in the directory named after it |
| CTemplate.EmptyNameFails | binaries/cli/src/template/c/mod.rs:45-47 | the empty name passes the name checks, but with no path its directory cannot be created (also line 140), and nothing changes |
| CTemplate.SubNodeNamesValid | binaries/cli/src/template/c/mod.rs:54-56 | the three sub-node names pass the node name checks |
| CTemplate.FileSystem.constructor | binaries/cli/src/template/c/mod.rs:44-47 | initially only the working directory exists |
| CTemplate.FileSystem.CreateDir | binaries/cli/src/template/c/mod.rs:46 | `create_dir` succeeds iff nothing exists at the path and its parent is a directory, and then adds exactly that directory |
| CTemplate.FileSystem.Write | binaries/cli/src/template/c/mod.rs:51 | `write` succeeds iff the path is not a directory and its parent is one, and then sets exactly that file |
| CTemplate.CreateCustomNode | binaries/cli/src/template/c/mod.rs:126-158 | `create_custom_node` leaves the filesystem and outcome of the name checks followed by its steps, and stops at the first failure |
| CTemplate.CreateOperator | binaries/cli/src/template/c/mod.rs:69-105 | `create_operator` likewise, with the operator name checks and its three files |
| CTemplate.CreateCmakefile | binaries/cli/src/template/c/mod.rs:107-124 | `create_cmakefile` writes `CMakeLists.txt` under the root with the placeholder filled |
| CTemplate.CreateDataflow | binaries/cli/src/template/c/mod.rs:30-65 | `create_dataflow` leaves the filesystem and outcome of its name checks and steps, including after a failed sub-step |
| CTemplate.Create | binaries/cli/src/template/c/mod.rs:13-28 | `create` refuses operators and dispatches nodes and dataflows |
| LibraryName.LibraryStem | examples/c++-dataflow/run.rs:155-162 | a recovered stem, wrapped in the platform's prefix and suffix, gives back the file name |
| LibraryName.LibraryFilename | examples/c++-dataflow/run.rs:155-162 | the file name is as long as name, prefix and suffix together; it starts with the prefix, the name follows unchanged, and it ends with the suffix; the stem of the result is the name |
| LibraryName.LibraryStemInjective | examples/c++-dataflow/run.rs:155-162 | distinct names give distinct file names on every platform |
| PythonNode.Respond | examples/mix-dataflow/python-node.py:9 | the answer goes to port `random` with data `random` and the input's own metadata |
| PythonNode.RunScript | examples/mix-dataflow/python-node.py:5-15 | the loop over the events the runtime delivers, with the iterations left: requests made, outputs sent, how it ends; `RunScriptShape` states it |
| PythonNode.RunScriptShape | examples/mix-dataflow/python-node.py:5-15 | at most the budget of events is requested; the outputs answer the leading inputs one by one, in order; a break comes right after the `STOP`, the unexpected event or the end of events, and nothing is requested after it |
| PythonNode.StopsAtFirstStop | examples/mix-dataflow/python-node.py:10-12 | the loop ends at the first `STOP` after one output per earlier input |
| PythonNode.Node.constructor | examples/mix-dataflow/python-node.py:3 | the handle starts with all events pending, and nothing requested or sent |
| PythonNode.Node.Next | examples/mix-dataflow/python-node.py:6 | `next()` hands out the next event, or None after the last, and counts the request |
| PythonNode.Node.SendOutput | examples/mix-dataflow/python-node.py:9 | `send_output` appends exactly one output |
| PythonNode.AfterInput | examples/mix-dataflow/python-node.py:8-9 | answering an input moves one request and one output from the rest of the run to what is done |
| PythonNode.BreakAt | examples/mix-dataflow/python-node.py:10-15 | a request that is not an input ends the run with the outputs sent so far |
| PythonNode.BudgetExit | examples/mix-dataflow/python-node.py:5 | with the budget spent, the run ends as it stands |
| PythonNode.RunLoop | examples/mix-dataflow/python-node.py:5-15 | the loop leaves the handle as the script specification says: requests made, outputs sent, events left and how it ended |
| PythonNode.RunPythonNode | examples/mix-dataflow/python-node.py:1-15 | the script is that loop with a budget of 100 events |

## Left out

- `check_python_runtime` spawns a Python process. It is the flag `pythonRuntimeOk`.
- `resolve_path`, `Path::exists`, `adjust_shared_library_path`, `source_is_url` and `source_to_path(..).is_relative()` touch the filesystem or parse URLs. They are the oracle sets of `Environment`.
- `resolve_aliases_and_set_defaults` is not part of this model; its `?` error path is not modelled. The model starts from the resolved nodes.
- `send_stdout_as` is not part of this model. It is the oracle set `stdoutResolvable`.
- The values of `SHELL_SOURCE` and `DYNAMIC_SOURCE` are taken as `"shell"` and `"dynamic"`. `descriptor/mod.rs` is not part of this model.
- Input maps are `BTreeMap`s. Their iteration order is taken as the order of the sequence that holds the entries.
- Error values are data constructors. The texts of the `eyre` messages and their contexts are left out, except the constant texts of `recv_common`'s fatal and internal errors.
- `info!`, `warn!`, `error!` and `println!` logging is left out everywhere.
- Threads, the `flume` channels and `recv_timeout` are left out. Each event's send outcome and acknowledgement outcome is an input (`Delivery`); the 30-second timeout is the `AckTimeout` outcome.
- The thread handle, `recv` and `recv_async` are left out.
- Daemon request and reply are a finite list of `Reply` inputs. When the list runs out, the loop ends as `Unfinished`; the real loop would keep asking.
- The unsafe shared-memory mapping is the function parameter `mapShm`. Its `Err` text becomes the error event's text, with the `Debug` formatting left out.
- `RecvCommon`: a `FatalError` becomes the fixed prefix followed by the report's message. The `Debug` form of the `eyre` report, with its chain of causes, is left out.
- `NextEvent` is a pending-token list taken into a request. If that request fails, its tokens are lost, and the model does the same.
- `TcpSend`: requires the message length to fit in a `u64`, which holds for every `usize` on a 64-bit platform. Socket errors other than an early end of file, and `flush`, are left out, so it always succeeds.
- `TcpReceive`: the `u64` to `usize` cast is taken as lossless, as on a 64-bit platform. Only an early end of file is a possible error.
- The async `TcpStream` is a byte sequence of unread bytes plus a sequence of written bytes.
- `check.rs` is not part of this model: it is terminal output, a TCP round trip and JSON.
- In `run.rs`, `main`, `build_package`, `build_cxx_node` and `build_cxx_operator` are cargo and compiler invocations and are left out. `LibraryFilename` models the `with_capacity` pre-sizing only as the final length.
- The three platforms' `DLL_PREFIX` and `DLL_SUFFIX` constants are written out. `OsString` is a `string`.
- Paths in `CTemplate` are component sequences relative to the working directory, which is assumed to exist. An empty component stands for the empty name, and creating or writing a path with one fails, as `fs::create_dir("")` does. Normalisation of `.`, `..` and absolute paths is left out.
- The template files embedded with `include_str!`, the C header constants and the `CARGO_MANIFEST_DIR` workspace path are parameters (`Templates`).
- `create_operator` is modelled as `CreateOperator`, although `create` no longer reaches it.
- The Python binding behind `Node()` is not part of this model. Its event stream is a finite list of events; after that, `next()` returns `None`. Subscripting `None` raises, and the model records that end as `NextReturnedNone`. The `print` output is left out.
- `RunPythonNode`: the 100-event budget is a parameter of `RunLoop` and is proved for every budget. `RunPythonNode` uses it with 100.
