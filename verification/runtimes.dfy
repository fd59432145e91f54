/**
 * The kernel runtime core of the REPL crate (crates/repl/src/runtimes.rs):
 * kernelspec discovery over an abstract filesystem, validation of a
 * kernelspec's argv and substitution of the connection file, the connection
 * record written for a launched kernel, the `Kernel` state enum with its
 * status indicator and in-place updates, and the routing of requests to the
 * control and shell channels together with the one-request-one-reply
 * discipline of each channel worker.
 */
module Runtimes {
  import opened Wrappers

  // ---------------------------------------------------------------------------
  // Paths

  /**
   * A filesystem path, as its components (`/usr/share/jupyter` is ["usr", "share", "jupyter"]).
   * Paths are taken to be normalised: no component is "." (Rust's `Path` skips
   * such components, so `foo/.` has the file name `foo`).
   */
  type Path = seq<string>

  /** Rust's `Path::file_name`: the last component, absent for an empty path or one ending in "..". */
  function FileName(p: Path): Option<string> {
    if |p| == 0 || p[|p| - 1] == ".." then None else Some(p[|p| - 1])
  }

  /** The path as the string handed to a process (components joined by '/'). */
  function PathString(p: Path): string {
    if p == [] then "" else PathString(p[..|p| - 1]) + "/" + p[|p| - 1]
  }

  // ---------------------------------------------------------------------------
  // Kernelspecs and the launch command

  /** The parsed contents of a `kernel.json` file. */
  datatype JupyterKernelspec = JupyterKernelspec(
    argv: seq<string>,
    displayName: string,
    language: string,
    env: Option<map<string, string>>)

  /** A discovered kernelspec: its name (the directory's name), its directory and its contents. */
  datatype RuntimeSpecification = RuntimeSpecification(name: string, path: Path, kernelspec: JupyterKernelspec)

  /** The argv token that stands for the connection file's path. */
  const ConnectionFilePlaceholder: string := "{connection_file}"

  /** A process to spawn: the program, its arguments and the environment variables set on top of the inherited ones. */
  datatype Command = Command(program: string, args: seq<string>, envs: map<string, string>)

  /** The three ways a kernelspec's argv is refused, each naming the kernelspec. */
  datatype CommandError =
    | EmptyArgv(kernelspec: string)
    | InvalidArgv(kernelspec: string)
    | MissingConnectionFile(kernelspec: string)
  {
    function Message(): string {
      match this
      case EmptyArgv(name) => "Empty argv in kernelspec " + name
      case InvalidArgv(name) => "Invalid argv in kernelspec " + name
      case MissingConnectionFile(name) => "Missing 'connection_file' in argv in kernelspec " + name
    }
  }

  /** One argument as passed to the kernel: the placeholder becomes the connection path. */
  function SubstituteArg(arg: string, connectionPath: string): string {
    if arg == ConnectionFilePlaceholder then connectionPath else arg
  }

  /**
   * The command a kernelspec yields for a connection path: argv must be non-empty,
   * have at least two entries and contain the placeholder somewhere (argv[0]
   * included); the program is argv[0] and the arguments are argv[1..], substituted.
   */
  function CommandFor(spec: RuntimeSpecification, connectionPath: string): Result<Command, CommandError> {
    var argv := spec.kernelspec.argv;
    if |argv| == 0 then Err(EmptyArgv(spec.name))
    else if |argv| < 2 then Err(InvalidArgv(spec.name))
    else if ConnectionFilePlaceholder !in argv then Err(MissingConnectionFile(spec.name))
    else
      var args := seq(|argv| - 1, i requires 0 <= i < |argv| - 1 => SubstituteArg(argv[i + 1], connectionPath));
      var envs := if spec.kernelspec.env.Some? then spec.kernelspec.env.value else map[];
      Ok(Command(argv[0], args, envs))
  }

  /** `RuntimeSpecification::command`: the checks, then a loop that adds argv[1..] one by one. */
  method BuildCommand(spec: RuntimeSpecification, connectionPath: string) returns (r: Result<Command, CommandError>)
    ensures r == CommandFor(spec, connectionPath)
  {
    var argv := spec.kernelspec.argv;
    if |argv| == 0 {
      return Err(EmptyArgv(spec.name));
    }
    if |argv| < 2 {
      return Err(InvalidArgv(spec.name));
    }
    if ConnectionFilePlaceholder !in argv {
      return Err(MissingConnectionFile(spec.name));
    }
    var args: seq<string> := [];
    for i := 1 to |argv|
      invariant |args| == i - 1
      invariant forall k :: 0 <= k < i - 1 ==> args[k] == SubstituteArg(argv[k + 1], connectionPath)
    {
      if argv[i] == ConnectionFilePlaceholder {
        args := args + [connectionPath];
      } else {
        args := args + [argv[i]];
      }
    }
    var envs: map<string, string> := map[];
    if spec.kernelspec.env.Some? {
      envs := spec.kernelspec.env.value;
    }
    ghost var expected := CommandFor(spec, connectionPath).value.args;
    assert |expected| == |args|;
    forall k | 0 <= k < |args|
      ensures expected[k] == args[k]
    {
      assert expected[k] == SubstituteArg(argv[k + 1], connectionPath);
    }
    assert args == expected;
    r := Ok(Command(argv[0], args, envs));
  }

  /** The validation: each refusal, in the order the checks run, and success exactly when none applies. */
  lemma CommandValidation(spec: RuntimeSpecification, connectionPath: string)
    ensures var argv := spec.kernelspec.argv;
      && (|argv| == 0 ==> CommandFor(spec, connectionPath) == Err(EmptyArgv(spec.name)))
      && (|argv| == 1 ==> CommandFor(spec, connectionPath) == Err(InvalidArgv(spec.name)))
      && (|argv| >= 2 && ConnectionFilePlaceholder !in argv ==>
            CommandFor(spec, connectionPath) == Err(MissingConnectionFile(spec.name)))
      && (CommandFor(spec, connectionPath).Ok? <==> |argv| >= 2 && ConnectionFilePlaceholder in argv)
  {
  }

  /** A valid command runs argv[0] with |argv| - 1 arguments, the i-th being argv[i + 1] substituted, and the spec's env only when it has one. */
  lemma CommandShape(spec: RuntimeSpecification, connectionPath: string)
    requires CommandFor(spec, connectionPath).Ok?
    ensures var cmd := CommandFor(spec, connectionPath).value; var argv := spec.kernelspec.argv;
      && cmd.program == argv[0]
      && |cmd.args| == |argv| - 1
      && (forall i :: 0 <= i < |cmd.args| ==> cmd.args[i] == SubstituteArg(argv[i + 1], connectionPath))
      && (spec.kernelspec.env.None? ==> cmd.envs == map[])
      && (spec.kernelspec.env.Some? ==> cmd.envs == spec.kernelspec.env.value)
  {
  }

  /**
   * The connection path reaches the kernel exactly when a placeholder (or the
   * path itself) occurs after argv[0]: the validation also accepts a placeholder
   * that occurs only as the program, in which case no argument names the file.
   */
  lemma {:induction false} CommandPassesConnectionPath(spec: RuntimeSpecification, connectionPath: string)
    requires CommandFor(spec, connectionPath).Ok?
    ensures var cmd := CommandFor(spec, connectionPath).value; var argv := spec.kernelspec.argv;
      connectionPath in cmd.args <==> (ConnectionFilePlaceholder in argv[1..] || connectionPath in argv[1..])
  {
    var cmd := CommandFor(spec, connectionPath).value;
    var argv := spec.kernelspec.argv;
    if connectionPath in cmd.args {
      var i :| 0 <= i < |cmd.args| && cmd.args[i] == connectionPath;
      assert cmd.args[i] == SubstituteArg(argv[i + 1], connectionPath);
      assert argv[1..][i] == argv[i + 1];
    }
    if ConnectionFilePlaceholder in argv[1..] {
      var j :| 0 <= j < |argv[1..]| && argv[1..][j] == ConnectionFilePlaceholder;
      assert cmd.args[j] == SubstituteArg(argv[j + 1], connectionPath);
    } else if connectionPath in argv[1..] {
      var j :| 0 <= j < |argv[1..]| && argv[1..][j] == connectionPath;
      assert cmd.args[j] == SubstituteArg(argv[j + 1], connectionPath);
    }
  }

  /** When the path is not the placeholder itself, no placeholder is left in the arguments. */
  lemma {:induction false} CommandLeavesNoPlaceholder(spec: RuntimeSpecification, connectionPath: string)
    requires CommandFor(spec, connectionPath).Ok?
    requires connectionPath != ConnectionFilePlaceholder
    ensures ConnectionFilePlaceholder !in CommandFor(spec, connectionPath).value.args
  {
    var cmd := CommandFor(spec, connectionPath).value;
    forall i | 0 <= i < |cmd.args|
      ensures cmd.args[i] != ConnectionFilePlaceholder
    {
      assert cmd.args[i] == SubstituteArg(spec.kernelspec.argv[i + 1], connectionPath);
    }
  }

  // ---------------------------------------------------------------------------
  // The connection record and its file name

  /** A TCP port number (u16). */
  type Port = p: int | 0 <= p < 0x1_0000

  /** The Jupyter connection record, with the field names of the connection file. */
  datatype ConnectionInfo = ConnectionInfo(
    transport: string,
    ip: string,
    stdinPort: Port,
    controlPort: Port,
    hbPort: Port,
    shellPort: Port,
    iopubPort: Port,
    signatureScheme: string,
    key: string,
    kernelName: Option<string>)
  {
    /** The five channel ports in the order the launcher assigns them. */
    function Ports(): seq<Port> {
      [stdinPort, controlPort, hbPort, shellPort, iopubPort]
    }
  }

  /** The record `RunningKernel::new` builds from the five probed ports, the kernelspec's name and a fresh key. */
  function BuildConnectionInfo(ports: seq<Port>, specName: string, key: string): (info: ConnectionInfo)
    requires |ports| == 5
    ensures info.Ports() == ports
    ensures info.transport == "tcp" && info.ip == "127.0.0.1" && info.signatureScheme == "hmac-sha256"
    ensures info.key == key && info.kernelName == Some("zed-" + specName)
  {
    ConnectionInfo(
      transport := "tcp",
      ip := "127.0.0.1",
      stdinPort := ports[0],
      controlPort := ports[1],
      hbPort := ports[2],
      shellPort := ports[3],
      iopubPort := ports[4],
      signatureScheme := "hmac-sha256",
      key := key,
      kernelName := Some("zed-" + specName))
  }

  /** Five distinct probed ports give five distinct channel ports. */
  lemma ConnectionPortsDistinct(ports: seq<Port>, specName: string, key: string)
    requires |ports| == 5
    requires forall i, j :: 0 <= i < j < 5 ==> ports[i] != ports[j]
    ensures var info := BuildConnectionInfo(ports, specName, key);
      |{info.stdinPort, info.controlPort, info.hbPort, info.shellPort, info.iopubPort}| == 5
  {
    var info := BuildConnectionInfo(ports, specName, key);
    assert info.Ports() == ports;
  }

  function DigitChar(d: nat): char
    requires d < 10
  {
    "0123456789"[d]
  }

  predicate IsDigit(c: char) {
    '0' as int <= c as int <= '9' as int
  }

  /** The decimal rendering of an entity id, as `format!("{entity_id}")` prints it. */
  function Decimal(n: nat): (s: string)
    ensures |s| > 0
    ensures forall i :: 0 <= i < |s| ==> IsDigit(s[i])
    decreases n
  {
    if n < 10 then [DigitChar(n)] else Decimal(n / 10) + [DigitChar(n % 10)]
  }

  function DigitValue(c: char): nat
    requires IsDigit(c)
  {
    c as int - '0' as int
  }

  function ParseDecimal(s: string): nat
    requires forall i :: 0 <= i < |s| ==> IsDigit(s[i])
  {
    if s == [] then 0 else ParseDecimal(s[..|s| - 1]) * 10 + DigitValue(s[|s| - 1])
  }

  lemma {:induction false} DecimalRoundTrip(n: nat)
    ensures ParseDecimal(Decimal(n)) == n
    decreases n
  {
    var s := Decimal(n);
    if n >= 10 {
      DecimalRoundTrip(n / 10);
      assert s[..|s| - 1] == Decimal(n / 10);
    }
  }

  /** The connection file's name for an entity. */
  function ConnectionFileName(entityId: nat): string {
    "kernel-zed-" + Decimal(entityId) + ".json"
  }

  /** Different entities never share a connection file. */
  lemma ConnectionFileNameInjective(a: nat, b: nat)
    requires ConnectionFileName(a) == ConnectionFileName(b)
    ensures a == b
  {
    var sa, sb := ConnectionFileName(a), ConnectionFileName(b);
    assert Decimal(a) == sa[11..|sa| - 5];
    assert Decimal(b) == sb[11..|sb| - 5];
    DecimalRoundTrip(a);
    DecimalRoundTrip(b);
  }

  /** The connection file's path: the runtime directory joined with its name. */
  function ConnectionPath(runtimeDir: Path, entityId: nat): Path {
    runtimeDir + [ConnectionFileName(entityId)]
  }

  // ---------------------------------------------------------------------------
  // The Kernel state enum

  datatype ExecutionState = Idle | Busy

  /** The kernel's reply to a kernel_info request, kept as the fields the model needs. */
  datatype KernelInfoReply = KernelInfoReply(protocolVersion: string, implementation: string, languageName: string)

  /** A launched kernel: its process, its connection file, its execution state and its last kernel info. */
  datatype RunningKernel = RunningKernel(
    process: Command,
    connectionPath: Path,
    executionState: ExecutionState,
    kernelInfo: Option<KernelInfoReply>)

  datatype Kernel =
    | Running(kernel: RunningKernel)
    | StartingKernel(launch: nat)
    | ErroredLaunch(message: string)
    | ShuttingDown
    | Shutdown
  {
    /** `set_execution_state`: overwrites the execution state of a running kernel; every other variant is kept. */
    function WithExecutionState(status: ExecutionState): Kernel {
      match this
      case Running(k) => Running(k.(executionState := status))
      case _ => this
    }

    /** `set_kernel_info`: overwrites the kernel info of a running kernel; every other variant is kept. */
    function WithKernelInfo(info: KernelInfoReply): Kernel {
      match this
      case Running(k) => Running(k.(kernelInfo := Some(info)))
      case _ => this
    }
  }

  /** The indicator colours. */
  datatype Color = Success | Modified | Error | Disabled

  /** `Kernel::dot`: the indicator colour, a total function of the state. */
  function Dot(k: Kernel): (c: Color)
    ensures c == Success <==> k.Running? && k.kernel.executionState == Idle
    ensures c == Modified <==> (k.Running? && k.kernel.executionState == Busy) || k.StartingKernel? || k.ShuttingDown?
    ensures c == Error <==> k.ErroredLaunch?
    ensures c == Disabled <==> k.Shutdown?
  {
    match k
    case Running(r) => (match r.executionState case Idle => Success case Busy => Modified)
    case StartingKernel(_) => Modified
    case ErroredLaunch(_) => Error
    case ShuttingDown => Modified
    case Shutdown => Disabled
  }

  /** The updates keep the variant, touch only their own field of a running kernel and leave every other variant as it was. */
  lemma UpdatesTouchOnlyTheirField(k: Kernel, status: ExecutionState, info: KernelInfoReply)
    ensures k.WithExecutionState(status).Running? == k.Running?
    ensures k.WithKernelInfo(info).Running? == k.Running?
    ensures !k.Running? ==> k.WithExecutionState(status) == k && k.WithKernelInfo(info) == k
    ensures k.Running? ==>
      && k.WithExecutionState(status).kernel.executionState == status
      && k.WithExecutionState(status).kernel.(executionState := k.kernel.executionState) == k.kernel
      && k.WithKernelInfo(info).kernel.kernelInfo == Some(info)
      && k.WithKernelInfo(info).kernel.(kernelInfo := k.kernel.kernelInfo) == k.kernel
  {
  }

  /** Applying an update twice is applying it once, the last value wins, and the two updates commute. */
  lemma UpdatesIdempotent(k: Kernel, s1: ExecutionState, s2: ExecutionState, i1: KernelInfoReply, i2: KernelInfoReply)
    ensures k.WithExecutionState(s1).WithExecutionState(s1) == k.WithExecutionState(s1)
    ensures k.WithKernelInfo(i1).WithKernelInfo(i1) == k.WithKernelInfo(i1)
    ensures k.WithExecutionState(s1).WithExecutionState(s2) == k.WithExecutionState(s2)
    ensures k.WithKernelInfo(i1).WithKernelInfo(i2) == k.WithKernelInfo(i2)
    ensures k.WithExecutionState(s1).WithKernelInfo(i1) == k.WithKernelInfo(i1).WithExecutionState(s1)
  {
  }

  /** A status update moves the indicator of a running kernel only, to Success when idle and Modified when busy. */
  lemma DotAfterStatus(k: Kernel, status: ExecutionState)
    ensures k.Running? ==> Dot(k.WithExecutionState(status)) == (if status == Idle then Success else Modified)
    ensures !k.Running? ==> Dot(k.WithExecutionState(status)) == Dot(k)
  {
  }

  /** The slot a session keeps its kernel in; the updates change it in place. */
  class KernelCell {
    var kernel: Kernel

    constructor (k: Kernel)
      ensures kernel == k
    {
      kernel := k;
    }

    method SetExecutionState(status: ExecutionState)
      modifies this
      ensures kernel == old(kernel).WithExecutionState(status)
      ensures old(kernel).Running? ==> kernel.Running? && kernel.kernel == old(kernel).kernel.(executionState := status)
      ensures !old(kernel).Running? ==> kernel == old(kernel)
    {
      match kernel
      case Running(k) =>
        kernel := Running(k.(executionState := status));
      case _ =>
    }

    method SetKernelInfo(info: KernelInfoReply)
      modifies this
      ensures kernel == old(kernel).WithKernelInfo(info)
      ensures old(kernel).Running? ==> kernel.Running? && kernel.kernel == old(kernel).kernel.(kernelInfo := Some(info))
      ensures !old(kernel).Running? ==> kernel == old(kernel)
    {
      match kernel
      case Running(k) =>
        kernel := Running(k.(kernelInfo := Some(info)));
      case _ =>
    }
  }

  // ---------------------------------------------------------------------------
  // Launch (`RunningKernel::new`) with its I/O steps as inputs

  datatype LaunchError =
    | PortsUnavailable(reason: string)
    | WriteFailed(reason: string)
    | InvalidCommand(error: CommandError)
    | SpawnFailed(reason: string)
    | SocketFailed(reason: string)

  /**
   * What the outside world answers to the launch's steps: the probed ports (or the
   * bind error), the random key, the runtime directory, and whether the atomic
   * write, the spawn and the socket connections fail.
   */
  datatype LaunchIo = LaunchIo(
    ports: Result<seq<Port>, string>,
    key: string,
    runtimeDir: Path,
    writeError: Option<string>,
    spawnError: Option<string>,
    socketError: Option<string>)
  {
    ghost predicate Valid() {
      ports.Ok? ==> |ports.value| == 5
    }
  }

  /** The launch's result and the connection files present afterwards. */
  datatype Launched = Launched(result: Result<(RunningKernel, ConnectionInfo), LaunchError>, files: set<Path>)

  /**
   * `RunningKernel::new` as written: probe ports, build the record, write it,
   * build and spawn the command, connect the sockets, and start Busy with no
   * kernel info. Every failure after the write leaves the file behind.
   */
  function Launch(spec: RuntimeSpecification, entityId: nat, io: LaunchIo, files: set<Path>): (l: Launched)
    requires io.Valid()
    ensures l.result.Ok? ==> l.files == files + {ConnectionPath(io.runtimeDir, entityId)}
    ensures l.files == if io.ports.Ok? && io.writeError.None?
                       then files + {ConnectionPath(io.runtimeDir, entityId)} else files
  {
    if io.ports.Err? then Launched(Err(PortsUnavailable(io.ports.error)), files)
    else
      var info := BuildConnectionInfo(io.ports.value, spec.name, io.key);
      var path := ConnectionPath(io.runtimeDir, entityId);
      if io.writeError.Some? then Launched(Err(WriteFailed(io.writeError.value)), files)
      else
        var written := files + {path};
        match CommandFor(spec, PathString(path))
        case Err(e) => Launched(Err(InvalidCommand(e)), written)
        case Ok(cmd) =>
          if io.spawnError.Some? then Launched(Err(SpawnFailed(io.spawnError.value)), written)
          else if io.socketError.Some? then Launched(Err(SocketFailed(io.socketError.value)), written)
          else Launched(Ok((RunningKernel(cmd, path, Busy, None), info)), written)
  }

  /** What a successful launch yields: the record, the command for the file's path, a Busy kernel with no info. */
  lemma LaunchSuccess(spec: RuntimeSpecification, entityId: nat, io: LaunchIo, files: set<Path>)
    requires io.Valid()
    ensures var l := Launch(spec, entityId, io, files); var path := ConnectionPath(io.runtimeDir, entityId);
      l.result.Ok? <==>
        io.ports.Ok? && io.writeError.None? && CommandFor(spec, PathString(path)).Ok?
        && io.spawnError.None? && io.socketError.None?
    ensures var l := Launch(spec, entityId, io, files); var path := ConnectionPath(io.runtimeDir, entityId);
      l.result.Ok? ==>
        && l.result.value.1 == BuildConnectionInfo(io.ports.value, spec.name, io.key)
        && l.result.value.0.process == CommandFor(spec, PathString(path)).value
        && l.result.value.0.connectionPath == path
        && l.result.value.0.executionState == Busy
        && l.result.value.0.kernelInfo.None?
        && Dot(Running(l.result.value.0)) == Modified
  {
  }

  /** `Drop for RunningKernel`: the connection file is removed. */
  function Drop(k: RunningKernel, files: set<Path>): (after: set<Path>)
    ensures k.connectionPath !in after && after <= files
    ensures forall f :: f in files && f != k.connectionPath ==> f in after
  {
    files - {k.connectionPath}
  }

  /** As written, a kernelspec with a refused argv fails the launch but leaves the new connection file on disk. */
  lemma LaunchLeaksFileOnRefusedArgv(spec: RuntimeSpecification, entityId: nat, io: LaunchIo, files: set<Path>)
    requires io.Valid() && io.ports.Ok? && io.writeError.None?
    requires |spec.kernelspec.argv| < 2
    requires ConnectionPath(io.runtimeDir, entityId) !in files
    ensures Launch(spec, entityId, io, files).result.Err?
    ensures ConnectionPath(io.runtimeDir, entityId) in Launch(spec, entityId, io, files).files
    ensures !(Launch(spec, entityId, io, files).files <= files)
  {
  }

  /** The launch with its cleanup completed: every failure after the write removes the file again. */
  function LaunchReleasingFile(spec: RuntimeSpecification, entityId: nat, io: LaunchIo, files: set<Path>): (l: Launched)
    requires io.Valid()
    ensures l.result == Launch(spec, entityId, io, files).result
    ensures l.result.Err? ==> l.files <= files
    ensures l.result.Ok? ==> l.files == files + {ConnectionPath(io.runtimeDir, entityId)}
  {
    var l := Launch(spec, entityId, io, files);
    if l.result.Err? && io.ports.Ok? && io.writeError.None? then
      Launched(l.result, l.files - {ConnectionPath(io.runtimeDir, entityId)})
    else l
  }

  /** With the cleanup, the connection file lives exactly as long as the kernel: launch then drop leaves the files as they were. */
  lemma LaunchThenDropRestoresFiles(spec: RuntimeSpecification, entityId: nat, io: LaunchIo, files: set<Path>)
    requires io.Valid()
    requires ConnectionPath(io.runtimeDir, entityId) !in files
    ensures var l := LaunchReleasingFile(spec, entityId, io, files);
      (l.result.Ok? ==> Drop(l.result.value.0, l.files) == files) && (l.result.Err? ==> l.files == files)
  {
    var l := Launch(spec, entityId, io, files);
    var path := ConnectionPath(io.runtimeDir, entityId);
    if l.result.Ok? {
      assert l.result.value.0.connectionPath == path;
    }
  }

  // ---------------------------------------------------------------------------
  // Request routing and the channel workers

  /** The content kinds of Jupyter messages the model distinguishes. */
  datatype MessageContent =
    | ExecuteRequest(code: string)
    | KernelInfoRequest
    | CompleteRequest(code: string, cursorPos: nat)
    | InspectRequest(code: string, cursorPos: nat)
    | IsCompleteRequest(code: string)
    | HistoryRequest
    | CommInfoRequest
    | DebugRequest(body: string)
    | InterruptRequest
    | ShutdownRequest(restart: bool)
    | Status(executionState: ExecutionState)
    | Reply(kind: string, body: string)

  datatype JupyterMessage = JupyterMessage(msgId: string, content: MessageContent)

  /** Debug, interrupt and shutdown requests belong on the control channel. */
  predicate IsControlMessage(m: JupyterMessage) {
    m.content.DebugRequest? || m.content.InterruptRequest? || m.content.ShutdownRequest?
  }

  /** Every other message belongs on the shell channel. */
  predicate IsShellMessage(m: JupyterMessage) {
    !IsControlMessage(m)
  }

  /** The elements of `s` that satisfy `p`, in their order in `s`. */
  function Filter<T>(s: seq<T>, p: T -> bool): (r: seq<T>)
    ensures |r| <= |s|
  {
    if s == [] then [] else Filter(s[..|s| - 1], p) + (if p(s[|s| - 1]) then [s[|s| - 1]] else [])
  }

  /** The routing task: each request goes to the control or the shell queue, in the order it was submitted. */
  method Route(requests: seq<JupyterMessage>) returns (control: seq<JupyterMessage>, shell: seq<JupyterMessage>)
    ensures control == Filter(requests, IsControlMessage)
    ensures shell == Filter(requests, IsShellMessage)
  {
    control, shell := [], [];
    var i := 0;
    while i < |requests|
      invariant 0 <= i <= |requests|
      invariant control == Filter(requests[..i], IsControlMessage)
      invariant shell == Filter(requests[..i], IsShellMessage)
    {
      var message := requests[i];
      assert requests[..i + 1][..i] == requests[..i];
      if message.content.DebugRequest? || message.content.InterruptRequest? || message.content.ShutdownRequest? {
        control := control + [message];
      } else {
        shell := shell + [message];
      }
      i := i + 1;
    }
    assert requests[..i] == requests;
  }

  /** Filtering a concatenation filters each part: a queue keeps the submission order across batches. */
  lemma {:induction false} FilterConcat<T>(a: seq<T>, b: seq<T>, p: T -> bool)
    ensures Filter(a + b, p) == Filter(a, p) + Filter(b, p)
    decreases |b|
  {
    if b != [] {
      var b' := b[..|b| - 1];
      assert (a + b)[..|a + b| - 1] == a + b';
      assert (a + b)[|a + b| - 1] == b[|b| - 1];
      FilterConcat(a, b', p);
    } else {
      assert a + b == a;
    }
  }

  /** An element is in the filtered sequence exactly when it is in the sequence and satisfies the predicate. */
  lemma {:induction false} FilterMembers<T>(s: seq<T>, p: T -> bool, x: T)
    ensures x in Filter(s, p) <==> x in s && p(x)
    decreases |s|
  {
    if s != [] {
      FilterMembers(s[..|s| - 1], p, x);
      assert s == s[..|s| - 1] + [s[|s| - 1]];
    }
  }

  /** Each request lands in exactly one queue: the two queues together hold the requests, no more and no fewer. */
  lemma {:induction false} RoutePartitions(requests: seq<JupyterMessage>)
    ensures multiset(Filter(requests, IsControlMessage)) + multiset(Filter(requests, IsShellMessage)) == multiset(requests)
    ensures |Filter(requests, IsControlMessage)| + |Filter(requests, IsShellMessage)| == |requests|
    decreases |requests|
  {
    if requests != [] {
      var init := requests[..|requests| - 1];
      var last := requests[|requests| - 1];
      RoutePartitions(init);
      assert requests == init + [last];
      assert multiset(requests) == multiset(init) + multiset{last};
      if IsControlMessage(last) {
        assert Filter(requests, IsControlMessage) == Filter(init, IsControlMessage) + [last];
        assert Filter(requests, IsShellMessage) == Filter(init, IsShellMessage);
      } else {
        assert Filter(requests, IsControlMessage) == Filter(init, IsControlMessage);
        assert Filter(requests, IsShellMessage) == Filter(init, IsShellMessage) + [last];
      }
    }
  }

  /** Every message in the control queue is a control request and every message in the shell queue is not. */
  lemma RouteClassifies(requests: seq<JupyterMessage>, m: JupyterMessage)
    ensures m in Filter(requests, IsControlMessage) <==> m in requests && IsControlMessage(m)
    ensures m in Filter(requests, IsShellMessage) <==> m in requests && !IsControlMessage(m)
  {
    FilterMembers(requests, IsControlMessage, m);
    FilterMembers(requests, IsShellMessage, m);
  }

  /** One exchange on a request/reply socket: whether the send went through, and what the following read returned. */
  datatype Exchange = Exchange(sendOk: bool, read: ReadOutcome)

  datatype ReadOutcome = Received(reply: JupyterMessage) | ReadFailed(reason: string)

  /** What a worker did: the requests it sent, the replies it forwarded, how many reads it made, and how it ended. */
  datatype WorkerRun = WorkerRun(
    sent: seq<JupyterMessage>,
    forwarded: seq<JupyterMessage>,
    readCount: nat,
    result: Result<(), string>)

  /**
   * A shell or control worker: for each queued request, send it (a failed send is
   * ignored), then read exactly one reply and forward it, before taking the next
   * request. A failed read ends the worker with that error; a socket with no more
   * exchanges is a failed read.
   */
  method RunWorker(queue: seq<JupyterMessage>, socket: seq<Exchange>) returns (run: WorkerRun)
    ensures |run.forwarded| <= |queue|
    ensures run.readCount == |run.sent|
    ensures forall i :: 0 <= i < |run.forwarded| ==> i < |socket| && socket[i].read == Received(run.forwarded[i])
    ensures run.result.Ok? <==> |run.forwarded| == |queue|
    ensures run.result.Ok? ==> run.sent == queue
    ensures run.result.Err? ==>
      && run.sent == queue[..|run.forwarded| + 1]
      && (|run.forwarded| >= |socket| || socket[|run.forwarded|].read.ReadFailed?)
  {
    var sent: seq<JupyterMessage> := [];
    var forwarded: seq<JupyterMessage> := [];
    var i := 0;
    while i < |queue|
      invariant 0 <= i <= |queue|
      invariant sent == queue[..i] && |forwarded| == i
      invariant i <= |socket| || i == 0
      invariant forall k :: 0 <= k < i && k < |socket| ==> socket[k].read == Received(forwarded[k])
    {
      sent := sent + [queue[i]];
      assert sent == queue[..i + 1];
      if i >= |socket| {
        return WorkerRun(sent, forwarded, i + 1, Err("socket closed"));
      }
      match socket[i].read {
        case ReadFailed(reason) =>
          return WorkerRun(sent, forwarded, i + 1, Err(reason));
        case Received(reply) =>
          forwarded := forwarded + [reply];
      }
      i := i + 1;
    }
    assert queue[..i] == queue;
    run := WorkerRun(sent, forwarded, i, Ok(()));
  }

  // ---------------------------------------------------------------------------
  // Kernelspec discovery over an abstract filesystem

  /** One item of a directory listing: a path, or an error reading that entry. */
  datatype DirEntry = EntryOk(path: Path) | EntryErr(reason: string)

  /** The filesystem as discovery sees it: directory listings, which paths are directories, and file contents. */
  datatype Fs = Fs(listings: map<Path, seq<DirEntry>>, dirs: set<Path>, files: map<Path, string>)

  /** Why a candidate directory is not a kernelspec. */
  datatype SpecError =
    | InvalidDirectory(path: Path)
    | NotADirectory(path: Path)
    | LoadFailed(path: Path)
    | ParseFailed(path: Path)

  datatype ReadDirError = ReadDirFailed(path: Path)

  /**
   * `read_kernelspec_at`: the directory must have a name and be a directory, and
   * its `kernel.json` must load and parse; the spec is named after the directory.
   */
  function ReadKernelspecAt(dir: Path, fs: Fs, parse: string -> Option<JupyterKernelspec>): (r: Result<RuntimeSpecification, SpecError>)
    ensures r.Ok? <==>
      && FileName(dir).Some?
      && dir in fs.dirs
      && dir + ["kernel.json"] in fs.files
      && parse(fs.files[dir + ["kernel.json"]]).Some?
    ensures r.Ok? ==>
      && r.value.name == dir[|dir| - 1]
      && r.value.path == dir
      && parse(fs.files[dir + ["kernel.json"]]) == Some(r.value.kernelspec)
  {
    match FileName(dir)
    case None => Err(InvalidDirectory(dir))
    case Some(name) =>
      if dir !in fs.dirs then Err(NotADirectory(dir))
      else
        var json := dir + ["kernel.json"];
        if json !in fs.files then Err(LoadFailed(json))
        else
          match parse(fs.files[json])
          case None => Err(ParseFailed(json))
          case Some(kernelspec) => Ok(RuntimeSpecification(name, dir, kernelspec))
  }

  /** A listing entry that yields a kernelspec: readable, a directory, and a valid spec. */
  predicate Accepted(entry: DirEntry, fs: Fs, parse: string -> Option<JupyterKernelspec>) {
    entry.EntryOk? && entry.path in fs.dirs && ReadKernelspecAt(entry.path, fs, parse).Ok?
  }

  /** The specs of the accepted entries, in listing order. */
  function ValidKernelspecs(entries: seq<DirEntry>, fs: Fs, parse: string -> Option<JupyterKernelspec>): (specs: seq<RuntimeSpecification>)
    ensures |specs| <= |entries|
  {
    if entries == [] then []
    else
      var last := entries[|entries| - 1];
      ValidKernelspecs(entries[..|entries| - 1], fs, parse)
        + (if Accepted(last, fs, parse) then [ReadKernelspecAt(last.path, fs, parse).value] else [])
  }

  /** What `read_kernels_dir` yields: an error when the directory cannot be listed, otherwise the valid specs. */
  function KernelsDir(path: Path, fs: Fs, parse: string -> Option<JupyterKernelspec>): Result<seq<RuntimeSpecification>, ReadDirError> {
    if path in fs.listings then Ok(ValidKernelspecs(fs.listings[path], fs, parse)) else Err(ReadDirFailed(path))
  }

  /** `read_kernels_dir`: scans the listing, skipping errored entries, non-directories and bad specs. */
  method ReadKernelsDir(path: Path, fs: Fs, parse: string -> Option<JupyterKernelspec>)
    returns (r: Result<seq<RuntimeSpecification>, ReadDirError>)
    ensures r == KernelsDir(path, fs, parse)
  {
    if path !in fs.listings {
      return Err(ReadDirFailed(path));
    }
    var entries := fs.listings[path];
    var valid: seq<RuntimeSpecification> := [];
    var i := 0;
    while i < |entries|
      invariant 0 <= i <= |entries|
      invariant valid == ValidKernelspecs(entries[..i], fs, parse)
    {
      assert entries[..i + 1][..i] == entries[..i];
      match entries[i] {
        case EntryOk(dir) =>
          if dir in fs.dirs {
            var spec := ReadKernelspecAt(dir, fs, parse);
            if spec.Ok? {
              valid := valid + [spec.value];
            }
          }
        case EntryErr(_) =>
          // logged and skipped
      }
      i := i + 1;
    }
    assert entries[..i] == entries;
    r := Ok(valid);
  }

  /** Scanning a listing in two parts gives the two parts' specs in order. */
  lemma {:induction false} ValidKernelspecsConcat(a: seq<DirEntry>, b: seq<DirEntry>, fs: Fs, parse: string -> Option<JupyterKernelspec>)
    ensures ValidKernelspecs(a + b, fs, parse) == ValidKernelspecs(a, fs, parse) + ValidKernelspecs(b, fs, parse)
    decreases |b|
  {
    if b != [] {
      var b' := b[..|b| - 1];
      assert (a + b)[..|a + b| - 1] == a + b';
      assert (a + b)[|a + b| - 1] == b[|b| - 1];
      ValidKernelspecsConcat(a, b', fs, parse);
    } else {
      assert a + b == a;
    }
  }

  /** Exactly the accepted entries contribute: a spec is found iff some accepted entry reads as that spec. */
  lemma {:induction false} ValidKernelspecsMembers(entries: seq<DirEntry>, fs: Fs, parse: string -> Option<JupyterKernelspec>, spec: RuntimeSpecification)
    ensures spec in ValidKernelspecs(entries, fs, parse) <==>
      exists i :: 0 <= i < |entries| && Accepted(entries[i], fs, parse) && ReadKernelspecAt(entries[i].path, fs, parse).value == spec
    decreases |entries|
  {
    if entries != [] {
      var init := entries[..|entries| - 1];
      ValidKernelspecsMembers(init, fs, parse, spec);
      if spec in ValidKernelspecs(init, fs, parse) {
        var i :| 0 <= i < |init| && Accepted(init[i], fs, parse) && ReadKernelspecAt(init[i].path, fs, parse).value == spec;
        assert entries[i] == init[i];
      }
      if exists i :: 0 <= i < |entries| && Accepted(entries[i], fs, parse) && ReadKernelspecAt(entries[i].path, fs, parse).value == spec {
        var i :| 0 <= i < |entries| && Accepted(entries[i], fs, parse) && ReadKernelspecAt(entries[i].path, fs, parse).value == spec;
        if i < |init| {
          assert init[i] == entries[i];
        }
      }
    }
  }

  /** Every discovered spec is named after its directory, which is a directory holding a kernel.json that parses to it. */
  lemma ValidKernelspecsSound(entries: seq<DirEntry>, fs: Fs, parse: string -> Option<JupyterKernelspec>, spec: RuntimeSpecification)
    requires spec in ValidKernelspecs(entries, fs, parse)
    ensures |spec.path| > 0 && spec.name == spec.path[|spec.path| - 1]
    ensures EntryOk(spec.path) in entries && spec.path in fs.dirs
    ensures spec.path + ["kernel.json"] in fs.files && parse(fs.files[spec.path + ["kernel.json"]]) == Some(spec.kernelspec)
  {
    ValidKernelspecsMembers(entries, fs, parse, spec);
    var i :| 0 <= i < |entries| && Accepted(entries[i], fs, parse) && ReadKernelspecAt(entries[i].path, fs, parse).value == spec;
    assert entries[i] == EntryOk(spec.path);
  }

  /** `get_runtime_specifications`: the `kernels` directory of every data directory, unlistable ones contributing nothing, flattened in order. */
  function RuntimeSpecifications(dataDirs: seq<Path>, fs: Fs, parse: string -> Option<JupyterKernelspec>): (r: Result<seq<RuntimeSpecification>, ReadDirError>)
    ensures r.Ok?
  {
    if dataDirs == [] then Ok([])
    else
      var found := match KernelsDir(dataDirs[|dataDirs| - 1] + ["kernels"], fs, parse)
        case Ok(specs) => specs
        case Err(_) => [];
      Ok(RuntimeSpecifications(dataDirs[..|dataDirs| - 1], fs, parse).value + found)
  }

  /** Discovery over several data directories is their discoveries in order; a data directory without a listable `kernels` adds nothing. */
  lemma {:induction false} RuntimeSpecificationsConcat(a: seq<Path>, b: seq<Path>, fs: Fs, parse: string -> Option<JupyterKernelspec>)
    ensures RuntimeSpecifications(a + b, fs, parse).value
      == RuntimeSpecifications(a, fs, parse).value + RuntimeSpecifications(b, fs, parse).value
    decreases |b|
  {
    if b != [] {
      var b' := b[..|b| - 1];
      assert (a + b)[..|a + b| - 1] == a + b';
      assert (a + b)[|a + b| - 1] == b[|b| - 1];
      RuntimeSpecificationsConcat(a, b', fs, parse);
    } else {
      assert a + b == a;
    }
  }

  /** A data directory whose `kernels` directory can be listed contributes exactly that directory's valid specs, in listing order. */
  lemma ListedKernelsDirContributesItsSpecs(dataDirs: seq<Path>, dir: Path, fs: Fs, parse: string -> Option<JupyterKernelspec>)
    requires dir + ["kernels"] in fs.listings
    ensures RuntimeSpecifications(dataDirs + [dir], fs, parse).value
      == RuntimeSpecifications(dataDirs, fs, parse).value + ValidKernelspecs(fs.listings[dir + ["kernels"]], fs, parse)
  {
    assert (dataDirs + [dir])[..|dataDirs|] == dataDirs;
    assert (dataDirs + [dir])[|dataDirs|] == dir;
  }

  /** A spec is discovered iff the `kernels` directory of some data directory can be listed and yields it. */
  lemma {:induction false} RuntimeSpecificationsMembers(dataDirs: seq<Path>, fs: Fs, parse: string -> Option<JupyterKernelspec>, spec: RuntimeSpecification)
    ensures spec in RuntimeSpecifications(dataDirs, fs, parse).value <==>
      exists i :: 0 <= i < |dataDirs| && dataDirs[i] + ["kernels"] in fs.listings
        && spec in ValidKernelspecs(fs.listings[dataDirs[i] + ["kernels"]], fs, parse)
    decreases |dataDirs|
  {
    if dataDirs != [] {
      var init := dataDirs[..|dataDirs| - 1];
      var last := dataDirs[|dataDirs| - 1];
      assert dataDirs == init + [last];
      RuntimeSpecificationsMembers(init, fs, parse, spec);
      if last + ["kernels"] in fs.listings {
        ListedKernelsDirContributesItsSpecs(init, last, fs, parse);
      } else {
        MissingKernelsDirAddsNothing(init, last, fs, parse);
      }
      if spec in RuntimeSpecifications(init, fs, parse).value {
        var i :| 0 <= i < |init| && init[i] + ["kernels"] in fs.listings
          && spec in ValidKernelspecs(fs.listings[init[i] + ["kernels"]], fs, parse);
        assert dataDirs[i] == init[i];
      }
      if exists i :: 0 <= i < |dataDirs| && dataDirs[i] + ["kernels"] in fs.listings
          && spec in ValidKernelspecs(fs.listings[dataDirs[i] + ["kernels"]], fs, parse) {
        var i :| 0 <= i < |dataDirs| && dataDirs[i] + ["kernels"] in fs.listings
          && spec in ValidKernelspecs(fs.listings[dataDirs[i] + ["kernels"]], fs, parse);
        if i < |init| {
          assert init[i] == dataDirs[i];
        }
      }
    }
  }

  lemma MissingKernelsDirAddsNothing(dataDirs: seq<Path>, dir: Path, fs: Fs, parse: string -> Option<JupyterKernelspec>)
    requires dir + ["kernels"] !in fs.listings
    ensures RuntimeSpecifications(dataDirs + [dir], fs, parse) == RuntimeSpecifications(dataDirs, fs, parse)
  {
    assert (dataDirs + [dir])[..|dataDirs|] == dataDirs;
    assert (dataDirs + [dir])[|dataDirs|] == dir;
    var before := RuntimeSpecifications(dataDirs, fs, parse);
    assert before.value + [] == before.value;
  }
}
