// main.go: the host's decision logic around the Frida calls. Patterns given on
// the command line are shell globs turned into regular expressions
// (listToRegex); the target process is chosen from the flags (explicit pid,
// else a process found by name, else a file to spawn); the launch sequence
// attaches or spawns, loads the script, resumes a spawned process and hands
// the offsets to the script; and every message from the script is routed by
// its kind. The device is a record of what each Frida call answers.

module Host {
  import opened Util
  import opened Patterns
  import opened Object
  import opened Offsets

  // ----- listToRegex -----

  /** strings.ReplaceAll(glob, "*", ".*"). */
  function GlobToRegex(glob: string): (re: string)
    ensures |re| >= |glob|
    ensures re == [] || re[0] != '*'
    ensures forall i :: 0 <= i < |re| && re[i] == '*' ==> i > 0 && re[i - 1] == '.'
  {
    if glob == [] then []
    else
      var rest := GlobToRegex(glob[1..]);
      if glob[0] == '*' then ".*" + rest else [glob[0]] + rest
  }

  /** Rewrites every ".*" back to '*': the inverse of GlobToRegex. */
  function RegexToGlob(re: string): string
  {
    if re == [] then []
    else if |re| > 1 && re[0] == '.' && re[1] == '*' then "*" + RegexToGlob(re[2..])
    else [re[0]] + RegexToGlob(re[1..])
  }

  /** The rewrite loses nothing: the glob can be read back from its regex. */
  lemma {:induction false} GlobRoundTrip(glob: string)
    ensures RegexToGlob(GlobToRegex(glob)) == glob
  {
    if glob != [] {
      var rest := GlobToRegex(glob[1..]);
      GlobRoundTrip(glob[1..]);
      if glob[0] == '*' {
        assert (".*" + rest)[2..] == rest;
      } else {
        assert ([glob[0]] + rest)[1..] == rest;
      }
    }
  }

  /** What a glob means: '*' any run, '.' any one character, the rest literal. */
  function GlobAtoms(glob: string): (re: Regexp)
    ensures |re| == |glob|
  {
    if glob == [] then []
    else
      var a := if glob[0] == '*' then AnyRun else if glob[0] == '.' then AnyChar else Lit(glob[0]);
      [a] + GlobAtoms(glob[1..])
  }

  /** Compiling the rewritten glob gives exactly the glob's atoms. */
  lemma {:induction false} CompileGlob(glob: string)
    ensures Compile(GlobToRegex(glob)) == GlobAtoms(glob)
  {
    if glob != [] {
      var rest := GlobToRegex(glob[1..]);
      CompileGlob(glob[1..]);
      if glob[0] == '*' {
        assert (".*" + rest)[2..] == rest;
      } else {
        assert ([glob[0]] + rest)[1..] == rest;
      }
    }
  }

  /** The compiled pattern list for a flag's values. */
  function Compiled(ls: seq<string>): (rex: seq<Regexp>)
    ensures |rex| == |ls|
  {
    seq(|ls|, i requires 0 <= i < |ls| => Compile(GlobToRegex(ls[i])))
  }

  /** Each compiled pattern is its glob's meaning, in the list's order. */
  lemma CompiledMeaning(ls: seq<string>, i: int)
    requires 0 <= i < |ls|
    ensures Compiled(ls)[i] == GlobAtoms(ls[i])
  {
    CompileGlob(ls[i]);
  }

  /** listToRegex: fills a slice of the list's length, one pattern per glob. */
  method ListToRegex(ls: seq<string>) returns (rex: seq<Regexp>)
    ensures |rex| == |ls|
    ensures forall i :: 0 <= i < |ls| ==> rex[i] == Compile(GlobToRegex(ls[i]))
  {
    var a := new Regexp[|ls|];
    for i := 0 to |ls|
      invariant forall j :: 0 <= j < i ==> a[j] == Compile(GlobToRegex(ls[j]))
    {
      var replaced := GlobToRegex(ls[i]);
      a[i] := Compile(replaced);
    }
    rex := a[..];
  }

  // ----- The filter lists and the flag they are read from -----

  /** The command-line flags the core reads (pid defaults to -1). */
  datatype Flags = Flags(
    pid: int, name: string, file: string,
    whitelist: seq<string>, blacklist: seq<string>,
    whitelistp: seq<string>, blacklistp: seq<string>)

  /** The four pattern lists handed to PrintData, in its parameter order. */
  datatype Filters = Filters(
    whitelist: seq<string>, blacklist: seq<string>,
    whitelistp: seq<string>, blacklistp: seq<string>)

  /** As written: the pid whitelist is read from the "whitelist" flag. */
  function FiltersAsWritten(f: Flags): (r: Filters)
    ensures r.whitelistp == f.whitelist
  {
    Filters(f.whitelist, f.blacklist, f.whitelist, f.blacklistp)
  }

  /** As intended: each list comes from its own flag. */
  function FiltersOf(f: Flags): (r: Filters)
    ensures r == FiltersAsWritten(f) <==> f.whitelistp == f.whitelist
  {
    Filters(f.whitelist, f.blacklist, f.whitelistp, f.blacklistp)
  }

  predicate DroppedBy(lists: Filters, name: string, pid: int)
  {
    Dropped(name, pid, Compiled(lists.whitelist), Compiled(lists.blacklist),
            Compiled(lists.whitelistp), Compiled(lists.blacklistp))
  }

  /** As written, the --whitelistp flag has no effect: every message is
      treated as if the pid whitelist were empty. */
  lemma WhitelistpIgnoredAsWritten(f: Flags, name: string, pid: int)
    ensures DroppedBy(FiltersAsWritten(f), name, pid)
        <==> DroppedBy(FiltersOf(f.(whitelistp := [])), name, pid)
  {
    if f.whitelist == [] {
      assert Compiled(f.whitelist) == Compiled([]);
    }
  }

  /** The flags of the counterexample: only a pid whitelist of "1". */
  const PidOneOnly := Flags(-1, "", "", [], [], ["1"], [])

  /** pid 456 matches no pattern of ["1"], yet as written it is kept. */
  lemma WhitelistpCounterexample()
    ensures !DroppedBy(FiltersAsWritten(PidOneOnly), "com.apple.x", 456)
    ensures DroppedBy(FiltersOf(PidOneOnly), "com.apple.x", 456)
  {
    var re := Compiled(["1"]);
    CompiledMeaning(["1"], 0);
    assert re[0] == [Lit('1')];
    var text := PidText(456);
    PidTexts();
    if MatchString(re[0], text) {
      MatchNeedsFirst('1', re[0], text);
      assert false;
    }
  }

  /** As intended, without name lists a positive pid that misses every pid
      whitelist pattern is dropped. */
  lemma PidWhitelistApplies(f: Flags, name: string, pid: int)
    requires f.whitelist == [] && f.blacklist == [] && pid > 0
    requires |f.whitelistp| > 0 && !AnyMatch(Compiled(f.whitelistp), PidText(pid))
    ensures DroppedBy(FiltersOf(f), name, pid)
  {
  }

  // ----- Worked filter examples -----

  /** Whitelist "A*": "Alpha" is kept, "Beta" is dropped; with blacklist
      "ph" as well, "Alpha" is dropped, since the blacklist is checked after a
      whitelist hit. */
  lemma NameFilterExample()
    ensures !DroppedBy(Filters(["A*"], [], [], []), "Alpha", 0)
    ensures DroppedBy(Filters(["A*"], [], [], []), "Beta", 0)
    ensures DroppedBy(Filters(["A*"], ["ph"], [], []), "Alpha", 0)
  {
    CompiledMeaning(["A*"], 0);
    var a := Compiled(["A*"])[0];
    assert a == [Lit('A'), AnyRun];
    assert MatchPrefix(a[1..], "lpha");
    assert MatchPrefix(a, "Alpha");
    if MatchString(a, "Beta") {
      MatchNeedsFirst('A', a, "Beta");
      assert false;
    }
    CompiledMeaning(["ph"], 0);
    var b := Compiled(["ph"])[0];
    assert b == Literal("ph");
    LiteralPrefix("ph", "pha");
    assert "Alpha"[1..][1..] == "pha";
    assert MatchString(b, "Alpha"[1..][1..]);
    assert MatchString(b, "Alpha"[1..]);
    assert MatchString(b, "Alpha");
  }

  lemma PidTexts()
    ensures PidText(123) == "123.000000" && PidText(456) == "456.000000"
  {
    assert NatText(12) == NatText(1) + "2";
    assert NatText(45) == NatText(4) + "5";
  }

  /** Pid blacklist "123": pid 123 is dropped, pid 456 is kept. */
  lemma PidFilterExample()
    ensures DroppedBy(Filters([], [], [], ["123"]), "x", 123)
    ensures !DroppedBy(Filters([], [], [], ["123"]), "x", 456)
  {
    CompiledMeaning(["123"], 0);
    assert Compiled(["123"]) == [Literal("123")];
    Pid123Hits();
    Pid456Misses();
  }

  lemma Pid123Hits()
    ensures MatchString(Literal("123"), PidText(123))
  {
    PidTexts();
    LiteralPrefix("123", PidText(123));
  }

  lemma Pid456Misses()
    ensures !MatchString(Literal("123"), PidText(456))
  {
    PidTexts();
    if MatchString(Literal("123"), PidText(456)) {
      MatchNeedsFirst('1', Literal("123"), PidText(456));
      assert false;
    }
  }

  // ----- Target resolution -----

  datatype Process = Process(pid: nat, name: string)

  /** The pid of the first process whose name equals the given one, or -1. */
  function FirstPid(processes: seq<Process>, name: string): (pid: int)
    ensures pid == -1 <==> forall k :: 0 <= k < |processes| ==> processes[k].name != name
    ensures pid != -1 ==>
      (exists k :: 0 <= k < |processes| && processes[k].pid == pid && processes[k].name == name
        && forall j :: 0 <= j < k ==> processes[j].name != name)
  {
    if processes == [] then -1
    else if processes[0].name == name then processes[0].pid
    else
      var pid := FirstPid(processes[1..], name);
      assert forall k :: 0 < k < |processes| ==> processes[k] == processes[1..][k - 1];
      pid
  }

  /** The name search of RunE: stops at the first exact match. */
  method FindProcess(processes: seq<Process>, name: string) returns (pid: int)
    ensures pid == FirstPid(processes, name)
  {
    pid := -1;
    var i := 0;
    while i < |processes|
      invariant 0 <= i <= |processes|
      invariant FirstPid(processes, name) == FirstPid(processes[i..], name)
    {
      if processes[i].name == name {
        pid := processes[i].pid;
        break;
      }
      assert processes[i..][1..] == processes[i + 1..];
      i := i + 1;
    }
  }

  /** What each Frida call of the launch answers: the process list (None when
      enumeration fails), whether attaching works, the pid a spawn returns
      (None when it fails), and whether creating the script, loading it and
      resuming the process work. */
  datatype Device = Device(
    processes: Option<seq<Process>>, attachOk: bool, spawnPid: Option<nat>,
    scriptOk: bool, loadOk: bool, resumeOk: bool)

  /** The pid the flags select: None when the name search could not list the
      processes; -1 when there is neither a pid nor a process of that name. */
  function Resolved(f: Flags, device: Device): (r: Option<int>)
    ensures f.pid != -1 ==> r == Some(f.pid)
    ensures f.pid == -1 && f.name == "" ==> r == Some(-1)
    ensures f.pid == -1 && f.name != "" && device.processes.Some?
      ==> r == Some(FirstPid(device.processes.value, f.name))
    ensures r.None? <==> f.pid == -1 && f.name != "" && device.processes.None?
  {
    if f.pid == -1 && f.name != "" then
      match device.processes
      case None => None
      case Some(ps) => Some(FirstPid(ps, f.name))
    else Some(f.pid)
  }

  datatype Failure =
    | EnumerateFailed | MissingTarget | AttachFailed | SpawnFailed
    | ScriptFailed | LoadFailed | ResumeFailed | ConfigMissing | ConfigUndecodable

  /** The Frida calls of a launch, in order. */
  datatype Call =
    | EnumerateProcesses | Attach(pid: int) | Spawn(file: string, argv: seq<string>)
    | CreateScript | LoadScript | Resume(pid: int) | Setup(offsets: OffsetsData)

  /** The pid of the process attached to, and whether it was spawned. */
  datatype Session = Session(pid: int, spawned: bool)

  /** Steps 166-189 of RunE: the pid to attach to, or why there is none. */
  method ResolveTarget(f: Flags, device: Device) returns (calls: seq<Call>, target: Result<int, Failure>)
    ensures calls == if f.pid == -1 && f.name != "" then [EnumerateProcesses] else []
    ensures target == Err(EnumerateFailed) <==> Resolved(f, device).None?
    ensures target == Err(MissingTarget) <==> Resolved(f, device) == Some(-1) && f.file == ""
    ensures target.Ok? <==> Resolved(f, device).Some? && (Resolved(f, device).value != -1 || f.file != "")
    ensures target.Ok? ==> target.value == Resolved(f, device).value
  {
    calls := [];
    var procPid := f.pid;
    if f.pid == -1 && f.name != "" {
      calls := [EnumerateProcesses];
      if device.processes.None? {
        return calls, Err(EnumerateFailed);
      }
      procPid := FindProcess(device.processes.value, f.name);
    }
    if procPid == -1 && f.file == "" {
      return calls, Err(MissingTarget);
    }
    return calls, Ok(procPid);
  }

  /** The argv of a spawn: the file, then the remaining arguments. */
  method BuildArgv(file: string, args: seq<string>) returns (argv: seq<string>)
    ensures |argv| == |args| + 1
    ensures argv[0] == file && argv[1..] == args
  {
    var a := new string[|args| + 1];
    a[0] := file;
    for i := 0 to |args|
      invariant a[0] == file
      invariant forall j :: 0 <= j < i ==> a[j + 1] == args[j]
    {
      a[i + 1] := args[i];
    }
    argv := a[..];
    assert forall j :: 0 <= j < |args| ==> argv[1..][j] == args[j];
  }

  /** Steps 191-216 of RunE: attach to the target, or spawn the file and
      attach to the new process. */
  method Connect(file: string, args: seq<string>, device: Device, target: int)
    returns (calls: seq<Call>, session: Result<Session, Failure>)
    ensures target != -1 ==> calls == [Attach(target)]
    ensures target == -1 ==>
      (|calls| >= 1 && calls[0] == Spawn(file, [file] + args)
        && calls[1..] == if device.spawnPid.Some? then [Attach(device.spawnPid.value)] else [])
    ensures session.Ok? <==> device.attachOk && (target != -1 || device.spawnPid.Some?)
    ensures session.Ok? ==> session.value.spawned == (target == -1)
    ensures session.Ok? ==> session.value.pid == if target != -1 then target else device.spawnPid.value
    ensures session.Err? ==> session.error == if target == -1 && device.spawnPid.None? then SpawnFailed else AttachFailed
  {
    if target != -1 {
      calls := [Attach(target)];
      if !device.attachOk {
        return calls, Err(AttachFailed);
      }
      return calls, Ok(Session(target, false));
    } else {
      var argv := BuildArgv(file, args);
      assert argv == [file] + args;
      calls := [Spawn(file, argv)];
      if device.spawnPid.None? {
        return calls, Err(SpawnFailed);
      }
      var procPid := device.spawnPid.value;
      calls := calls + [Attach(procPid)];
      if !device.attachOk {
        return calls, Err(AttachFailed);
      }
      return calls, Ok(Session(procPid, true));
    }
  }

  /** RunE from target resolution to handing the offsets to the script. */
  method Launch(f: Flags, args: seq<string>, device: Device, config: ConfigFile)
    returns (calls: seq<Call>, result: Result<Session, Failure>)
    ensures f.pid != -1 ==> EnumerateProcesses !in calls
    ensures result == Err(EnumerateFailed) <==> Resolved(f, device).None?
    ensures result == Err(MissingTarget) <==> Resolved(f, device) == Some(-1) && f.file == ""
    ensures Spawn(f.file, [f.file] + args) in calls <==> Resolved(f, device) == Some(-1) && f.file != ""
    ensures forall c :: c in calls && c.Spawn? ==> c == Spawn(f.file, [f.file] + args)
    ensures forall c :: c in calls && c.Resume? ==> Resolved(f, device) == Some(-1) && device.spawnPid == Some(c.pid)
    ensures result.Ok? ==> (result.value.spawned <==> Resolved(f, device) == Some(-1))
    ensures result.Ok? && result.value.spawned ==> Resume(result.value.pid) in calls
    ensures result.Ok? && !result.value.spawned ==> Resolved(f, device) == Some(result.value.pid)
    ensures result.Ok? <==> config.Holds? && |calls| > 0 && calls[|calls| - 1] == Setup(config.data)
  {
    var target;
    calls, target := ResolveTarget(f, device);
    if target.Err? {
      return calls, Err(target.error);
    }
    var more, session := Connect(f.file, args, device, target.value);
    calls := calls + more;
    if session.Err? {
      return calls, Err(session.error);
    }
    calls := calls + [CreateScript];
    if !device.scriptOk {
      return calls, Err(ScriptFailed);
    }
    calls := calls + [LoadScript];
    if !device.loadOk {
      return calls, Err(LoadFailed);
    }
    if session.value.spawned {
      calls := calls + [Resume(session.value.pid)];
      if !device.resumeOk {
        return calls, Err(ResumeFailed);
      }
    }
    match config {
      case Missing => return calls, Err(ConfigMissing);
      case Undecodable => return calls, Err(ConfigUndecodable);
      case Holds(offsets) =>
        calls := calls + [Setup(offsets)];
        return calls, Ok(session.value);
    }
  }

  // ----- Routing the script's messages -----

  /** A message from the script: its kind and its decoded payload. */
  datatype Message = Send(payload: Value) | Log(payload: Value) | OtherKind(kind: string)

  /** What the handler does with a message. Panic stands for a failed type
      assertion, which ends the program. */
  datatype Action =
    | Print(data: Value)
    | Post(reply: string, failed: bool)
    | Warn(subPayload: Option<Value>)
    | Info(text: string)
    | Error(kind: string)
    | Panic

  /** payload["type"].(string) of a send message. */
  function SubType(payload: Value): Option<string>
  {
    match Lookup(payload, "type")
    case Some(Str(t)) => Some(t)
    case _ => None
  }

  const ReplyHead := "{\"type\":\"jlutil\",\"payload\":\""
  const ReplyTail := "\"}"

  /** The JSON text posted back after jlutil ran. */
  function Reply(output: string): (post: string)
    ensures |post| == |ReplyHead| + |output| + |ReplyTail|
    ensures post[..|ReplyHead|] == ReplyHead && post[|post| - |ReplyTail|..] == ReplyTail
  {
    ReplyHead + output + ReplyTail
  }

  /** Reads the payload back out of a posted reply. */
  function ReplyPayload(post: string): string
    requires |post| >= |ReplyHead| + |ReplyTail|
  {
    post[|ReplyHead|..|post| - |ReplyTail|]
  }

  lemma ReplyRoundTrip(output: string)
    ensures ReplyPayload(Reply(output)) == output
  {
    var post := Reply(output);
    assert post[|ReplyHead|..|post| - |ReplyTail|] == output;
  }

  /** The message switch of RunE. jlutil is the external tool's answer for a
      base64 payload: its escaped output, or None when it fails, in which
      case the reply carries an empty payload. */
  function Route(m: Message, jlutil: string -> Option<string>): (a: Action)
    ensures a.Print? <==>
      (m.Send? && SubType(m.payload) == Some("print")
        && Lookup(m.payload, "payload").Some? && ConnName(Lookup(m.payload, "payload").value).Some?)
    ensures a.Print? ==> Lookup(m.payload, "payload") == Some(a.data)
    ensures a.Post? <==>
      (m.Send? && SubType(m.payload) == Some("jlutil")
        && Lookup(m.payload, "payload").Some? && Lookup(m.payload, "payload").value.Str?)
    ensures a.Warn? <==>
      (m.Send? && SubType(m.payload).Some?
        && SubType(m.payload).value != "print" && SubType(m.payload).value != "jlutil")
    ensures a.Warn? ==> a.subPayload == Lookup(m.payload, "payload")
    ensures a.Info? <==> m.Log? && m.payload.Str?
    ensures a.Error? <==> m.OtherKind?
  {
    match m
    case Send(payload) =>
      if !payload.Map? || SubType(payload).None? then Panic
      else
        var subPayload := Lookup(payload, "payload");
        (match SubType(payload).value
         case "print" =>
           if subPayload.Some? && ConnName(subPayload.value).Some? then Print(subPayload.value) else Panic
         case "jlutil" =>
           if subPayload.Some? && subPayload.value.Str? then
             var res := jlutil(subPayload.value.s);
             Post(Reply(if res.Some? then res.value else ""), res.None?)
           else Panic
         case _ => Warn(subPayload))
    case Log(payload) => if payload.Str? then Info(payload.s) else Panic
    case OtherKind(kind) => Error(kind)
  }

  /** A jlutil request is always answered, with an empty payload when the
      tool fails. */
  lemma JlutilAlwaysAnswered(m: Message, jlutil: string -> Option<string>)
    requires m.Send? && SubType(m.payload) == Some("jlutil")
    requires Lookup(m.payload, "payload").Some? && Lookup(m.payload, "payload").value.Str?
    ensures var a := Route(m, jlutil);
      var res := jlutil(Lookup(m.payload, "payload").value.s);
      a.Post? && |a.reply| >= |ReplyHead| + |ReplyTail| && a.failed == res.None?
      && ReplyPayload(a.reply) == if res.Some? then res.value else ""
  {
    var res := jlutil(Lookup(m.payload, "payload").value.s);
    ReplyRoundTrip(if res.Some? then res.value else "");
  }

  /** The message handler: routes the message and, for a print request,
      runs PrintData with the pattern lists compiled from the flags as RunE
      reads them, so the pid whitelist is the name whitelist. */
  method Dispatch(counter: Counter, f: Flags, m: Message, jlutil: string -> Option<string>)
    returns (action: Action, kept: Option<(nat, string)>)
    modifies counter
    ensures action == Route(m, jlutil)
    ensures action.Print? && !DroppedBy(FiltersAsWritten(f), ConnName(action.data).value, Pid(action.data)) ==>
      kept == Some((old(counter.c), Record(old(counter.c), action.data))) && counter.c == old(counter.c) + 1
    ensures !(action.Print? && !DroppedBy(FiltersAsWritten(f), ConnName(action.data).value, Pid(action.data))) ==>
      kept == None && counter.c == old(counter.c)
  {
    action := Route(m, jlutil);
    kept := None;
    if action.Print? {
      var lists := FiltersAsWritten(f);
      var whitelist := ListToRegex(lists.whitelist);
      var blacklist := ListToRegex(lists.blacklist);
      var whitelistp := ListToRegex(lists.whitelistp);
      var blacklistp := ListToRegex(lists.blacklistp);
      assert whitelist == Compiled(lists.whitelist);
      assert blacklist == Compiled(lists.blacklist);
      assert whitelistp == Compiled(lists.whitelistp);
      assert blacklistp == Compiled(lists.blacklistp);
      kept := PrintData(counter, action.data, whitelist, blacklist, whitelistp, blacklistp);
    }
  }
}
