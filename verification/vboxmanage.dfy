/**
 * The `vBoxManage` adapter: each operation builds the argument vector of one
 * `VBoxManage` invocation, runs it, and either passes the process error on
 * or reads what it needs from the process's standard output.
 *
 * Running the process (`execute`, i.e. `exec.Command` and `cmd.Run`) is not
 * modelled: every operation takes an `Executor`, the outcome of running a
 * given argument vector, as a parameter. Standard error, which every caller
 * discards, is not part of that outcome.
 */
module VBoxManage {
  import opened Wrappers
  import opened FilePath
  import opened Scanner
  import opened OutputParser
  import Decimal
  import Commands

  /** A virtual machine as the adapter reports it. */
  datatype VirtualMachine = VirtualMachine(
    uuid: string,
    name: string,
    guestOS: string,
    configFile: string,
    baseFolder: string)

  /** What running one process yields: its standard output, or the error `cmd.Run` returned. */
  datatype ExecResult = Ran(stdout: string) | Failed(error: string)

  /** The outcome of running the `VBoxManage` process with a given argument vector. */
  type Executor = seq<string> -> ExecResult

  /** The value Go's `info[key]` yields: the stored value, or "" for a missing key. */
  function Lookup(info: map<string, string>, key: string): (v: string)
    ensures key in info ==> v == info[key]
    ensures key !in info ==> v == ""
  {
    if key in info then info[key] else ""
  }

  /** What `parseOutput` returns for the given standard output. */
  function OutputMap(stdout: string): map<string, string> {
    Parsed(ScanLines(stdout))
  }

  method CreateVM(vm: VirtualMachine, shouldRegister: bool, execute: Executor) returns (r: Result<string>)
    ensures var ran := execute(Commands.Argv(Commands.Command.CreateVM(vm.name, vm.guestOS, vm.baseFolder, shouldRegister)));
      && (ran.Failed? ==> r == Failure(ran.error))
      && (ran.Ran? ==> r.Success?)
      && (ran.Ran? && "UUID" in OutputMap(ran.stdout) ==> r.value == OutputMap(ran.stdout)["UUID"])
      && (ran.Ran? && "UUID" !in OutputMap(ran.stdout) ==> r.value == "")
  {
    var args := [Commands.Program];
    args := args + ["createvm"];
    args := args + ["--name"];
    args := args + [vm.name];
    if vm.guestOS != "" {
      args := args + ["--ostype"];
      args := args + [vm.guestOS];
    }
    if vm.baseFolder != "" {
      args := args + ["--basefolder"];
      args := args + [vm.baseFolder];
    }
    if shouldRegister {
      args := args + ["--register"];
    }
    assert args == Commands.Argv(Commands.Command.CreateVM(vm.name, vm.guestOS, vm.baseFolder, shouldRegister));
    var ran := execute(args);
    if ran.Failed? {
      return Failure(ran.error);
    }
    var info := ParseOutput(ran.stdout);
    r := Success(Lookup(info, "UUID"));
  }

  method StartVM(name: string, execute: Executor) returns (r: Outcome)
    ensures var ran := execute(Commands.Argv(Commands.Command.StartVM(name)));
      && (ran.Failed? ==> r == Fail(ran.error))
      && (ran.Ran? ==> r == Pass)
  {
    var args := [Commands.Program];
    args := args + ["startvm"];
    args := args + [name];
    assert args == Commands.Argv(Commands.Command.StartVM(name));
    var ran := execute(args);
    if ran.Failed? {
      return Fail(ran.error);
    }
    r := Pass;
  }

  method AddStorageCtl(vmName: string, name: string, ctlType: string, controller: string, execute: Executor)
    returns (r: Outcome)
    ensures var ran := execute(Commands.Argv(Commands.Command.AddStorageCtl(vmName, name, ctlType, controller)));
      && (ran.Failed? ==> r == Fail(ran.error))
      && (ran.Ran? ==> r == Pass)
  {
    var args := [Commands.Program];
    args := args + ["storagectl"];
    args := args + [vmName];
    args := args + ["--name"];
    args := args + [name];
    args := args + ["--add"];
    args := args + [ctlType];
    args := args + ["--controller"];
    args := args + [controller];
    assert args == Commands.Argv(Commands.Command.AddStorageCtl(vmName, name, ctlType, controller));
    var ran := execute(args);
    if ran.Failed? {
      return Fail(ran.error);
    }
    r := Pass;
  }

  method AttachStorage(vmName: string, controllerName: string, port: Decimal.int32, device: Decimal.int32,
                       storageType: string, medium: string, execute: Executor)
    returns (r: Outcome)
    ensures var ran := execute(Commands.Argv(
        Commands.Command.AttachStorage(vmName, controllerName, port, device, storageType, medium)));
      && (ran.Failed? ==> r == Fail(ran.error))
      && (ran.Ran? ==> r == Pass)
  {
    var args := [Commands.Program];
    args := args + ["storageattach"];
    args := args + [vmName];
    args := args + ["--storagectl"];
    args := args + [controllerName];
    args := args + ["--port"];
    args := args + [Decimal.FormatInt32(port)];
    args := args + ["--device"];
    args := args + [Decimal.FormatInt32(device)];
    args := args + ["--type"];
    args := args + [storageType];
    args := args + ["--medium"];
    args := args + [medium];
    assert args == Commands.Argv(Commands.Command.AttachStorage(vmName, controllerName, port, device, storageType, medium));
    var ran := execute(args);
    if ran.Failed? {
      return Fail(ran.error);
    }
    r := Pass;
  }

  method CreateMedium(mediumType: string, filePath: string, size: Decimal.int32, format: string, execute: Executor)
    returns (r: Outcome)
    ensures var ran := execute(Commands.Argv(Commands.Command.CreateMedium(mediumType, filePath, size, format)));
      && (ran.Failed? ==> r == Fail(ran.error))
      && (ran.Ran? ==> r == Pass)
  {
    var args := [Commands.Program];
    args := args + ["createmedium"];
    args := args + [mediumType];
    args := args + ["--filename"];
    args := args + [filePath];
    args := args + ["--size"];
    args := args + [Decimal.FormatInt32(size)];
    args := args + ["--format"];
    args := args + [format];
    assert args == Commands.Argv(Commands.Command.CreateMedium(mediumType, filePath, size, format));
    var ran := execute(args);
    if ran.Failed? {
      return Fail(ran.error);
    }
    r := Pass;
  }

  method VMInfo(name: string, execute: Executor) returns (r: Result<VirtualMachine>)
    ensures var ran := execute(Commands.Argv(Commands.Command.VMInfo(name)));
      && (ran.Failed? ==> r == Failure(ran.error))
      && (ran.Ran? ==> r.Success?)
      && (ran.Ran? ==>
            var info := OutputMap(ran.stdout);
            && r.value.uuid == Lookup(info, "UUID")
            && r.value.name == Lookup(info, "Name")
            && r.value.guestOS == Lookup(info, "Guest OS")
            && r.value.configFile == Lookup(info, "Config File")
            && r.value.baseFolder == Dir(r.value.configFile))
  {
    var args := [Commands.Program];
    args := args + ["showvminfo"];
    args := args + [name];
    assert args == Commands.Argv(Commands.Command.VMInfo(name));
    var ran := execute(args);
    if ran.Failed? {
      return Failure(ran.error);
    }
    var info := ParseOutput(ran.stdout);
    r := Success(VirtualMachine(
      uuid := Lookup(info, "UUID"),
      name := Lookup(info, "Name"),
      guestOS := Lookup(info, "Guest OS"),
      configFile := Lookup(info, "Config File"),
      baseFolder := Dir(Lookup(info, "Config File"))));
  }

  method UnRegisterVM(name: string, deleteFiles: bool, execute: Executor) returns (r: Outcome)
    ensures var ran := execute(Commands.Argv(Commands.Command.UnRegisterVM(name, deleteFiles)));
      && (ran.Failed? ==> r == Fail(ran.error))
      && (ran.Ran? ==> r == Pass)
  {
    var args := [Commands.Program];
    args := args + ["unregistervm"];
    args := args + [name];
    if deleteFiles {
      args := args + ["--delete"];
    }
    assert args == Commands.Argv(Commands.Command.UnRegisterVM(name, deleteFiles));
    var ran := execute(args);
    if ran.Failed? {
      return Fail(ran.error);
    }
    r := Pass;
  }
}
