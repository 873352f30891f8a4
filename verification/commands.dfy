/**
 * The argument vectors the adapter passes to the `VBoxManage` executable,
 * one per operation, and a reader that recovers the request from an argument
 * vector (the inverse that shows no two requests share a command line).
 */
module Commands {
  import opened Wrappers
  import opened Decimal

  /** Name of the executable, and so the first element of every argument vector. */
  const Program := "VBoxManage"

  /** One request to the hypervisor tool, with the arguments its argument vector uses. */
  datatype Command =
    | CreateVM(vmName: string, guestOS: string, baseFolder: string, register: bool)
    | StartVM(vmName: string)
    | AddStorageCtl(vmName: string, ctlName: string, ctlType: string, controller: string)
    | AttachStorage(vmName: string, ctlName: string, port: int32, device: int32, storageType: string, medium: string)
    | CreateMedium(mediumType: string, filePath: string, size: int32, format: string)
    | VMInfo(vmName: string)
    | UnRegisterVM(vmName: string, deleteFiles: bool)

  /** The argument vector (program name first) the adapter runs for `c`. */
  function Argv(c: Command): (argv: seq<string>)
    ensures |argv| >= 3 && argv[0] == Program
  {
    [Program] +
    match c
    case CreateVM(name, guestOS, baseFolder, register) =>
      ["createvm", "--name", name]
      + OptionalFlag("--ostype", guestOS)
      + OptionalFlag("--basefolder", baseFolder)
      + (if register then ["--register"] else [])
    case StartVM(name) =>
      ["startvm", name]
    case AddStorageCtl(vmName, name, ctlType, controller) =>
      ["storagectl", vmName, "--name", name, "--add", ctlType, "--controller", controller]
    case AttachStorage(vmName, ctlName, port, device, storageType, medium) =>
      ["storageattach", vmName, "--storagectl", ctlName, "--port", FormatInt32(port),
       "--device", FormatInt32(device), "--type", storageType, "--medium", medium]
    case CreateMedium(mediumType, filePath, size, format) =>
      ["createmedium", mediumType, "--filename", filePath, "--size", FormatInt32(size), "--format", format]
    case VMInfo(name) =>
      ["showvminfo", name]
    case UnRegisterVM(name, deleteFiles) =>
      ["unregistervm", name] + (if deleteFiles then ["--delete"] else [])
  }

  /** `flag value` when `value` is set (not ""), nothing otherwise. */
  function OptionalFlag(flag: string, value: string): seq<string> {
    if value != "" then [flag, value] else []
  }

  /** Takes `flag value` off the front of `args`; "" and `args` unchanged when `flag` is not there. */
  function TakeFlag(args: seq<string>, flag: string): (string, seq<string>) {
    if |args| >= 2 && args[0] == flag then (args[1], args[2..]) else ("", args)
  }

  /** Reads the arguments that follow `createvm`. */
  function ParseCreateVM(args: seq<string>): Option<Command> {
    if |args| < 2 || args[0] != "--name" then None
    else
      var (guestOS, afterOS) := TakeFlag(args[2..], "--ostype");
      var (baseFolder, rest) := TakeFlag(afterOS, "--basefolder");
      if rest == [] then Some(CreateVM(args[1], guestOS, baseFolder, false))
      else if rest == ["--register"] then Some(CreateVM(args[1], guestOS, baseFolder, true))
      else None
  }

  /** Reads the arguments that follow `storageattach`. */
  function ParseAttachStorage(args: seq<string>): Option<Command> {
    if |args| == 11 && args[1] == "--storagectl" && args[3] == "--port" && args[5] == "--device"
       && args[7] == "--type" && args[9] == "--medium"
    then
      match (ParseInt32(args[4]), ParseInt32(args[6]))
      case (Some(port), Some(device)) => Some(AttachStorage(args[0], args[2], port, device, args[8], args[10]))
      case _ => None
    else None
  }

  /** Reads the arguments that follow `createmedium`. */
  function ParseCreateMedium(args: seq<string>): Option<Command> {
    if |args| == 7 && args[1] == "--filename" && args[3] == "--size" && args[5] == "--format" then
      match ParseInt32(args[4])
      case Some(size) => Some(CreateMedium(args[0], args[2], size, args[6]))
      case None => None
    else None
  }

  /** The request an argument vector stands for, if it is one the adapter can produce. */
  function ParseArgv(argv: seq<string>): Option<Command> {
    if |argv| < 2 || argv[0] != Program then None
    else
      var sub, args := argv[1], argv[2..];
      if sub == "createvm" then ParseCreateVM(args)
      else if sub == "startvm" then
        (if |args| == 1 then Some(StartVM(args[0])) else None)
      else if sub == "storagectl" then
        (if |args| == 7 && args[1] == "--name" && args[3] == "--add" && args[5] == "--controller"
         then Some(AddStorageCtl(args[0], args[2], args[4], args[6])) else None)
      else if sub == "storageattach" then ParseAttachStorage(args)
      else if sub == "createmedium" then ParseCreateMedium(args)
      else if sub == "showvminfo" then
        (if |args| == 1 then Some(VMInfo(args[0])) else None)
      else if sub == "unregistervm" then
        (if |args| == 1 then Some(UnRegisterVM(args[0], false))
         else if |args| == 2 && args[1] == "--delete" then Some(UnRegisterVM(args[0], true))
         else None)
      else None
  }

  /** `TakeFlag` reads back what `OptionalFlag` wrote, when what follows does not start with the flag. */
  lemma TakeOptionalFlag(flag: string, value: string, rest: seq<string>)
    requires rest == [] || rest[0] != flag
    ensures TakeFlag(OptionalFlag(flag, value) + rest, flag) == (value, rest)
  {
    if value != "" {
      assert (OptionalFlag(flag, value) + rest)[2..] == rest;
    } else {
      assert OptionalFlag(flag, value) + rest == rest;
    }
  }

  lemma CreateVMRoundTrip(c: Command)
    requires c.CreateVM?
    ensures ParseArgv(Argv(c)) == Some(c)
  {
    var tail := if c.register then ["--register"] else [];
    var afterOS := OptionalFlag("--basefolder", c.baseFolder) + tail;
    var opt := OptionalFlag("--ostype", c.guestOS) + afterOS;
    assert Argv(c) == [Program, "createvm", "--name", c.vmName] + opt;
    assert Argv(c)[2..][2..] == opt;
    TakeOptionalFlag("--basefolder", c.baseFolder, tail);
    TakeOptionalFlag("--ostype", c.guestOS, afterOS);
  }

  lemma AttachStorageRoundTrip(c: Command)
    requires c.AttachStorage?
    ensures ParseArgv(Argv(c)) == Some(c)
  {
    FormatInt32RoundTrip(c.port);
    FormatInt32RoundTrip(c.device);
  }

  lemma CreateMediumRoundTrip(c: Command)
    requires c.CreateMedium?
    ensures ParseArgv(Argv(c)) == Some(c)
  {
    FormatInt32RoundTrip(c.size);
  }

  lemma UnRegisterVMRoundTrip(c: Command)
    requires c.UnRegisterVM?
    ensures ParseArgv(Argv(c)) == Some(c)
  {
    assert Argv(c)[2..] == [c.vmName] + (if c.deleteFiles then ["--delete"] else []);
  }

  /** Every argument vector the adapter builds reads back as the request it was built from. */
  lemma ArgvRoundTrip(c: Command)
    ensures ParseArgv(Argv(c)) == Some(c)
  {
    match c
    case CreateVM(_, _, _, _) => CreateVMRoundTrip(c);
    case AttachStorage(_, _, _, _, _, _) => AttachStorageRoundTrip(c);
    case CreateMedium(_, _, _, _) => CreateMediumRoundTrip(c);
    case UnRegisterVM(_, _) => UnRegisterVMRoundTrip(c);
    case StartVM(_) =>
    case AddStorageCtl(_, _, _, _) =>
    case VMInfo(_) =>
  }

  /** Distinct requests never run the same command line. */
  lemma ArgvInjective(c1: Command, c2: Command)
    requires Argv(c1) == Argv(c2)
    ensures c1 == c2
  {
    ArgvRoundTrip(c1);
    ArgvRoundTrip(c2);
  }

  /**
   * `createvm`: the fixed prefix, then `--ostype GuestOS` exactly when the
   * guest OS is set, then `--basefolder BaseFolder` exactly when the base
   * folder is set, then `--register` exactly when registering, and nothing else.
   */
  lemma CreateVMArgvLayout(name: string, guestOS: string, baseFolder: string, register: bool)
    ensures var argv := Argv(CreateVM(name, guestOS, baseFolder, register));
      var folderAt := if guestOS != "" then 6 else 4;
      var registerAt := if baseFolder != "" then folderAt + 2 else folderAt;
      && argv[..4] == [Program, "createvm", "--name", name]
      && |argv| == registerAt + (if register then 1 else 0)
      && ((|argv| > 4 && argv[4] == "--ostype") <==> guestOS != "")
      && (guestOS != "" ==> argv[4..6] == ["--ostype", guestOS])
      && ((|argv| > folderAt && argv[folderAt] == "--basefolder") <==> baseFolder != "")
      && (baseFolder != "" ==> argv[folderAt..folderAt + 2] == ["--basefolder", baseFolder])
      && (register <==> |argv| > registerAt)
      && (register ==> argv[registerAt] == "--register")
  {
  }

  /** `unregistervm`: the name, then `--delete` exactly when files are to be deleted. */
  lemma UnRegisterVMArgvLayout(name: string, deleteFiles: bool)
    ensures var argv := Argv(UnRegisterVM(name, deleteFiles));
      && argv[..3] == [Program, "unregistervm", name]
      && (deleteFiles <==> |argv| == 4)
      && (deleteFiles ==> argv[3] == "--delete")
      && (!deleteFiles ==> |argv| == 3)
  {
  }

  /**
   * The fixed-layout commands have 3, 9, 13 and 9 elements, and the numbers
   * they carry stand in them as decimal text that reads back as the number.
   */
  lemma FixedArgvLayouts(c: Command)
    requires c.StartVM? || c.AddStorageCtl? || c.AttachStorage? || c.CreateMedium? || c.VMInfo?
    ensures c.StartVM? || c.VMInfo? ==> |Argv(c)| == 3 && Argv(c)[2] == c.vmName
    ensures c.AddStorageCtl? ==> |Argv(c)| == 9
    ensures c.AttachStorage? ==>
      && |Argv(c)| == 13
      && Argv(c)[6] == FormatInt32(c.port) && ParseInt32(Argv(c)[6]) == Some(c.port)
      && Argv(c)[8] == FormatInt32(c.device) && ParseInt32(Argv(c)[8]) == Some(c.device)
    ensures c.CreateMedium? ==>
      && |Argv(c)| == 9
      && Argv(c)[6] == FormatInt32(c.size) && ParseInt32(Argv(c)[6]) == Some(c.size)
  {
    match c
    case AttachStorage(_, _, port, device, _, _) =>
      FormatInt32RoundTrip(port);
      FormatInt32RoundTrip(device);
    case CreateMedium(_, _, size, _) =>
      FormatInt32RoundTrip(size);
    case _ =>
  }
}
