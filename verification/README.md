# go-virtualbox command adapter, modelled in Dafny

The Terraform VirtualBox provider manages VirtualBox through a small adapter, `vBoxManage`. That adapter drives the `VBoxManage` command-line tool. It has seven operations:

- `CreateVM`
- `StartVM`
- `AddStorageCtl`
- `AttachStorage`
- `CreateMedium`
- `VMInfo`
- `UnRegisterVM`

Each operation builds an argument vector by appending strings in a fixed order. Some flags are appended only under a condition, and the integer arguments are written as decimal text. The operation then runs the process and either passes the process error on or reads what it needs from standard output.

`parseOutput` reads that output. It does three things:

1. It splits the text into lines the way `bufio.ScanLines` does.
2. It matches each line against the regular expression `(.*): *(.*)`.
3. It collects the matches into a map from key to value. A later line overwrites an earlier line with the same key.

The project has these modules:

- `Wrappers`: `Option`, `Result`, and `Outcome` (an error or nothing).
- `Text`: the index searches the line matcher uses. These are the last occurrence of a character, and the end of a run of spaces.
- `Scanner`: line splitting as `bufio.ScanLines` does it. It splits on `'\n'`, does not count a final empty piece as a line, and drops a trailing `'\r'` from each line. Its proofs are split/join round trips.
- `Decimal`: the `%d` formatting of an `int32`, and a reader for it. It proves the round trip.
- `FilePath`: `filepath.Dir` for `/`-separated paths. It proves that the directory of `parent/name` is `parent`.
- `Commands`: the argument vector of each operation as a specification function, `Argv`. It also has an inverse, `ParseArgv`. The lemmas `ArgvRoundTrip` and `ArgvInjective` use it to prove that every argument vector reads back as its request, so two different requests never produce the same command line. The layout lemmas give the exact length of every vector, where each optional flag of `createvm` and `unregistervm` stands, and where each number stands. `ArgvRoundTrip` pins the fixed flags through `ParseArgv`.
- `OutputParser`: the regex match of one line (`MatchLine`), the map-building fold (`Parsed`), and the loop that builds the map (`ParseOutput`). Around them are lemmas:
  - the leftmost-first preference of the regex;
  - colon-free lines being ignored;
  - keys coming from lines that contain a colon;
  - the last line with a key winning.
- `VBoxManage`: the seven operations as methods. Each one builds its arguments by successive appends, exactly as the Go code does. The process run is an `Executor` parameter, a function from argument vector to `Ran(stdout)` or `Failed(error)`.

Four behaviours of the code are easy to misread. The model follows the code:

- **Key.** The key is the text before the **last** colon of the line, because the first group of the regex is greedy. It is not the text before the first colon.
- **Value.** Only the spaces right after that colon are removed. Trailing spaces stay in the value.
- **Missing UUID.** A `CreateVM` run whose output has no `UUID:` line returns `""` and no error.
- **Error text.** The error passed on is the one `cmd.Run` returns. Standard error is captured and then dropped.

## Model

| member | source | states |
|---|---|---|
| `VBoxManage.CreateVM` | vendor/github.com/namaggarwal/go-virtualbox/vboxmanage.go:37-61 | Runs exactly `Commands.Argv(CreateVM(name, guest OS, base folder, shouldRegister))`. A process error comes back as that error, and the output is not parsed. Otherwise the result is the parsed `UUID` value, or `""` with no error when there is no such key. |
| `VBoxManage.StartVM` | vendor/github.com/namaggarwal/go-virtualbox/vboxmanage.go:63-72 | Runs exactly the `startvm` argument vector. It fails with the process error, and succeeds exactly when the process ran. |
| `VBoxManage.AddStorageCtl` | vendor/github.com/namaggarwal/go-virtualbox/vboxmanage.go:74-89 | Runs exactly the `storagectl` argument vector. It fails with the process error, and succeeds exactly when the process ran. |
| `VBoxManage.AttachStorage` | vendor/github.com/namaggarwal/go-virtualbox/vboxmanage.go:91-110 | Runs exactly the `storageattach` argument vector, with port and device as `%d` text. It fails with the process error, and succeeds exactly when the process ran. |
| `VBoxManage.CreateMedium` | vendor/github.com/namaggarwal/go-virtualbox/vboxmanage.go:112-127 | Runs exactly the `createmedium` argument vector, with the size as `%d` text. It fails with the process error, and succeeds exactly when the process ran. |
| `VBoxManage.VMInfo` | vendor/github.com/namaggarwal/go-virtualbox/vboxmanage.go:129-145 | Runs exactly `showvminfo name`. A process error comes back as that error, with no record. Otherwise the UUID, name, guest OS and config file are the parsed values of `UUID`, `Name`, `Guest OS` and `Config File` (`""` when absent). The base folder is `Dir` of the config file. |
| `VBoxManage.UnRegisterVM` | vendor/github.com/namaggarwal/go-virtualbox/vboxmanage.go:147-161 | Runs exactly `unregistervm name`, with `--delete` when files are to be deleted. It fails with the process error, and succeeds exactly when the process ran. |
| `Commands.Argv` | vendor/github.com/namaggarwal/go-virtualbox/vboxmanage.go:38-154 | Every argument vector starts with the program name `VBoxManage` and has at least three elements. |
| `Commands.CreateVMArgvLayout` | vendor/github.com/namaggarwal/go-virtualbox/vboxmanage.go:38-54 | `createvm` begins `VBoxManage createvm --name <name>`. Then comes `--ostype <guest OS>` if and only if the guest OS is set, then `--basefolder <folder>` if and only if the folder is set, then `--register` if and only if registering. Nothing else follows, and the length is exact. |
| `Commands.UnRegisterVMArgvLayout` | vendor/github.com/namaggarwal/go-virtualbox/vboxmanage.go:148-154 | `unregistervm` is `VBoxManage unregistervm <name>`, followed by `--delete` exactly when files are to be deleted. It has 4 elements then and 3 otherwise. |
| `Commands.FixedArgvLayouts` | vendor/github.com/namaggarwal/go-virtualbox/vboxmanage.go:63-127 | `startvm` and `showvminfo` have 3 elements ending in the name. `storagectl` has 9 and `createmedium` has 9. `storageattach` has 13. Port, device and size stand at their fixed positions as decimal text that reads back as the same `int32`. |
| `Commands.TakeOptionalFlag` | vendor/github.com/namaggarwal/go-virtualbox/vboxmanage.go:42-50 | Reading an optional flag back recovers its value, or `""` when it was not appended, and leaves the rest of the vector. |
| `Commands.CreateVMRoundTrip` | vendor/github.com/namaggarwal/go-virtualbox/vboxmanage.go:38-54 | Reading a `createvm` argument vector back gives the same name, guest OS, base folder and register flag. |
| `Commands.AttachStorageRoundTrip` | vendor/github.com/namaggarwal/go-virtualbox/vboxmanage.go:92-104 | Reading a `storageattach` argument vector back gives the same request, including port and device. |
| `Commands.CreateMediumRoundTrip` | vendor/github.com/namaggarwal/go-virtualbox/vboxmanage.go:113-121 | Reading a `createmedium` argument vector back gives the same request, including the size. |
| `Commands.UnRegisterVMRoundTrip` | vendor/github.com/namaggarwal/go-virtualbox/vboxmanage.go:148-154 | Reading an `unregistervm` argument vector back gives the same name and delete flag. |
| `Commands.ArgvRoundTrip` | vendor/github.com/namaggarwal/go-virtualbox/vboxmanage.go:37-161 | For every request of the seven operations, `ParseArgv(Argv(c)) == Some(c)`. |
| `Commands.ArgvInjective` | vendor/github.com/namaggarwal/go-virtualbox/vboxmanage.go:37-161 | Two different requests never produce the same argument vector. |
| `Decimal.NatToDecimal` | vendor/github.com/namaggarwal/go-virtualbox/vboxmanage.go:98 | The decimal text of a natural number is non-empty and all digits, with no leading zero. |
| `Decimal.FormatInt32` | vendor/github.com/namaggarwal/go-virtualbox/vboxmanage.go:98-100 | `%d` of an `int32` starts with `-` exactly when the number is negative, and the rest is digits. |
| `Decimal.DecimalRoundTrip` | vendor/github.com/namaggarwal/go-virtualbox/vboxmanage.go:119 | Reading the decimal text of `n` gives `n` back. |
| `Decimal.FormatInt32RoundTrip` | vendor/github.com/namaggarwal/go-virtualbox/vboxmanage.go:98-100 | Reading `%d` of any `int32`, including the most negative one, gives the same `int32` back. |
| `Decimal.FormatInt32Injective` | vendor/github.com/namaggarwal/go-virtualbox/vboxmanage.go:119 | Two different `int32` values never share a `%d` text. |
| `FilePath.TrimTrailingSlashes` | vendor/github.com/namaggarwal/go-virtualbox/vboxmanage.go:143 | The result is a prefix of the input. It drops only `/` characters and does not end in `/`. |
| `FilePath.Dir` | vendor/github.com/namaggarwal/go-virtualbox/vboxmanage.go:143 | A path with no `/` has directory `.`. For a path with a `/`, the directory is `/` or a prefix of the path that does not end in `/`. A path made only of `/` has directory `/`. |
| `FilePath.DirDropsLastElement` | vendor/github.com/namaggarwal/go-virtualbox/vboxmanage.go:143 | For a path with a `/`, what `Dir` drops is a run of `/` and then one last element with no `/`. The directory is `/` exactly when the path is `/`s followed by one element. Otherwise it is the prefix that ends just before that run of `/`. |
| `FilePath.DirOfChild` | vendor/github.com/namaggarwal/go-virtualbox/vboxmanage.go:143 | The directory of `parent/name` is `parent`, for a clean parent and a name without `/`. For a config file, this means the base folder is the folder that holds it. |
| `Text.LastIndexOf` | vendor/github.com/namaggarwal/go-virtualbox/vboxmanage.go:165 | Finds the last occurrence of a character, or reports that there is none, in both directions. |
| `Text.LastIndexBefore` | vendor/github.com/namaggarwal/go-virtualbox/vboxmanage.go:165 | Finds the last occurrence of a character before a given position, or reports that there is none. |
| `Text.SkipSpaces` | vendor/github.com/namaggarwal/go-virtualbox/vboxmanage.go:165 | Returns the end of the run of spaces that starts at a position: everything skipped is a space, and what follows is not. |
| `Scanner.Split` | vendor/github.com/namaggarwal/go-virtualbox/vboxmanage.go:164-167 | Splitting at newlines gives at least one piece, and no piece contains a newline. |
| `Scanner.DropCR` | vendor/github.com/namaggarwal/go-virtualbox/vboxmanage.go:167 | Removes one trailing `'\r'` and changes nothing else. The token stays unchanged exactly when it does not end in `'\r'`. |
| `Scanner.DropCRs` | vendor/github.com/namaggarwal/go-virtualbox/vboxmanage.go:167 | Applies `DropCR` to every token and keeps the number of tokens. |
| `Scanner.ScanLines` | vendor/github.com/namaggarwal/go-virtualbox/vboxmanage.go:164-167 | The lines the scanner yields contain no newline. |
| `Scanner.JoinSplit` | vendor/github.com/namaggarwal/go-virtualbox/vboxmanage.go:164-167 | Joining the pieces back with newlines restores the text, so splitting loses nothing. |
| `Scanner.SplitPrefix` | vendor/github.com/namaggarwal/go-virtualbox/vboxmanage.go:164-167 | Newline-free text in front of a string joins the first piece of that string's split. |
| `Scanner.SplitJoin` | vendor/github.com/namaggarwal/go-virtualbox/vboxmanage.go:164-167 | Splitting newline-joined, newline-free pieces gives back the pieces. |
| `Scanner.DropCRsUnchanged` | vendor/github.com/namaggarwal/go-virtualbox/vboxmanage.go:167 | Tokens that do not end in `'\r'` pass through unchanged. |
| `Scanner.ScanLinesTerminated` | vendor/github.com/namaggarwal/go-virtualbox/vboxmanage.go:164-167 | Scanning newline-terminated lines with no trailing `'\r'` yields exactly those lines. |
| `OutputParser.MatchLineKey` | vendor/github.com/namaggarwal/go-virtualbox/vboxmanage.go:165-171 | A line matches the regex if and only if it contains `:`. The key is the prefix before the last colon, and no colon follows that position. |
| `OutputParser.MatchLineValue` | vendor/github.com/namaggarwal/go-virtualbox/vboxmanage.go:165 | The value is a suffix of the line that comes after the key's colon and a run of spaces. It does not start with a space, and trailing characters are kept. |
| `OutputParser.MatchLinePreferred` | vendor/github.com/namaggarwal/go-virtualbox/vboxmanage.go:165 | Leftmost-first match semantics. Whenever `(.*): *(.*)` can match a line at position 0 as key, spaces and value, `MatchLine` picks a match of that shape. Its key is at least as long as any other, its spaces at least as many for that key, and its value at least as long. |
| `OutputParser.ParsedPrefix` | vendor/github.com/namaggarwal/go-virtualbox/vboxmanage.go:167-177 | Folding one more line into the map is `Store` on the fold of the lines before it. |
| `OutputParser.ParseOutput` | vendor/github.com/namaggarwal/go-virtualbox/vboxmanage.go:163-179 | The scanning loop that fills the map returns the fold `Parsed` of the scanner's lines. |
| `OutputParser.ParsedAppend` | vendor/github.com/namaggarwal/go-virtualbox/vboxmanage.go:167-177 | Parsing two blocks of lines one after the other gives the first block's map overridden by the second's. |
| `OutputParser.StoreUnion` | vendor/github.com/namaggarwal/go-virtualbox/vboxmanage.go:176 | Storing one line after a map union equals storing it into the right-hand map first. |
| `OutputParser.ParsedSkipsColonless` | vendor/github.com/namaggarwal/go-virtualbox/vboxmanage.go:168-171 | A line without a colon, wherever it stands, changes nothing in the result. |
| `OutputParser.StoreEffect` | vendor/github.com/namaggarwal/go-virtualbox/vboxmanage.go:176 | Storing a line sets only its own key, and every other key keeps its value. |
| `OutputParser.ParsedNoKey` | vendor/github.com/namaggarwal/go-virtualbox/vboxmanage.go:167-177 | A key that no matching line yields is absent from the result. |
| `OutputParser.ParsedHasKey` | vendor/github.com/namaggarwal/go-virtualbox/vboxmanage.go:167-177 | Every key of every matching line is in the result. |
| `OutputParser.ParsedSplitAt` | vendor/github.com/namaggarwal/go-virtualbox/vboxmanage.go:167-177 | The result is the map of the lines before a position, then that line stored, then the map of the lines after it overriding both. |
| `OutputParser.ParsedLastWins` | vendor/github.com/namaggarwal/go-virtualbox/vboxmanage.go:167-177 | When line `i` is the last line with key `k`, the result maps `k` to that line's value (last write wins). |
| `OutputParser.ParsedSound` | vendor/github.com/namaggarwal/go-virtualbox/vboxmanage.go:165-177 | Every key in the result comes from a line containing a colon, and its value is that key's value on the last such line. |
| `OutputParser.ColonInValueExample` | vendor/github.com/namaggarwal/go-virtualbox/vboxmanage.go:165 | `Time: 12:30` splits at the last colon into key `Time: 12` and value `30`. |
| `OutputParser.TrailingSpaceExample` | vendor/github.com/namaggarwal/go-virtualbox/vboxmanage.go:165 | `Name:   vm1 ` gives key `Name` and value `vm1 `. The leading spaces are gone and the trailing one is kept. |

## Left out

- Running the process is not modelled. This covers `execute`, `exec.Command` and `cmd.Run`, at `vboxmanage.go:181-188`. Each operation instead takes an `Executor`, which gives the outcome of running a given argument vector. The `VBoxManage` executable itself is not part of this model.
- Standard error is not modelled. `execute` captures it, but every caller drops it, so no result depends on it.
- `NewVBoxManage` and the `IVBoxManage` interface are not modelled. They only package the seven operations behind an interface, and the model's methods are those operations.
- The 64 KiB line limit of `bufio.Scanner` is not modelled. Above it, the Go scanner stops with an error that `parseOutput` never inspects. The model always reads every line.
- Strings are sequences of characters. The byte and UTF-8 view that Go's regexp and scanner work on is not modelled. The characters that matter here (`:`, space, `'\n'`, `'\r'`, `/`) are single bytes in UTF-8.
- `FilePath.Dir`: handles only `/`-separated paths. It removes trailing slashes, maps an empty result to `.` and an all-slash prefix to `/`. Go's full `filepath.Clean` is not modelled: `.` and `..` elements, interior `//`, and Windows volume names and separators. For those inputs the model's result can differ from Go's.
- The check `len(match) < 3` at `vboxmanage.go:173-175` can never be true, because the regex always has two groups. The model has no branch for it.
- The Terraform provider that calls the adapter is not part of this model. That covers `virtualbox/resource_vm.go`, `virtualbox/provider.go` and `app.go`: schema handling, the hard-coded base folder, and provider registration.
