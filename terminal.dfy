// The terminal app (src/components/apps/Terminal.tsx): command tokenising, the path rules of
// `cd`, `cat` and `rm`, the `calc` character filter, the command history kept for the arrow keys,
// and what each command does to the terminal and the file system. Output that only formats other
// subsystems' state (`ps`, `whoami`, `date`, `sysinfo`), `eval` and `TextDecoder` come from the
// host functions in `Host`.
module Terminal {
  import opened Wrappers
  import opened Seqs
  import opened Text
  import opened KernelTypes
  import opened VfsPaths
  import opened VfsPermissions
  import opened FileSystem

  const HomeDir: string := "/home/demo-user"

  /** The lines `help` prints. */
  const HelpLines: seq<string> := [
    "Available commands:",
    "  help          - Show this help",
    "  clear         - Clear terminal",
    "  ls            - List directory contents",
    "  cd <path>     - Change directory",
    "  pwd           - Print working directory",
    "  cat <file>    - Display file contents",
    "  echo <text>   - Print text",
    "  mkdir <name>  - Create directory",
    "  touch <name>  - Create file",
    "  rm <file>     - Remove file",
    "  ps            - List processes",
    "  whoami        - Show current user",
    "  date          - Show current date/time",
    "  sysinfo       - Show system information",
    "  calc <expr>   - Calculate expression (e.g., calc 2+2)"
  ]

  const HelpText: string := Join(HelpLines, "\n")

  /**
   * What the terminal asks of code outside this model: `eval` of the filtered expression (None
   * when it throws), `TextDecoder.decode` of binary file contents, and the report text of the
   * commands that format process, user, clock or storage state.
   */
  datatype Host = Host(evaluate: string -> Option<string>, decode: seq<bv8> -> string, report: string -> string)

  // ---------------------------------------------------------------------------
  // Tokens
  // ---------------------------------------------------------------------------

  /** The command, lowercased, and its arguments; None for a blank line. */
  function Tokens(cmd: string): Option<(string, seq<string>)> {
    var trimmed := Trim(cmd);
    if trimmed == "" then None
    else
      var parts := SplitSpaces(trimmed);
      Some((Lower(parts[0]), parts[1..]))
  }

  /**
   * A line is blank exactly when it is all whitespace; otherwise the command is a non-empty word
   * and every argument a non-empty word without whitespace.
   */
  lemma TokensShape(cmd: string)
    ensures Tokens(cmd).None? <==> forall i :: 0 <= i < |cmd| ==> IsSpace(cmd[i])
    ensures Tokens(cmd).Some? ==>
      var (command, args) := Tokens(cmd).value;
      && command != "" && NoSpace(SplitSpaces(Trim(cmd))[0])
      && forall k :: 0 <= k < |args| ==> args[k] != "" && NoSpace(args[k])
  {
    TrimShape(cmd);
    var t := Trim(cmd);
    if t != "" {
      TrimStartShape(cmd);
      TrimEndShape(TrimStart(cmd));
      var k := |cmd| - |TrimStart(cmd)|;
      assert t[0] == TrimStart(cmd)[0] == cmd[k];
      SplitSpacesWords(t);
      var parts := SplitSpaces(t);
      assert |Lower(parts[0])| == |parts[0]|;
      forall j | 0 <= j < |parts[1..]| ensures parts[1..][j] != "" && NoSpace(parts[1..][j]) {
        assert parts[1..][j] == parts[j + 1];
      }
    }
  }

  // ---------------------------------------------------------------------------
  // Paths
  // ---------------------------------------------------------------------------

  /** `cd`'s target: an absolute argument as given, a relative one joined and collapsed. */
  function CdTarget(currentDir: string, arg: string): string {
    if StartsWith(arg, "/") then arg else CollapseSlashes(currentDir + "/" + arg)
  }

  /** `cat`'s and `rm`'s target: an absolute argument as given, a relative one joined as is. */
  function FileTarget(currentDir: string, arg: string): string {
    if StartsWith(arg, "/") then arg else currentDir + "/" + arg
  }

  /**
   * A relative `cd` lands on an absolute path without slash runs; from the root directory,
   * `cat` and `rm` ask for a path with two leading slashes while `cd` asks for one.
   */
  lemma TargetsDiffer(currentDir: string, arg: string)
    requires StartsWith(currentDir, "/") && !StartsWith(arg, "/")
    ensures StartsWith(CdTarget(currentDir, arg), "/") && NoDoubleSlash(CdTarget(currentDir, arg))
    ensures CdTarget(currentDir, arg) == CollapseSlashes(FileTarget(currentDir, arg))
    ensures currentDir == "/" && arg != "" ==> CdTarget(currentDir, arg) != FileTarget(currentDir, arg)
  {
    var joined := currentDir + "/" + arg;
    assert joined[0] == currentDir[0] == '/';
    CollapseShape(joined);
    if currentDir == "/" && arg != "" {
      assert joined[0] == '/' && joined[1] == '/';
      assert !NoDoubleSlash(joined);
    }
  }

  // ---------------------------------------------------------------------------
  // calc
  // ---------------------------------------------------------------------------

  /** The characters `calc` passes to `eval`: digits, `+ - * / .` and parentheses. */
  predicate CalcChar(c: char) {
    '0' <= c <= '9' || c == '+' || c == '-' || c == '*' || c == '/' || c == '.' || c == '(' || c == ')'
  }

  function IsCalcChar(): char -> bool {
    (c: char) => CalcChar(c)
  }

  /** `.replace(/[^0-9+\-*\/.()]/g, '')`. */
  function CalcFilter(expr: string): string {
    Filter(expr, IsCalcChar())
  }

  /** The filter keeps exactly the allowed characters, and filtering again changes nothing. */
  lemma CalcFilterShape(expr: string)
    ensures forall i :: 0 <= i < |CalcFilter(expr)| ==> CalcChar(CalcFilter(expr)[i])
    ensures forall i :: 0 <= i < |expr| && CalcChar(expr[i]) ==> expr[i] in CalcFilter(expr)
    ensures (forall i :: 0 <= i < |expr| ==> CalcChar(expr[i])) ==> CalcFilter(expr) == expr
    ensures CalcFilter(CalcFilter(expr)) == CalcFilter(expr)
  {
    if forall i :: 0 <= i < |expr| ==> CalcChar(expr[i]) {
      FilterKeepsAll(expr, IsCalcChar());
    }
    FilterKeepsAll(CalcFilter(expr), IsCalcChar());
  }

  function CalcOutput(args: seq<string>, host: Host): string {
    if |args| == 0 then "calc: missing expression"
    else
      var expr := Join(args, "");
      match host.evaluate(CalcFilter(expr))
      case Some(result) => expr + " = " + result
      case None => "calc: invalid expression"
  }

  // ---------------------------------------------------------------------------
  // Output
  // ---------------------------------------------------------------------------

  /** The message of each error the file system throws. */
  function ErrorMessage(e: FsError): string {
    match e
    case ParentNotFound(p) => "Parent directory not found: " + p
    case PermissionDenied => "Permission denied"
    case DirectoryExists(p) => "Directory already exists: " + p
    case FileExists(p) => "File already exists: " + p
    case NotADirectory(p) => "Not a directory: " + p
    case FileNotFound(p) => "File not found: " + p
    case SourceNotFound(p) => "Source not found: " + p
    case DestinationParentNotFound(p) => "Destination parent not found: " + p
    case StackOverflow => "Maximum call stack size exceeded"
  }

  /** The outer `catch`: `Error: <message>`. */
  function Failure(e: FsError): string {
    "Error: " + ErrorMessage(e)
  }

  function Entry(f: FileNode): string {
    (if f.IsDirectory() then "\U{1F4C1}" else "\U{1F4C4}") + " " + f.name
  }

  /** `ls`: one line per entry, or "(empty)". */
  function Listing(files: seq<FileNode>): string {
    if |files| > 0 then Join(seq(|files|, i requires 0 <= i < |files| => Entry(files[i])), "\n") else "(empty)"
  }

  function ContentText(c: Content, host: Host): string {
    match c
    case TextContent(t) => t
    case BinaryContent(b) => host.decode(b)
  }

  /** `if (output)`: a non-empty output is shown followed by a blank line. */
  function Shown(output: string): seq<string> {
    if output != "" then [output, ""] else []
  }

  function NotFoundText(command: string): string {
    "Command not found: " + command + ". Type \"help\" for available commands."
  }

  /** The commands that reach the file system or change the directory or the screen. */
  predicate Effectful(command: string) {
    command == "clear" || command == "cd" || command == "ls" || command == "cat" || command == "mkdir"
    || command == "touch" || command == "rm"
  }

  /** The commands whose output is pure text, given the directory and the host. */
  function TextOutput(command: string, args: seq<string>, currentDir: string, host: Host): string {
    if command == "help" then HelpText
    else if command == "pwd" then currentDir
    else if command == "echo" then Join(args, " ")
    else if command == "calc" then CalcOutput(args, host)
    else if command == "ps" || command == "whoami" || command == "date" || command == "sysinfo" then host.report(command)
    else NotFoundText(command)
  }

  /** Up: one entry further back, while there is one. */
  function Up(index: int, count: nat): int {
    if count > 0 && index + 1 < count then index + 1 else index
  }

  /** Down: one entry forward, or back to the empty input below the newest. */
  function Down(index: int): int {
    if index > 0 then index - 1 else -1
  }

  /** Down undoes a step up; a step down from the newest entry clears the input instead. */
  lemma UpThenDown(index: int, count: nat)
    requires -1 <= index && index + 1 < count
    ensures Down(Up(index, count)) == index
    ensures -1 <= Up(index, count) < count
    ensures Up(count - 1, count) == count - 1
  {
  }

  class TerminalState {
    var history: seq<string>
    var input: string
    var currentDir: string
    var commandHistory: seq<string>
    var historyIndex: int

    /**
     * The directory is absolute, and the history index is -1 (the input being typed) or points
     * into the command history.
     */
    ghost predicate Valid()
      reads this
    {
      StartsWith(currentDir, "/") && -1 <= historyIndex < |commandHistory|
    }

    constructor()
      ensures Valid() && input == "" && currentDir == HomeDir && commandHistory == [] && historyIndex == -1
      ensures history == ["\U{1F30C} OMNIVERSE OS Terminal v1.0", "Type \"help\" for available commands", ""]
    {
      history := ["\U{1F30C} OMNIVERSE OS Terminal v1.0", "Type \"help\" for available commands", ""];
      input := "";
      currentDir := HomeDir;
      commandHistory := [];
      historyIndex := -1;
    }

    /** ArrowUp: an older command, counted from the newest, while there is one. */
    method ArrowUp()
      requires Valid()
      modifies this`historyIndex, this`input
      ensures Valid() && historyIndex == Up(old(historyIndex), |commandHistory|)
      ensures historyIndex != old(historyIndex) ==> input == commandHistory[|commandHistory| - 1 - historyIndex]
      ensures historyIndex == old(historyIndex) ==> input == old(input)
    {
      if |commandHistory| > 0 {
        var newIndex := historyIndex + 1;
        if newIndex < |commandHistory| {
          historyIndex := newIndex;
          input := commandHistory[|commandHistory| - 1 - newIndex];
        }
      }
    }

    /** ArrowDown: a newer command, or the empty input once past the newest. */
    method ArrowDown()
      requires Valid()
      modifies this`historyIndex, this`input
      ensures Valid() && historyIndex == Down(old(historyIndex))
      ensures historyIndex >= 0 ==> input == commandHistory[|commandHistory| - 1 - historyIndex]
      ensures historyIndex == -1 ==> input == ""
    {
      if historyIndex > 0 {
        var newIndex := historyIndex - 1;
        historyIndex := newIndex;
        input := commandHistory[|commandHistory| - 1 - newIndex];
      } else {
        historyIndex := -1;
        input := "";
      }
    }

    /** Enter: the typed line is run, the input cleared and the history index reset. */
    method Enter(vfs: VirtualFileSystem, host: Host, fuel: nat, now: int) returns (output: string)
      requires Valid() && vfs.Valid()
      modifies this, vfs`files, vfs`cache, vfs`nextId
      ensures Valid() && vfs.Valid() && input == "" && historyIndex == -1
      ensures Tokens(old(input)).Some? ==> commandHistory == old(commandHistory) + [Trim(old(input))]
      ensures Tokens(old(input)).None? ==> commandHistory == old(commandHistory) && history == old(history)
    {
      output := ExecuteCommand(vfs, input, host, fuel, now);
      input := "";
      historyIndex := -1;
    }

    /**
     * executeCommand: a blank line does nothing. Otherwise the line is echoed and remembered,
     * `clear` empties the screen, and any other command's non-empty output is shown.
     */
    method ExecuteCommand(vfs: VirtualFileSystem, cmd: string, host: Host, fuel: nat, now: int) returns (output: string)
      requires Valid() && vfs.Valid()
      modifies this`history, this`commandHistory, this`currentDir, vfs`files, vfs`cache, vfs`nextId
      ensures Valid() && vfs.Valid()
      ensures Tokens(cmd).None? ==>
        && output == "" && history == old(history) && commandHistory == old(commandHistory)
        && currentDir == old(currentDir) && unchanged(vfs)
      ensures Tokens(cmd).Some? ==>
        var (command, args) := Tokens(cmd).value;
        && commandHistory == old(commandHistory) + [Trim(cmd)]
        && (command == "clear" ==> history == [] && output == "")
        && (command != "clear" ==> history == old(history) + ["$ " + Trim(cmd)] + Shown(output))
        && (command != "cd" ==> currentDir == old(currentDir))
        && (!Effectful(command) ==>
              output == TextOutput(command, args, old(currentDir), host) && unchanged(vfs))
    {
      var trimmed := Trim(cmd);
      if trimmed == "" {
        return "";
      }
      var parts := SplitSpaces(trimmed);
      var command := Lower(parts[0]);
      var args := parts[1..];
      history := history + ["$ " + trimmed];
      commandHistory := commandHistory + [trimmed];
      if command == "clear" {
        history := [];
        return "";
      }
      output := Run(vfs, command, args, host, fuel, now);
      history := history + Shown(output);
    }

    /** The switch over the commands, after the line is echoed. */
    method Run(vfs: VirtualFileSystem, command: string, args: seq<string>, host: Host, fuel: nat, now: int)
      returns (output: string)
      requires vfs.Valid() && StartsWith(currentDir, "/")
      modifies this`currentDir, vfs`files, vfs`cache, vfs`nextId
      ensures vfs.Valid() && StartsWith(currentDir, "/")
      ensures command != "cd" ==> currentDir == old(currentDir)
      ensures !Effectful(command) ==>
        output == TextOutput(command, args, old(currentDir), host) && unchanged(vfs)
    {
      if command == "cd" {
        output := Cd(vfs, args);
      } else if command == "ls" {
        output := Ls(vfs);
      } else if command == "cat" {
        output := Cat(vfs, args, host);
      } else if command == "mkdir" || command == "touch" {
        output := Make(vfs, command == "mkdir", args, now);
      } else if command == "rm" {
        output := Rm(vfs, args, fuel);
      } else {
        output := TextOutput(command, args, currentDir, host);
      }
    }

    /**
     * cd: home without an argument; otherwise the target becomes the directory only when
     * listing it succeeds.
     */
    method Cd(vfs: VirtualFileSystem, args: seq<string>) returns (output: string)
      requires vfs.Valid() && StartsWith(currentDir, "/")
      modifies this`currentDir, vfs`cache
      ensures vfs.Valid() && vfs.files == old(vfs.files) && StartsWith(currentDir, "/")
      ensures |args| == 0 ==> currentDir == HomeDir && output == "Changed to home directory"
      ensures |args| > 0 ==>
        var target := CdTarget(old(currentDir), args[0]);
        var listed := ListResult(vfs.files, Resolve(vfs.files, old(vfs.cache), target), target, vfs.currentUserId);
        && (listed.Ok? ==> currentDir == target && output == "Changed to " + target)
        && (listed.Err? ==> currentDir == old(currentDir) && output == "cd: " + args[0] + ": No such directory")
    {
      if |args| == 0 {
        currentDir := HomeDir;
        return "Changed to home directory";
      }
      var target := CdTarget(currentDir, args[0]);
      if !StartsWith(args[0], "/") {
        TargetsDiffer(currentDir, args[0]);
      }
      var listed := vfs.ListDirectory(target);
      if listed.Ok? {
        currentDir := target;
        output := "Changed to " + target;
      } else {
        output := "cd: " + args[0] + ": No such directory";
      }
    }

    /** ls: the entries of the current directory. */
    method Ls(vfs: VirtualFileSystem) returns (output: string)
      requires vfs.Valid()
      modifies vfs`cache
      ensures vfs.Valid() && vfs.files == old(vfs.files)
      ensures match ListResult(vfs.files, Resolve(vfs.files, old(vfs.cache), currentDir), currentDir, vfs.currentUserId)
        case Ok(entries) => output == Listing(entries)
        case Err(e) => output == Failure(e)
    {
      var listed := vfs.ListDirectory(currentDir);
      output := if listed.Ok? then Listing(listed.value) else Failure(listed.error);
    }

    /** cat: the contents of the file at the target path. */
    method Cat(vfs: VirtualFileSystem, args: seq<string>, host: Host) returns (output: string)
      requires vfs.Valid()
      modifies vfs`cache
      ensures vfs.Valid() && vfs.files == old(vfs.files)
      ensures |args| == 0 ==> output == "cat: missing file operand"
      ensures |args| > 0 ==>
        var target := FileTarget(currentDir, args[0]);
        match ReadResult(Resolve(vfs.files, old(vfs.cache), target), target, vfs.currentUserId)
        case Ok(c) => output == ContentText(c, host)
        case Err(e) => output == Failure(e)
    {
      if |args| == 0 {
        return "cat: missing file operand";
      }
      var read := vfs.ReadFile(FileTarget(currentDir, args[0]));
      output := if read.Ok? then ContentText(read.value, host) else Failure(read.error);
    }

    /** mkdir and touch: a directory, or an empty text file, named by the argument in the current directory. */
    method Make(vfs: VirtualFileSystem, directory: bool, args: seq<string>, now: int) returns (output: string)
      requires vfs.Valid()
      modifies vfs`files, vfs`cache, vfs`nextId
      ensures vfs.Valid()
      ensures |args| == 0 ==>
        output == (if directory then "mkdir: missing operand" else "touch: missing operand") && unchanged(vfs)
      ensures |args| > 0 ==>
        var kind := if directory then DirectoryKind([]) else FileKind(TextContent(""), "text/plain");
        var effect := CreateEffect(old(vfs.files), old(vfs.cache), vfs.currentUserId, old(vfs.nextId), currentDir,
                                   args[0], kind, None, now);
        && vfs.files == effect.1 && vfs.cache == effect.2
        && (effect.0.Ok? ==> output == (if directory then "Created directory: " else "Created file: ") + args[0])
        && (effect.0.Err? ==> output == Failure(effect.0.error))
    {
      if |args| == 0 {
        return if directory then "mkdir: missing operand" else "touch: missing operand";
      }
      var created;
      if directory {
        created := vfs.CreateDirectory(currentDir, args[0], None, now);
      } else {
        created := vfs.CreateFile(currentDir, args[0], TextContent(""), "text/plain", None, now);
      }
      output := if created.Ok? then (if directory then "Created directory: " else "Created file: ") + args[0]
                else Failure(created.error);
    }

    /** rm: the record at the target path is deleted, with everything below it. */
    method Rm(vfs: VirtualFileSystem, args: seq<string>, fuel: nat) returns (output: string)
      requires vfs.Valid()
      modifies vfs`files, vfs`cache
      ensures vfs.Valid() && Pruned(old(vfs.files), vfs.files)
      ensures |args| == 0 ==> output == "rm: missing operand" && unchanged(vfs)
      ensures |args| > 0 ==>
        var target := FileTarget(currentDir, args[0]);
        var found := Resolve(old(vfs.files), old(vfs.cache), target);
        && (fuel == 0 ==> output == Failure(StackOverflow) && vfs.files == old(vfs.files))
        && (fuel > 0 && found.None? ==> output == Failure(FileNotFound(target)) && vfs.files == old(vfs.files))
        && (fuel > 0 && found.Some? && !CanWrite(found.value, vfs.currentUserId) ==>
              output == Failure(PermissionDenied) && vfs.files == old(vfs.files))
        && (fuel > 0 && found.Some? && CanWrite(found.value, vfs.currentUserId) && !found.value.IsDirectory() ==>
              output == "Removed: " + args[0] && vfs.files == Unlink(old(vfs.files), found.value))
        && (output == "Removed: " + args[0] ==>
              found.Some? && CanWrite(found.value, vfs.currentUserId) && found.value.id !in vfs.files)
    {
      PrunedReflexive(vfs.files);
      if |args| == 0 {
        return "rm: missing operand";
      }
      var target := FileTarget(currentDir, args[0]);
      var removed := vfs.DeleteFile(target, fuel);
      if removed.Pass? {
        output := "Removed: " + args[0];
      } else {
        output := Failure(removed.error);
        assert output != "Removed: " + args[0] by {
          assert output[..7] == "Error: " && ("Removed: " + args[0])[..7] == "Removed";
        }
      }
    }
  }
}
