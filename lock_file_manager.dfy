// LockFileManager: the discovery file ~/.claude/ide/<port>.lock that tells
// the CLI where the IDE listens. The file system is a Disk object; the user's
// home directory, the open projects, the random auth token and I/O failures
// are parameters.
module LockFileManager {
  import opened Wrappers
  import opened Text
  import opened Json
  import opened Ide

  const ClaudeDir: string := ".claude"
  const IdeDir: string := "ide"
  const LockSuffix: string := ".lock"

  /** getLockFilePath: <home>/.claude/ide/<port>.lock, with '/' as the separator. */
  function GetLockFilePath(home: string, port: int): (r: string)
    ensures StartsWith(r, home + "/.claude/ide/")
    ensures BaseName(r) == IntToString(port) + LockSuffix
  {
    var name := IntToString(port) + LockSuffix;
    var dir := home + "/" + ClaudeDir + "/" + IdeDir;
    var path := dir + "/" + name;
    assert path == (home + "/.claude/ide/") + name;
    assert path[..|home + "/.claude/ide/"|] == home + "/.claude/ide/";
    NoSlashInLockName(port);
    BaseNameOfJoin(dir, name);
    path
  }

  lemma NoSlashInLockName(port: int)
    ensures '/' !in IntToString(port) + LockSuffix
  {
    var digits := if port < 0 then NatToString(-port) else NatToString(port);
    assert forall i :: 0 <= i < |digits| ==> IsDigit(digits[i]);
  }

  /** The name after the last separator of dir + "/" + name, for a name without one, is that name. */
  lemma BaseNameOfJoin(dir: string, name: string)
    requires '/' !in name
    ensures BaseName(dir + "/" + name) == name
  {
    var path := dir + "/" + name;
    var k := LastIndexOf(path, '/');
    assert path[|dir|] == '/';
    assert forall j :: |dir| < j < |path| ==> path[j] == name[j - |dir| - 1];
    assert k == |dir|;
    assert path[k + 1..] == name;
  }

  /** The port a lock file's name announces, if it is "<long>.lock". */
  function LockPort(path: string): Option<int>
  {
    var name := BaseName(path);
    if |name| >= |LockSuffix| && name[|name| - |LockSuffix|..] == LockSuffix then
      ParseLong(name[..|name| - |LockSuffix|])
    else None
  }

  /** The CLI reads back the port the IDE wrote into the lock file's name. */
  lemma LockPortOfLockFilePath(home: string, port: nat)
    requires port <= LongMax
    ensures LockPort(GetLockFilePath(home, port)) == Some(port)
  {
    var name := IntToString(port) + LockSuffix;
    assert BaseName(GetLockFilePath(home, port)) == name;
    assert name[..|name| - |LockSuffix|] == NatToString(port);
    ParseLongOfNatToString(port);
  }

  /** The absolute paths of the open projects that have a directory, in project order. */
  function ProjectDirs(projects: seq<Project>): seq<string>
  {
    if |projects| == 0 then []
    else
      var last := projects[|projects| - 1];
      ProjectDirs(projects[..|projects| - 1]) + (if last.dir.Some? then [last.dir.value] else [])
  }

  lemma {:induction false} ProjectDirsMembers(projects: seq<Project>, path: string)
    ensures path in ProjectDirs(projects) <==> exists i :: 0 <= i < |projects| && projects[i].dir == Some(path)
  {
    if |projects| > 0 {
      var init := projects[..|projects| - 1];
      ProjectDirsMembers(init, path);
      if path in ProjectDirs(init) {
        var i :| 0 <= i < |init| && init[i].dir == Some(path);
        assert projects[i] == init[i];
      }
      if exists i :: 0 <= i < |projects| && projects[i].dir == Some(path) {
        var i :| 0 <= i < |projects| && projects[i].dir == Some(path);
        if i < |init| {
          assert init[i] == projects[i];
        }
      }
    }
  }

  /** The workspace folders a lock file lists: the project directories, or the home directory alone. */
  function WorkspaceFolders(projects: seq<Project>, home: string): seq<string>
  {
    if ProjectDirs(projects) == [] then [home] else ProjectDirs(projects)
  }

  /**
   * The list is never empty, and it holds exactly the open projects'
   * directories, or only the home directory when there are none.
   */
  lemma WorkspaceFoldersContents(projects: seq<Project>, home: string, path: string)
    ensures |WorkspaceFolders(projects, home)| > 0
    ensures (forall i :: 0 <= i < |projects| ==> projects[i].dir.None?) ==> WorkspaceFolders(projects, home) == [home]
    ensures (exists i :: 0 <= i < |projects| && projects[i].dir.Some?) ==>
      (path in WorkspaceFolders(projects, home) <==> exists i :: 0 <= i < |projects| && projects[i].dir == Some(path))
  {
    ProjectDirsMembers(projects, path);
    if exists i :: 0 <= i < |projects| && projects[i].dir.Some? {
      var i :| 0 <= i < |projects| && projects[i].dir.Some?;
      ProjectDirsMembers(projects, projects[i].dir.value);
    } else if ProjectDirs(projects) != [] {
      ProjectDirsMembers(projects, ProjectDirs(projects)[0]);
    }
  }

  /** getWorkspaceFolders: collects the project directories, falling back to the home directory. */
  method GetWorkspaceFolders(projects: seq<Project>, home: string) returns (folders: seq<string>)
    ensures folders == WorkspaceFolders(projects, home)
  {
    folders := [];
    for i := 0 to |projects|
      invariant folders == ProjectDirs(projects[..i])
    {
      assert projects[..i + 1][..i] == projects[..i];
      if projects[i].dir.Some? {
        folders := folders + [projects[i].dir.value];
      }
    }
    assert projects[..|projects|] == projects;
    if |folders| == 0 {
      folders := folders + [home];
    }
  }

  /**
   * getCurrentProcessId: the text of the runtime name before its first '@'
   * read as a long, or -1 when that text is not one.
   */
  function GetCurrentProcessId(runtimeName: string): (r: int)
    ensures LongMin <= r <= LongMax
  {
    match ParseLong(TextBefore(runtimeName, '@'))
    case Some(pid) => pid
    case None => -1
  }

  lemma {:induction false} TextBeforeOfJoin(head: string, rest: string)
    requires '@' !in head
    ensures TextBefore(head + "@" + rest, '@') == head
  {
    if |head| > 0 {
      assert (head + "@" + rest)[1..] == head[1..] + "@" + rest;
      TextBeforeOfJoin(head[1..], rest);
    }
  }

  /** A runtime name of the usual "<pid>@<host>" form gives back the pid. */
  lemma ProcessIdOfRuntimeName(pid: nat, host: string)
    requires pid <= LongMax
    ensures GetCurrentProcessId(NatToString(pid) + "@" + host) == pid
  {
    var digits := NatToString(pid);
    assert forall i :: 0 <= i < |digits| ==> IsDigit(digits[i]);
    TextBeforeOfJoin(digits, host);
    ParseLongOfNatToString(pid);
  }

  /** The lock file's contents. */
  function LockData(pid: int, authToken: string, folders: seq<string>): Json
  {
    JObj([("pid", JInt(pid)), ("ideName", JStr("NetBeans")), ("transport", JStr("ws")),
          ("authToken", JStr(authToken)), ("workspaceFolders", JArr(Strings(folders)))])
  }

  /**
   * The lock file after an update: the same fields, with workspaceFolders
   * replaced (or added at the end).
   */
  function UpdatedLockData(fields: seq<(string, Json)>, folders: seq<string>): (r: Json)
    ensures r.JObj? && Lookup(r.fields, "workspaceFolders") == Some(JArr(Strings(folders)))
    ensures forall k :: k != "workspaceFolders" ==> Lookup(r.fields, k) == Lookup(fields, k)
    ensures Keys(r.fields) == if "workspaceFolders" in Keys(fields) then Keys(fields) else Keys(fields) + ["workspaceFolders"]
  {
    var r := JObj(Put(fields, "workspaceFolders", JArr(Strings(folders))));
    LookupPutSame(fields, "workspaceFolders", JArr(Strings(folders)));
    forall k | k != "workspaceFolders"
      ensures Lookup(r.fields, k) == Lookup(fields, k)
    {
      LookupPutOther(fields, "workspaceFolders", JArr(Strings(folders)), k);
    }
    r
  }

  /** The file system as the manager sees it: existing files, parsed when they hold JSON, and the unreadable ones. */
  class Disk {
    var files: map<string, Option<Json>>
    var unreadable: set<string>

    constructor (files: map<string, Option<Json>>, unreadable: set<string>)
      ensures this.files == files && this.unreadable == unreadable
    {
      this.files := files;
      this.unreadable := unreadable;
    }
  }

  class Manager {
    var lockFilePath: Option<string>
    var lockFileCreated: bool

    /** The flag is only ever set once a path has been chosen. */
    predicate Valid()
      reads this
    {
      lockFileCreated ==> lockFilePath.Some?
    }

    constructor ()
      ensures Valid() && lockFilePath.None? && !lockFileCreated
    {
      lockFilePath := None;
      lockFileCreated := false;
    }

    /**
     * createLockFile: the path is set first; the flag is set only once the
     * file is written, and keeps its value when the write throws.
     */
    method CreateLockFile(port: int, pid: int, home: string, projects: seq<Project>, authToken: string,
                          disk: Disk, writeFails: bool)
      requires Valid()
      modifies this, disk
      ensures Valid()
      ensures lockFilePath == Some(GetLockFilePath(home, port))
      ensures writeFails ==> lockFileCreated == old(lockFileCreated) && disk.files == old(disk.files)
      ensures !writeFails ==>
        (lockFileCreated &&
         disk.files == old(disk.files)[GetLockFilePath(home, port) := Some(LockData(pid, authToken, WorkspaceFolders(projects, home)))])
      ensures disk.unreadable == old(disk.unreadable)
    {
      var path := GetLockFilePath(home, port);
      lockFilePath := Some(path);
      if writeFails {
        return;
      }
      var folders := GetWorkspaceFolders(projects, home);
      disk.files := disk.files[path := Some(LockData(pid, authToken, folders))];
      lockFileCreated := true;
    }

    /**
     * updateLockFile: nothing unless the lock was created and its file
     * exists. The file is read back, only workspaceFolders is replaced and
     * it is written again; an IOException (unreadable, not JSON, a failed
     * write) leaves the file as it was. A file holding JSON that is not an
     * object throws ClassCastException out of the method: `escaped`.
     */
    method UpdateLockFile(home: string, projects: seq<Project>, disk: Disk, ioFails: bool) returns (escaped: bool)
      requires Valid()
      modifies disk
      ensures disk.unreadable == old(disk.unreadable)
      ensures !lockFileCreated || lockFilePath.value !in old(disk.files) ==> !escaped && disk.files == old(disk.files)
      ensures lockFileCreated && lockFilePath.value in old(disk.files) ==>
        var before := old(disk.files)[lockFilePath.value];
        var unreadable := ioFails || lockFilePath.value in old(disk.unreadable) || before.None?;
        (escaped <==> !unreadable && !before.value.JObj?) &&
        (unreadable || escaped ==> disk.files == old(disk.files)) &&
        (!unreadable && !escaped ==>
           disk.files == old(disk.files)[lockFilePath.value := Some(UpdatedLockData(before.value.fields, WorkspaceFolders(projects, home)))])
    {
      escaped := false;
      if !lockFileCreated || lockFilePath.value !in disk.files {
        return;
      }
      var path := lockFilePath.value;
      var contents := disk.files[path];
      if ioFails || path in disk.unreadable || contents.None? {
        return;
      }
      if !contents.value.JObj? {
        escaped := true;
        return;
      }
      var folders := GetWorkspaceFolders(projects, home);
      disk.files := disk.files[path := Some(UpdatedLockData(contents.value.fields, folders))];
    }

    /**
     * removeLockFile: when the lock was created and its file exists, the
     * file is deleted and the flag cleared; a failed delete leaves both.
     */
    method RemoveLockFile(disk: Disk, deleteFails: bool)
      requires Valid()
      modifies this, disk
      ensures Valid() && lockFilePath == old(lockFilePath) && disk.unreadable == old(disk.unreadable)
      ensures old(lockFileCreated) && old(lockFilePath).value in old(disk.files) && !deleteFails ==>
        !lockFileCreated && disk.files == old(disk.files) - {old(lockFilePath).value}
      ensures !(old(lockFileCreated) && old(lockFilePath).value in old(disk.files) && !deleteFails) ==>
        lockFileCreated == old(lockFileCreated) && disk.files == old(disk.files)
    {
      if lockFileCreated && lockFilePath.value in disk.files {
        if deleteFails {
          return;
        }
        disk.files := disk.files - {lockFilePath.value};
        lockFileCreated := false;
      }
    }

    /** isLockFileValid: the lock was created and its file exists and is readable. */
    predicate IsLockFileValid(disk: Disk)
      requires Valid()
      reads this, disk
    {
      lockFileCreated && lockFilePath.value in disk.files && lockFilePath.value !in disk.unreadable
    }
  }

  /**
   * A created lock file is valid until it is removed: after a successful
   * create it is valid exactly when the disk lets it be read, and after a
   * successful remove it is not.
   */
  method CreateThenRemove(manager: Manager, disk: Disk, port: int, pid: int, home: string,
                          projects: seq<Project>, authToken: string)
    returns (validAfterCreate: bool, validAfterRemove: bool)
    requires manager.Valid()
    modifies manager, disk
    ensures validAfterCreate <==> GetLockFilePath(home, port) !in old(disk.unreadable)
    ensures !validAfterRemove
    ensures GetLockFilePath(home, port) !in disk.files
  {
    manager.CreateLockFile(port, pid, home, projects, authToken, disk, false);
    validAfterCreate := manager.IsLockFileValid(disk);
    manager.RemoveLockFile(disk, false);
    validAfterRemove := manager.IsLockFileValid(disk);
  }
}
