/** agent/ollamaupdate.go: swapTop and rollbackTop, which exchange the top entries of the install folder for those of a new
    release and back, by renames any of which may fail. */
module FileSwap {
  import opened Common

  /** What an entry holds; a folder such as lib moves as one entry. */
  type File = string
  type Folder = map<string, File>

  /** The three folders, and how many renames were tried so far. */
  datatype Folders = Folders(dir: Folder, newDir: Folder, backup: Folder, tried: nat)

  datatype Place = Dir | NewDir | Backup

  function At(f: Folders, p: Place): Folder {
    match p
    case Dir => f.dir
    case NewDir => f.newDir
    case Backup => f.backup
  }

  function With(f: Folders, p: Place, folder: Folder): Folders {
    match p
    case Dir => f.(dir := folder)
    case NewDir => f.(newDir := folder)
    case Backup => f.(backup := folder)
  }

  /** Which renames the system lets pass: works(n) is about the n-th one tried. */
  type Oracle = nat -> bool

  /** The rename succeeds: the system lets it pass and there is something to move. */
  predicate CanMove(f: Folders, from: Place, name: string, works: Oracle) {
    works(f.tried) && name in At(f, from)
  }

  /** renameRetry(from/name, to/name), after its last attempt. */
  function Moved(f: Folders, from: Place, to: Place, name: string, works: Oracle): Folders
    requires from != to
  {
    var f1 := f.(tried := f.tried + 1);
    if !CanMove(f, from, name, works) then f1
    else With(With(f1, to, At(f, to)[name := At(f, from)[name]]), from, At(f, from) - {name})
  }

  // ---- swapTop ----

  datatype Swap = Swap(f: Folders, moved: seq<string>, failed: bool)

  /** One entry: save the current one if there is one, then place the new one; if that fails, put the saved one back. */
  function SwapOne(f: Folders, name: string, works: Oracle): (Folders, bool) {
    if name in f.dir && !CanMove(f, Dir, name, works) then (Moved(f, Dir, Backup, name, works), false)
    else
      var f1 := if name in f.dir then Moved(f, Dir, Backup, name, works) else f;
      var f2 := Moved(f1, NewDir, Dir, name, works);
      if CanMove(f1, NewDir, name, works) then (f2, true)
      else (Moved(f2, Backup, Dir, name, works), false)
  }

  function SwapFrom(f: Folders, names: seq<string>, moved: seq<string>, works: Oracle): Swap
    decreases |names|
  {
    if names == [] then Swap(f, moved, false)
    else
      var (f1, ok) := SwapOne(f, names[0], works);
      if ok then SwapFrom(f1, names[1..], moved + [names[0]], works) else Swap(f1, moved, true)
  }

  // ---- rollbackTop ----

  function RollOne(f: Folders, name: string, works: Oracle): Folders {
    var f1 := Moved(f, Dir, NewDir, name, works);
    if name in f1.backup then Moved(f1, Backup, Dir, name, works) else f1
  }

  function RollFrom(f: Folders, names: seq<string>, works: Oracle): Folders
    decreases |names|
  {
    if names == [] then f else RollFrom(RollOne(f, names[0], works), names[1..], works)
  }

  // ---- the loops over the real folders ----

  class Installation {
    var dir: Folder
    var newDir: Folder
    var backup: Folder
    var tried: nat

    ghost function View(): Folders
      reads this
    {
      Folders(dir, newDir, backup, tried)
    }

    constructor (dir: Folder, newDir: Folder)
      ensures View() == Folders(dir, newDir, map[], 0)
    {
      this.dir, this.newDir, backup, tried := dir, newDir, map[], 0;
    }

    method Rename(from: Place, to: Place, name: string, works: Oracle) returns (ok: bool)
      requires from != to
      modifies this
      ensures ok == CanMove(old(View()), from, name, works)
      ensures View() == Moved(old(View()), from, to, name, works)
    {
      tried := tried + 1;
      if !works(tried - 1) {
        return false;
      }
      var src := if from == Dir then dir else if from == NewDir then newDir else backup;
      if name !in src {
        return false;
      }
      match to {
        case Dir => dir := dir[name := src[name]];
        case NewDir => newDir := newDir[name := src[name]];
        case Backup => backup := backup[name := src[name]];
      }
      match from {
        case Dir => dir := dir - {name};
        case NewDir => newDir := newDir - {name};
        case Backup => backup := backup - {name};
      }
      return true;
    }

    method SwapTop(names: seq<string>, works: Oracle) returns (moved: seq<string>, failed: bool)
      modifies this
      ensures Swap(View(), moved, failed) == SwapFrom(old(View()), names, [], works)
    {
      moved := [];
      for i := 0 to |names|
        invariant SwapFrom(View(), names[i..], moved, works) == SwapFrom(old(View()), names, [], works)
      {
        var name := names[i];
        assert names[i..][1..] == names[i + 1..];
        if name in dir {
          var saved := Rename(Dir, Backup, name, works);
          if !saved {
            return moved, true;
          }
        }
        var placed := Rename(NewDir, Dir, name, works);
        if !placed {
          var _ := Rename(Backup, Dir, name, works);
          return moved, true;
        }
        moved := moved + [name];
      }
      return moved, false;
    }

    /** `clean` is whether no rename failed for another reason than a missing entry. */
    method RollbackTop(names: seq<string>, works: Oracle) returns (clean: bool)
      modifies this
      ensures View() == RollFrom(old(View()), names, works)
    {
      clean := true;
      for i := 0 to |names|
        invariant RollFrom(View(), names[i..], works) == RollFrom(old(View()), names, works)
      {
        var name := names[i];
        assert names[i..][1..] == names[i + 1..];
        var missing := name !in dir;
        var taken := Rename(Dir, NewDir, name, works);
        if !taken && !missing {
          clean := false;
        }
        if name in backup {
          var restored := Rename(Backup, Dir, name, works);
          if !restored {
            clean := false;
          }
        }
      }
    }
  }
}
