/** What the exchange of files guarantees for every set of entries and every rename that fails. */
module FileSwapProofs {
  import opened Common
  import opened FileSwap

  function Names(names: seq<string>): set<string> { set n | n in names }

  /** `names` lists what there is to place, and the backup is free for it. */
  ghost predicate Ready(f: Folders, names: seq<string>) {
    && (forall i, j | 0 <= i < j < |names| :: names[i] != names[j])
    && Names(names) <= f.newDir.Keys
    && Names(names) !! f.backup.Keys
  }

  // Each entry for itself: every rename concerns one name.

  datatype Cell = Cell(dir: Option<File>, newDir: Option<File>, backup: Option<File>)

  function Get(m: Folder, n: string): Option<File> { if n in m then Some(m[n]) else None }

  function CellOf(f: Folders, n: string): Cell { Cell(Get(f.dir, n), Get(f.newDir, n), Get(f.backup, n)) }

  /** The entry exchanged: the new file installed, the old one, if any, in the backup. */
  function Exchanged(c: Cell): Cell { Cell(c.newDir, None, c.dir) }

  /** Exactly the entries in `done` are exchanged. */
  ghost predicate IsExchange(f0: Folders, f: Folders, done: set<string>) {
    forall n :: CellOf(f, n) == if n in done then Exchanged(CellOf(f0, n)) else CellOf(f0, n)
  }

  ghost predicate SameFolders(f: Folders, g: Folders) { f.dir == g.dir && f.newDir == g.newDir && f.backup == g.backup }

  lemma SameCells(f: Folders, g: Folders)
    requires forall n :: CellOf(f, n) == CellOf(g, n)
    ensures SameFolders(f, g)
  {
    forall n ensures Get(f.dir, n) == Get(g.dir, n) && Get(f.newDir, n) == Get(g.newDir, n) && Get(f.backup, n) == Get(g.backup, n) {
      assert CellOf(f, n) == CellOf(g, n);
    }
    SameFolder(f.dir, g.dir);
    SameFolder(f.newDir, g.newDir);
    SameFolder(f.backup, g.backup);
  }

  lemma SameFolder(a: Folder, b: Folder)
    requires forall n :: Get(a, n) == Get(b, n)
    ensures a == b
  {
    forall n ensures n in a <==> n in b {
      assert Get(a, n) == Get(b, n);
    }
    forall n | n in a ensures a[n] == b[n] {
      assert Get(a, n) == Get(b, n);
    }
  }

  /** Every rename tried from now on passes. */
  ghost predicate WorksFrom(works: Oracle, n: nat) {
    forall m: nat | m >= n :: works(m)
  }

  /** One entry exchanged, or a failing rename k after which - if the rest passes - nothing changed. */
  lemma SwapOneCells(f: Folders, name: string, works: Oracle, n: string)
    requires name in f.newDir && name !in f.backup
    ensures var (f1, ok) := SwapOne(f, name, works);
      && f.tried < f1.tried
      && (n != name ==> CellOf(f1, n) == CellOf(f, n))
      && (n == name && ok ==> CellOf(f1, n) == Exchanged(CellOf(f, n)))
      && (n == name && !ok && WorksFrom(works, FailingRename(f, name, works) + 1) ==> CellOf(f1, n) == CellOf(f, n))
      && (!ok ==> f.tried <= FailingRename(f, name, works) < f1.tried && !works(FailingRename(f, name, works)))
  {
  }

  /** The rename at which an unsuccessful SwapOne stopped. */
  function FailingRename(f: Folders, name: string, works: Oracle): nat {
    if name in f.dir && works(f.tried) then f.tried + 1 else f.tried
  }

  lemma SwapOneExchanges(f0: Folders, f: Folders, done: set<string>, name: string, works: Oracle)
    requires name in f0.newDir && name !in done && name !in f0.backup && IsExchange(f0, f, done)
    ensures var (f1, ok) := SwapOne(f, name, works);
      && (ok ==> IsExchange(f0, f1, done + {name}))
      && (!ok ==> var k := FailingRename(f, name, works);
            f.tried <= k < f1.tried && !works(k) && (WorksFrom(works, k + 1) ==> IsExchange(f0, f1, done)))
  {
    assert CellOf(f, name) == CellOf(f0, name);
    var (f1, ok) := SwapOne(f, name, works);
    forall n
      ensures n != name ==> CellOf(f1, n) == CellOf(f, n)
      ensures n == name && ok ==> CellOf(f1, n) == Exchanged(CellOf(f, n))
      ensures n == name && !ok && WorksFrom(works, FailingRename(f, name, works) + 1) ==> CellOf(f1, n) == CellOf(f, n)
    {
      SwapOneCells(f, name, works, n);
    }
    SwapOneCells(f, name, works, name);
  }

  /** swapTop exchanges a growing part of the entries; if it stops at a failing rename and what it tries afterwards passes,
      exactly the entries it returns are exchanged. */
  lemma {:induction false} SwapExchanges(f0: Folders, f: Folders, names: seq<string>, moved: seq<string>, works: Oracle)
    returns (k: nat)
    requires Ready(f0, moved + names) && IsExchange(f0, f, Names(moved))
    ensures var r := SwapFrom(f, names, moved, works);
      && r.moved <= moved + names
      && (!r.failed ==> r.moved == moved + names && IsExchange(f0, r.f, Names(moved + names)))
      && (r.failed ==> f.tried <= k < r.f.tried && !works(k) && (WorksFrom(works, k + 1) ==> IsExchange(f0, r.f, Names(r.moved))))
    decreases |names|
  {
    hide IsExchange, SwapOne;
    if names == [] {
      assert moved + names == moved;
      k := 0;
    } else {
      var name := names[0];
      assert (moved + names)[|moved|] == name;
      assert name in Names(moved + names);
      assert forall i | 0 <= i < |moved| :: (moved + names)[i] == moved[i];
      SwapOneExchanges(f0, f, Names(moved), name, works);
      var (f1, ok) := SwapOne(f, name, works);
      if ok {
        assert (moved + [name]) + names[1..] == moved + names;
        assert Names(moved + [name]) == Names(moved) + {name};
        SwapOneTries(f, name, works);
        k := SwapExchanges(f0, f1, names[1..], moved + [name], works);
      } else {
        k := FailingRename(f, name, works);
      }
    }
  }

  lemma SwapOneTries(f: Folders, name: string, works: Oracle)
    ensures SwapOne(f, name, works).0.tried > f.tried
  {
  }

  lemma RollOneCells(f: Folders, name: string, works: Oracle, n: string)
    requires name in f.dir && WorksFrom(works, f.tried)
    ensures var f1 := RollOne(f, name, works);
      && f1.tried >= f.tried
      && CellOf(f1, n) == if n == name then Cell(Get(f.backup, n), Get(f.dir, n), None) else CellOf(f, n)
  {
    assert works(f.tried) && works(f.tried + 1);
  }

  lemma RollOneRestores(f0: Folders, f: Folders, done: set<string>, name: string, works: Oracle)
    requires name in f0.newDir && name in done && name !in f0.backup
    requires IsExchange(f0, f, done) && WorksFrom(works, f.tried)
    ensures IsExchange(f0, RollOne(f, name, works), done - {name})
    ensures RollOne(f, name, works).tried >= f.tried
  {
    assert CellOf(f, name) == Exchanged(CellOf(f0, name));
    var f1 := RollOne(f, name, works);
    RollOneCells(f, name, works, name);
    forall n ensures CellOf(f1, n) == if n in done - {name} then Exchanged(CellOf(f0, n)) else CellOf(f0, n) {
      RollOneCells(f, name, works, n);
      assert CellOf(f, n) == if n in done then Exchanged(CellOf(f0, n)) else CellOf(f0, n);
    }
  }

  lemma {:induction false} RollRestores(f0: Folders, f: Folders, names: seq<string>, works: Oracle)
    requires Ready(f0, names) && IsExchange(f0, f, Names(names)) && WorksFrom(works, f.tried)
    ensures SameFolders(RollFrom(f, names, works), f0)
    decreases |names|
  {
    if names == [] {
      SameCells(f, f0);
    } else {
      assert names[0] in Names(names);
      RollOneRestores(f0, f, Names(names), names[0], works);
      assert Names(names) - {names[0]} == Names(names[1..]);
      RollRestores(f0, RollOne(f, names[0], works), names[1..], works);
    }
  }

  /** The whole exchange, if at most one rename fails: it succeeds, or it met that rename, and then swap and rollback together leave
      all three folders exactly as they were. */
  lemma FailedSwapIsUndone(f0: Folders, names: seq<string>, works: Oracle, k: nat)
    requires Ready(f0, names)
    requires forall n: nat :: n != k ==> works(n)
    ensures var r := SwapFrom(f0, names, [], works);
      if r.failed then !works(k) && SameFolders(RollFrom(r.f, r.moved, works), f0)
      else r.moved == names && IsExchange(f0, r.f, Names(names))
  {
    assert [] + names == names;
    var k' := SwapExchanges(f0, f0, names, [], works);
    var r := SwapFrom(f0, names, [], works);
    hide SwapFrom, RollFrom, IsExchange, SameFolders;
    if r.failed {
      assert forall i | 0 <= i < |r.moved| :: r.moved[i] == names[i];
      RollRestores(f0, r.f, r.moved, works);
    }
  }

  /** A rollback after a complete swap (agent/ollamaupdate.go:551-553) restores everything as well. */
  lemma RollbackUndoesSwap(f0: Folders, names: seq<string>, works: Oracle)
    requires Ready(f0, names) && !SwapFrom(f0, names, [], works).failed
    requires WorksFrom(works, SwapFrom(f0, names, [], works).f.tried)
    ensures SameFolders(RollFrom(SwapFrom(f0, names, [], works).f, names, works), f0)
  {
    assert [] + names == names;
    var _ := SwapExchanges(f0, f0, names, [], works);
    RollRestores(f0, SwapFrom(f0, names, [], works).f, names, works);
  }

  /** On full success, when everything there is to place was listed: the install folder is the old one overridden by the new
      entries, nothing is left to place, and an empty backup holds exactly the displaced entries. */
  lemma SuccessfulSwap(f0: Folders, names: seq<string>, works: Oracle)
    requires Ready(f0, names) && Names(names) == f0.newDir.Keys && f0.backup == map[]
    requires !SwapFrom(f0, names, [], works).failed
    ensures var f := SwapFrom(f0, names, [], works).f;
      && f.dir == f0.dir + f0.newDir && f.newDir == map[]
      && f.backup == map n | n in f0.dir && n in f0.newDir :: f0.dir[n]
  {
    assert [] + names == names;
    var _ := SwapExchanges(f0, f0, names, [], works);
    var f := SwapFrom(f0, names, [], works).f;
    hide SwapFrom;
    forall n
      ensures Get(f.dir, n) == Get(f0.dir + f0.newDir, n) && Get(f.newDir, n) == Get(map[], n)
      ensures Get(f.backup, n) == Get(map m | m in f0.dir && m in f0.newDir :: f0.dir[m], n)
    {
      assert CellOf(f, n) == if n in Names(names) then Exchanged(CellOf(f0, n)) else CellOf(f0, n);
    }
    SameFolder(f.dir, f0.dir + f0.newDir);
    SameFolder(f.newDir, map[]);
    SameFolder(f.backup, map m | m in f0.dir && m in f0.newDir :: f0.dir[m]);
  }

  // ---- nothing installed is lost, whatever fails ----

  predicate Holds(folder: Folder, n: string, file: File) { n in folder && folder[n] == file }

  lemma SwapOneKeeps(f: Folders, name: string, works: Oracle, n: string, file: File)
    requires Holds(f.dir, n, file) || (n != name && Holds(f.backup, n, file))
    ensures var (f1, ok) := SwapOne(f, name, works);
      && (n != name ==> (Holds(f.dir, n, file) ==> Holds(f1.dir, n, file)) && (Holds(f.backup, n, file) ==> Holds(f1.backup, n, file)))
      && (n == name ==> if ok then Holds(f1.backup, n, file) else Holds(f1.dir, n, file) || Holds(f1.backup, n, file))
  {
  }

  lemma {:induction false} SwapKeeps(f: Folders, names: seq<string>, moved: seq<string>, works: Oracle, n: string, file: File)
    requires forall i, j | 0 <= i < j < |names| :: names[i] != names[j]
    requires forall m | m in moved :: m !in names
    requires if n in moved then Holds(f.backup, n, file) else Holds(f.dir, n, file)
    ensures var r := SwapFrom(f, names, moved, works);
      if n in r.moved then Holds(r.f.backup, n, file) else Holds(r.f.dir, n, file) || Holds(r.f.backup, n, file)
    decreases |names|
  {
    if names != [] {
      SwapOneKeeps(f, names[0], works, n, file);
      var (f1, ok) := SwapOne(f, names[0], works);
      if ok {
        SwapKeeps(f1, names[1..], moved + [names[0]], works, n, file);
      }
    }
  }

  lemma {:induction false} RollKeeps(f: Folders, names: seq<string>, works: Oracle, n: string, file: File)
    requires forall i, j | 0 <= i < j < |names| :: names[i] != names[j]
    requires if n in names then Holds(f.backup, n, file) else Holds(f.dir, n, file) || Holds(f.backup, n, file)
    ensures var f1 := RollFrom(f, names, works); Holds(f1.dir, n, file) || Holds(f1.backup, n, file)
    decreases |names|
  {
    if names != [] {
      RollKeeps(RollOne(f, names[0], works), names[1..], works, n, file);
    }
  }

  lemma {:induction false} MovedAreListed(f: Folders, names: seq<string>, moved: seq<string>, works: Oracle)
    ensures SwapFrom(f, names, moved, works).moved <= moved + names
    decreases |names|
  {
    if names != [] {
      var (f1, ok) := SwapOne(f, names[0], works);
      if ok {
        MovedAreListed(f1, names[1..], moved + [names[0]], works);
        assert (moved + [names[0]]) + names[1..] == moved + names;
      }
    }
  }

  /** Whichever renames fail, in the swap and in the rollback: every installed entry is afterwards in the install folder or in
      the backup. */
  lemma NothingInstalledIsLost(f0: Folders, names: seq<string>, works: Oracle, n: string)
    requires Ready(f0, names) && n in f0.dir
    ensures var r := SwapFrom(f0, names, [], works);
      && (Holds(r.f.dir, n, f0.dir[n]) || Holds(r.f.backup, n, f0.dir[n]))
      && var f := RollFrom(r.f, r.moved, works); Holds(f.dir, n, f0.dir[n]) || Holds(f.backup, n, f0.dir[n])
  {
    SwapKeeps(f0, names, [], works, n, f0.dir[n]);
    MovedAreListed(f0, names, [], works);
    var r := SwapFrom(f0, names, [], works);
    assert forall i | 0 <= i < |r.moved| :: r.moved[i] == ([] + names)[i];
    RollKeeps(r.f, r.moved, works, n, f0.dir[n]);
  }

  // ---- exactly when the install folder is what it was ----

  /** How many renames it takes to place these entries. */
  function Renames(f0: Folders, names: seq<string>): nat
    decreases |names|
  {
    if names == [] then 0 else Renames(f0, names[..|names| - 1]) + if names[|names| - 1] in f0.dir then 2 else 1
  }

  /** The rollback of one entry, tried as the t-th rename and - for one that was saved - the next: a saved entry comes back if its
      restoring rename passes, a new one goes if its taking back passes. A saved entry that stays in place is no loss if the new one
      has the same content. */
  predicate RollsBack(f0: Folders, name: string, works: Oracle, t: nat) {
    if name in f0.dir then works(t + 1) || (!works(t) && Get(f0.newDir, name) == Get(f0.dir, name)) else works(t)
  }

  predicate AllRollBack(f0: Folders, names: seq<string>, works: Oracle, t: nat)
    decreases |names|
  {
    names == [] || (RollsBack(f0, names[0], works, t) && AllRollBack(f0, names[1..], works, if names[0] in f0.dir then t + 2 else t + 1))
  }

  /** The entry at which the swap stopped, its first rename being the t-th: it is back unless it had been saved and the rename that
      puts it back failed too. */
  predicate StoppedIsBack(f0: Folders, name: string, works: Oracle, t: nat) {
    name in f0.dir && works(t) ==> works(t + 2)
  }

  /** After a swap, stopped or not: every entry it returned is exchanged, the one it stopped at is where StoppedIsBack says, and the
      others were not touched. */
  ghost predicate SwapEnds(f0: Folders, all: seq<string>, r: Swap, works: Oracle) {
    && r.moved <= all && (r.failed <==> |r.moved| < |all|)
    && (forall n | n in r.moved :: CellOf(r.f, n) == Exchanged(CellOf(f0, n)))
    && (forall n | n !in r.moved && (r.failed ==> n != all[|r.moved|]) :: Get(r.f.dir, n) == Get(f0.dir, n))
    && (r.failed ==> (Get(r.f.dir, all[|r.moved|]) == Get(f0.dir, all[|r.moved|])
                      <==> StoppedIsBack(f0, all[|r.moved|], works, f0.tried + Renames(f0, r.moved))))
  }

  lemma DoneEnds(f0: Folders, f: Folders, moved: seq<string>, works: Oracle)
    requires IsExchange(f0, f, Names(moved))
    ensures SwapEnds(f0, moved, Swap(f, moved, false), works)
  {
    forall n ensures n in moved ==> CellOf(f, n) == Exchanged(CellOf(f0, n))
      ensures n !in moved ==> Get(f.dir, n) == Get(f0.dir, n)
    {
      assert CellOf(f, n) == if n in Names(moved) then Exchanged(CellOf(f0, n)) else CellOf(f0, n);
    }
  }

  lemma StopEnds(f0: Folders, f: Folders, moved: seq<string>, name: string, rest: seq<string>, works: Oracle)
    requires IsExchange(f0, f, Names(moved)) && f.tried == f0.tried + Renames(f0, moved)
    requires name in f0.newDir && name !in moved && name !in f0.backup && !SwapOne(f, name, works).1
    ensures SwapEnds(f0, moved + [name] + rest, Swap(SwapOne(f, name, works).0, moved, true), works)
  {
    hide Renames, StoppedIsBack;
    SwapOneState(f0, f, Names(moved), name, works);
    var (f1, _) := SwapOne(f, name, works);
    hide SwapOne;
    forall n ensures n in moved ==> CellOf(f1, n) == Exchanged(CellOf(f0, n))
      ensures n !in moved && n != name ==> Get(f1.dir, n) == Get(f0.dir, n)
    {
      assert CellOf(f, n) == if n in Names(moved) then Exchanged(CellOf(f0, n)) else CellOf(f0, n);
    }
  }

  lemma {:induction false} SwapState(f0: Folders, f: Folders, names: seq<string>, moved: seq<string>, works: Oracle)
    requires Ready(f0, moved + names) && IsExchange(f0, f, Names(moved)) && f.tried == f0.tried + Renames(f0, moved)
    ensures SwapEnds(f0, moved + names, SwapFrom(f, names, moved, works), works)
    decreases |names|
  {
    hide SwapEnds, SwapOne, Renames, IsExchange;
    if names == [] {
      assert moved + names == moved;
      DoneEnds(f0, f, moved, works);
    } else {
      var name, rest := names[0], names[1..];
      assert (moved + names)[|moved|] == name && name in Names(moved + names);
      assert forall i | 0 <= i < |moved| :: (moved + names)[i] == moved[i];
      assert moved + [name] + rest == moved + names;
      var (f1, ok) := SwapOne(f, name, works);
      if ok {
        SwapOneState(f0, f, Names(moved), name, works);
        assert Names(moved + [name]) == Names(moved) + {name};
        RenamesPush(f0, moved, name);
        SwapState(f0, f1, rest, moved + [name], works);
      } else {
        StopEnds(f0, f, moved, name, rest, works);
      }
    }
  }

  lemma RenamesPush(f0: Folders, names: seq<string>, name: string)
    ensures Renames(f0, names + [name]) == Renames(f0, names) + if name in f0.dir then 2 else 1
  {
    assert (names + [name])[..|names|] == names;
  }

  lemma SwapOneState(f0: Folders, f: Folders, done: set<string>, name: string, works: Oracle)
    requires name in f0.newDir && name !in done && name !in f0.backup && IsExchange(f0, f, done)
    ensures var (f1, ok) := SwapOne(f, name, works);
      && (ok ==> IsExchange(f0, f1, done + {name}) && f1.tried == f.tried + if name in f0.dir then 2 else 1)
      && (!ok ==> forall n | n != name :: CellOf(f1, n) == CellOf(f, n))
      && (!ok ==> (Get(f1.dir, name) == Get(f0.dir, name) <==> StoppedIsBack(f0, name, works, f.tried)))
  {
    assert CellOf(f, name) == CellOf(f0, name);
    SwapOneExchanges(f0, f, done, name, works);
    forall n ensures !SwapOne(f, name, works).1 && n != name ==> CellOf(SwapOne(f, name, works).0, n) == CellOf(f, n) {
      SwapOneCells(f, name, works, n);
    }
  }

  /** After a rollback the install folder's entries are back exactly as AllRollBack says, and the others are left alone. */
  ghost predicate RollEnds(f0: Folders, f: Folders, names: seq<string>, f1: Folders, works: Oracle) {
    && (forall n | n !in names :: Get(f1.dir, n) == Get(f.dir, n))
    && ((forall n | n in names :: Get(f1.dir, n) == Get(f0.dir, n)) <==> AllRollBack(f0, names, works, f.tried))
  }

  /** Every entry of `names` is exchanged, and none is listed twice. */
  ghost predicate AllExchanged(f0: Folders, f: Folders, names: seq<string>) {
    && (forall i, j | 0 <= i < j < |names| :: names[i] != names[j])
    && (forall n | n in names :: n in f0.newDir && CellOf(f, n) == Exchanged(CellOf(f0, n)))
  }

  lemma {:induction false} RollState(f0: Folders, f: Folders, names: seq<string>, works: Oracle)
    requires AllExchanged(f0, f, names)
    ensures RollEnds(f0, f, names, RollFrom(f, names, works), works)
    decreases |names|
  {
    hide RollsBack, RollOne, RollEnds, AllRollBack, AllExchanged;
    if names == [] {
      NothingRolls(f0, f, works);
    } else {
      var next := RollOne(f, names[0], works);
      RollStep(f0, f, names, works);
      RollState(f0, next, names[1..], works);
      RollEndsStep(f0, f, names, next, RollFrom(next, names[1..], works), works);
    }
  }

  lemma NothingRolls(f0: Folders, f: Folders, works: Oracle)
    ensures RollEnds(f0, f, [], f, works)
  {
  }

  /** One entry rolled back and the others as before. */
  ghost predicate Rolled(f0: Folders, f: Folders, name: string, next: Folders, works: Oracle) {
    && (forall n | n != name :: CellOf(next, n) == CellOf(f, n))
    && (Get(next.dir, name) == Get(f0.dir, name) <==> RollsBack(f0, name, works, f.tried))
    && next.tried == f.tried + if name in f0.dir then 2 else 1
  }

  lemma RollStep(f0: Folders, f: Folders, names: seq<string>, works: Oracle)
    requires names != [] && AllExchanged(f0, f, names)
    ensures var next := RollOne(f, names[0], works);
      Rolled(f0, f, names[0], next, works) && AllExchanged(f0, next, names[1..]) && names[0] !in names[1..]
  {
    hide RollsBack, RollOne;
    var name, rest := names[0], names[1..];
    assert name in names;
    var next := RollOne(f, name, works);
    forall n ensures n != name ==> CellOf(next, n) == CellOf(f, n) {
      RollOneState(f0, f, name, works, n);
    }
    RollOneState(f0, f, name, works, name);
    assert forall n | n in rest :: n in names;
  }

  lemma RollEndsStep(f0: Folders, f: Folders, names: seq<string>, next: Folders, f1: Folders, works: Oracle)
    requires names != [] && names[0] !in names[1..]
    requires Rolled(f0, f, names[0], next, works) && RollEnds(f0, next, names[1..], f1, works)
    ensures RollEnds(f0, f, names, f1, works)
  {
    hide RollsBack;
    var name, rest := names[0], names[1..];
    assert names == [name] + rest;
    forall n ensures n !in rest && n != name ==> Get(f1.dir, n) == Get(f.dir, n) {
      assert n != name ==> CellOf(next, n) == CellOf(f, n);
    }
    assert Get(f1.dir, name) == Get(next.dir, name);
  }

  lemma RollOneState(f0: Folders, f: Folders, name: string, works: Oracle, n: string)
    requires name in f0.newDir && CellOf(f, name) == Exchanged(CellOf(f0, name))
    ensures var f1 := RollOne(f, name, works);
      && (n != name ==> CellOf(f1, n) == CellOf(f, n))
      && (Get(f1.dir, name) == Get(f0.dir, name) <==> RollsBack(f0, name, works, f.tried))
      && f1.tried == f.tried + if name in f0.dir then 2 else 1
  {
  }

  /** What swap and rollback leave, entry by entry. */
  lemma Undone(f0: Folders, names: seq<string>, works: Oracle)
    requires Ready(f0, names)
    ensures var r := SwapFrom(f0, names, [], works);
      SwapEnds(f0, names, r, works) && RollEnds(f0, r.f, r.moved, RollFrom(r.f, r.moved, works), works)
  {
    assert [] + names == names;
    assert IsExchange(f0, f0, Names([]));
    SwapState(f0, f0, names, [], works);
    var r := SwapFrom(f0, names, [], works);
    hide SwapFrom, IsExchange, RollEnds, RollFrom;
    MovedAreExchanged(f0, names, r, works);
    hide SwapEnds, AllExchanged, Ready;
    RollState(f0, r.f, r.moved, works);
  }

  lemma MovedAreExchanged(f0: Folders, names: seq<string>, r: Swap, works: Oracle)
    requires Ready(f0, names) && SwapEnds(f0, names, r, works)
    ensures AllExchanged(f0, r.f, r.moved)
  {
    hide StoppedIsBack, Renames;
    assert forall i | 0 <= i < |r.moved| :: r.moved[i] == names[i];
    assert forall i | 0 <= i < |names| :: names[i] in Names(names);
  }

  lemma RestoredIff(f0: Folders, names: seq<string>, r: Swap, f: Folders, works: Oracle)
    requires forall i, j | 0 <= i < j < |names| :: names[i] != names[j]
    requires SwapEnds(f0, names, r, works) && RollEnds(f0, r.f, r.moved, f, works)
    ensures f.dir == f0.dir <==>
      AllRollBack(f0, r.moved, works, r.f.tried)
      && (r.failed ==> StoppedIsBack(f0, names[|r.moved|], works, f0.tried + Renames(f0, r.moved)))
  {
    hide AllRollBack, StoppedIsBack, Renames;
    if r.failed {
      assert names[|r.moved|] !in r.moved;
    }
    if forall n :: Get(f.dir, n) == Get(f0.dir, n) {
      SameFolder(f.dir, f0.dir);
    }
  }

  /** Whichever renames fail: swap and rollback leave the install folder exactly as it was if and only if every saved entry's
      restoring rename passes and every new entry is taken back. (A saved entry whose new content is the same may stay.) */
  lemma InstallFolderRestoredIff(f0: Folders, names: seq<string>, works: Oracle)
    requires Ready(f0, names)
    ensures var r := SwapFrom(f0, names, [], works);
      && |r.moved| <= |names| && (r.failed ==> |r.moved| < |names|)
      && (RollFrom(r.f, r.moved, works).dir == f0.dir <==>
          AllRollBack(f0, r.moved, works, r.f.tried)
          && (r.failed ==> StoppedIsBack(f0, names[|r.moved|], works, f0.tried + Renames(f0, r.moved))))
  {
    hide SwapFrom, RollFrom, AllRollBack, StoppedIsBack, Renames, RollEnds;
    Undone(f0, names, works);
    var r := SwapFrom(f0, names, [], works);
    assert |r.moved| <= |names|;
    hide SwapEnds;
    RestoredIff(f0, names, r, RollFrom(r.f, r.moved, works), works);
  }

  /** Where the rename that puts the stopped entry back fails too, the entry is only in the backup - inside the staging folder,
      which the update removes on its way out (agent/ollamaupdate.go:500). */
  lemma FailedRestoreLeavesInstallWithout(f0: Folders, names: seq<string>, works: Oracle)
    requires Ready(f0, names) && SwapFrom(f0, names, [], works).failed
    ensures var r := SwapFrom(f0, names, [], works); var f := RollFrom(r.f, r.moved, works);
      && |r.moved| < |names|
      && var x := names[|r.moved|];
      !StoppedIsBack(f0, x, works, f0.tried + Renames(f0, r.moved)) ==>
        x in f0.dir && !Holds(f.dir, x, f0.dir[x]) && Holds(f.backup, x, f0.dir[x])
  {
    hide SwapFrom, RollFrom, Renames, AllRollBack;
    Undone(f0, names, works);
    var r := SwapFrom(f0, names, [], works);
    var x := names[|r.moved|];
    assert x !in r.moved;
    if !StoppedIsBack(f0, x, works, f0.tried + Renames(f0, r.moved)) {
      NothingInstalledIsLost(f0, names, works, x);
    }
  }

  /** A stale entry in the backup would come back into the install folder; the backup must be free of what is placed. */
  lemma StaleBackupComesBack(name: string, stale: File, release: File)
    ensures var f0 := Folders(map[], map[name := release], map[name := stale], 0);
      var r := SwapFrom(f0, [name], [], n => n != 0);
      r.failed && Holds(RollFrom(r.f, r.moved, n => n != 0).dir, name, stale)
  {
  }
}
