/**
 The directory list and the directory loop of the RouteLoaded listener: which
 directories are scanned, in which order, and that a missing one is skipped.
 */
module DirProperties {
  import opened Wrappers
  import opened Annotations
  import opened Routing
  import opened PhpArrays
  import opened Translation

  /** Without configured directories only the application's controller directory is scanned. */
  lemma ScannedDirsDefault(cfg: Config)
    requires cfg.controllers.None?
    ensures ScannedDirs(cfg) == [ControllerDir(cfg)]
  {
    UnionDisjoint(List([ControllerDir(cfg)]), []);
  }

  /** A configured list `[d0, d1, ...]` has key 0, which the left operand of `+`
      already holds: the first configured directory is dropped and the others are
      scanned after the application's controller directory. */
  lemma ScannedDirsOfList(cfg: Config, ys: seq<Path>)
    requires cfg.controllers == Some(List(ys))
    ensures ScannedDirs(cfg) == [ControllerDir(cfg)] + (if |ys| <= 1 then [] else ys[1..])
  {
    UnionOfLists([ControllerDir(cfg)], ys);
  }

  /** A configured array with none of its keys equal to 0 (string keys, say) is
      scanned whole, in its order, after the application's controller directory. */
  lemma ScannedDirsWithoutKeyZero(cfg: Config)
    requires cfg.controllers.Some?
    requires forall j | 0 <= j < |cfg.controllers.value| :: cfg.controllers.value[j].0 != IntKey(0)
    ensures ScannedDirs(cfg) == [ControllerDir(cfg)] + Values(cfg.controllers.value)
  {
    var a, b := List([ControllerDir(cfg)]), cfg.controllers.value;
    forall j | 0 <= j < |b| ensures Lookup(a, b[j].0).None? {
      LookupSome(a, b[j].0);
    }
    UnionDisjoint(a, b);
    ValuesAppend(a, b);
  }

  /** The directory loop scans the directories one after the other. */
  lemma DirsAppend(fs: FileSystem, a: seq<Path>, b: seq<Path>)
    ensures DirsCommands(fs, a + b) == DirsCommands(fs, a) + DirsCommands(fs, b)
  {
    ConcatMapAppend(a, b, dir => DirCommands(fs, dir));
  }

  /** A directory that exists contributes the scan of its classes... */
  lemma DirScanned(fs: FileSystem, d: Path)
    requires d in fs.classMap
    ensures DirsCommands(fs, [d]) == ClassesCommands(fs.classMap[d])
  {
    ConcatMapSingle(d, dir => DirCommands(fs, dir));
  }

  /** ...and one that does not exist is skipped without a trace. */
  lemma MissingDirSkipped(fs: FileSystem, a: seq<Path>, d: Path, b: seq<Path>)
    requires d !in fs.classMap
    ensures DirsCommands(fs, a + [d] + b) == DirsCommands(fs, a + b)
  {
    DirsAppend(fs, a + [d], b);
    DirsAppend(fs, a, [d]);
    DirsAppend(fs, a, b);
    ConcatMapSingle(d, dir => DirCommands(fs, dir));
  }

  /** scanDir visits the classes of a directory one after the other. */
  lemma ClassesAppend(a: seq<ClassDecl>, b: seq<ClassDecl>)
    ensures ClassesCommands(a + b) == ClassesCommands(a) + ClassesCommands(b)
  {
    ConcatMapAppend(a, b, ClassCommands);
  }

  /** With a configured list, the scan is the application's controller directory
      followed by the configured directories from the second one on. */
  lemma LoadedFromList(cfg: Config, fs: FileSystem, ys: seq<Path>)
    requires cfg.controllers == Some(List(ys))
    ensures LoadedCommands(cfg, fs)
      == DirsCommands(fs, [ControllerDir(cfg)]) + DirsCommands(fs, if |ys| <= 1 then [] else ys[1..])
  {
    ScannedDirsOfList(cfg, ys);
    DirsAppend(fs, [ControllerDir(cfg)], if |ys| <= 1 then [] else ys[1..]);
  }
}
