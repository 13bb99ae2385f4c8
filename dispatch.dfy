/**
  The decision parse_directory takes before any scanning: which error to
  report, or which mode to scan in, sequentially or with workers, and how
  the directory is enumerated.
 */
module Dispatch {
  import opened Scan

  /** The errors parse_directory reports, in the order it checks them. */
  datatype DirError = NoPath | BothModes | NotFound | NoMode

  /** How paths are enumerated: the full tree (os.walk) or one level (os.listdir). */
  datatype Walk = TreeWalk | OneLevel

  datatype DirAction =
    | Refused(error: DirError)
    | Sequential(mode: ScanMode, walk: Walk)
    | Threaded(mode: ScanMode, walk: Walk)

  /**
    parse_directory's decision from whether a path was given, the two mode
    flags, whether the path exists, the thread count and the recursive flag.
   */
  function Decide(pathGiven: bool, openFiles: bool, names: bool, pathExists: bool,
                  threads: int, recursive: bool): (r: DirAction)
    // the scan is refused exactly when the path is missing, the modes are not exactly one, or the path does not exist
    ensures r.Refused? <==> !pathGiven || openFiles == names || !pathExists
    // errors are reported in this order; two modes are refused before existence is checked
    ensures !pathGiven ==> r == Refused(NoPath)
    ensures pathGiven && openFiles && names ==> r == Refused(BothModes)
    ensures pathGiven && !(openFiles && names) && !pathExists ==> r == Refused(NotFound)
    ensures pathGiven && pathExists && !openFiles && !names ==> r == Refused(NoMode)
    ensures !r.Refused? ==> r.mode == (if openFiles then ContentsMode else NamesMode)
    // one thread or fewer scans in the calling process, always over the whole tree
    ensures r.Sequential? <==> !r.Refused? && threads <= 1
    ensures r.Sequential? ==> r.walk == TreeWalk
    // more threads scan with workers, over the tree only when recursive is set
    ensures r.Threaded? ==> r.walk == (if recursive then TreeWalk else OneLevel)
  {
    if !pathGiven then Refused(NoPath)
    else if openFiles && names then Refused(BothModes)
    else if !pathExists then Refused(NotFound)
    else if !openFiles && !names then Refused(NoMode)
    else
      var mode := if openFiles then ContentsMode else NamesMode;
      if threads <= 1 then Sequential(mode, TreeWalk)
      else Threaded(mode, if recursive then TreeWalk else OneLevel)
  }

  /** The recursive flag makes no difference to a sequential scan. */
  lemma RecursiveIgnoredWhenSequential(pathGiven: bool, openFiles: bool, names: bool, pathExists: bool, threads: int)
    requires threads <= 1
    ensures Decide(pathGiven, openFiles, names, pathExists, threads, true)
         == Decide(pathGiven, openFiles, names, pathExists, threads, false)
  {
  }
}
