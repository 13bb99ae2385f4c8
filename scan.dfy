/**
  What a worker prints for its chunk: th_read_file_contents and
  th_list_file_names as specification functions over an uninterpreted reader,
  gzip extractor and matcher.
 */
module Scan {
  import opened Wrappers
  import opened Partition

  /** Whether a path is matched by its content or by its name. */
  datatype ScanMode = ContentsMode | NamesMode

  /** The foreign calls a worker makes, left uninterpreted. */
  datatype Io = Io(
    read: string -> Option<string>,                    // catch_read_exception: text or None
    gunzip: string -> Option<string>,                  // extract_gzip: pretty-printed JSON or None
    findall: (string, string) -> Option<seq<string>>)  // match_string(pattern, text): matches or None

  const GzipSuffix: string := ".gz"

  predicate EndsWith(s: string, suffix: string)
  {
    |suffix| <= |s| && s[|s| - |suffix|..] == suffix
  }

  /**
    The text a content scan matches against. A ".gz" path whose extraction
    fails is not skipped by th_read_file_contents; it reaches match_string as None,
    where re.findall raises and match_string answers None, so it prints
    nothing either way.
   */
  function Contents(io: Io, p: string): Option<string>
  {
    if EndsWith(p, GzipSuffix) then io.gunzip(p) else io.read(p)
  }

  /** The matches that make a path print something, or None. */
  function Matches(io: Io, mode: ScanMode, pattern: string, p: string): Option<seq<string>>
  {
    match mode
    case NamesMode => io.findall(pattern, p)
    case ContentsMode =>
      match Contents(io, p)
      case None => None
      case Some(text) => io.findall(pattern, text)
  }

  /** A ".gz" path is never read as plain text: the plain reader does not affect its contents. */
  lemma GzipNeverRead(io: Io, f: string -> Option<string>, p: string)
    requires EndsWith(p, GzipSuffix)
    ensures Contents(io.(read := f), p) == Contents(io, p)
  {
  }

  /** Any other path is never extracted: the gzip extractor does not affect its contents. */
  lemma PlainNeverGunzipped(io: Io, g: string -> Option<string>, p: string)
    requires !EndsWith(p, GzipSuffix)
    ensures Contents(io.(gunzip := g), p) == Contents(io, p)
  {
  }

  /** A name scan never opens the file: neither reader affects what it matches. */
  lemma NameScanReadsNothing(io: Io, f: string -> Option<string>, g: string -> Option<string>,
                             pattern: string, p: string)
    ensures Matches(io.(read := f, gunzip := g), NamesMode, pattern, p) == Matches(io, NamesMode, pattern, p)
  {
  }

  /** The lines a worker prints for one path. */
  function PathLines(io: Io, mode: ScanMode, pattern: string, p: string): (r: seq<string>)
    // a path prints iff its matching succeeded with at least one match
    ensures r != [] <==> Matches(io, mode, pattern, p).Some? && Matches(io, mode, pattern, p).value != []
    // a content scan prints a header line "\n" + path, then every match in order
    ensures mode == ContentsMode && r != [] ==> r == ["\n" + p] + Matches(io, mode, pattern, p).value
    // a name scan prints only the matches, with no header
    ensures mode == NamesMode && r != [] ==> r == Matches(io, mode, pattern, p).value
    // an unreadable path prints nothing
    ensures mode == ContentsMode && Contents(io, p).None? ==> r == []
  {
    match Matches(io, mode, pattern, p)
    case None => []
    case Some(ms) =>
      if mode == ContentsMode then
        if ms != [] then ["\n" + p] + ms else []
      else ms
  }

  /** The lines a worker prints for a chunk, path by path in chunk order. */
  function Lines(io: Io, mode: ScanMode, pattern: string, ps: seq<string>): (r: seq<string>)
    // the first path's lines come first, before anything a later path prints
    ensures |ps| >= 1 ==> PathLines(io, mode, pattern, ps[0]) <= r
    // an empty chunk prints nothing
    ensures ps == [] ==> r == []
  {
    if ps == [] then [] else PathLines(io, mode, pattern, ps[0]) + Lines(io, mode, pattern, ps[1..])
  }

  /** A chunk prints nothing exactly when none of its paths prints anything. */
  lemma {:induction false} LinesSilent(io: Io, mode: ScanMode, pattern: string, ps: seq<string>)
    ensures Lines(io, mode, pattern, ps) == [] <==> forall i :: 0 <= i < |ps| ==> PathLines(io, mode, pattern, ps[i]) == []
  {
    if ps != [] {
      LinesSilent(io, mode, pattern, ps[1..]);
      assert forall i :: 1 <= i < |ps| ==> ps[1..][i - 1] == ps[i];
    }
  }

  /** Scanning two lists one after the other prints what scanning their concatenation prints. */
  lemma {:induction false} LinesAppend(io: Io, mode: ScanMode, pattern: string, a: seq<string>, b: seq<string>)
    ensures Lines(io, mode, pattern, a + b) == Lines(io, mode, pattern, a) + Lines(io, mode, pattern, b)
  {
    if a == [] {
      assert a + b == b;
    } else {
      assert (a + b)[1..] == a[1..] + b;
      LinesAppend(io, mode, pattern, a[1..], b);
    }
  }

  /**
    Workers that each scan one chunk print, taken in chunk order, exactly the
    lines a single scan of the concatenated chunks prints.
   */
  lemma {:induction false} WorkersPrintLinesOfAllPaths(io: Io, mode: ScanMode, pattern: string,
                                                      chunks: seq<seq<string>>, outputs: seq<seq<string>>)
    requires |outputs| == |chunks|
    requires forall i :: 0 <= i < |chunks| ==> outputs[i] == Lines(io, mode, pattern, chunks[i])
    ensures Flatten(outputs) == Lines(io, mode, pattern, Flatten(chunks))
  {
    if chunks != [] {
      var n := |chunks| - 1;
      WorkersPrintLinesOfAllPaths(io, mode, pattern, chunks[..n], outputs[..n]);
      LinesAppend(io, mode, pattern, Flatten(chunks[..n]), chunks[n]);
    }
  }
}
