/**
  The Wasabi scanner object: its configuration fields, the partition of a
  path list into worker chunks, path joining, the per-worker scan loops and
  the directory scan that ties them together.
 */
module WasabiModel {
  import opened Wrappers
  import opened Partition
  import opened Patterns
  import opened Paths
  import opened Scan
  import opened Dispatch

  /** The parsed arguments parse_directory reads. */
  datatype DirArgs = DirArgs(path: Option<string>, openFiles: bool, names: bool)

  class Wasabi {
    var debug: bool
    var err: bool
    var threads: int
    var regex: Option<string>
    var rxContains: Option<string>
    var recursive: bool

    /** A constructed scanner: the contains literal has been folded into the regex. */
    predicate Configured()
      reads this
    {
      regex.Some? && rxContains.None?
    }

    /** Stores the configuration, then rewrites a contains literal into the regex. */
    constructor (debug: bool, disableErrors: bool, threads: int,
                 regex: Option<string>, rxContains: Option<string>, recursive: bool)
      // __init__ exits unless exactly one of regex and rx_contains is given
      requires regex.Some? != rxContains.Some?
      ensures Configured()
      ensures this.debug == debug && err == disableErrors
      ensures this.threads == threads && this.recursive == recursive
      ensures this.regex == (if rxContains.Some? then Some(ContainsPattern(rxContains.value)) else regex)
      ensures this.rxContains == None
    {
      this.debug := debug;
      err := disableErrors;
      this.threads := threads;
      this.regex := regex;
      this.rxContains := rxContains;
      this.recursive := recursive;
      new;
      if rxContains.Some? {
        this.regex := Some(ContainsPattern(rxContains.value));
        this.rxContains := None;
      }
    }

    /**
      Creating a scanner: refused when both or neither of regex and contains
      are given (__init__ exits there), otherwise a configured scanner
      whose regex is the resolved pattern.
     */
    static method Create(debug: bool, disableErrors: bool, threads: int,
                         regex: Option<string>, rxContains: Option<string>, recursive: bool)
      returns (r: Result<Wasabi, PatternError>)
      ensures r.Failure? ==> ResolvePattern(regex, rxContains) == Failure(r.error)
      ensures r.Success? ==>
        && fresh(r.value) && r.value.Configured()
        && ResolvePattern(regex, rxContains) == Success(r.value.regex.value)
      ensures r.Success? ==> r.value.threads == threads && r.value.recursive == recursive
      ensures r.Success? ==> r.value.debug == debug && r.value.err == disableErrors
    {
      if regex.Some? && rxContains.Some? {
        return Failure(BothGiven);
      }
      if regex.None? && rxContains.None? {
        return Failure(NoneGiven);
      }
      var w := new Wasabi(debug, disableErrors, threads, regex, rxContains, recursive);
      return Success(w);
    }

    /**
      Pads the path count up to a multiple of the thread count, one path at
      a time, and reports the plan.
     */
    method CalculateThreadsUsage(paths: nat) returns (plan: ThreadPlan)
      requires threads >= 1
      ensures plan == PlanFor(paths, threads)
    {
      var iPaths: nat := paths;
      var iThreads: nat := threads;
      var remainder: int := 1;
      while remainder > 0
        invariant paths <= iPaths <= PaddedCount(paths, iThreads)
        invariant remainder >= 0
        invariant remainder == 0 ==> iPaths % iThreads == 0
        decreases PaddedCount(paths, iThreads) - iPaths, remainder
      {
        remainder := iPaths % iThreads;
        if remainder > 0 {
          assert iPaths != PaddedCount(paths, iThreads);
          iPaths := iPaths + 1;
        }
      }
      if iPaths < PaddedCount(paths, iThreads) {
        PaddedCountLeast(paths, iThreads, iPaths);
      }
      var chPerTh := iPaths / iThreads;
      plan := ThreadPlan(iPaths, iPaths - paths, iThreads, chPerTh, remainder);
    }

    /**
      Cuts the path list into data.threads consecutive slices of width
      data.chunkSize, clipped at the end of the list as Python slices are.
     */
    static method CreateThreadChunks(paths: seq<string>, data: ThreadPlan) returns (output: seq<seq<string>>)
      ensures output == Chunks(paths, data.chunkSize, data.threads)
      ensures |output| == data.threads
      ensures forall i :: 0 <= i < |output| ==>
        output[i] == Slice(paths, i * data.chunkSize, (i + 1) * data.chunkSize)
      ensures forall i :: 0 <= i < |output| ==> |output[i]| <= data.chunkSize
    {
      output := [];
      var fullPaths := paths;
      var nThreads := data.threads;
      var threadChunk := data.chunkSize;
      var currentIndex: nat := 0;
      for i := 0 to nThreads
        invariant currentIndex == i * threadChunk
        invariant output == Chunks(fullPaths, threadChunk, i)
      {
        if i == 0 {
          output := output + [Slice(fullPaths, 0, threadChunk)];
        } else {
          output := output + [Slice(fullPaths, currentIndex, currentIndex + threadChunk)];
        }
        currentIndex := currentIndex + threadChunk;
        MulSucc(i, threadChunk);
      }
      forall i | 0 <= i < nThreads
        ensures output[i] == Slice(paths, i * threadChunk, (i + 1) * threadChunk)
        ensures |output[i]| <= threadChunk
      {
        ChunkAt(paths, threadChunk, nThreads, i);
      }
    }

    /** Joins path components with the platform's delimiter, counting components as it goes. */
    static method JoinPath(strings: seq<string>, windows: bool) returns (out: string)
      ensures out == Join(strings, Delimiter(windows))
    {
      var delim := if windows then '\\' else '/';
      out := "";
      var counter := 1;
      var k := 0;
      while k < |strings|
        invariant 0 <= k <= |strings|
        invariant |strings| > 0 ==> k < |strings|
        invariant counter == k + 1
        invariant k == 0 ==> out == ""
        invariant k > 0 ==> out == Join(strings[..k], delim) + [delim]
      {
        var s := strings[k];
        if counter == |strings| {
          if k == 0 {
            assert strings == [s];
          } else {
            JoinSnoc(strings[..k], s, delim);
            assert strings[..k] + [s] == strings;
          }
          out := out + s;
          break;
        } else if counter < |strings| {
          if k > 0 {
            JoinSnoc(strings[..k], s, delim);
          }
          assert strings[..k + 1] == strings[..k] + [s];
          out := out + s + [delim];
        }
        counter := counter + 1;
        k := k + 1;
      }
    }

    /**
      A content-scan worker: for each path of its chunk, reads it (extracting
      ".gz" files), matches the pattern and prints the path and its matches.
     */
    static method ThReadFileContents(paths: seq<string>, pattern: string, io: Io) returns (lines: seq<string>)
      ensures lines == Lines(io, ContentsMode, pattern, paths)
    {
      lines := [];
      for k := 0 to |paths|
        invariant lines == Lines(io, ContentsMode, pattern, paths[..k])
      {
        var p := paths[k];
        ExtendScan(io, ContentsMode, pattern, paths, k);
        var contents: Option<string>;
        if EndsWith(p, GzipSuffix) {
          contents := io.gunzip(p);
        } else {
          contents := io.read(p);
          if contents.None? {
            ContentStep(io, pattern, p, contents, None);
            continue;
          }
        }
        // match_string on a failed extraction raises inside its try and answers None
        var checkContents := if contents.Some? then io.findall(pattern, contents.value) else None;
        ContentStep(io, pattern, p, contents, checkContents);
        if checkContents.Some? && checkContents.value != [] {
          lines := lines + ["\n" + p];
          lines := PrintAll(lines, checkContents.value);
        }
      }
      assert paths[..|paths|] == paths;
    }

    /** A name-scan worker: prints the matches of the pattern in each path of its chunk. */
    static method ThListFileNames(paths: seq<string>, pattern: string, io: Io) returns (lines: seq<string>)
      ensures lines == Lines(io, NamesMode, pattern, paths)
    {
      lines := [];
      for k := 0 to |paths|
        invariant lines == Lines(io, NamesMode, pattern, paths[..k])
      {
        var p := paths[k];
        ExtendScan(io, NamesMode, pattern, paths, k);
        var checkName := io.findall(pattern, p);
        if checkName.Some? {
          lines := PrintAll(lines, checkName.value);
        }
      }
      assert paths[..|paths|] == paths;
    }

    /** Prints each match on its own line, in order. */
    static method PrintAll(before: seq<string>, ms: seq<string>) returns (lines: seq<string>)
      ensures lines == before + ms
    {
      lines := before;
      for j := 0 to |ms|
        invariant lines == before + ms[..j]
      {
        lines := lines + [ms[j]];
      }
      assert ms[..|ms|] == ms;
    }

    /** The target_function a worker process runs on its chunk, chosen by the scan mode. */
    static method RunTarget(mode: ScanMode, chunk: seq<string>, pattern: string, io: Io) returns (out: seq<string>)
      ensures out == Lines(io, mode, pattern, chunk)
    {
      if mode == ContentsMode {
        out := ThReadFileContents(chunk, pattern, io);
      } else {
        out := ThListFileNames(chunk, pattern, io);
      }
    }

    /** Starts one worker process per chunk, in chunk order, and collects what each prints. */
    static method RunWorkers(mode: ScanMode, chunks: seq<seq<string>>, pattern: string, io: Io)
      returns (outputs: seq<seq<string>>)
      ensures |outputs| == |chunks|
      ensures forall i :: 0 <= i < |chunks| ==> outputs[i] == Lines(io, mode, pattern, chunks[i])
    {
      outputs := [];
      for i := 0 to |chunks|
        invariant |outputs| == i
        invariant forall j :: 0 <= j < i ==> outputs[j] == Lines(io, mode, pattern, chunks[j])
      {
        var out := RunTarget(mode, chunks[i], pattern, io);
        outputs := outputs + [out];
      }
    }

    /**
      Partitions the path list, hands each chunk to one worker and waits for
      all of them. Returns the chunks and what each worker prints.
     */
    method StartThreads(mode: ScanMode, paths: seq<string>, pattern: string, io: Io)
      returns (chunks: seq<seq<string>>, outputs: seq<seq<string>>)
      requires threads >= 1
      ensures |chunks| == threads && |outputs| == threads
      // every path goes to exactly one worker, in list order
      ensures Flatten(chunks) == paths
      ensures forall i :: 0 <= i < |outputs| ==> outputs[i] == Lines(io, mode, pattern, chunks[i])
      // the workers' lines, taken in worker order, are those of one scan over the whole list
      ensures Flatten(outputs) == Lines(io, mode, pattern, paths)
    {
      var threadInfo := CalculateThreadsUsage(|paths|);
      chunks := CreateThreadChunks(paths, threadInfo);
      outputs := RunWorkers(mode, chunks, pattern, io);
      ChunksCoverPaths(paths, threads);
      WorkersPrintLinesOfAllPaths(io, mode, pattern, chunks, outputs);
    }

    /**
      Scans a directory. tree is what walking the directory recursively
      yields and listing what listing it one level deep yields; pathExists says
      whether the path exists. Returns the refusal, or what each worker
      prints (one entry for a scan in the calling process).
     */
    method ParseDirectory(args: DirArgs, pathExists: bool, tree: seq<string>, listing: seq<string>, io: Io)
      returns (r: Result<seq<seq<string>>, DirError>)
      requires Configured()
      ensures var action := Decide(args.path.Some?, args.openFiles, args.names, pathExists, threads, recursive);
        && (r.Failure? <==> action.Refused?)
        && (r.Failure? ==> action == Refused(r.error))
        && (action.Sequential? ==> r == Success([Lines(io, action.mode, regex.value, tree)]))
        && (action.Threaded? ==>
              && |r.value| == threads
              && Flatten(r.value) == Lines(io, action.mode, regex.value, if action.walk == TreeWalk then tree else listing))
    {
      var pattern := regex.value;
      var readFileCnt := args.openFiles;
      var showFileNames := args.names;
      if args.path.None? {
        return Failure(NoPath);
      }
      if readFileCnt && showFileNames {
        return Failure(BothModes);
      }
      if !pathExists {
        return Failure(NotFound);
      }
      if !readFileCnt && !showFileNames {
        return Failure(NoMode);
      }
      var mode := if readFileCnt then ContentsMode else NamesMode;
      if threads <= 1 {
        var lines;
        if readFileCnt {
          lines := ThReadFileContents(tree, pattern, io);
        } else {
          lines := ThListFileNames(tree, pattern, io);
        }
        return Success([lines]);
      }
      var paths := if recursive then tree else listing;
      var chunks, outputs := StartThreads(mode, paths, pattern, io);
      return Success(outputs);
    }

    /** A dictionary lookup that answers None for a missing key. */
    static function CatchKeyError<K, V>(data: map<K, V>, key: K): (r: Option<V>)
      ensures r.Some? <==> key in data
      ensures r.Some? ==> r.value == data[key]
    {
      if key in data then Some(data[key]) else None
    }
  }

  /** Scanning one more path appends that path's lines. */
  lemma ExtendScan(io: Io, mode: ScanMode, pattern: string, paths: seq<string>, k: nat)
    requires k < |paths|
    ensures Lines(io, mode, pattern, paths[..k + 1])
         == Lines(io, mode, pattern, paths[..k]) + PathLines(io, mode, pattern, paths[k])
  {
    assert paths[..k + 1] == paths[..k] + [paths[k]];
    LinesAppend(io, mode, pattern, paths[..k], [paths[k]]);
    assert [paths[k]][1..] == [];
  }

  /** What a content-scan worker prints for one path, from what it read and matched. */
  lemma ContentStep(io: Io, pattern: string, p: string, contents: Option<string>, checkContents: Option<seq<string>>)
    requires contents == Contents(io, p)
    requires checkContents == if contents.Some? then io.findall(pattern, contents.value) else None
    ensures PathLines(io, ContentsMode, pattern, p)
         == if checkContents.Some? && checkContents.value != [] then ["\n" + p] + checkContents.value else []
  {
  }
}
