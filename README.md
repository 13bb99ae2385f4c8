# Wasabi scan engine in Dafny

A Dafny model of the core of Wasabi. Wasabi scans a directory for files whose content or name matches a regular expression. It can read gzip-compressed JSON files, and it can spread the work over several worker processes. The model covers:

- **Partition plan** (`calculate_threads_usage`). The path count is padded one by one up to a multiple of the thread count. The result is a plan of padded count, padding, threads, chunk size and remainder.
- **Chunking** (`create_thread_chunks`). The path list is cut into `threads` slices of width `chunk_size`. Python slices clip out-of-range bounds, so trailing slices may be short or empty.
- **Pattern resolution** (the constructor). Exactly one of a regex and a "contains" literal must be given. A literal `s` becomes `.*.` + `s` + `.*`, without escaping.
- **`join_path`**. Components are joined with the platform delimiter. The platform is a boolean parameter.
- **Worker output** (`th_read_file_contents`, `th_list_file_names`). Each is a loop that emits the printed lines of a chunk. The reader, the gzip extractor and the regex matcher are uninterpreted functions returning `Option`.
- **Directory dispatch** (`parse_directory`). It either refuses, scans in the calling process, or partitions and starts workers.

Modules:

- `Wrappers`: `Option`, `Result`.
- `Partition`: the plan, Python slicing, chunks and their concatenation.
- `Patterns`: the contains wrapping and its inverse.
- `Paths`: join and split.
- `Scan`: the lines a worker prints.
- `Dispatch`: the decision `parse_directory` takes.
- `WasabiModel`: the `Wasabi` class with the imperative members.

The main theorem is `Partition.ChunksCoverPaths`. Take the plan for `|paths|` paths. Concatenating its chunks in order gives back `paths`: no path is dropped or repeated. `Wasabi.StartThreads` builds on it. The lines the workers print, taken in worker order, are exactly the lines one scan of the whole list prints.

Padding never drops or duplicates a path: every slice is clipped to the real list, so padding slots only ever become short or empty slices (`Partition.ChunksCoverPaths`).

## Model

| member | source | states |
|---|---|---|
| `Partition.PaddedCount` | src/wasabi.py:43-48 | the padded count is a multiple of the thread count, at least the path count and less than path count plus threads |
| `Partition.PaddedCountLeast` | src/wasabi.py:43-48 | no multiple of the thread count lies between the path count and the padded count, so the loop stops at the first one |
| `Partition.PlanFor` | src/wasabi.py:59-65 | the plan: padded count a multiple of threads and at least the input; padding = padded − input < threads; remainder 0; chunk size × threads = padded count |
| `WasabiModel.Wasabi.CalculateThreadsUsage` | src/wasabi.py:33-67 | the increment loop returns exactly `PlanFor(paths, threads)` |
| `Partition.SevenPathsThreeThreads` | src/wasabi.py:43-65 | seven paths over three threads give padded 9, padding 2, chunk size 3, remainder 0 |
| `Partition.NoPaths` | src/wasabi.py:43-65 | zero paths give padded 0, padding 0, chunk size 0, and every chunk is empty |
| `Partition.Slice` | src/wasabi.py:83-85 | Python slice `s[lo:hi]`: the exact slice when in range, the tail when `hi` is past the end, empty when `lo` is past the end or `hi <= lo` |
| `Partition.SliceAdjacent` | src/wasabi.py:81-87 | two adjacent clipped slices concatenate to the clipped slice over both ranges |
| `Partition.Chunks` | src/wasabi.py:81-87 | exactly `n` chunks, one per loop iteration |
| `Partition.ChunkAt` | src/wasabi.py:81-87 | chunk `i` is `s[i·c : (i+1)·c]` with Python's clipping |
| `WasabiModel.Wasabi.CreateThreadChunks` | src/wasabi.py:70-92 | the loop that advances `current_index` returns `data.threads` lists, list `i` is the clipped slice `i·c .. (i+1)·c`, and no list is longer than the chunk size |
| `Partition.FlattenChunks` | src/wasabi.py:81-87 | the first `n` chunks of width `c`, concatenated, are the clipped prefix of length `n·c` |
| `Partition.ChunksCoverPaths` | src/wasabi.py:267-268 | with the plan for `len(paths)`, the concatenated chunks equal `paths` exactly |
| `Patterns.ContainsPattern` | src/wasabi.py:28-30 | a literal becomes the prefix `.*.`, then the literal unescaped, then the suffix `.*` |
| `Patterns.ContainsLiteral` | src/wasabi.py:29 | reading a literal back succeeds only on a string that is exactly the prefix, that literal and the suffix |
| `Patterns.ContainsRoundTrip` | src/wasabi.py:29 | the literal can be read back from its wrapped pattern |
| `Patterns.ContainsInjective` | src/wasabi.py:29 | distinct literals give distinct patterns |
| `Patterns.ResolvePattern` | src/wasabi.py:20-30 | refused iff both or neither of regex and contains are given; both → `BothGiven`, neither → `NoneGiven`; a regex alone is kept unchanged; a literal is wrapped and can be read back |
| `WasabiModel.Wasabi.constructor` | src/wasabi.py:12-30 | called with exactly one of regex and contains, as `__init__` exits otherwise; stores the flags and thread count, replaces the regex by the wrapped literal when one is given, and leaves a configured scanner: a regex and `rx_contains` None |
| `WasabiModel.Wasabi.Create` | src/wasabi.py:20-30 | fails with exactly the error `ResolvePattern` gives; otherwise a fresh configured scanner whose regex is the resolved pattern |
| `WasabiModel.Wasabi.JoinPath` | src/wasabi.py:373-394 | the counter-driven loop returns the components joined by the platform delimiter, so an empty list gives `""` and one component gives itself |
| `Paths.Join` | src/wasabi.py:373-394 | no components give `""`, one gives itself; the result starts with the first component, followed by a delimiter when more follow |
| `Paths.JoinSnoc` | src/wasabi.py:382-392 | appending a component appends one delimiter and the component |
| `Paths.JoinEndsWithLast` | src/wasabi.py:385-387 | the joined path ends with the last component, so no delimiter is added after it |
| `Paths.SplitJoin` | src/wasabi.py:373-394 | components free of the delimiter are recovered by splitting the joined path |
| `Scan.GzipNeverRead` | src/wasabi.py:317-318 | a `.gz` path is read only through the gzip extractor: replacing the plain reader changes nothing about its contents |
| `Scan.PlainNeverGunzipped` | src/wasabi.py:319-322 | any other path is read only as plain text: replacing the gzip extractor changes nothing about its contents |
| `Scan.NameScanReadsNothing` | src/wasabi.py:344-346 | a name scan matches the path string and never opens the file: replacing both readers changes nothing about its matches |
| `Scan.PathLines` | src/wasabi.py:313-330 | a path prints iff its matching succeeded with at least one match; a content scan prints `"\n"+path` then the matches in order, and nothing for an unreadable path; a name scan prints only the matches |
| `Scan.Lines` | src/wasabi.py:313-350 | an empty chunk prints nothing; the first path's lines come before anything later paths print |
| `Scan.LinesSilent` | src/wasabi.py:326-330 | a chunk prints nothing exactly when none of its paths prints anything |
| `Scan.LinesAppend` | src/wasabi.py:313-330 | the lines for a concatenated path list are the lines for each part, in order |
| `Scan.WorkersPrintLinesOfAllPaths` | src/wasabi.py:272-283 | workers that each scan one chunk print, in chunk order, exactly the lines of one scan of the concatenated chunks |
| `WasabiModel.Wasabi.ThReadFileContents` | src/wasabi.py:313-330 | the loop emits `Lines` for content mode: per path in chunk order, skipping failed reads and failed extractions |
| `WasabiModel.Wasabi.ThListFileNames` | src/wasabi.py:344-350 | the loop emits `Lines` for name mode: the matches of each path, no header |
| `WasabiModel.Wasabi.PrintAll` | src/wasabi.py:329-330 | every match is emitted on its own line, in order |
| `WasabiModel.ExtendScan` | src/wasabi.py:314-330 | scanning one more path appends that path's lines |
| `WasabiModel.Wasabi.RunTarget` | src/wasabi.py:273-276 | the `target_function` a worker runs prints exactly the lines of its chunk for the scan mode: `th_read_file_contents` for contents, `th_list_file_names` for names |
| `WasabiModel.Wasabi.RunWorkers` | src/wasabi.py:271-285 | one worker per chunk, in chunk order; worker `i`'s output is what scanning chunk `i` prints |
| `WasabiModel.Wasabi.StartThreads` | src/wasabi.py:267-287 | `threads` chunks and outputs; the chunks concatenate to the path list; output `i` is what scanning chunk `i` prints; all outputs in order equal the lines of the whole list |
| `Dispatch.Decide` | src/wasabi.py:397-449 | refuses iff the path is missing, the modes are not exactly one, or the path does not exist, with errors in source order (both modes before existence); mode follows `open_files`; threads ≤ 1 scans sequentially over the full tree; more threads scan with workers over the tree only when recursive |
| `Dispatch.RecursiveIgnoredWhenSequential` | src/wasabi.py:429-442 | with one thread or fewer the recursive flag changes nothing |
| `WasabiModel.Wasabi.ParseDirectory` | src/wasabi.py:397-449 | the branch chain agrees with `Decide`: the same refusal; a sequential scan prints the lines of the full tree; a threaded scan has `threads` workers whose lines, in order, are those of the walk `Decide` picks |
| `WasabiModel.Wasabi.CatchKeyError` | src/wasabi.py:363-370 | a value iff the key is present, and then the stored value |

## Left out

- WasabiModel.Wasabi.CalculateThreadsUsage: requires at least one thread. With zero threads `calculate_threads_usage` raises ZeroDivisionError. With a negative count, Python's floor `%` stops the loop at once and the chunk size `paths / threads` is a float that is zero or negative. The only caller reaches it with more than one thread.
- WasabiModel.Wasabi.StartThreads: requires at least one thread, as `calculate_threads_usage` does. `parse_directory` only calls it with more than one.
- WasabiModel.Wasabi.CalculateThreadsUsage: `i_paths / i_threads` is float division and `create_thread_chunks` applies `int()` to it. The model uses exact integer division, which is equal because the padded count is a multiple of the thread count.
- WasabiModel.Wasabi.RunWorkers: `Process` spawning, `start()`, `join()` and the 0.3-second sleep are not modelled. Each worker's output is a separate sequence; the model does not capture how concurrent workers interleave their lines on the shared stdout.
- WasabiModel.Wasabi.ParseDirectory: the sequential branch runs `read_file_contents` / `list_file_names` (src/wasabi.py:290-311, 333-341). These are modelled as the worker loops over the recursive walk. The unconditional debug print at src/wasabi.py:303 (`contents -> … path -> …`) is not modelled.
- WasabiModel.Wasabi.ParseDirectory: for a relative path, `parse_directory` joins it onto `os.getcwd()` but never uses the result. That computation is not modelled.
- Filesystem access is not modelled. The results of `os.walk` (`recursive_directory_search`) and of `os.listdir` joined onto the root are inputs (`tree`, `listing`), and `os.path.exists` is a boolean input. `os.getcwd` and `is_relative_path` are not modelled.
- Regex matching, gzip extraction, JSON pretty-printing and file reading (`match_string`, `extract_gzip`, `prettify_json`, `read_file`, `catch_read_exception`) are foreign libraries. They are the uninterpreted functions of `Scan.Io`. `re.findall` results with groups (tuples) are taken as strings.
- `match_file_path`, `load_yaml` and `parse_file` are I/O glue around the same foreign calls and are not modelled.
- `eprint` and `dprint` output, and `print("")` in `calculate_threads_usage`, are not modelled. Error paths are failure outcomes, not messages. `eprint` reads `self.error`, but the constructor only sets `self.err`. So every diagnostic raises AttributeError instead of printing, and the run still ends on every error path the model refuses.
- The contains pattern is kept exactly as `__init__` builds it. It is not escaped, and the `.` after `.*` demands one character before the literal on the same line. A literal at the very start of a line or text is therefore not matched.
- WasabiModel.Wasabi.CatchKeyError: `data` is a map. A `data` that is not a dictionary, which makes `catch_key_error` catch a TypeError and answer None, is not modelled.
- WasabiModel.Wasabi.CreateThreadChunks: paths are an immutable sequence, so "the input list is not modified" holds by construction. Python list aliasing (`full_paths = paths`) is not modelled.
- The command-line wiring in wild_wasabi.py is not modelled: argparse flags and subcommand dispatch. Its `threads` string-to-int conversion is the `int` parameter.
