# onprem: model download, cache directory and the lazy `LLM` facade

This project models the deterministic core of the `onprem` package, a thin
layer over a local retrieval-augmented-generation stack:

- `split_list` (onprem/utils.py): cutting a list into consecutive slices of a
  fixed size;
- `download` (onprem/utils.py): streaming a model file to disk in chunks of
  `max(total div 1000, 1 MiB)` bytes while redrawing a fifty-cell progress bar;
- `get_datadir` (onprem/utils.py): the `~/onprem_data` cache directory, created
  on first use;
- the `LLM` class (onprem/core.py): choosing the model URL, the
  `download_model` confirmation gate, and the engine and ingester handles that
  are built on first use and then reused.

Modules:

- `Outcomes` (outcomes.dfy): `Option`, the Python exceptions raised here
  (`ValueError`, `ZeroDivisionError`, with their messages) and `Result`.
- `Paths` (paths.dfy): POSIX `os.path.basename` and `os.path.join`.
- `FileSystem` (filesystem.dfy): the `Disk` class. It holds the set of
  existing directories and a map from file paths to their bytes. It stands for
  `os.path.isdir`, `os.path.isfile`, `os.mkdir` and writing a file.
- `Utils` (utils.dfy): `SplitList`, `ChunkSize`, `IterContent`, `Done`, `Bar`,
  `StreamChunks` (the download loop), `Download` and `GetDatadir`.
- `Core` (core.dfy): the default URLs and embedding model, the confirmation gate, the handle classes `LlamaCpp` and
  `Ingester`, and the `LLM` class.

The file system, the user's reply to `input`, the server's response, the
ingester's `get_db` answer, `str.format`, text generation and the retrieval
chain are parameters of the methods that use them. The home directory is a
parameter too; it stands for `os.path.expanduser("~")`.

`LLM` keeps what the source keeps. Its configuration is made of `const`
fields. The handles `llm` and `ingester` start as `null`. Two ghost counters,
`llmBuilds` and `ingesterBuilds`, count how many handles have been built.
`LLM.Valid()` is preserved by every method. It says that each counter is at
most 1, that a handle is present exactly when its counter is 1, and that a
built handle carries the facade's configuration. So each handle is built at
most once, whatever sequence of calls is made.

`Utils.DownloadEffect` and `Core.DownloadModelEffect` are ghost predicates.
The first states what `download` does to the files. The second states what
`download_model` asks, reports and writes. The methods that model these
functions ensure them. So does `Create`, which calls `download_model`.

The model keeps these behaviours of the code:

- With `confirm=False`, `download_model` downloads even when the file already
  exists; it does not skip.
- `ask` builds the ingester before it tests for a database, so a failing `ask`
  still leaves an ingester behind.
- The constructor looks for the model in the default directory even when
  `model_download_path` is given, and downloads into the override.
- An empty-string `model_download_path` is false in Python, so the default
  directory is used; `get_datadir`, which creates that directory, runs only in
  that case.
- A content-length of 0 with a non-empty body raises `ZeroDivisionError`
  after the first chunk has been written. Only that chunk stays in the file.

## Model

| member | source | states |
|---|---|---|
| `Paths.Basename` | onprem/core.py:59 | `os.path.basename`: the result contains no '/' and is no longer than the path (`Paths.BasenameIsLastComponent` adds that it is the path's last component) |
| `Paths.BasenameIsLastComponent` | onprem/core.py:88 | the basename contains no '/', is a suffix of the path, and is preceded by '/' unless it is the whole path |
| `Paths.ComponentStart` | onprem/core.py:59 | the position found is just after a '/' (or 0) and no '/' follows it, so it starts the last component |
| `Paths.Join` | onprem/core.py:89 | POSIX `os.path.join`: an absolute second part replaces the first; otherwise the result extends the first part by the second, with a '/' between them unless the first part is empty or ends in '/' |
| `Paths.JoinFileName` | onprem/core.py:89 | joining a directory and a '/'-free name gives a path whose basename is the name and which extends the directory by the name, with or without one '/' |
| `Utils.SlicesFromShape` | onprem/utils.py:40-41 | the slices from offset i number ceil((n-i)/k), concatenate to the input from i, all but the last have length k, the last has 1..k elements, and the first is `s[i:i+k]` |
| `Utils.SplitList` | onprem/utils.py:39-41 | step 0 is the `range` ValueError; a negative step gives no slices; a positive step gives ceil(n/k) slices concatenating to the input, each of length k but the last, which has 1..k; an empty list gives none |
| `Utils.SliceAt` | onprem/utils.py:40-41 | slice j is exactly `input[j*k : j*k+k]`, starting inside the input |
| `Utils.LengthOfFlatten` | onprem/utils.py:24-25 | the bytes written number the sum of the chunk lengths |
| `Utils.TotalLengthPrefix` | onprem/utils.py:24 | the running `downloaded` count never decreases along the stream |
| `Utils.IterContent` | onprem/utils.py:21-23 | the chunks concatenate to the body, number ceil(n/size), all have `size` bytes except a last one of 1..size bytes, and the first is the body's first `size` bytes |
| `Utils.ChunkSize` | onprem/utils.py:22 | the chunk size is at least 1 MiB and at least total div 1000, and is one of the two |
| `Utils.Done` | onprem/utils.py:26 | while downloaded <= total, `done` is at most 50, and exactly 50 once everything has arrived |
| `Utils.DoneMonotone` | onprem/utils.py:26 | `done` never decreases as `downloaded` grows |
| `Utils.Bar` | onprem/utils.py:27 | the bar has max(done, 50) cells: the first `done` filled, the rest dots |
| `Utils.StreamChunks` | onprem/utils.py:18-28 | the loop writes the concatenation of the chunks, ends with `downloaded` equal to the sum of their lengths, and draws one bar per chunk from the running count; with total 0 it raises ZeroDivisionError after writing the first chunk, and only then |
| `Utils.Download` | onprem/utils.py:10-28 | without content-length the whole body is written and no bar drawn; with it the body is written in ceil(n/size) chunks with one bar each, or only the first chunk before the ZeroDivisionError |
| `Utils.StreamProgress` | onprem/utils.py:21-27 | along any chunk stream, `done` never decreases, and while at most `total` bytes arrive every bar is exactly 50 cells wide |
| `Utils.CompleteDownloadEndsFull` | onprem/utils.py:19-27 | when content-length is the true length of a non-empty body, `download` raises nothing, the file holds the whole body, and the last bar drawn is all 50 cells filled |
| `Utils.DefaultDatadir` | onprem/utils.py:32-33 | the data directory is under the home directory and its basename is "onprem_data" |
| `Utils.GetDatadir` | onprem/utils.py:31-36 | returns `home/onprem_data`, which exists afterwards; no other directory or file changes, so a second call changes nothing |
| `FileSystem.Disk.Mkdir` | onprem/utils.py:35 | the new directory is added and no other changes |
| `FileSystem.Disk.WriteFile` | onprem/utils.py:11-25 | the file holds exactly the written bytes and no other file changes |
| `Core.ResolveDatadir` | onprem/core.py:87 | `model_download_path or get_datadir()`: the override when it is a non-empty string, the default directory (created if missing) otherwise |
| `Core.ModelPath` | onprem/core.py:87-89 | the target lies in the resolved directory and its basename is the basename of the URL |
| `Core.ConfirmMessageRevealsExistence` | onprem/core.py:90-96 | the prompt for an existing file differs from the prompt for a missing one |
| `Core.ConfirmGate` | onprem/core.py:90-96 | the question is asked iff `confirm`, with the "already a file" text iff the file exists; the download goes ahead iff `confirm` is false or the reply is exactly "Y", so "y", "", "yes" and "n" decline |
| `Core.LLM.DownloadModel` | onprem/core.py:75-101 | the target is `join(datadir, basename(url))`; the prompt and decision are those of the gate; on acceptance the download's effect follows, on decline the warning is issued, the files are untouched and nothing is raised; the URL, the download path and `confirm` default as in Python |
| `Core.LLM.Create` | onprem/core.py:25-72 | `use_larger` replaces the URL by the larger default; `download_model` is called iff the model is missing from the default directory; its exception aborts construction; otherwise a fresh, valid facade with no handles, the given configuration, and `callbacks` empty iff `mute_stream` |
| `Core.LLM.Fields` | onprem/core.py:59-72 | the configuration is recorded, `model_name` is the URL's basename, both handles are absent |
| `Core.LlamaCpp.constructor` | onprem/core.py:145-151 | the engine records the model path and the generation settings it was given |
| `Core.Ingester.constructor` | onprem/core.py:106-108 | the ingester records the embedding model name and arguments it was given |
| `Core.Ingester.Ingest` | onprem/core.py:127 | the directory is handed to the ingester |
| `Core.LLM.LoadIngester` | onprem/core.py:103-109 | the first call builds the ingester and later calls return the same one without building another |
| `Core.LLM.Ingest` | onprem/core.py:112-128 | the (possibly just built) ingester receives the directory; an existing ingester is reused |
| `Core.LLM.CheckModel` | onprem/core.py:132-138 | returns `join(model_download_path or get_datadir(), model_name)` iff that file exists, else the "not downloaded" ValueError |
| `Core.LLM.LoadLlm` | onprem/core.py:141-153 | the model check comes first: a missing file fails even when an engine exists, and leaves the engine as it was; otherwise the engine is built on the first call only, with the model path and the facade's settings, and returned |
| `Core.LLM.BuildLlm` | onprem/core.py:143-152 | the engine is built for the given model path on the first call only; later calls return the same engine and build nothing |
| `Core.LLM.Prompt` | onprem/core.py:156-163 | fails like `load_llm` when the model is missing; otherwise the engine, reused if built, generates from the text, which is the template formatted with the prompt when the template is a non-empty string and the prompt itself otherwise; an engine built by this call is fresh and bound to the model file; the template defaults to None |
| `Core.LLM.Ask` | onprem/core.py:165-185 | the ingester is loaded first; without a database the "no database" ValueError is raised and the engine and directories are untouched; otherwise it fails like `load_llm` or returns the answer and sources of the "stuff" chain over the database with k documents (4 by default); an engine built by this call is fresh and bound to the model file |

## Left out

- The HTTP request, TLS verification and `ssl_verify`/`verify`: the server's answer is a `Response` value with the body and the content-length. Transport errors are not modelled, and neither is the empty file they leave behind.
- `iter_content` is idealised as slices of exactly the chunk size, with a shorter last one. `StreamChunks` itself accepts any chunk sequence.
- The content-length header is taken as already parsed to a natural number. `int()` on a malformed header raises ValueError, which is not modelled.
- `int(total / 1000)` and `int(50 * downloaded / total)` are modelled as integer division. The floating-point rounding of very large values is not modelled.
- Terminal output is not modelled: the `\r[`…`]` framing, flushing, and the verbose `print` in the constructor. The model keeps only the bar's cells.
- `input()` is a reply parameter. An end-of-file on stdin is not modelled.
- `warnings.warn` is modelled as the warning text in the download report.
- `os.mkdir` and `open` failures are not modelled: permissions, a missing parent, or a regular file in the way.
- `split_list` is a lazy generator. Its slices are modelled as one list, and the zero-step error as raised at once rather than on the first iteration.
- LangChain, llama.cpp and Chroma are foreign libraries. The model keeps only the configuration passed to `LlamaCpp` and `RetrievalQA`. Text generation (`generate`) and the chain run (`qa`) are parameters.
- The `Ingester` class is not part of this model. `get_db()` is the `db` parameter of `Ask`.
- Core.Ingester.Ingest: records only that the directory was handed over; the indexing itself belongs to the unseen `Ingester`.
- `str.format` is the `format` parameter. The errors it can raise, such as KeyError on a template with other fields, are not modelled.
- Python truthiness of the built handles: a built engine or ingester is assumed to be true, so only `None` counts as absent.
- Core.LLM.Create: the constructor is modelled as a static method that returns the facade or the download's exception, because a Dafny constructor cannot fail. Its configuration parameters have Python's default values; the disk, the home directory, the reply and the response come first and have none.
