/** The `LLM` facade of onprem/core.py: model selection and download at
    construction, the confirmation gate of `download_model`, and the lazily
    built, memoised inference engine and ingester. LangChain, llama.cpp and
    Chroma are not modelled: their objects are opaque handles and their
    computations are parameters. */
module Core {
  import opened Outcomes
  import opened Paths
  import opened FileSystem
  import opened Utils

  const DefaultModelUrl: string :=
    "https://huggingface.co/TheBloke/Wizard-Vicuna-7B-Uncensored-GGML/resolve/main/"
    + "Wizard-Vicuna-7B-Uncensored.ggmlv3.q4_0.bin"
  /** Note the leading space, as in the source. */
  const DefaultLargerUrl: string :=
    " https://huggingface.co/TheBloke/WizardLM-13B-V1.2-GGML/resolve/main/"
    + "wizardlm-13b-v1.2.ggmlv3.q4_0.bin"
  const DefaultEmbeddingModel: string := "sentence-transformers/all-MiniLM-L6-v2"

  // ---------------------------------------------------------------------------
  // Data directory resolution: `model_download_path or U.get_datadir()`

  /** Python truthiness of the optional override: None and "" are false. */
  predicate IsSet(modelDownloadPath: Option<string>) {
    modelDownloadPath.Some? && modelDownloadPath.value != ""
  }

  function DatadirFor(modelDownloadPath: Option<string>, home: string): string {
    if IsSet(modelDownloadPath) then modelDownloadPath.value else DefaultDatadir(home)
  }

  /** The directories after resolving: `get_datadir()` (and its `mkdir`) runs
      only when the override is false. */
  function DirsAfterResolve(dirs: set<string>, modelDownloadPath: Option<string>, home: string): set<string> {
    if IsSet(modelDownloadPath) then dirs else dirs + {DefaultDatadir(home)}
  }

  method ResolveDatadir(disk: Disk, home: string, modelDownloadPath: Option<string>)
    returns (datadir: string)
    modifies disk`dirs
    ensures datadir == DatadirFor(modelDownloadPath, home)
    ensures disk.dirs == DirsAfterResolve(old(disk.dirs), modelDownloadPath, home)
  {
    if IsSet(modelDownloadPath) {
      datadir := modelDownloadPath.value;
    } else {
      datadir := GetDatadir(disk, home);
    }
  }

  /** Where a model downloaded from `modelUrl` is stored:
      `os.path.join(datadir, os.path.basename(model_url))`. */
  function ModelPath(modelDownloadPath: Option<string>, home: string, modelUrl: string): (r: string)
    ensures Basename(r) == Basename(modelUrl)
    ensures DatadirFor(modelDownloadPath, home) <= r
  {
    JoinFileName(DatadirFor(modelDownloadPath, home), Basename(modelUrl));
    Join(DatadirFor(modelDownloadPath, home), Basename(modelUrl))
  }

  // ---------------------------------------------------------------------------
  // download_model (onprem/core.py:75-101)

  function AboutToDownload(modelName: string, datadir: string): string {
    "You are about to download the LLM " + modelName + " to the " + datadir + " folder. Are you sure?"
  }

  function AlreadyAFile(modelName: string, datadir: string): string {
    "There is already a file " + modelName + " in " + datadir + ".\n Do you want to still download it?"
  }

  /** The question depends on whether the target file already exists. */
  function ConfirmMessage(modelName: string, datadir: string, fileExists: bool): string {
    if fileExists then AlreadyAFile(modelName, datadir) else AboutToDownload(modelName, datadir)
  }

  /** What `input` shows: `"%s (Y/n) " % confirm_msg`. */
  function ConfirmPrompt(message: string): string {
    message + " (Y/n) "
  }

  function NotDownloadedWarning(modelName: string): string {
    modelName + " was not downloaded because \"Y\" was not selected."
  }

  /** The two questions can be told apart, so the prompt reveals whether the
      file was found. */
  lemma ConfirmMessageRevealsExistence(modelName: string, datadir: string, e1: bool, e2: bool)
    ensures ConfirmPrompt(ConfirmMessage(modelName, datadir, e1)) == ConfirmPrompt(ConfirmMessage(modelName, datadir, e2))
      <==> e1 == e2
  {
    if e1 != e2 {
      assert AlreadyAFile(modelName, datadir)[0] == 'T';
      assert AboutToDownload(modelName, datadir)[0] == 'Y';
      assert ConfirmPrompt(AlreadyAFile(modelName, datadir))[0] == 'T';
      assert ConfirmPrompt(AboutToDownload(modelName, datadir))[0] == 'Y';
    }
  }

  /** The locals `confirm_msg` and `shall` of `download_model`: the question is
      asked only when `confirm` holds, and then only the exact reply "Y" accepts. */
  method ConfirmGate(modelName: string, datadir: string, fileExists: bool, confirm: bool, reply: string)
    returns (prompt: Option<string>, shall: bool)
    ensures confirm <==> prompt.Some?
    ensures confirm ==> prompt.value == ConfirmPrompt(ConfirmMessage(modelName, datadir, fileExists))
    ensures shall <==> !confirm || reply == "Y"
    ensures confirm && reply in {"y", "", "yes", "n"} ==> !shall
  {
    var confirmMsg := AboutToDownload(modelName, datadir);
    if fileExists {
      confirmMsg := AlreadyAFile(modelName, datadir);
    }
    shall := true;
    prompt := None;
    if confirm {
      prompt := Some(ConfirmPrompt(confirmMsg));
      shall := reply == "Y";
    }
  }

  /** What `download_model` showed and did: the file it targeted, the question
      it asked, whether it downloaded, the bars it drew and the warning it gave. */
  datatype DownloadReport = DownloadReport(
    target: string,
    prompt: Option<string>,
    downloaded: bool,
    bars: seq<string>,
    warning: Option<string>)

  /** The whole promise of `download_model` about the files and its report, the
      files being `before` when it starts and `after` when it returns. */
  ghost predicate DownloadModelEffect(before: map<string, seq<byte>>, after: map<string, seq<byte>>,
                                      home: string, modelUrl: string, modelDownloadPath: Option<string>,
                                      confirm: bool, reply: string, response: Response,
                                      report: DownloadReport, error: Option<Error>)
  {
    var modelName := Basename(modelUrl);
    var datadir := DatadirFor(modelDownloadPath, home);
    && report.target == ModelPath(modelDownloadPath, home, modelUrl)
    && report.prompt == (if confirm
                         then Some(ConfirmPrompt(ConfirmMessage(modelName, datadir, report.target in before)))
                         else None)
    && (report.downloaded <==> !confirm || reply == "Y")
    && (report.downloaded ==>
          report.warning.None? && DownloadEffect(before, after, report.target, response, report.bars, error))
    && (!report.downloaded ==>
          && report.warning == Some(NotDownloadedWarning(modelName))
          && after == before && report.bars == [] && error.None?)
  }

  // ---------------------------------------------------------------------------
  // The handles the facade builds; their behaviour belongs to foreign libraries.

  datatype Callback = StreamingStdOutCallbackHandler

  /** A `LlamaCpp` engine, with the configuration it was built with. */
  class LlamaCpp {
    const modelPath: string
    const maxTokens: int
    const nBatch: int
    const callbacks: seq<Callback>
    const verbose: bool
    const nGpuLayers: Option<int>
    const nCtx: int

    constructor (modelPath: string, maxTokens: int, nBatch: int, callbacks: seq<Callback>,
                 verbose: bool, nGpuLayers: Option<int>, nCtx: int)
      ensures this.modelPath == modelPath && this.maxTokens == maxTokens && this.nBatch == nBatch
      ensures this.callbacks == callbacks && this.verbose == verbose
      ensures this.nGpuLayers == nGpuLayers && this.nCtx == nCtx
    {
      this.modelPath := modelPath;
      this.maxTokens := maxTokens;
      this.nBatch := nBatch;
      this.callbacks := callbacks;
      this.verbose := verbose;
      this.nGpuLayers := nGpuLayers;
      this.nCtx := nCtx;
    }
  }

  /** The `Ingester` collaborator; `ingested` records the directories handed to
      its `ingest` method, whose indexing is not modelled. */
  class Ingester {
    const embeddingModelName: string
    const embeddingModelKwargs: map<string, string>
    ghost var ingested: seq<string>

    constructor (embeddingModelName: string, embeddingModelKwargs: map<string, string>)
      ensures this.embeddingModelName == embeddingModelName
      ensures this.embeddingModelKwargs == embeddingModelKwargs
      ensures ingested == []
    {
      this.embeddingModelName := embeddingModelName;
      this.embeddingModelKwargs := embeddingModelKwargs;
      ingested := [];
    }

    method Ingest(sourceDirectory: string)
      modifies this`ingested
      ensures ingested == old(ingested) + [sourceDirectory]
    {
      ingested := ingested + [sourceDirectory];
    }
  }

  /** An opaque vector database, as `Ingester.get_db` returns it. */
  datatype VectorDb = VectorDb(id: nat)

  datatype Document = Document(pageContent: string, metadata: map<string, string>)

  /** The `RetrievalQA` chain `ask` builds: "stuff" chain, retriever over the
      database with `k` documents, source documents returned. */
  datatype QaRequest = QaRequest(
    llm: LlamaCpp,
    chainType: string,
    db: VectorDb,
    k: int,
    returnSourceDocuments: bool,
    question: string)

  datatype QaResult = QaResult(result: string, sourceDocuments: seq<Document>)

  function ModelMissingMessage(modelName: string): string {
    "The LLM model " + modelName + " does not appear to have been downloaded. "
    + "Execute the download_model() method to download it."
  }

  const NoDatabaseMessage: string :=
    "A vector database has not yet been created. Please call the LLM.ingest method."

  // ---------------------------------------------------------------------------
  // The facade

  class LLM {
    const modelUrl: string
    const modelName: string
    const modelDownloadPath: Option<string>
    const nGpuLayers: Option<int>
    const maxTokens: int
    const nCtx: int
    const nBatch: int
    const callbacks: seq<Callback>
    const embeddingModelName: string
    const embeddingModelKwargs: map<string, string>
    const verbose: bool

    var llm: LlamaCpp?
    var ingester: Ingester?
    /** How many engines and ingesters this facade has constructed. */
    ghost var llmBuilds: nat
    ghost var ingesterBuilds: nat

    /** Each handle is built at most once, is present exactly when it has been
        built, and carries this facade's configuration. */
    ghost predicate Valid()
      reads this
    {
      && modelName == Basename(modelUrl)
      && llmBuilds <= 1 && ingesterBuilds <= 1
      && (llm != null <==> llmBuilds == 1)
      && (ingester != null <==> ingesterBuilds == 1)
      && (llm != null ==> Configures(llm))
      && (ingester != null ==>
            ingester.embeddingModelName == embeddingModelName
            && ingester.embeddingModelKwargs == embeddingModelKwargs)
    }

    /** The engine was built with this facade's generation settings. */
    predicate Configures(engine: LlamaCpp) {
      && engine.maxTokens == maxTokens && engine.nBatch == nBatch
      && engine.callbacks == callbacks && engine.verbose == verbose
      && engine.nGpuLayers == nGpuLayers && engine.nCtx == nCtx
    }

    /** The model file `check_model` looks for: the target `download_model`
        writes for this facade's URL and download path. */
    function ModelFile(home: string): string {
      ModelPath(modelDownloadPath, home, modelUrl)
    }

    /** Lines 63-72 of `__init__`, once the model URL is chosen and the
        download step has returned. */
    constructor Fields(modelUrl: string, modelDownloadPath: Option<string>, nGpuLayers: Option<int>,
                       maxTokens: int, nCtx: int, nBatch: int, muteStream: bool,
                       embeddingModelName: string, embeddingModelKwargs: map<string, string>, verbose: bool)
      ensures Valid() && llm == null && ingester == null
      ensures this.modelUrl == modelUrl && modelName == Basename(modelUrl)
      ensures this.modelDownloadPath == modelDownloadPath && this.nGpuLayers == nGpuLayers
      ensures this.maxTokens == maxTokens && this.nCtx == nCtx && this.nBatch == nBatch
      ensures callbacks == (if muteStream then [] else [StreamingStdOutCallbackHandler])
      ensures this.embeddingModelName == embeddingModelName
      ensures this.embeddingModelKwargs == embeddingModelKwargs && this.verbose == verbose
    {
      this.modelUrl := modelUrl;
      this.modelName := Basename(modelUrl);
      this.modelDownloadPath := modelDownloadPath;
      this.nGpuLayers := nGpuLayers;
      this.maxTokens := maxTokens;
      this.nCtx := nCtx;
      this.nBatch := nBatch;
      this.callbacks := if muteStream then [] else [StreamingStdOutCallbackHandler];
      this.embeddingModelName := embeddingModelName;
      this.embeddingModelKwargs := embeddingModelKwargs;
      this.verbose := verbose;
      llm := null;
      ingester := null;
      llmBuilds, ingesterBuilds := 0, 0;
    }

    /** `LLM(...)`: pick the URL, download the model when it is missing from the
        DEFAULT data directory (even when an override is given), then record the
        configuration. `reply` is what the user types and `response` what the
        server sends; an exception from the download aborts construction.
        `report` is None exactly when `download_model` was not called. The
        remaining parameters default as in Python's `LLM.__init__`. */
    static method Create(disk: Disk, home: string, reply: string, response: Response,
                         modelUrl: string := DefaultModelUrl,
                         nGpuLayers: Option<int> := None,
                         modelDownloadPath: Option<string> := None,
                         maxTokens: int := 512,
                         nCtx: int := 2048,
                         nBatch: int := 1024,
                         muteStream: bool := false,
                         embeddingModelName: string := DefaultEmbeddingModel,
                         embeddingModelKwargs: map<string, string> := map["device" := "cpu"],
                         useLarger: bool := false,
                         confirm: bool := true,
                         verbose: bool := false)
      returns (r: Result<LLM>, report: Option<DownloadReport>)
      modifies disk
      ensures var url := if useLarger then DefaultLargerUrl else modelUrl;
        && disk.dirs == old(disk.dirs) + {DefaultDatadir(home)}
        && (report.None? <==> Join(DefaultDatadir(home), Basename(url)) in old(disk.files))
        && (report.None? ==> disk.files == old(disk.files) && r.Ok?)
        && (report.Some? ==>
              DownloadModelEffect(old(disk.files), disk.files, home, url, modelDownloadPath,
                                  confirm, reply, response, report.value,
                                  if r.Err? then Some(r.error) else None))
        && (r.Ok? ==>
              && fresh(r.value) && r.value.Valid()
              && r.value.llm == null && r.value.ingester == null
              && r.value.modelUrl == url && r.value.modelName == Basename(url)
              && r.value.modelDownloadPath == modelDownloadPath
              && (r.value.callbacks == [] <==> muteStream)
              && r.value.nGpuLayers == nGpuLayers && r.value.maxTokens == maxTokens
              && r.value.nCtx == nCtx && r.value.nBatch == nBatch
              && r.value.embeddingModelName == embeddingModelName
              && r.value.embeddingModelKwargs == embeddingModelKwargs && r.value.verbose == verbose)
    {
      var url := if useLarger then DefaultLargerUrl else modelUrl;
      var name := Basename(url);
      var defaultDir := GetDatadir(disk, home);
      report := None;
      if !disk.IsFile(Join(defaultDir, name)) {
        var rep, error := DownloadModel(disk, home, reply, response, url, modelDownloadPath, confirm);
        report := Some(rep);
        if error.Some? {
          r := Err(error.value);
          return;
        }
      }
      var facade := new LLM.Fields(url, modelDownloadPath, nGpuLayers, maxTokens, nCtx, nBatch, muteStream,
                                   embeddingModelName, embeddingModelKwargs, verbose);
      r := Ok(facade);
    }

    /** `LLM.download_model(model_url, model_download_path, confirm)`; `reply` is
        what `input` returns and `response` what the server sends. The last
        three parameters default as in Python. */
    static method DownloadModel(disk: Disk, home: string, reply: string, response: Response,
                                modelUrl: string := DefaultModelUrl,
                                modelDownloadPath: Option<string> := None,
                                confirm: bool := true)
      returns (report: DownloadReport, error: Option<Error>)
      modifies disk
      ensures disk.dirs == DirsAfterResolve(old(disk.dirs), modelDownloadPath, home)
      ensures DownloadModelEffect(old(disk.files), disk.files, home, modelUrl, modelDownloadPath,
                                  confirm, reply, response, report, error)
    {
      var datadir := ResolveDatadir(disk, home, modelDownloadPath);
      var modelName := Basename(modelUrl);
      var filename := Join(datadir, modelName);
      var prompt, shall := ConfirmGate(modelName, datadir, disk.IsFile(filename), confirm, reply);
      if shall {
        var bars;
        bars, error := Download(disk, filename, response);
        report := DownloadReport(filename, prompt, true, bars, None);
      } else {
        error := None;
        report := DownloadReport(filename, prompt, false, [], Some(NotDownloadedWarning(modelName)));
      }
    }

    /** `load_ingester`: build the ingester on first use, afterwards return the
        same one. */
    method LoadIngester() returns (handle: Ingester)
      requires Valid()
      modifies this`ingester, this`ingesterBuilds
      ensures Valid() && ingester == handle
      ensures old(ingester) != null ==> handle == old(ingester) && ingesterBuilds == old(ingesterBuilds)
      ensures old(ingester) == null ==> fresh(handle) && handle.ingested == [] && ingesterBuilds == 1
    {
      if ingester == null {
        ingester := new Ingester(embeddingModelName, embeddingModelKwargs);
        ingesterBuilds := ingesterBuilds + 1;
      }
      handle := ingester;
    }

    /** `ingest(source_directory)`: hand the directory to the (possibly new) ingester. */
    method Ingest(sourceDirectory: string)
      requires Valid()
      modifies this`ingester, this`ingesterBuilds, ingester
      ensures Valid() && ingester != null
      ensures old(ingester) != null ==> ingester == old(ingester) && ingesterBuilds == old(ingesterBuilds)
      ensures old(ingester) == null ==> fresh(ingester)
      ensures ingester.ingested == (if old(ingester) == null then [] else old(ingester.ingested)) + [sourceDirectory]
    {
      var handle := LoadIngester();
      handle.Ingest(sourceDirectory);
    }

    /** `check_model`: the model path when the file exists, the "not downloaded"
        error otherwise. Resolving the directory may create the default one. */
    method CheckModel(disk: Disk, home: string) returns (r: Result<string>)
      requires Valid()
      modifies disk`dirs
      ensures disk.dirs == DirsAfterResolve(old(disk.dirs), modelDownloadPath, home)
      ensures r.Ok? <==> ModelFile(home) in disk.files
      ensures r.Ok? ==> r.value == ModelFile(home)
      ensures r.Err? ==> r.error == ValueError(ModelMissingMessage(modelName))
    {
      var datadir := ResolveDatadir(disk, home, modelDownloadPath);
      var modelPath := Join(datadir, modelName);
      if !disk.IsFile(modelPath) {
        return Err(ValueError(ModelMissingMessage(modelName)));
      }
      return Ok(modelPath);
    }

    /** `load_llm`: the model check comes first, so a missing file fails even
        when the engine exists; otherwise build the engine once and reuse it. */
    method LoadLlm(disk: Disk, home: string) returns (r: Result<LlamaCpp>)
      requires Valid()
      modifies this`llm, this`llmBuilds, disk`dirs
      ensures Valid()
      ensures disk.dirs == DirsAfterResolve(old(disk.dirs), modelDownloadPath, home)
      ensures r.Ok? <==> ModelFile(home) in disk.files
      ensures r.Err? ==> r.error == ValueError(ModelMissingMessage(modelName))
      ensures r.Err? ==> llm == old(llm) && llmBuilds == old(llmBuilds)
      ensures r.Ok? ==> r.value == llm
      ensures r.Ok? && old(llm) != null ==> llm == old(llm) && llmBuilds == old(llmBuilds)
      ensures r.Ok? && old(llm) == null ==> fresh(llm) && llm.modelPath == ModelFile(home) && llmBuilds == 1
    {
      var modelPath :- CheckModel(disk, home);
      var engine := BuildLlm(modelPath);
      return Ok(engine);
    }

    /** The memoised construction inside `load_llm`: a new engine for
        `modelPath` the first time, the same one afterwards. */
    method BuildLlm(modelPath: string) returns (engine: LlamaCpp)
      requires Valid()
      modifies this`llm, this`llmBuilds
      ensures Valid() && llm == engine
      ensures old(llm) != null ==> engine == old(llm) && llmBuilds == old(llmBuilds)
      ensures old(llm) == null ==> fresh(engine) && engine.modelPath == modelPath && llmBuilds == 1
    {
      if llm == null {
        llm := new LlamaCpp(modelPath, maxTokens, nBatch, callbacks, verbose, nGpuLayers, nCtx);
        llmBuilds := llmBuilds + 1;
      }
      engine := llm;
    }

    /** `prompt(prompt, prompt_template)`: a true (non-empty) template is filled
        in by `format` (Python's `str.format` with the `prompt` field); the text
        is then given to the engine's `generate`. The template defaults to None. */
    method Prompt(disk: Disk, home: string, prompt: string,
                  format: (string, string) -> string, generate: (LlamaCpp, string) -> string,
                  promptTemplate: Option<string> := None)
      returns (r: Result<string>)
      requires Valid()
      modifies this`llm, this`llmBuilds, disk`dirs
      ensures Valid()
      ensures disk.dirs == DirsAfterResolve(old(disk.dirs), modelDownloadPath, home)
      ensures ModelFile(home) !in disk.files ==>
        r == Err(ValueError(ModelMissingMessage(modelName))) && llm == old(llm) && llmBuilds == old(llmBuilds)
      ensures ModelFile(home) in disk.files ==>
        && llm != null && (old(llm) != null ==> llm == old(llm) && llmBuilds == old(llmBuilds))
        && (old(llm) == null ==> fresh(llm) && llm.modelPath == ModelFile(home) && llmBuilds == 1)
        && r == Ok(generate(llm, if promptTemplate.Some? && promptTemplate.value != ""
                                 then format(promptTemplate.value, prompt) else prompt))
    {
      var engine :- LoadLlm(disk, home);
      var text := prompt;
      if promptTemplate.Some? && promptTemplate.value != "" {
        text := format(promptTemplate.value, prompt);
      }
      return Ok(generate(engine, text));
    }

    /** `ask(question, num_source_docs)`: the ingester is loaded first; without a
        database the call fails before the engine is touched; otherwise the
        engine is loaded and the "stuff" retrieval chain `qa` answers. `db` is
        what the ingester's `get_db` returns; `numSourceDocs` defaults to 4. */
    method Ask(disk: Disk, home: string, question: string,
               db: Option<VectorDb>, qa: QaRequest -> QaResult, numSourceDocs: int := 4)
      returns (r: Result<(string, seq<Document>)>)
      requires Valid()
      modifies this`llm, this`llmBuilds, this`ingester, this`ingesterBuilds, disk`dirs
      ensures Valid() && ingester != null
      ensures old(ingester) != null ==> ingester == old(ingester) && ingesterBuilds == old(ingesterBuilds)
      ensures old(ingester) == null ==> fresh(ingester)
      ensures db.None? ==>
        && r == Err(ValueError(NoDatabaseMessage))
        && llm == old(llm) && llmBuilds == old(llmBuilds) && disk.dirs == old(disk.dirs)
      ensures db.Some? ==> disk.dirs == DirsAfterResolve(old(disk.dirs), modelDownloadPath, home)
      ensures db.Some? && ModelFile(home) !in disk.files ==>
        r == Err(ValueError(ModelMissingMessage(modelName))) && llm == old(llm) && llmBuilds == old(llmBuilds)
      ensures db.Some? && ModelFile(home) in disk.files ==>
        && llm != null && (old(llm) != null ==> llm == old(llm) && llmBuilds == old(llmBuilds))
        && (old(llm) == null ==> fresh(llm) && llm.modelPath == ModelFile(home) && llmBuilds == 1)
        && var res := qa(QaRequest(llm, "stuff", db.value, numSourceDocs, true, question));
           r == Ok((res.result, res.sourceDocuments))
    {
      var handle := LoadIngester();
      if db.None? {
        return Err(ValueError(NoDatabaseMessage));
      }
      var engine :- LoadLlm(disk, home);
      var res := qa(QaRequest(engine, "stuff", db.value, numSourceDocs, true, question));
      return Ok((res.result, res.sourceDocuments));
    }
  }
}
