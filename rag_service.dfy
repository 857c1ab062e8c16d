/** The locally hosted RAG chatbot: background set-up of the retrieval chain and the `/chat` route. */
module RagService {
  import opened Strings

  /** The loader a file is handed to. */
  datatype DocKind = Pdf | Markdown

  /** A loaded document; its content is produced by the loader library and never inspected. */
  datatype LcDocument = LcDocument(content: string, source: string)

  /** The external steps of set-up, in the order it may attempt them. */
  datatype Step =
    | MakeDirs
    | LoadFile(kind: DocKind, path: string)
    | Split
    | Embed
    | LoadIndex
    | BuildIndex
    | SaveIndex
    | Retriever
    | Llm
    | BuildChain

  /**
   * What the file system and the libraries do during one set-up: whether the documents folder
   * exists, its listing, what each loader returns for a path (None when it raises), what the
   * splitter returns, whether the index folder exists, and which of the remaining steps raise.
   */
  datatype SetupEnv = SetupEnv(
    folderExists: bool,
    listing: seq<string>,
    load: (DocKind, string) -> Option<seq<LcDocument>>,
    split: seq<LcDocument> -> seq<LcDocument>,
    indexExists: bool,
    raises: Step -> bool)

  const DocumentsPath: string := "documents"

  /** The `k` of the retriever. */
  const RetrieverK: nat := 4

  /** The system message of the chat prompt; `{context}` is filled in by the chain. */
  const SystemPrompt: string :=
    "당신은 사내 내규에 대한 질문에 답변하는 친절하고 정확한 챗봇입니다. "
    + "주어진 'context' 정보만을 사용하여 답변해주세요. "
    + "만약 주어진 context 내에 답변할 수 있는 정보가 없다면, '주어진 정보로는 답변할 수 없습니다.'라고 솔직하게 말하세요. "
    + "불확실한 정보나 추측을 포함하지 마세요.\n\n"
    + "Context: {context}"

  /** Where the vector index of a chain came from. */
  datatype IndexOrigin = LoadedFromDisk | BuiltFrom(chunks: seq<LcDocument>)

  /** The retrieval chain: its index, how many chunks the retriever fetches, and the system prompt. */
  datatype RagChain = RagChain(index: IndexOrigin, k: nat, system: string)

  /** `os.path.join(DOCUMENTS_PATH, file_name)` */
  function FilePath(name: string): string {
    DocumentsPath + "/" + name
  }

  /** The loader a path is handed to: `.pdf` first, then `.md`; any other file is ignored. */
  function FileKind(path: string): (r: Option<DocKind>)
    ensures r == Some(Pdf) <==> EndsWith(path, ".pdf")
    ensures r == Some(Markdown) <==> !EndsWith(path, ".pdf") && EndsWith(path, ".md")
    ensures r == None <==> !EndsWith(path, ".pdf") && !EndsWith(path, ".md")
  {
    if EndsWith(path, ".pdf") then Some(Pdf) else if EndsWith(path, ".md") then Some(Markdown) else None
  }

  /** Whether a step runs without raising. */
  predicate StepSucceeds(env: SetupEnv, s: Step) {
    match s
    case LoadFile(kind, path) => env.load(kind, path).Some?
    case _ => !env.raises(s)
  }

  /** The state of the loading loop: the documents and the steps so far, or the steps up to the loader that raised. */
  datatype LoadResult = Loaded(documents: seq<LcDocument>, steps: seq<Step>) | LoadRaised(steps: seq<Step>)

  /** The loading loop over the listing `names`; a raising loader aborts it. */
  function LoadAll(env: SetupEnv, names: seq<string>): LoadResult
    decreases |names|
  {
    if names == [] then Loaded([], [])
    else match LoadAll(env, names[..|names| - 1])
      case LoadRaised(steps) => LoadRaised(steps)
      case Loaded(documents, steps) =>
        var path := FilePath(names[|names| - 1]);
        match FileKind(path)
        case None => Loaded(documents, steps)
        case Some(kind) =>
          match env.load(kind, path)
          case None => LoadRaised(steps + [LoadFile(kind, path)])
          case Some(loaded) => Loaded(documents + loaded, steps + [LoadFile(kind, path)])
  }

  /** The library steps after loading; the index is loaded when its folder exists and built and saved otherwise. */
  function ChainSteps(indexExists: bool): seq<Step> {
    [Split, Embed] + (if indexExists then [LoadIndex] else [BuildIndex, SaveIndex]) + [Retriever, Llm, BuildChain]
  }

  /** The steps of `planned` attempted before one raises, that one included. */
  function Attempted(env: SetupEnv, planned: seq<Step>): (r: seq<Step>)
    ensures |r| <= |planned| && r == planned[..|r|]
    ensures forall i :: 0 <= i < |r| - 1 ==> StepSucceeds(env, r[i])
    ensures (r == planned && forall i :: 0 <= i < |planned| ==> StepSucceeds(env, planned[i]))
         || (r != [] && !StepSucceeds(env, r[|r| - 1]))
    decreases |planned|
  {
    if planned == [] then []
    else if !StepSucceeds(env, planned[0]) then [planned[0]]
    else [planned[0]] + Attempted(env, planned[1..])
  }

  /** The steps after loading, and the chain when none of them raised. */
  datatype BuildResult = BuildResult(steps: seq<Step>, chain: Option<RagChain>)

  function Build(env: SetupEnv, documents: seq<LcDocument>): BuildResult {
    var planned := ChainSteps(env.indexExists);
    var origin := if env.indexExists then LoadedFromDisk else BuiltFrom(env.split(documents));
    BuildResult(
      Attempted(env, planned),
      if forall i :: 0 <= i < |planned| ==> StepSucceeds(env, planned[i])
      then Some(RagChain(origin, RetrieverK, SystemPrompt))
      else None)
  }

  /** How a set-up run ends. */
  datatype SetupOutcome = AlreadyInitialized | NoDocuments | SetupFailed | Ready(chain: RagChain)

  datatype SetupRunResult = SetupRunResult(outcome: SetupOutcome, steps: seq<Step>)

  /** A whole set-up run: its outcome and the external steps it attempted, in order. */
  function SetupRun(initialized: bool, env: SetupEnv): SetupRunResult {
    if initialized then SetupRunResult(AlreadyInitialized, [])
    else if !env.folderExists && env.raises(MakeDirs) then SetupRunResult(SetupFailed, [MakeDirs])
    else
      var made := if env.folderExists then [] else [MakeDirs];
      var names := if env.folderExists then env.listing else [];
      match LoadAll(env, names)
      case LoadRaised(steps) => SetupRunResult(SetupFailed, made + steps)
      case Loaded(documents, steps) =>
        if documents == [] then SetupRunResult(NoDocuments, made + steps)
        else
          var built := Build(env, documents);
          SetupRunResult(if built.chain.Some? then Ready(built.chain.value) else SetupFailed, made + steps + built.steps)
  }

  lemma {:induction false} LoadRaisedSticks(env: SetupEnv, names: seq<string>, i: nat)
    requires i <= |names| && LoadAll(env, names[..i]).LoadRaised?
    ensures LoadAll(env, names) == LoadAll(env, names[..i])
    decreases |names| - i
  {
    if i < |names| {
      assert names[..i + 1][..i] == names[..i];
      LoadRaisedSticks(env, names, i + 1);
    } else {
      assert names[..i] == names;
    }
  }

  /** The load steps the listing `names` calls for: one per `.pdf` or `.md` file, in listing order. */
  function LoadableFiles(names: seq<string>): seq<Step>
    decreases |names|
  {
    if names == [] then []
    else
      var path := FilePath(names[|names| - 1]);
      LoadableFiles(names[..|names| - 1]) + match FileKind(path) case None => [] case Some(kind) => [LoadFile(kind, path)]
  }

  /**
   * The loading loop loads exactly the `.pdf` and `.md` files, in listing order: all of them when no
   * loader raises, and those up to the raising one otherwise, every earlier one having succeeded.
   */
  lemma {:induction false} LoadAllTrace(env: SetupEnv, names: seq<string>)
    ensures var r := LoadAll(env, names);
      |r.steps| <= |LoadableFiles(names)| && r.steps == LoadableFiles(names)[..|r.steps|]
      && (r.Loaded? ==> r.steps == LoadableFiles(names) && forall i :: 0 <= i < |r.steps| ==> StepSucceeds(env, r.steps[i]))
      && (r.LoadRaised? ==> r.steps != [] && !StepSucceeds(env, r.steps[|r.steps| - 1])
                            && forall i :: 0 <= i < |r.steps| - 1 ==> StepSucceeds(env, r.steps[i]))
    decreases |names|
  {
    if names != [] {
      var init := names[..|names| - 1];
      LoadAllTrace(env, init);
      var prev, files := LoadAll(env, init).steps, LoadableFiles(init);
      var full := LoadableFiles(names);
      assert files == full[..|files|];
      if LoadAll(env, init).Loaded? {
        var path := FilePath(names[|names| - 1]);
        if FileKind(path).Some? {
          assert full == prev + [LoadFile(FileKind(path).value, path)];
        }
      } else {
        assert full[..|prev|] == files[..|prev|];
      }
    }
  }

  /** A file that is neither `.pdf` nor `.md` changes nothing: set-up proceeds as if it were not listed. */
  lemma IgnoredFileHasNoEffect(env: SetupEnv, names: seq<string>, name: string)
    requires FileKind(FilePath(name)) == None
    ensures LoadAll(env, names + [name]) == LoadAll(env, names)
    ensures LoadableFiles(names + [name]) == LoadableFiles(names)
  {
    assert (names + [name])[..|names|] == names;
  }

  /** Unlike the knowledge-base builder, a loader that raises on any `.pdf` or `.md` file aborts the whole set-up. */
  lemma {:induction false} LoaderFailureAbortsLoading(env: SetupEnv, names: seq<string>, i: nat)
    requires i < |names|
    requires var path := FilePath(names[i]); FileKind(path).Some? && env.load(FileKind(path).value, path).None?
    ensures LoadAll(env, names).LoadRaised?
    decreases |names|
  {
    var init := names[..|names| - 1];
    if i < |names| - 1 {
      assert init[i] == names[i];
      LoaderFailureAbortsLoading(env, init, i);
    }
  }

  lemma LoaderFailureAbortsSetup(env: SetupEnv, i: nat)
    requires env.folderExists && i < |env.listing|
    requires var path := FilePath(env.listing[i]); FileKind(path).Some? && env.load(FileKind(path).value, path).None?
    ensures SetupRun(false, env).outcome == SetupFailed
  {
    LoaderFailureAbortsLoading(env, env.listing, i);
  }

  lemma BuildTrace(env: SetupEnv, documents: seq<LcDocument>)
    ensures var b := Build(env, documents);
      (b.chain.Some? ==> b.steps == ChainSteps(env.indexExists) && forall i :: 0 <= i < |b.steps| ==> StepSucceeds(env, b.steps[i]))
      && (b.chain.None? ==> b.steps != [] && !StepSucceeds(env, b.steps[|b.steps| - 1])
                            && forall i :: 0 <= i < |b.steps| - 1 ==> StepSucceeds(env, b.steps[i]))
  {}

  /**
   * Set-up ends ready exactly when every step it attempted succeeded and the last was building the
   * chain; a failed set-up stopped at the one step that raised, after every earlier step succeeded.
   */
  lemma SetupTrace(env: SetupEnv)
    ensures var run := SetupRun(false, env);
      (run.outcome.SetupFailed? ==>
        run.steps != [] && !StepSucceeds(env, run.steps[|run.steps| - 1])
        && forall i :: 0 <= i < |run.steps| - 1 ==> StepSucceeds(env, run.steps[i]))
      && (!run.outcome.SetupFailed? ==> forall i :: 0 <= i < |run.steps| ==> StepSucceeds(env, run.steps[i]))
      && (run.outcome.Ready? ==> run.steps != [] && run.steps[|run.steps| - 1] == BuildChain)
      && !run.outcome.AlreadyInitialized?
  {
    var run := SetupRun(false, env);
    if env.folderExists || !env.raises(MakeDirs) {
      var made := if env.folderExists then [] else [MakeDirs];
      var names := if env.folderExists then env.listing else [];
      LoadAllTrace(env, names);
      var loaded := LoadAll(env, names);
      if loaded.Loaded? && loaded.documents != [] {
        BuildTrace(env, loaded.documents);
        var built := Build(env, loaded.documents);
        assert run.steps == (made + loaded.steps) + built.steps;
        forall i | 0 <= i < |run.steps| - 1 ensures StepSucceeds(env, run.steps[i]) {
          if i >= |made + loaded.steps| {
            assert run.steps[i] == built.steps[i - |made + loaded.steps|];
          }
        }
      }
    }
  }

  /** Every step of a set-up run is creating the folder, loading a file, or one of the planned library steps. */
  lemma SetupStepKinds(env: SetupEnv)
    ensures forall s :: s in SetupRun(false, env).steps ==>
      s == MakeDirs || s.LoadFile? || s in ChainSteps(env.indexExists)
  {
    var run := SetupRun(false, env);
    if env.folderExists || !env.raises(MakeDirs) {
      var made := if env.folderExists then [] else [MakeDirs];
      var names := if env.folderExists then env.listing else [];
      LoadAllTrace(env, names);
      LoadStepsAreLoads(names);
      var loaded := LoadAll(env, names);
      assert forall s :: s in loaded.steps ==> s.LoadFile?;
      if loaded.Loaded? && loaded.documents != [] {
        var built := Build(env, loaded.documents);
        var planned := ChainSteps(env.indexExists);
        assert run.steps == (made + loaded.steps) + built.steps;
        forall s | s in built.steps ensures s in planned {
          var j :| 0 <= j < |built.steps| && built.steps[j] == s;
          assert planned[j] == s;
        }
      }
    }
  }

  /**
   * A ready chain's index came from disk exactly when the index folder existed; otherwise it was
   * built and saved. Its retriever fetches four chunks and it carries the fixed system prompt.
   */
  lemma ReadyChainIndex(env: SetupEnv)
    requires SetupRun(false, env).outcome.Ready?
    ensures var run := SetupRun(false, env);
      (run.outcome.chain.index == LoadedFromDisk <==> env.indexExists)
      && (!env.indexExists ==> BuildIndex in run.steps && SaveIndex in run.steps)
      && run.outcome.chain.k == RetrieverK && run.outcome.chain.system == SystemPrompt
  {
    var run := SetupRun(false, env);
    var made := if env.folderExists then [] else [MakeDirs];
    var names := if env.folderExists then env.listing else [];
    var loaded := LoadAll(env, names);
    var built := Build(env, loaded.documents);
    BuildTrace(env, loaded.documents);
    assert run.steps == (made + loaded.steps) + built.steps;
    if !env.indexExists {
      assert built.steps[2] == BuildIndex && built.steps[3] == SaveIndex;
      assert run.steps[|made + loaded.steps| + 2] == BuildIndex;
      assert run.steps[|made + loaded.steps| + 3] == SaveIndex;
    }
  }

  /**
   * An existing index folder is loaded and never rebuilt or overwritten; a missing one is never loaded.
   */
  lemma IndexLoadedNotRebuilt(env: SetupEnv)
    ensures var run := SetupRun(false, env);
      (env.indexExists ==> BuildIndex !in run.steps && SaveIndex !in run.steps)
      && (!env.indexExists ==> LoadIndex !in run.steps)
  {
    SetupStepKinds(env);
  }

  lemma {:induction false} LoadStepsAreLoads(names: seq<string>)
    ensures forall i :: 0 <= i < |LoadableFiles(names)| ==>
      LoadableFiles(names)[i].LoadFile? && FileKind(LoadableFiles(names)[i].path) == Some(LoadableFiles(names)[i].kind)
    decreases |names|
  {
    if names != [] {
      LoadStepsAreLoads(names[..|names| - 1]);
    }
  }

  /** Every file set-up loads is a `.pdf` handed to the PDF loader or a `.md` handed to the text loader. */
  lemma SetupLoadsOnlyDocuments(env: SetupEnv)
    ensures forall s :: s in SetupRun(false, env).steps && s.LoadFile? ==>
      (s.kind == Pdf && EndsWith(s.path, ".pdf")) || (s.kind == Markdown && !EndsWith(s.path, ".pdf") && EndsWith(s.path, ".md"))
  {
    SetupStepKinds(env);
    var names := if env.folderExists then env.listing else [];
    var loaded := LoadAll(env, names);
    LoadAllTrace(env, names);
    LoadStepsAreLoads(names);
    var plan := ChainSteps(env.indexExists);
    assert forall t :: t in plan ==> !t.LoadFile?;
    forall s | s in SetupRun(false, env).steps && s.LoadFile?
      ensures (s.kind == Pdf && EndsWith(s.path, ".pdf")) || (s.kind == Markdown && !EndsWith(s.path, ".pdf") && EndsWith(s.path, ".md"))
    {
      assert s in loaded.steps;
      var j :| 0 <= j < |loaded.steps| && loaded.steps[j] == s;
      assert LoadableFiles(names)[j] == s;
    }
  }

  /** The answer `chat` sends while set-up has not completed. */
  const InitializingMessage: string := "시스템 초기화 중입니다. 잠시만 기다려 주세요."
  /** The answer `chat` starts from; it is sent only when initialized without a chain. */
  const NotReadyMessage: string := "챗봇 시스템이 아직 준비되지 않았습니다. 잠시 후 다시 시도해주세요."
  const ErrorPrefix: string := "오류 발생: "
  const OllamaHint: string := ". OLLAMA 서비스가 실행 중인지 확인해주세요."

  datatype ChatStatus = Initializing | ReadyStatus

  /** A `/chat` reply: 400 when the form lacks `user_input`, otherwise the answer, the status, and whether the chain was invoked. */
  datatype ChatReply = BadRequest | ChatAnswer(answer: string, status: ChatStatus, invoked: bool)

  /** What `rag_chain.invoke(...)['answer']` gives: the answer, or the text of the exception it raised. */
  datatype InvokeOutcome = InvokeRaised(error: string) | Answered(answer: string)

  /** The module-level state of the service. */
  class RagServer {
    var ragChain: Option<RagChain>
    var ragInitialized: bool

    /** `rag_chain` is assigned right before `rag_initialized` becomes true and never reset after. */
    predicate Valid()
      reads this
    {
      ragInitialized <==> ragChain.Some?
    }

    constructor ()
      ensures Valid() && ragChain == None && !ragInitialized
    {
      ragChain := None;
      ragInitialized := false;
    }

    /** `setup_rag_system_background`; returns the external steps it attempted. */
    method Setup(env: SetupEnv) returns (steps: seq<Step>)
      requires Valid()
      modifies this
      ensures Valid()
      ensures var run := SetupRun(old(ragInitialized), env);
        steps == run.steps
        && ragInitialized == (old(ragInitialized) || run.outcome.Ready?)
        && ragChain == match run.outcome
                       case Ready(chain) => Some(chain)
                       case SetupFailed => None
                       case _ => old(ragChain)
    {
      if ragInitialized {
        return [];
      }
      steps := [];
      if !env.folderExists {
        steps := [MakeDirs];
        if env.raises(MakeDirs) {
          ragChain := None;
          return;
        }
      }
      var names := if env.folderExists then env.listing else [];
      var documents: seq<LcDocument> := [];
      var loadSteps: seq<Step> := [];
      for i := 0 to |names|
        invariant LoadAll(env, names[..i]) == Loaded(documents, loadSteps)
      {
        assert names[..i + 1][..i] == names[..i];
        var path := FilePath(names[i]);
        var kind := FileKind(path);
        if kind.Some? {
          loadSteps := loadSteps + [LoadFile(kind.value, path)];
          var loaded := env.load(kind.value, path);
          if loaded.None? {
            LoadRaisedSticks(env, names, i + 1);
            steps := steps + loadSteps;
            ragChain := None;
            return;
          }
          documents := documents + loaded.value;
        }
      }
      assert names[..|names|] == names;
      steps := steps + loadSteps;
      if documents == [] {
        return;
      }
      var built := Build(env, documents);
      steps := steps + built.steps;
      if built.chain.Some? {
        ragChain := built.chain;
        ragInitialized := true;
      } else {
        ragChain := None;
      }
    }

    /** The `/chat` route; `userInput` is the form's `user_input`, None when it is absent. */
    method Chat(userInput: Option<string>, invoke: (RagChain, string) -> InvokeOutcome) returns (reply: ChatReply)
      ensures userInput == None <==> reply == BadRequest
      ensures userInput != None && !ragInitialized ==> reply == ChatAnswer(InitializingMessage, Initializing, false)
      ensures userInput != None && ragInitialized ==>
        reply.ChatAnswer? && reply.status == ReadyStatus && (reply.invoked <==> ragChain.Some?)
      ensures reply.ChatAnswer? && reply.invoked ==>
        reply.answer == match invoke(ragChain.value, userInput.value)
                        case Answered(answer) => answer
                        case InvokeRaised(error) => ErrorPrefix + error + OllamaHint
      ensures Valid() && reply.ChatAnswer? ==> reply.answer != NotReadyMessage || reply.invoked
    {
      if userInput == None {
        return BadRequest;
      }
      var responseText := NotReadyMessage;
      if !ragInitialized {
        return ChatAnswer(InitializingMessage, Initializing, false);
      }
      var invoked := false;
      if ragChain.Some? {
        invoked := true;
        match invoke(ragChain.value, userInput.value)
        case Answered(answer) =>
          responseText := answer;
        case InvokeRaised(error) =>
          responseText := ErrorPrefix + error + OllamaHint;
      }
      reply := ChatAnswer(responseText, ReadyStatus, invoked);
    }

    /** Set-up that does not end ready leaves the service answering every request with the waiting message. */
    method SetupThenChat(env: SetupEnv, inputs: seq<string>, invoke: (RagChain, string) -> InvokeOutcome)
      returns (replies: seq<ChatReply>)
      requires Valid() && !ragInitialized && !SetupRun(false, env).outcome.Ready?
      modifies this
      ensures Valid() && !ragInitialized && ragChain == None
      ensures |replies| == |inputs|
      ensures forall i :: 0 <= i < |inputs| ==> replies[i] == ChatAnswer(InitializingMessage, Initializing, false)
    {
      var _ := Setup(env);
      replies := [];
      for i := 0 to |inputs|
        invariant !ragInitialized && ragChain == None && |replies| == i
        invariant forall j :: 0 <= j < i ==> replies[j] == ChatAnswer(InitializingMessage, Initializing, false)
      {
        var reply := Chat(Some(inputs[i]), invoke);
        replies := replies + [reply];
      }
    }
  }
}
