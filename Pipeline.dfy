/**
 * The generation block of app.py: three templated requests to the language
 * model (code, README, requirements), made in that order, each embedding the
 * task text read from the uploaded document; the first failure ends the run;
 * only the code answer is cleaned; on success the three texts are packed into
 * the archive under fixed names.
 */
module Pipeline {
  import opened Text
  import opened Sanitizer
  import opened Archive

  /** What one model call gives back: the text of the answer, or the error
      the client raised (authentication, quota, network, ...). */
  datatype Reply = Answer(text: string) | Failure(cause: string)

  datatype Stage = CodeStage | ReadmeStage | RequirementsStage

  /** The three generated texts. */
  datatype Generated = Generated(code: string, readme: string, requirements: string)

  /** A run either produces all three texts or stops at one stage. */
  datatype Outcome = Done(result: Generated) | Aborted(stage: Stage, cause: string)

  /** The text read from the uploaded document, or the fact that it could
      not be read. */
  datatype Extraction = Extracted(task: string) | Unreadable(cause: string)

  /** The order in which the requests are made. */
  const Order: seq<Stage> := [CodeStage, ReadmeStage, RequirementsStage]

  /** A prompt template: the text before `{task}` and the text after it. */
  datatype Template = Template(before: string, after: string)

  /** One template per stage. */
  datatype Templates = Templates(code: Template, readme: Template, requirements: Template)

  /** The three templates of app.py. */
  const SourceTemplates := Templates(
    Template(
      "Ты Senior Python Developer. Напиши качественный код на Streamlit для следующей задачи: ",
      ". Используй современные методы (st.cache_data, разделение на колонки). Выведи ТОЛЬКО код."),
    Template(
      "Напиши профессиональный README.md для проекта: ",
      ". Включи разделы: Описание, Установка, Как запустить."),
    Template(
      "Перечисли необходимые Python библиотеки для этого проекта: ",
      ". Выведи только названия библиотек в формате requirements.txt. Обязательно добавь streamlit."))

  /** `prompt.invoke({"task": task})`: the template filled in with the task. */
  function Prompt(t: Template, task: string): string
  {
    t.before + task + t.after
  }

  /** The three prompts, in the order they are sent. */
  function Requests(ts: Templates, task: string): seq<string>
  {
    [Prompt(ts.code, task), Prompt(ts.readme, task), Prompt(ts.requirements, task)]
  }

  /** The model behind `ChatGroq`, seen only through its answers. Which answer
      a prompt gets may depend on how many calls came before it: `respond`
      is indexed by the call's position, which stands for the model's
      non-determinism. `prompts` records every prompt sent, in order. */
  class ModelClient {
    const respond: (nat, string) -> Reply
    var prompts: seq<string>

    constructor (respond: (nat, string) -> Reply)
      ensures this.respond == respond && prompts == []
    {
      this.respond := respond;
      prompts := [];
    }

    /** `chain.invoke(...)`: one call of the model. */
    method Invoke(prompt: string) returns (reply: Reply)
      modifies this
      ensures prompts == old(prompts) + [prompt]
      ensures reply == respond(|old(prompts)|, prompt)
    {
      reply := respond(|prompts|, prompt);
      prompts := prompts + [prompt];
    }
  }

  /** The reply the `k`-th request of a run gets when the run starts after
      `base` earlier calls. */
  function ReplyTo(respond: (nat, string) -> Reply, base: nat, ts: Templates, task: string, k: nat): Reply
    requires k < 3
  {
    respond(base + k, Requests(ts, task)[k])
  }

  /** Every one of the three requests is answered. */
  predicate AllAnswered(respond: (nat, string) -> Reply, base: nat, ts: Templates, task: string)
  {
    ReplyTo(respond, base, ts, task, 0).Answer?
    && ReplyTo(respond, base, ts, task, 1).Answer?
    && ReplyTo(respond, base, ts, task, 2).Answer?
  }

  /** How many requests a run makes: up to and including the first that
      fails, or all three. */
  function CallsMade(respond: (nat, string) -> Reply, base: nat, ts: Templates, task: string): nat
  {
    if ReplyTo(respond, base, ts, task, 0).Failure? then 1
    else if ReplyTo(respond, base, ts, task, 1).Failure? then 2
    else 3
  }

  /** The texts a successful run keeps: the code answer cleaned, the other
      two as they came. */
  function Kept(respond: (nat, string) -> Reply, base: nat, ts: Templates, task: string): Generated
    requires AllAnswered(respond, base, ts, task)
  {
    Generated(CleanCode(ReplyTo(respond, base, ts, task, 0).text),
              ReplyTo(respond, base, ts, task, 1).text,
              ReplyTo(respond, base, ts, task, 2).text)
  }

  /** The generation block: the requests go out in the order code, README,
      requirements, and the run stops at the first failed one. The run
      succeeds exactly when all three are answered, and then holds the
      cleaned code and the other two answers verbatim; otherwise it names
      the stage that failed and the error raised there. */
  method Generate(ts: Templates, task: string, client: ModelClient) returns (outcome: Outcome)
    modifies client
    ensures client.prompts
      == old(client.prompts) + Requests(ts, task)[..CallsMade(client.respond, |old(client.prompts)|, ts, task)]
    ensures outcome.Done? <==> AllAnswered(client.respond, |old(client.prompts)|, ts, task)
    ensures outcome.Done? ==> outcome.result == Kept(client.respond, |old(client.prompts)|, ts, task)
    ensures outcome.Aborted? ==>
      var last := CallsMade(client.respond, |old(client.prompts)|, ts, task) - 1;
      outcome.stage == Order[last]
      && ReplyTo(client.respond, |old(client.prompts)|, ts, task, last) == Failure(outcome.cause)
  {
    ghost var before := client.prompts;
    var reply := client.Invoke(Prompt(ts.code, task));
    if reply.Failure? {
      assert client.prompts == before + Requests(ts, task)[..1];
      return Aborted(CodeStage, reply.cause);
    }
    var code := CleanCode(reply.text);

    reply := client.Invoke(Prompt(ts.readme, task));
    if reply.Failure? {
      assert client.prompts == before + Requests(ts, task)[..2];
      return Aborted(ReadmeStage, reply.cause);
    }
    var readme := reply.text;

    reply := client.Invoke(Prompt(ts.requirements, task));
    assert client.prompts == before + Requests(ts, task)[..3];
    if reply.Failure? {
      return Aborted(RequirementsStage, reply.cause);
    }
    outcome := Done(Generated(code, readme, reply.text));
  }

  /** The mapping handed to `create_zip`, in its written order. */
  function Package(g: Generated): seq<Entry>
  {
    [Entry("app.py", g.code), Entry("README.md", g.readme), Entry("requirements.txt", g.requirements)]
  }

  /** Each generated text is read back from the archive under its own
      file name. */
  lemma PackageReadsBack(g: Generated)
    ensures Read(Package(g), "app.py") == Some(g.code)
    ensures Read(Package(g), "README.md") == Some(g.readme)
    ensures Read(Package(g), "requirements.txt") == Some(g.requirements)
  {
    var files := Package(g);
    assert DistinctNames(files);
    ReadBack(files, 0);
    ReadBack(files, 1);
    ReadBack(files, 2);
  }

  /** A press of the start button, from the document text to the archive.
      A document that could not be read leads to no model call and no
      archive. Otherwise the app's three prompts go out as the generation
      block sends them, an archive exists exactly when all three are
      answered, and it holds `app.py`, `README.md` and `requirements.txt`,
      in that order, with the kept texts. */
  method RunAgent(extraction: Extraction, client: ModelClient) returns (archive: Option<seq<Entry>>)
    modifies client
    ensures extraction.Unreadable? ==> archive == None && client.prompts == old(client.prompts)
    ensures extraction.Extracted? ==>
      var base, task := |old(client.prompts)|, extraction.task;
      client.prompts
        == old(client.prompts) + Requests(SourceTemplates, task)[..CallsMade(client.respond, base, SourceTemplates, task)]
      && (archive.Some? <==> AllAnswered(client.respond, base, SourceTemplates, task))
      && (archive.Some? ==> archive.value == Package(Kept(client.respond, base, SourceTemplates, task)))
  {
    match extraction
    case Unreadable(_) =>
      return None;
    case Extracted(task) =>
      var outcome := Generate(SourceTemplates, task, client);
      if outcome.Aborted? {
        return None;
      }
      var zip := CreateZip(Package(outcome.result));
      archive := Some(zip);
  }

  // ---------------------------------------------------------------------
  // Prompts and runs against stub models
  // ---------------------------------------------------------------------

  /** Every prompt carries the task text. */
  lemma PromptEmbedsTask(t: Template, task: string)
    ensures Contains(Prompt(t, task), task)
  {
    var p := Prompt(t, task);
    assert p[|t.before|..] == task + t.after;
    assert OccursAt(p, task, |t.before|);
  }

  /** A model that echoes its prompt: the README and requirements files are
      the prompts themselves, so they carry the task; the code file is the
      cleaned code prompt, which carries the task too. */
  method EchoRun(task: string) returns (archive: Option<seq<Entry>>)
    ensures archive.Some? && |archive.value| == 3
    ensures archive.value[0].content == CleanCode(Prompt(SourceTemplates.code, task))
    ensures Contains(Prompt(SourceTemplates.code, task), task)
    ensures Contains(archive.value[1].content, task)
    ensures Contains(archive.value[2].content, task)
  {
    var client := new ModelClient((call: nat, prompt: string) => Answer(prompt));
    archive := RunAgent(Extracted(task), client);
    PromptEmbedsTask(SourceTemplates.code, task);
    PromptEmbedsTask(SourceTemplates.readme, task);
    PromptEmbedsTask(SourceTemplates.requirements, task);
  }

  /** A to-do list task, answered with a fenced code block, a title and one
      library: the archive holds the bare code and the other two answers. */
  method TodoListRun() returns (archive: Option<seq<Entry>>)
    ensures archive == Some([Entry("app.py", "print(1)"),
                             Entry("README.md", "# Todo App"),
                             Entry("requirements.txt", "streamlit")])
  {
    var client := new ModelClient((call: nat, prompt: string) =>
      if call == 0 then Answer(PythonFence + PrintBody + Fence)
      else if call == 1 then Answer("# Todo App")
      else Answer("streamlit"));
    PythonBlockExample();
    archive := RunAgent(Extracted("a todo list app"), client);
  }

  /** The requirements request fails after the other two were answered:
      all three calls were made, and there is no archive. */
  method LateFailureRun() returns (archive: Option<seq<Entry>>, calls: nat)
    ensures archive == None && calls == 3
  {
    var client := new ModelClient((call: nat, prompt: string) =>
      if call == 2 then Failure("rate limit reached") else Answer("ok"));
    archive := RunAgent(Extracted("a todo list app"), client);
    calls := |client.prompts|;
  }

  /** The first request fails: only that one was made, and there is no
      archive. */
  method EarlyFailureRun() returns (archive: Option<seq<Entry>>, calls: nat)
    ensures archive == None && calls == 1
  {
    var client := new ModelClient((call: nat, prompt: string) => Failure("invalid API key"));
    archive := RunAgent(Extracted("a todo list app"), client);
    calls := |client.prompts|;
  }
}
