/**
 * The schema validation layer of helm-bench: five record types, each built
 * from a mapping of field names to raw values by a validating constructor
 * that either yields a fully populated record or fails with a non-empty list
 * of located errors.
 */
module DataModels {
  import opened Wrappers

  // ---------------------------------------------------------------------
  // Raw input

  /** A raw value handed to a constructor, before validation. */
  datatype Value =
    | Null
    | Bool(b: bool)
    | Int(i: int)
    | Str(s: string)
    | List(items: seq<Value>)
    | Object(fields: map<string, Value>)

  /** The keyword arguments of a constructor: field name to raw value. */
  type Input = map<string, Value>

  // ---------------------------------------------------------------------
  // Errors

  /** One step of an error location: a field name or a list position. */
  datatype PathItem = Field(name: string) | Index(index: nat)

  datatype ErrorKind =
    | Missing                  // a required field is absent
    | TypeMismatch             // the value is not of the field's declared type
    | TagMismatch(expected: string)  // the discriminator differs from the literal tag
    | PathNotFound             // the path names no existing file

  /** A validation error, located by the path from the record to the bad value. */
  datatype Error = Error(loc: seq<PathItem>, kind: ErrorKind)

  type Errors = seq<Error>

  function MissingError(name: string): Error {
    Error([Field(name)], Missing)
  }

  /** The errors a partial outcome contributes to the record's error list. */
  function ErrorsOf<T>(r: Result<T, Errors>): Errors {
    if r.Ok? then [] else r.error
  }

  /** Places every error of a nested value under one more location step. */
  function Nest(errs: Errors, step: PathItem): Errors {
    seq(|errs|, j requires 0 <= j < |errs| => Error([step] + errs[j].loc, errs[j].kind))
  }

  // ---------------------------------------------------------------------
  // Records

  const TextGenerationTag: string := "text_generation"
  const ImageInformationExtractionTag: string := "image_information_extraction"

  /** The declared fields of each record, in declaration order. */
  const PromptFields: seq<string> := ["prompt_id", "prompt_text"]
  const TextGenerationTaskFields: seq<string> := ["task_id", "task_type", "client_id", "prompts"]
  const ImageInformationExtractionTaskFields: seq<string> :=
    ["task_id", "task_type", "client_id", "prompts", "image_path"]
  const ModelConfigFields: seq<string> := ["model_id", "provider"]
  const BenchmarkResultFields: seq<string> :=
    ["client_id", "task_id", "prompt_id", "model_id", "prompt_text", "response"]

  datatype Prompt = Prompt(promptId: string, promptText: string)

  /** A text generation task; its `task_type` is fixed by the type. */
  datatype TextGenerationTask = TextGenerationTask(taskId: string, clientId: string, prompts: seq<Prompt>)
  {
    const taskType: string := TextGenerationTag
  }

  /** An image task; `imagePath` named an existing file when it was validated. */
  datatype ImageInformationExtractionTask =
    ImageInformationExtractionTask(taskId: string, clientId: string, prompts: seq<Prompt>, imagePath: string)
  {
    const taskType: string := ImageInformationExtractionTag
  }

  datatype ModelConfig = ModelConfig(modelId: string, provider: string)

  datatype BenchmarkResult = BenchmarkResult(
    clientId: string, taskId: string, promptId: string,
    modelId: string, promptText: string, response: string)

  /** A record given back as constructor input (an already built `Prompt` in a list). */
  function PromptInput(p: Prompt): Input {
    map["prompt_id" := Str(p.promptId), "prompt_text" := Str(p.promptText)]
  }

  function PromptValues(ps: seq<Prompt>): seq<Value> {
    seq(|ps|, i requires 0 <= i < |ps| => Object(PromptInput(ps[i])))
  }

  function TextGenerationTaskInput(t: TextGenerationTask): Input {
    map["task_id" := Str(t.taskId), "task_type" := Str(TextGenerationTag),
        "client_id" := Str(t.clientId), "prompts" := List(PromptValues(t.prompts))]
  }

  function ImageInformationExtractionTaskInput(t: ImageInformationExtractionTask): Input {
    map["task_id" := Str(t.taskId), "task_type" := Str(ImageInformationExtractionTag),
        "client_id" := Str(t.clientId), "prompts" := List(PromptValues(t.prompts)),
        "image_path" := Str(t.imagePath)]
  }

  function ModelConfigInput(c: ModelConfig): Input {
    map["model_id" := Str(c.modelId), "provider" := Str(c.provider)]
  }

  function BenchmarkResultInput(b: BenchmarkResult): Input {
    map["client_id" := Str(b.clientId), "task_id" := Str(b.taskId), "prompt_id" := Str(b.promptId),
        "model_id" := Str(b.modelId), "prompt_text" := Str(b.promptText), "response" := Str(b.response)]
  }

  // ---------------------------------------------------------------------
  // What a valid record is: the field rules, stated without the validators

  /** Field `name` is present and holds exactly the string `s`. */
  ghost predicate HasString(m: Input, name: string, s: string) {
    name in m && m[name] == Str(s)
  }

  ghost predicate PromptMatches(m: Input, p: Prompt) {
    HasString(m, "prompt_id", p.promptId) && HasString(m, "prompt_text", p.promptText)
  }

  /** Element by element, in order, each raw item is a mapping that gives that prompt. */
  ghost predicate PromptsMatch(items: seq<Value>, ps: seq<Prompt>) {
    && |items| == |ps|
    && forall i :: 0 <= i < |items| ==> items[i].Object? && PromptMatches(items[i].fields, ps[i])
  }

  ghost predicate HasPrompts(m: Input, name: string, ps: seq<Prompt>) {
    name in m && m[name].List? && PromptsMatch(m[name].items, ps)
  }

  ghost predicate TextGenerationTaskMatches(m: Input, t: TextGenerationTask) {
    && HasString(m, "task_id", t.taskId)
    && HasString(m, "task_type", TextGenerationTag)
    && HasString(m, "client_id", t.clientId)
    && HasPrompts(m, "prompts", t.prompts)
  }

  ghost predicate ImageInformationExtractionTaskMatches(
    m: Input, fileExists: string -> bool, t: ImageInformationExtractionTask)
  {
    && HasString(m, "task_id", t.taskId)
    && HasString(m, "task_type", ImageInformationExtractionTag)
    && HasString(m, "client_id", t.clientId)
    && HasPrompts(m, "prompts", t.prompts)
    && HasString(m, "image_path", t.imagePath)
    && fileExists(t.imagePath)
  }

  ghost predicate ModelConfigMatches(m: Input, c: ModelConfig) {
    HasString(m, "model_id", c.modelId) && HasString(m, "provider", c.provider)
  }

  ghost predicate BenchmarkResultMatches(m: Input, b: BenchmarkResult) {
    && HasString(m, "client_id", b.clientId)
    && HasString(m, "task_id", b.taskId)
    && HasString(m, "prompt_id", b.promptId)
    && HasString(m, "model_id", b.modelId)
    && HasString(m, "prompt_text", b.promptText)
    && HasString(m, "response", b.response)
  }

  // ---------------------------------------------------------------------
  // Field validators

  /**
   * A `str` field: accepted iff present as a string, which is then stored as
   * given; otherwise one error at the field, `Missing` iff it is absent.
   */
  function StrField(m: Input, name: string): (r: Result<string, Errors>)
    ensures r.Ok? <==> name in m && m[name].Str?
    ensures r.Ok? ==> m[name] == Str(r.value)
    ensures r.Err? ==> |r.error| == 1 && r.error[0].loc == [Field(name)]
    ensures r.Err? ==> (r.error[0].kind == Missing <==> name !in m)
    ensures r.Err? && name in m ==> r.error[0].kind == TypeMismatch
  {
    if name !in m then Err([MissingError(name)])
    else if m[name].Str? then Ok(m[name].s)
    else Err([Error([Field(name)], TypeMismatch)])
  }

  /**
   * A `Literal[tag]` field: accepted iff present as exactly the string `tag`;
   * any other value is one tag error at the field, absence one missing error.
   */
  function TagField(m: Input, name: string, tag: string): (r: Result<string, Errors>)
    ensures r.Ok? <==> name in m && m[name] == Str(tag)
    ensures r.Ok? ==> r.value == tag
    ensures r.Err? ==> |r.error| == 1 && r.error[0].loc == [Field(name)]
    ensures r.Err? ==> (r.error[0].kind == Missing <==> name !in m)
    ensures r.Err? && name in m ==> r.error[0].kind == TagMismatch(tag)
  {
    if name !in m then Err([MissingError(name)])
    else if m[name] == Str(tag) then Ok(tag)
    else Err([Error([Field(name)], TagMismatch(tag))])
  }

  /**
   * A `FilePath` field: accepted iff present as a path string naming an
   * existing file, which is then stored as given; a string naming no file is
   * one path-not-found error at the field.
   */
  function FilePathField(m: Input, name: string, fileExists: string -> bool): (r: Result<string, Errors>)
    ensures r.Ok? <==> name in m && m[name].Str? && fileExists(m[name].s)
    ensures r.Ok? ==> m[name] == Str(r.value)
    ensures r.Err? ==> |r.error| == 1 && r.error[0].loc == [Field(name)]
    ensures r.Err? ==> (r.error[0].kind == Missing <==> name !in m)
    ensures r.Err? ==> (r.error[0].kind == PathNotFound <==> name in m && m[name].Str?)
  {
    if name !in m then Err([MissingError(name)])
    else if !m[name].Str? then Err([Error([Field(name)], TypeMismatch)])
    else if !fileExists(m[name].s) then Err([Error([Field(name)], PathNotFound)])
    else Ok(m[name].s)
  }

  /**
   * One element of a `List[Prompt]`: a mapping validated as a `Prompt`; any
   * other value is one type error at the element itself.
   */
  function PromptItem(v: Value): (r: Result<Prompt, Errors>)
    ensures r.Ok? ==> v.Object? && PromptMatches(v.fields, r.value)
    ensures r.Err? ==> r.error != []
    ensures !v.Object? ==> r == Err([Error([], TypeMismatch)])
  {
    if v.Object? then ValidatePrompt(v.fields) else Err([Error([], TypeMismatch)])
  }

  /**
   * The elements of a `List[Prompt]`, validated one by one; every failing
   * element contributes its errors, located under its position.
   */
  function PromptList(items: seq<Value>): (r: Result<seq<Prompt>, Errors>)
    ensures r.Ok? ==> PromptsMatch(items, r.value)
    ensures r.Err? ==> r.error != []
    ensures forall e :: e in ErrorsOf(r) ==> e.loc != [] && e.loc[0].Index? && e.loc[0].index < |items|
    decreases |items|
  {
    if items == [] then Ok([])
    else
      var n := |items| - 1;
      var init := PromptList(items[..n]);
      var last := PromptItem(items[n]);
      if init.Ok? && last.Ok? then Ok(init.value + [last.value])
      else Err(ErrorsOf(init) + Nest(ErrorsOf(last), Index(n)))
  }

  /**
   * A `List[Prompt]` field: on success the stored prompts match the raw list
   * element by element; every error is located under the field's name.
   */
  function PromptsField(m: Input, name: string): (r: Result<seq<Prompt>, Errors>)
    ensures r.Ok? ==> HasPrompts(m, name, r.value)
    ensures r.Err? ==> r.error != []
    ensures forall e :: e in ErrorsOf(r) ==> e.loc != [] && e.loc[0] == Field(name)
    ensures name !in m ==> r == Err([MissingError(name)])
  {
    if name !in m then Err([MissingError(name)])
    else if !m[name].List? then Err([Error([Field(name)], TypeMismatch)])
    else
      var r := PromptList(m[name].items);
      if r.Ok? then Ok(r.value) else Err(Nest(r.error, Field(name)))
  }

  // ---------------------------------------------------------------------
  // Validating constructors: every field is checked, errors are reported
  // in the order fields are declared, and a record exists only if none failed.

  function ValidatePrompt(m: Input): (r: Result<Prompt, Errors>)
    ensures r.Ok? ==> PromptMatches(m, r.value)
    ensures r.Err? ==> r.error != []
  {
    var promptId := StrField(m, "prompt_id");
    var promptText := StrField(m, "prompt_text");
    if promptId.Ok? && promptText.Ok? then Ok(Prompt(promptId.value, promptText.value))
    else Err(ErrorsOf(promptId) + ErrorsOf(promptText))
  }

  function ValidateTextGenerationTask(m: Input): (r: Result<TextGenerationTask, Errors>)
    ensures r.Ok? ==> TextGenerationTaskMatches(m, r.value)
    ensures r.Err? ==> r.error != []
  {
    var taskId := StrField(m, "task_id");
    var taskType := TagField(m, "task_type", TextGenerationTag);
    var clientId := StrField(m, "client_id");
    var prompts := PromptsField(m, "prompts");
    if taskId.Ok? && taskType.Ok? && clientId.Ok? && prompts.Ok? then
      Ok(TextGenerationTask(taskId.value, clientId.value, prompts.value))
    else
      Err(ErrorsOf(taskId) + ErrorsOf(taskType) + ErrorsOf(clientId) + ErrorsOf(prompts))
  }

  /** `fileExists` stands for the filesystem probe behind `FilePath`. */
  function ValidateImageInformationExtractionTask(m: Input, fileExists: string -> bool)
    : (r: Result<ImageInformationExtractionTask, Errors>)
    ensures r.Ok? ==> ImageInformationExtractionTaskMatches(m, fileExists, r.value)
    ensures r.Err? ==> r.error != []
  {
    var taskId := StrField(m, "task_id");
    var taskType := TagField(m, "task_type", ImageInformationExtractionTag);
    var clientId := StrField(m, "client_id");
    var prompts := PromptsField(m, "prompts");
    var imagePath := FilePathField(m, "image_path", fileExists);
    if taskId.Ok? && taskType.Ok? && clientId.Ok? && prompts.Ok? && imagePath.Ok? then
      Ok(ImageInformationExtractionTask(taskId.value, clientId.value, prompts.value, imagePath.value))
    else
      Err(ErrorsOf(taskId) + ErrorsOf(taskType) + ErrorsOf(clientId) + ErrorsOf(prompts) + ErrorsOf(imagePath))
  }

  function ValidateModelConfig(m: Input): (r: Result<ModelConfig, Errors>)
    ensures r.Ok? ==> ModelConfigMatches(m, r.value)
    ensures r.Err? ==> r.error != []
  {
    var modelId := StrField(m, "model_id");
    var provider := StrField(m, "provider");
    if modelId.Ok? && provider.Ok? then Ok(ModelConfig(modelId.value, provider.value))
    else Err(ErrorsOf(modelId) + ErrorsOf(provider))
  }

  function ValidateBenchmarkResult(m: Input): (r: Result<BenchmarkResult, Errors>)
    ensures r.Ok? ==> BenchmarkResultMatches(m, r.value)
    ensures r.Err? ==> r.error != []
  {
    var clientId := StrField(m, "client_id");
    var taskId := StrField(m, "task_id");
    var promptId := StrField(m, "prompt_id");
    var modelId := StrField(m, "model_id");
    var promptText := StrField(m, "prompt_text");
    var response := StrField(m, "response");
    if clientId.Ok? && taskId.Ok? && promptId.Ok? && modelId.Ok? && promptText.Ok? && response.Ok? then
      Ok(BenchmarkResult(clientId.value, taskId.value, promptId.value,
                         modelId.value, promptText.value, response.value))
    else
      Err(ErrorsOf(clientId) + ErrorsOf(taskId) + ErrorsOf(promptId)
          + ErrorsOf(modelId) + ErrorsOf(promptText) + ErrorsOf(response))
  }
}
