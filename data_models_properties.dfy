/**
 * What the validating constructors of `DataModels` guarantee: each accepts
 * exactly the inputs its field rules describe and stores the input values
 * unchanged, rejects every input that lacks a declared field and says which,
 * keeps the two task tags apart, and lets the image task stand or fall with
 * the existence of its file.
 */
module DataModelProperties {
  import opened Wrappers
  import opened DataModels

  // ---------------------------------------------------------------------
  // Nested prompts

  /** Field `name` is present and holds some string. */
  ghost predicate IsStr(m: Input, name: string) {
    name in m && m[name].Str?
  }

  /** Every raw element is a mapping with the two string fields of a prompt. */
  ghost predicate PromptShaped(items: seq<Value>) {
    forall i :: 0 <= i < |items| ==>
      items[i].Object? && IsStr(items[i].fields, "prompt_id") && IsStr(items[i].fields, "prompt_text")
  }

  /** A list of raw prompts validates to exactly the prompts it matches, element by element. */
  lemma {:induction false} PromptListComplete(items: seq<Value>, ps: seq<Prompt>)
    requires PromptsMatch(items, ps)
    ensures PromptList(items) == Ok(ps)
    decreases |items|
  {
    if items != [] {
      var n := |items| - 1;
      assert PromptsMatch(items[..n], ps[..n]);
      PromptListComplete(items[..n], ps[..n]);
      assert PromptItem(items[n]) == Ok(ps[n]);
      assert ps[..n] + [ps[n]] == ps;
    }
  }

  /** A list of raw prompts is accepted iff every element has the shape of a prompt. */
  lemma PromptListAccepts(items: seq<Value>)
    ensures PromptList(items).Ok? <==> PromptShaped(items)
  {
    if PromptShaped(items) {
      var ps := seq(|items|, i requires 0 <= i < |items| =>
        Prompt(items[i].fields["prompt_id"].s, items[i].fields["prompt_text"].s));
      assert PromptsMatch(items, ps);
      PromptListComplete(items, ps);
    }
  }

  /** Each error of a failing element is reported, located under that element's position. */
  lemma {:induction false} PromptListReportsElement(items: seq<Value>, i: nat)
    requires i < |items|
    requires PromptItem(items[i]).Err?
    ensures PromptList(items).Err?
    ensures forall e :: e in PromptItem(items[i]).error ==>
      Error([Index(i)] + e.loc, e.kind) in PromptList(items).error
    decreases |items|
  {
    var n := |items| - 1;
    if i < n {
      PromptListReportsElement(items[..n], i);
      assert items[..n][i] == items[i];
    } else {
      var errs := PromptItem(items[n]).error;
      forall e | e in errs
        ensures Error([Index(i)] + e.loc, e.kind) in PromptList(items).error
      {
        var j :| 0 <= j < |errs| && errs[j] == e;
        assert Nest(errs, Index(n))[j] == Error([Index(i)] + e.loc, e.kind);
      }
    }
  }

  // ---------------------------------------------------------------------
  // Prompt

  /** `Prompt` yields `p` iff the input holds exactly `p`'s two strings. */
  lemma PromptSpec(m: Input, p: Prompt)
    ensures ValidatePrompt(m) == Ok(p) <==> PromptMatches(m, p)
  {
  }

  lemma PromptRoundTrip(promptId: string, promptText: string)
    ensures ValidatePrompt(map["prompt_id" := Str(promptId), "prompt_text" := Str(promptText)])
         == Ok(Prompt(promptId, promptText))
  {
    PromptSpec(map["prompt_id" := Str(promptId), "prompt_text" := Str(promptText)], Prompt(promptId, promptText));
  }

  /** A missing-field error is reported for exactly the declared fields the input lacks. */
  lemma PromptMissingField(m: Input, f: string)
    ensures f in PromptFields && f !in m ==> ValidatePrompt(m).Err?
    ensures MissingError(f) in ErrorsOf(ValidatePrompt(m)) <==> f in PromptFields && f !in m
  {
  }

  // ---------------------------------------------------------------------
  // TextGenerationTask

  lemma TextGenerationTaskSpec(m: Input, t: TextGenerationTask)
    ensures ValidateTextGenerationTask(m) == Ok(t) <==> TextGenerationTaskMatches(m, t)
  {
    if TextGenerationTaskMatches(m, t) {
      PromptListComplete(m["prompts"].items, t.prompts);
    }
  }

  lemma TextGenerationTaskRoundTrip(t: TextGenerationTask)
    ensures ValidateTextGenerationTask(TextGenerationTaskInput(t)) == Ok(t)
  {
    var m := TextGenerationTaskInput(t);
    assert PromptsMatch(m["prompts"].items, t.prompts);
    TextGenerationTaskSpec(m, t);
  }

  /** Any tag other than the literal `"text_generation"` is a tag error; success stores the literal. */
  lemma TextGenerationTaskTag(m: Input)
    ensures "task_type" in m && m["task_type"] != Str(TextGenerationTag) ==>
      && ValidateTextGenerationTask(m).Err?
      && Error([Field("task_type")], TagMismatch(TextGenerationTag)) in ValidateTextGenerationTask(m).error
    ensures ValidateTextGenerationTask(m).Ok? ==>
      m["task_type"] == Str("text_generation") && ValidateTextGenerationTask(m).value.taskType == "text_generation"
  {
  }

  lemma TextGenerationTaskMissingField(m: Input, f: string)
    ensures f in TextGenerationTaskFields && f !in m ==> ValidateTextGenerationTask(m).Err?
    ensures MissingError(f) in ErrorsOf(ValidateTextGenerationTask(m)) <==> f in TextGenerationTaskFields && f !in m
  {
    NestedPromptErrorsAreDeep(m, "prompts");
  }

  /** A bad element of `prompts` fails the task, and its errors are reported under `prompts` and its position. */
  lemma TextGenerationTaskReportsPrompt(m: Input, i: nat)
    requires "prompts" in m && m["prompts"].List? && i < |m["prompts"].items|
    requires PromptItem(m["prompts"].items[i]).Err?
    ensures ValidateTextGenerationTask(m).Err?
    ensures forall e :: e in PromptItem(m["prompts"].items[i]).error ==>
      Error([Field("prompts"), Index(i)] + e.loc, e.kind) in ValidateTextGenerationTask(m).error
  {
    PromptsFieldReportsElement(m, "prompts", i);
  }

  // ---------------------------------------------------------------------
  // ImageInformationExtractionTask

  lemma ImageInformationExtractionTaskSpec(m: Input, fileExists: string -> bool, t: ImageInformationExtractionTask)
    ensures ValidateImageInformationExtractionTask(m, fileExists) == Ok(t)
        <==> ImageInformationExtractionTaskMatches(m, fileExists, t)
  {
    if ImageInformationExtractionTaskMatches(m, fileExists, t) {
      PromptListComplete(m["prompts"].items, t.prompts);
    }
  }

  lemma ImageInformationExtractionTaskRoundTrip(t: ImageInformationExtractionTask, fileExists: string -> bool)
    requires fileExists(t.imagePath)
    ensures ValidateImageInformationExtractionTask(ImageInformationExtractionTaskInput(t), fileExists) == Ok(t)
  {
    var m := ImageInformationExtractionTaskInput(t);
    assert PromptsMatch(m["prompts"].items, t.prompts);
    ImageInformationExtractionTaskSpec(m, fileExists, t);
  }

  /**
   * With every other field valid, the image task succeeds iff its path names
   * an existing file; on success it stores that path, on failure it says the
   * path was not found.
   */
  lemma ImagePathDecides(m: Input, fileExists: string -> bool)
    requires IsStr(m, "task_id") && HasString(m, "task_type", ImageInformationExtractionTag)
    requires IsStr(m, "client_id") && "prompts" in m && m["prompts"].List? && PromptShaped(m["prompts"].items)
    requires IsStr(m, "image_path")
    ensures ValidateImageInformationExtractionTask(m, fileExists).Ok? <==> fileExists(m["image_path"].s)
    ensures ValidateImageInformationExtractionTask(m, fileExists).Ok? ==>
      ValidateImageInformationExtractionTask(m, fileExists).value.imagePath == m["image_path"].s
    ensures !fileExists(m["image_path"].s) ==>
      ValidateImageInformationExtractionTask(m, fileExists).error == [Error([Field("image_path")], PathNotFound)]
  {
    PromptListAccepts(m["prompts"].items);
  }

  /** The filesystem is consulted about the input's own path and nothing else. */
  lemma ImageTaskConsultsOnlyItsPath(m: Input, fileExists: string -> bool, otherExists: string -> bool)
    requires forall p :: HasString(m, "image_path", p) ==> fileExists(p) == otherExists(p)
    ensures ValidateImageInformationExtractionTask(m, fileExists)
         == ValidateImageInformationExtractionTask(m, otherExists)
  {
    if IsStr(m, "image_path") {
      assert HasString(m, "image_path", m["image_path"].s);
    }
  }

  lemma ImageInformationExtractionTaskMissingField(m: Input, fileExists: string -> bool, f: string)
    ensures f in ImageInformationExtractionTaskFields && f !in m ==>
      ValidateImageInformationExtractionTask(m, fileExists).Err?
    ensures MissingError(f) in ErrorsOf(ValidateImageInformationExtractionTask(m, fileExists))
        <==> f in ImageInformationExtractionTaskFields && f !in m
  {
    ImageTaskReportsAbsent(m, fileExists, f);
    ImageTaskReportsOnlyAbsent(m, fileExists, f);
  }

  /** No input is both a valid text-generation task and a valid image task. */
  lemma TaskTagsExclusive(m: Input, fileExists: string -> bool)
    ensures !(ValidateTextGenerationTask(m).Ok? && ValidateImageInformationExtractionTask(m, fileExists).Ok?)
  {
    assert TextGenerationTag != ImageInformationExtractionTag;
  }

  // ---------------------------------------------------------------------
  // ModelConfig

  lemma ModelConfigSpec(m: Input, c: ModelConfig)
    ensures ValidateModelConfig(m) == Ok(c) <==> ModelConfigMatches(m, c)
  {
  }

  lemma ModelConfigRoundTrip(c: ModelConfig)
    ensures ValidateModelConfig(ModelConfigInput(c)) == Ok(c)
  {
    ModelConfigSpec(ModelConfigInput(c), c);
  }

  lemma ModelConfigMissingField(m: Input, f: string)
    ensures f in ModelConfigFields && f !in m ==> ValidateModelConfig(m).Err?
    ensures MissingError(f) in ErrorsOf(ValidateModelConfig(m)) <==> f in ModelConfigFields && f !in m
  {
  }

  // ---------------------------------------------------------------------
  // BenchmarkResult

  lemma BenchmarkResultSpec(m: Input, b: BenchmarkResult)
    ensures ValidateBenchmarkResult(m) == Ok(b) <==> BenchmarkResultMatches(m, b)
  {
  }

  /** `BenchmarkResult` succeeds iff all six fields are strings. */
  lemma BenchmarkResultAccepts(m: Input)
    ensures ValidateBenchmarkResult(m).Ok? <==> forall f :: f in BenchmarkResultFields ==> IsStr(m, f)
  {
    if forall f :: f in BenchmarkResultFields ==> IsStr(m, f) {
      assert BenchmarkResultFields[0] == "client_id" && BenchmarkResultFields[1] == "task_id";
      assert BenchmarkResultFields[2] == "prompt_id" && BenchmarkResultFields[3] == "model_id";
      assert BenchmarkResultFields[4] == "prompt_text" && BenchmarkResultFields[5] == "response";
      assert IsStr(m, BenchmarkResultFields[0]) && IsStr(m, BenchmarkResultFields[1]);
      assert IsStr(m, BenchmarkResultFields[2]) && IsStr(m, BenchmarkResultFields[3]);
      assert IsStr(m, BenchmarkResultFields[4]) && IsStr(m, BenchmarkResultFields[5]);
    }
  }

  lemma BenchmarkResultRoundTrip(b: BenchmarkResult)
    ensures ValidateBenchmarkResult(BenchmarkResultInput(b)) == Ok(b)
  {
    BenchmarkResultSpec(BenchmarkResultInput(b), b);
  }

  lemma BenchmarkResultMissingField(m: Input, f: string)
    ensures f in BenchmarkResultFields && f !in m ==> ValidateBenchmarkResult(m).Err?
    ensures MissingError(f) in ErrorsOf(ValidateBenchmarkResult(m)) <==> f in BenchmarkResultFields && f !in m
  {
    BenchmarkResultReportsAbsent(m, f);
    BenchmarkResultReportsOnlyAbsent(m, f);
  }

  // ---------------------------------------------------------------------
  // Helpers for the `...MissingField` lemmas above; they state no rule of
  // the source on their own.

  lemma ImageTaskReportsAbsent(m: Input, fileExists: string -> bool, f: string)
    ensures f in ImageInformationExtractionTaskFields && f !in m ==>
      MissingError(f) in ErrorsOf(ValidateImageInformationExtractionTask(m, fileExists))
  {
    var tag := ImageInformationExtractionTag;
    FieldReportsMissing(m, "task_id", f, tag, fileExists);
    FieldReportsMissing(m, "task_type", f, tag, fileExists);
    FieldReportsMissing(m, "client_id", f, tag, fileExists);
    FieldReportsMissing(m, "prompts", f, tag, fileExists);
    FieldReportsMissing(m, "image_path", f, tag, fileExists);
    assert f in ImageInformationExtractionTaskFields <==>
      f == "task_id" || f == "task_type" || f == "client_id" || f == "prompts" || f == "image_path";
  }

  lemma ImageTaskReportsOnlyAbsent(m: Input, fileExists: string -> bool, f: string)
    ensures MissingError(f) in ErrorsOf(ValidateImageInformationExtractionTask(m, fileExists)) ==>
      f in ImageInformationExtractionTaskFields && f !in m
  {
    var tag := ImageInformationExtractionTag;
    FieldReportsMissing(m, "task_id", f, tag, fileExists);
    FieldReportsMissing(m, "task_type", f, tag, fileExists);
    FieldReportsMissing(m, "client_id", f, tag, fileExists);
    FieldReportsMissing(m, "prompts", f, tag, fileExists);
    FieldReportsMissing(m, "image_path", f, tag, fileExists);
  }

  lemma BenchmarkResultReportsAbsent(m: Input, f: string)
    ensures f in BenchmarkResultFields && f !in m ==> MissingError(f) in ErrorsOf(ValidateBenchmarkResult(m))
  {
    if f in BenchmarkResultFields && f !in m {
      var tag, fileExists := "", (p: string) => true;
      assert f == "client_id" || f == "task_id" || f == "prompt_id" || f == "model_id" || f == "prompt_text" || f == "response";
      FieldReportsMissing(m, f, f, tag, fileExists);
      assert MissingError(f) in ErrorsOf(StrField(m, f));
    }
  }

  lemma BenchmarkResultReportsOnlyAbsent(m: Input, f: string)
    ensures MissingError(f) in ErrorsOf(ValidateBenchmarkResult(m)) ==> f in BenchmarkResultFields && f !in m
  {
    var tag, fileExists := "", (p: string) => true;
    FieldReportsMissing(m, "client_id", f, tag, fileExists);
    FieldReportsMissing(m, "task_id", f, tag, fileExists);
    FieldReportsMissing(m, "prompt_id", f, tag, fileExists);
    FieldReportsMissing(m, "model_id", f, tag, fileExists);
    FieldReportsMissing(m, "prompt_text", f, tag, fileExists);
    FieldReportsMissing(m, "response", f, tag, fileExists);
  }

  /** Each field validator reports a missing-field error only for its own field, and only when it is absent. */
  lemma FieldReportsMissing(m: Input, name: string, f: string, tag: string, fileExists: string -> bool)
    ensures MissingError(f) in ErrorsOf(StrField(m, name)) <==> f == name && name !in m
    ensures MissingError(f) in ErrorsOf(TagField(m, name, tag)) <==> f == name && name !in m
    ensures MissingError(f) in ErrorsOf(FilePathField(m, name, fileExists)) <==> f == name && name !in m
    ensures MissingError(f) in ErrorsOf(PromptsField(m, name)) <==> f == name && name !in m
  {
    NestedPromptErrorsAreDeep(m, name);
  }

  // ---------------------------------------------------------------------
  // Helpers about the `List[Prompt]` field

  /**
   * Errors from inside a prompts list sit at least two steps deep, so they are
   * never top-level. A proof helper for the `...MissingField` lemmas only.
   */
  lemma NestedPromptErrorsAreDeep(m: Input, name: string)
    ensures forall e :: e in ErrorsOf(PromptsField(m, name)) ==>
      e == MissingError(name) || e.loc == [Field(name)] || |e.loc| >= 2
  {
    if name in m && m[name].List? {
      var r := PromptList(m[name].items);
      if r.Err? {
        forall e | e in Nest(r.error, Field(name)) ensures |e.loc| >= 2 {
          var j :| 0 <= j < |r.error| && Nest(r.error, Field(name))[j] == e;
          assert r.error[j] in r.error;
        }
      }
    }
  }

  lemma PromptsFieldReportsElement(m: Input, name: string, i: nat)
    requires name in m && m[name].List? && i < |m[name].items|
    requires PromptItem(m[name].items[i]).Err?
    ensures PromptsField(m, name).Err?
    ensures forall e :: e in PromptItem(m[name].items[i]).error ==>
      Error([Field(name), Index(i)] + e.loc, e.kind) in PromptsField(m, name).error
  {
    var items := m[name].items;
    PromptListReportsElement(items, i);
    var errs := PromptList(items).error;
    forall e | e in PromptItem(items[i]).error
      ensures Error([Field(name), Index(i)] + e.loc, e.kind) in PromptsField(m, name).error
    {
      var inner := Error([Index(i)] + e.loc, e.kind);
      var j :| 0 <= j < |errs| && errs[j] == inner;
      assert [Field(name)] + inner.loc == [Field(name), Index(i)] + e.loc;
      assert Nest(errs, Field(name))[j] == Error([Field(name), Index(i)] + e.loc, e.kind);
    }
  }

  // ---------------------------------------------------------------------
  // The scenarios of the repository's tests

  lemma PromptScenarios()
    ensures ValidatePrompt(map["prompt_id" := Str("1"), "prompt_text" := Str("Hello")]) == Ok(Prompt("1", "Hello"))
    ensures ValidatePrompt(map["prompt_id" := Str("1")]) == Err([MissingError("prompt_text")])
  {
    PromptRoundTrip("1", "Hello");
    var m := map["prompt_id" := Str("1")];
    assert StrField(m, "prompt_id") == Ok("1");
    assert StrField(m, "prompt_text") == Err([MissingError("prompt_text")]);
    assert [] + [MissingError("prompt_text")] == [MissingError("prompt_text")];
  }

  lemma TextGenerationTaskScenarios()
    ensures ValidateTextGenerationTask(map[
      "task_id" := Str("1"), "task_type" := Str("text_generation"), "client_id" := Str("test_client"),
      "prompts" := List([Object(PromptInput(Prompt("p1", "test")))])]).Ok?
    ensures ValidateTextGenerationTask(map[
      "task_id" := Str("1"), "task_type" := Str("wrong_type"), "client_id" := Str("test_client"),
      "prompts" := List([])]) == Err([Error([Field("task_type")], TagMismatch("text_generation"))])
  {
    TextGenerationTaskRoundTrip(TextGenerationTask("1", "test_client", [Prompt("p1", "test")]));
    assert PromptValues([Prompt("p1", "test")]) == [Object(PromptInput(Prompt("p1", "test")))];
    var m := map[
      "task_id" := Str("1"), "task_type" := Str("wrong_type"), "client_id" := Str("test_client"),
      "prompts" := List([])];
    assert PromptList([]) == Ok([]);
    assert PromptsField(m, "prompts") == Ok([]);
    var tagError := Error([Field("task_type")], TagMismatch("text_generation"));
    assert TagField(m, "task_type", TextGenerationTag) == Err([tagError]);
    assert [] + [tagError] + [] + [] == [tagError];
  }

  lemma ImageInformationExtractionTaskScenarios(fileExists: string -> bool, imageFile: string)
    requires fileExists(imageFile) && !fileExists("nonexistent.png")
    ensures var t := ValidateImageInformationExtractionTask(map[
      "task_id" := Str("1"), "task_type" := Str("image_information_extraction"), "client_id" := Str("test_client"),
      "prompts" := List([Object(PromptInput(Prompt("p1", "test")))]), "image_path" := Str(imageFile)], fileExists);
      t.Ok? && t.value.imagePath == imageFile
    ensures ValidateImageInformationExtractionTask(map[
      "task_id" := Str("1"), "task_type" := Str("image_information_extraction"), "client_id" := Str("test_client"),
      "prompts" := List([]), "image_path" := Str("nonexistent.png")], fileExists)
      == Err([Error([Field("image_path")], PathNotFound)])
  {
    ImageInformationExtractionTaskRoundTrip(
      ImageInformationExtractionTask("1", "test_client", [Prompt("p1", "test")], imageFile), fileExists);
    assert PromptValues([Prompt("p1", "test")]) == [Object(PromptInput(Prompt("p1", "test")))];
    var m := map[
      "task_id" := Str("1"), "task_type" := Str("image_information_extraction"), "client_id" := Str("test_client"),
      "prompts" := List([]), "image_path" := Str("nonexistent.png")];
    var pathError := Error([Field("image_path")], PathNotFound);
    assert StrField(m, "task_id") == Ok("1");
    assert TagField(m, "task_type", ImageInformationExtractionTag) == Ok(ImageInformationExtractionTag);
    assert StrField(m, "client_id") == Ok("test_client");
    assert PromptList([]) == Ok([]);
    assert PromptsField(m, "prompts") == Ok([]);
    assert FilePathField(m, "image_path", fileExists) == Err([pathError]);
    assert [] + [] + [] + [] + [pathError] == [pathError];
  }

  lemma ModelConfigScenarios()
    ensures ValidateModelConfig(map["model_id" := Str("gpt-4"), "provider" := Str("openai")]).Ok?
    ensures ValidateModelConfig(map["model_id" := Str("gpt-4"), "provider" := Str("openai")]).value.modelId == "gpt-4"
    ensures ValidateModelConfig(map["model_id" := Str("gpt-4")]) == Err([MissingError("provider")])
  {
    var m := map["model_id" := Str("gpt-4")];
    assert StrField(m, "model_id") == Ok("gpt-4");
    assert StrField(m, "provider") == Err([MissingError("provider")]);
    assert [] + [MissingError("provider")] == [MissingError("provider")];
  }

  lemma BenchmarkResultScenarios()
    ensures ValidateBenchmarkResult(map[
      "client_id" := Str("c1"), "task_id" := Str("t1"), "prompt_id" := Str("p1"),
      "model_id" := Str("m1"), "prompt_text" := Str("prompt"), "response" := Str("response")]).Ok?
    ensures ValidateBenchmarkResult(map[
      "client_id" := Str("c1"), "task_id" := Str("t1"), "prompt_id" := Str("p1"),
      "model_id" := Str("m1"), "prompt_text" := Str("prompt"), "response" := Str("response")]).value.modelId == "m1"
    ensures ValidateBenchmarkResult(map["client_id" := Str("c1"), "task_id" := Str("t1")])
         == Err([MissingError("prompt_id"), MissingError("model_id"), MissingError("prompt_text"), MissingError("response")])
  {
    var m := map["client_id" := Str("c1"), "task_id" := Str("t1")];
    assert StrField(m, "client_id") == Ok("c1");
    assert StrField(m, "task_id") == Ok("t1");
    assert StrField(m, "prompt_id") == Err([MissingError("prompt_id")]);
    assert StrField(m, "model_id") == Err([MissingError("model_id")]);
    assert StrField(m, "prompt_text") == Err([MissingError("prompt_text")]);
    assert StrField(m, "response") == Err([MissingError("response")]);
    assert [] + [] + [MissingError("prompt_id")] + [MissingError("model_id")]
         + [MissingError("prompt_text")] + [MissingError("response")]
        == [MissingError("prompt_id"), MissingError("model_id"), MissingError("prompt_text"), MissingError("response")];
  }
}
