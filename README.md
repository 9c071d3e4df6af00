# helm-bench data models in Dafny

helm-bench declares five record types, `Prompt`, `TextGenerationTask`,
`ImageInformationExtractionTask`, `ModelConfig` and `BenchmarkResult`, as
pydantic models in `src/helm_bench/data_models.py`. Constructing one from
keyword arguments either gives a record with every field filled in or raises a
validation error. This project models that validation layer and proves what it
guarantees.

- `wrappers.dfy`: `Result<T, E>`, either `Ok(value)` or `Err(error)`.
- `data_models.dfy` (module `DataModels`):
  - The raw input. A `Value` is JSON-like: null, boolean, integer, string, list or nested mapping. An `Input` maps field names to values.
  - The error model. An `Error` has a location and a kind. The location is a path of field names and list positions, as pydantic's `loc` is. The kind is `Missing`, `TypeMismatch`, `TagMismatch` or `PathNotFound`.
  - One datatype per record. Each task's literal `task_type` is fixed by its type: it is a constant member, not a stored field.
  - One total validating function per record. Each returns `Result<Record, seq<Error>>`.
  - A declarative `...Matches` predicate per record. It states every field rule without the validators.
- `data_models_properties.dfy` (module `DataModelProperties`): the lemmas.
  - Each validator yields record `x` exactly when `x` matches the input.
  - Each validator reports a missing-field error for exactly the declared fields that are absent.
  - The tag rule, and exclusivity of the two tags.
  - With every other field valid, the image task succeeds exactly when its file exists. A wrong tag or a bad prompt still fails it, whatever the file.
  - Errors inside `prompts` are nested under that field and the element's position.
  - Round trips, and the concrete scenarios of `tests/test_data_models.py`.

Pydantic validates every field and collects all of the errors. The model does
the same, in declaration order, and a failure is never empty. A failing field
gives one error, except `prompts`. There it is one error per failing field of
each bad element, or one type error for an element that is not a mapping. For
example, `prompts = [{}, {}]` gives four errors. Keys that are not declared
fields are ignored, as pydantic's default configuration does.

The filesystem probe behind pydantic's `FilePath` is a parameter,
`fileExists: string -> bool`, so the model is deterministic and does no I/O.

## Model

| member | source | states |
|---|---|---|
| `DataModels.ValidatePrompt` | src/helm_bench/data_models.py:5-7 | a success holds exactly the input's `prompt_id` and `prompt_text` strings; a failure carries at least one error |
| `DataModels.StrField` | src/helm_bench/data_models.py:6-7 | a `str` field is accepted iff it is present as a string, and the stored value is that string; otherwise exactly one error at the field, `Missing` iff the field is absent and a type mismatch otherwise |
| `DataModels.TagField` | src/helm_bench/data_models.py:12 | a `Literal[tag]` field is accepted iff it is present as exactly the string `tag`, and stores `tag`; otherwise one error at the field, `Missing` iff absent and a tag mismatch naming `tag` otherwise |
| `DataModels.FilePathField` | src/helm_bench/data_models.py:22 | a `FilePath` field is accepted iff it is present as a string for which `fileExists` holds, and stores that string; otherwise one error at the field: `Missing` iff absent, path-not-found iff it is a string naming no file |
| `DataModels.PromptItem` | src/helm_bench/data_models.py:14 | a list element that validates is a mapping matching the stored prompt; a failure is non-empty; a non-mapping element is exactly one type error at the element |
| `DataModels.PromptsField` | src/helm_bench/data_models.py:21 | a `List[Prompt]` field that validates is a list matching the stored prompts element by element; a failure is non-empty, and every error is located under the field's name; an absent field is exactly one missing error |
| `DataModels.PromptList` | src/helm_bench/data_models.py:14 | a `List[Prompt]` is accepted only if every element validates; the result has the input's length and order, element by element; every error points at an element position inside the list |
| `DataModels.ValidateTextGenerationTask` | src/helm_bench/data_models.py:10-14 | a success has all three string fields from the input, the tag is exactly `"text_generation"`, and the prompts match element by element; a failure carries at least one error |
| `DataModels.ValidateImageInformationExtractionTask` | src/helm_bench/data_models.py:17-22 | as for the text task, with tag `"image_information_extraction"`; a success also stores the input `image_path`, which names an existing file; a failure carries at least one error |
| `DataModels.ValidateModelConfig` | src/helm_bench/data_models.py:25-27 | a success holds exactly the input's `model_id` and `provider`; a failure carries at least one error |
| `DataModels.ValidateBenchmarkResult` | src/helm_bench/data_models.py:31-37 | a success holds exactly the six input strings; a failure carries at least one error |
| `DataModelProperties.PromptListComplete` | src/helm_bench/data_models.py:14 | a list whose elements match given prompts, in order, validates to exactly those prompts |
| `DataModelProperties.PromptListAccepts` | src/helm_bench/data_models.py:14 | a list is accepted iff every element is a mapping with string `prompt_id` and `prompt_text` |
| `DataModelProperties.PromptListReportsElement` | src/helm_bench/data_models.py:14 | one bad element fails the whole list, and each of its errors is reported under its position |
| `DataModelProperties.PromptsFieldReportsElement` | src/helm_bench/data_models.py:21 | a bad element of a `prompts` field fails the field, and its errors are reported under the field name and the position |
| `DataModelProperties.PromptSpec` | src/helm_bench/data_models.py:5-7 | `Prompt` yields `p` iff the input holds `p`'s two strings (both directions) |
| `DataModelProperties.PromptRoundTrip` | tests/test_data_models.py:15-17 | any two strings given as `prompt_id` and `prompt_text` give a `Prompt` storing exactly those strings |
| `DataModelProperties.PromptMissingField` | src/helm_bench/data_models.py:6-7 | a missing declared field fails `Prompt`, and a missing-field error is reported iff that declared field is absent |
| `DataModelProperties.TextGenerationTaskSpec` | src/helm_bench/data_models.py:10-14 | the text task yields `t` iff the input matches `t` field by field, with the exact tag and element-wise prompts (both directions) |
| `DataModelProperties.TextGenerationTaskRoundTrip` | src/helm_bench/data_models.py:10-14 | every text task, given back as constructor input, validates to itself |
| `DataModelProperties.TextGenerationTaskTag` | src/helm_bench/data_models.py:12 | any `task_type` other than `"text_generation"` fails with a tag error; a success stores the literal |
| `DataModelProperties.TextGenerationTaskMissingField` | src/helm_bench/data_models.py:10-14 | a missing declared field fails the text task, and a missing-field error is reported iff that declared field is absent |
| `DataModelProperties.TextGenerationTaskReportsPrompt` | src/helm_bench/data_models.py:14 | one invalid prompt element fails the task, with its errors located at `prompts`, then the position |
| `DataModelProperties.ImageInformationExtractionTaskSpec` | src/helm_bench/data_models.py:17-22 | the image task yields `t` iff the input matches `t` field by field and `t`'s path exists (both directions) |
| `DataModelProperties.ImageInformationExtractionTaskRoundTrip` | src/helm_bench/data_models.py:17-22 | every image task whose path exists, given back as constructor input, validates to itself |
| `DataModelProperties.ImagePathDecides` | src/helm_bench/data_models.py:22 | with every other field valid, the image task succeeds iff `fileExists(image_path)`; a success stores the input path; otherwise the only error is path-not-found on `image_path` |
| `DataModelProperties.ImageTaskConsultsOnlyItsPath` | src/helm_bench/data_models.py:22 | two filesystems that agree on the input's path give the same outcome |
| `DataModelProperties.ImageInformationExtractionTaskMissingField` | src/helm_bench/data_models.py:17-22 | a missing declared field fails the image task, and a missing-field error is reported iff that declared field is absent |
| `DataModelProperties.TaskTagsExclusive` | src/helm_bench/data_models.py:12-19 | no input validates both as a text task and as an image task |
| `DataModelProperties.ModelConfigSpec` | src/helm_bench/data_models.py:25-27 | `ModelConfig` yields `c` iff the input holds `c`'s two strings (both directions) |
| `DataModelProperties.ModelConfigRoundTrip` | src/helm_bench/data_models.py:25-27 | every model configuration, given back as input, validates to itself |
| `DataModelProperties.ModelConfigMissingField` | src/helm_bench/data_models.py:26-27 | a missing `model_id` or `provider` fails, and a missing-field error is reported iff that declared field is absent |
| `DataModelProperties.BenchmarkResultSpec` | src/helm_bench/data_models.py:31-37 | `BenchmarkResult` yields `b` iff the input holds `b`'s six strings (both directions) |
| `DataModelProperties.BenchmarkResultAccepts` | src/helm_bench/data_models.py:31-37 | `BenchmarkResult` succeeds iff all six declared fields are present as strings |
| `DataModelProperties.BenchmarkResultRoundTrip` | src/helm_bench/data_models.py:31-37 | every benchmark result, given back as input, validates to itself |
| `DataModelProperties.BenchmarkResultMissingField` | src/helm_bench/data_models.py:32-37 | a missing declared field fails, and a missing-field error is reported iff that declared field is absent |
| `DataModelProperties.PromptScenarios` | tests/test_data_models.py:13-21 | `Prompt("1", "Hello")` succeeds; without `prompt_text` the only error is that it is missing |
| `DataModelProperties.TextGenerationTaskScenarios` | tests/test_data_models.py:24-41 | the valid task succeeds; with tag `"wrong_type"` the only error is the tag mismatch |
| `DataModelProperties.ImageInformationExtractionTaskScenarios` | tests/test_data_models.py:44-67 | with an existing file the task succeeds and stores that path; with `"nonexistent.png"` the only error is path-not-found |
| `DataModelProperties.ModelConfigScenarios` | tests/test_data_models.py:70-77 | `gpt-4`/`openai` succeeds and stores `gpt-4`; without `provider` the only error is that it is missing |
| `DataModelProperties.BenchmarkResultScenarios` | tests/test_data_models.py:80-94 | the full result succeeds and stores `m1`; with two fields, the four missing ones are reported in declaration order |

## Left out

- The real filesystem probe behind `FilePath`. The existence check is the parameter `fileExists`: "this path names an existing regular file". Resolving relative paths against the working directory, and telling files from directories, are folded into that predicate.
- Coercion. Inputs are already-typed values, and a string field accepts only a `Str` value. Pydantic also accepts a `pathlib.Path` for `image_path`, as `tests/test_data_models.py:55` does; that is not modelled, and the path is always a string here. Lax coercions such as numbers to strings are not modelled either.
- An already-built `Prompt` inside a `prompts` list is modelled by its field mapping (`PromptInput`); validating that mapping gives the same prompt back.
- Path normalisation. Pydantic stores `image_path` as a `Path`, which may rewrite the spelling (`a//b` becomes `a/b`). The model stores the input string unchanged.
- Error messages, pydantic's error type codes, and the `input` and `ctx` parts of an error are not modelled. The model keeps each error's location and one of four kinds.
- Extra and unknown fields, the "future fields" comments (`data_models.py:28`, `data_models.py:38`) and model configuration are not modelled. Undeclared keys are simply ignored.
- The record methods pydantic provides (serialisation, equality, copying) are not modelled. The `...Input` functions only turn a record back into constructor input for the round-trip lemmas.
