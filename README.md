# A verified model of the Streamlit project-generator agent

The application reads a task description from an uploaded `.docx` document
and asks a language model three questions about it, one after another:

1. the code of a Streamlit application for the task,
2. a README for that project,
3. its `requirements.txt`.

Only the code answer is passed through `clean_code`, which removes Markdown
code fences. The three texts are then packed into a zip archive as
`app.py`, `README.md` and `requirements.txt`.

The model has four modules:

- `Text` — the Python string operations `clean_code` is built from:
  - `str.replace` (`ReplaceAll`: left to right, non-overlapping, including
    Python's behaviour for an empty pattern);
  - `str.strip()` with no argument (`Strip`, over the `str.isspace`
    characters);
  - the substring test `in` (`Contains`);
  - and the subsequence relation used to say that cleaning only deletes.
- `Sanitizer` — `clean_code` and what it guarantees.
- `Archive` — `create_zip`. A `ZipWriter` class holds the entries written
  so far; `CreateZip` writes a mapping entry by entry in a loop. The
  archive is modelled as its ordered list of `(name, content)` entries.
- `Pipeline` — the generation block and one press of the start button:
  - The language model is a `ModelClient` object. It records every prompt
    it is sent. Its answer to a prompt is given by a function of the call's
    position and the prompt text. That function stands for the remote
    model, its non-determinism and its failures.
  - The prompt templates are the app's own, split at `{task}` into the text
    before and the text after.
  - `Generate` sends the three prompts in order and stops at the first
    failed call. `RunAgent` adds the document-reading outcome and the
    packaging.

## Model

| member | source | states |
|---|---|---|
| Text.Strip | app.py:16 | the result of `strip()` is a slice of the input that starts and ends with no whitespace, and everything cut off at either end is whitespace |
| Text.StripUnique | app.py:16 | any slice that starts and ends with non-whitespace and has only whitespace outside it is exactly what `strip()` returns |
| Text.StripStripped | app.py:16 | `strip()` leaves a string unchanged when neither end is whitespace |
| Text.StripIsSubsequence | app.py:16 | `strip()` only deletes characters |
| Text.ReplaceAll | app.py:16 | defines `str.replace`: the text is scanned left to right, each occurrence of the pattern that does not overlap an earlier replaced one is replaced, and every other character is copied; with an empty pattern the replacement goes before every character and at the end |
| Text.ReplaceAbsent | app.py:16 | `replace` of a pattern that does not occur returns the text unchanged |
| Text.ReplaceAfterPlainPrefix | app.py:16 | `replace` copies a prefix holding no first character of the pattern unchanged, then resumes the scan after it |
| Text.RemovalIsSubsequence | app.py:16 | replacing a pattern by the empty string only deletes characters |
| Sanitizer.CleanCode | app.py:14-16 | the cleaned text holds no "```", has no whitespace at either end, and is a subsequence of the answer, so it is never longer |
| Sanitizer.RemoveFencesLeavesNoFence | app.py:16 | after the second `replace`, no "```" is left anywhere, even where backtick runs were longer than three |
| Sanitizer.StripKeepsAbsence | app.py:16 | the final `strip()` cannot create a "```" |
| Sanitizer.CleanCodeIdempotent | app.py:14-16 | cleaning an already cleaned answer changes nothing |
| Sanitizer.CleanCodeWithoutFence | app.py:14-16 | an answer holding no "```" marker is only stripped |
| Sanitizer.CleanCodeWithoutBackticks | app.py:14-16 | in particular, an answer without any backtick is only stripped |
| Sanitizer.PythonBlockUnwrapped | app.py:14-16 | a block opened with "```python" and closed with "```" around any body that holds no "```" comes out as the stripped body |
| Sanitizer.FenceTail | app.py:16 | deleting "```" from a body without "```" followed by the closing marker gives back the body |
| Sanitizer.OtherTagKept | app.py:16 | a block opened with a bare "```" whose body holds no "```" and starts neither with `python` nor with a backtick comes out as the stripped body, with its own tag still in place |
| Sanitizer.PythonBlockExample | app.py:14-16 | the block "```python\nprint(1)\n```" comes out as `print(1)` |
| Sanitizer.StripPrintExample | app.py:16 | stripping "\nprint(1)\n" gives `print(1)` |
| Sanitizer.Python3TagExample | app.py:16 | the block "```python3\nx\n```" comes out as `3\nx`: a tag that begins with `python` loses those six letters |
| Sanitizer.OtherTagExample | app.py:16 | the block "```js\nx\n```" comes out as `js\nx`, with the tag kept |
| Sanitizer.StripTagExample | app.py:16 | stripping "js\nx\n" gives `js\nx` |
| Archive.ZipWriter.constructor | app.py:20-21 | a newly opened archive holds no entries |
| Archive.ZipWriter.WriteStr | app.py:23 | `writestr` appends exactly one entry, with the given name and content, after the existing ones |
| Archive.CreateZip | app.py:19-24 | the archive holds every pair of the mapping in its iteration order, with names and contents unchanged |
| Archive.Read | app.py:19-24 | reading a name from the archive finds nothing exactly when no entry has that name; otherwise it finds the content of the last entry stored under that name |
| Archive.ReadBack | app.py:19-24 | when names are distinct, every written file is read back under its name with its content |
| Pipeline.ModelClient.constructor | app.py:64 | a new client has received no prompt yet |
| Pipeline.ModelClient.Invoke | app.py:69-84 | each of the three chain calls (app.py:70, 77, 84) sends exactly one prompt, which is appended to the record, and returns the model's reply to it |
| Pipeline.Generate | app.py:62-91 | the prompts go out in the order code, README, requirements, up to and including the first failed call; the run succeeds exactly when all three calls are answered; it then holds the cleaned code answer and the other two answers verbatim; on failure it names the failed stage and its error |
| Pipeline.Prompt | app.py:65-84 | defines a filled-in prompt as the template's text before `{task}`, then the task, then the template's text after it |
| Pipeline.PromptEmbedsTask | app.py:65-84 | every prompt filled in from a template contains the task text |
| Pipeline.Package | app.py:103-109 | defines the mapping given to `create_zip`: the entries `app.py`, `README.md` and `requirements.txt`, in that order, with the code, README and requirements texts |
| Pipeline.PackageReadsBack | app.py:103-109 | `app.py`, `README.md` and `requirements.txt` read back from the archive as the generated code, README and requirements |
| Pipeline.RunAgent | app.py:42-109 | an unreadable document leads to no model call and no archive. Otherwise the app's three prompts are sent as in `Generate`. An archive exists exactly when all three calls are answered. It then holds `app.py`, `README.md` and `requirements.txt`, in that order, with the kept texts |
| Pipeline.EchoRun | app.py:62-109 | with a model that echoes its prompt, the archive has three entries; the README and requirements files contain the task; the code file is the cleaned code prompt, which contains the task |
| Pipeline.TodoListRun | app.py:62-109 | a fenced `python` answer, a title and one library give the archive `app.py` = `print(1)`, `README.md` = `# Todo App`, `requirements.txt` = `streamlit` |
| Pipeline.LateFailureRun | app.py:79-91 | when the requirements call fails, all three calls have been made and there is no archive |
| Pipeline.EarlyFailureRun | app.py:64-91 | when the code call fails, exactly one call has been made and there is no archive |

## Left out

- The Streamlit page is not modelled: the title, the sidebar inputs, the checks for a missing API key or file (app.py:36-40), the result tabs and the download button. They are presentation only.
- Reading the `.docx` file is not modelled: the temporary file and `Docx2txtLoader` (app.py:42-60). Its result is given to `RunAgent` as an `Extraction` value: the text, or a failure.
- A failed extraction does not stop the app by itself. The app only shows the error (app.py:55-56); the generation block then fails on the undefined `task` before any model call (app.py:70, caught at app.py:88). The model states the effect: no call and no archive.
- The temporary file is not removed on every path. If creating it fails, `tmp_path` is unbound and the `finally` at app.py:58-60 raises. That failure happens before any model call, so in the model it is an `Unreadable` document. Cleanup of the file is not modelled.
- An empty task text is not rejected by the code, so the model does not reject it either.
- `ChatGroq`, `ChatPromptTemplate` and `StrOutputParser` are not modelled. Their combined effect is `ModelClient.Invoke`: a prompt goes in, and an answer text or an error comes out. The model name `llama-3.3-70b-versatile` and the API key are not modelled, since they only select the remote service.
- Pipeline.Generate: the `Aborted` outcome names the failed stage. The app only shows the exception (app.py:88-91); the stage tag is added to state which call failed.
- The ZIP byte format, DEFLATE compression and UTF-8 encoding of the contents are not modelled. The archive is its list of entries.
- Archive.CreateZip: it takes a sequence of entries, which may repeat a name where the `dict` of app.py:19 cannot. Repeated names are written as given, and `Read` then returns the last entry of that name. The app always passes three distinct names.
- Text.Strip: the set of whitespace characters is Python's `str.isspace` list, given explicitly. Unicode database versions are not modelled.
- Properties of the concrete prompt texts beyond their shape are not proved: for example, that the three prompts differ, or that they contain no backtick. The prompts are defined as template-before + task + template-after, with the app's own templates.
- Only the `python` tag is removed with an opening fence (app.py:16). `OtherTagKept` states that a tag that does not begin with `python` stays in the cleaned code. A tag that begins with it, such as `python3` or `pythonic`, loses those six letters (`Python3TagExample`).
- The three calls run in sequence and the first failure stops the run (app.py:63-91). Concurrent calls are not modelled.
