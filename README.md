# Create: scaffolding a new service

This project models the `create` command of the Serverless framework's `Create`
plugin (`lib/plugins/create`), as its test suite pins it down, and proves
properties of that model in Dafny.

The command runs five steps in order:

1. **Prompt** shows the ASCII greeting when the session is interactive, and
   nothing otherwise.
2. **Validate** checks that the name, stage and region options are all given
   and that the name is a letter followed by one or more letters, digits or
   hyphens (`^[a-zA-Z][0-9a-zA-Z-]+$`; no underscores). On success it stores
   `servicePath = join(cwd, name)` in the shared configuration. On failure it
   throws before anything changes.
3. **Parse** loads the manifest template (`serverless.yaml`) and the package
   template (`package.json`) from the plugin's `templates` directory. Each is
   an object with at least one key.
4. **Scaffold** creates the service directory and writes four files into it:
   - `handler.js`, a fixed stub (its text here is a placeholder);
   - `serverless.yaml`, with `service` set to the name;
   - `package.json`, with `name` set to the name;
   - `serverless.env.yaml`, holding `stages[stage].regions[region] = {}`.
5. **Finish** writes five lines to the log.

The model is split into these files:

- `wrappers.dfy` defines `Option` and `Result`.
- `paths.dfy` defines `Join`.
- `names.dfy` holds the name grammar and a matcher proved to accept exactly that grammar.
- `documents.dfy` holds the document datatype, property lookup, field substitution and the environment document.
- `create.dfy` holds the option check, template loading, the scaffold artifacts and the `Create` class.

The `Create` class has one field for each piece of state the workflow touches:

- `options`;
- `interactive`;
- `servicePath`, an `Option` that is `None` until Validate succeeds;
- `fs`, a map from path to file;
- `dirs`, the set of directories;
- `greetings`, the number of greetings shown;
- `log`, the lines written.

Each step is a method of the class, and its `ensures` gives the new state.

Validate, Parse and Scaffold are each specified by a pure function:
`CheckOptions`, `LoadTemplate` and `ScaffoldArtifacts` respectively. Validate
and Scaffold change state; Parse only reads the filesystem. Prompt and Finish
state their new greeting count and log directly. The lemmas state the
properties the tests check about the three functions.

The env document is keyed by the region exactly as given. The scaffold test
sets region `aws_useast_1` (line 111) but looks up `regions.aws_useast1`
(line 152). That assertion sits in a promise the test never returns, so it is
not enforced. `ScaffoldTestCase` shows that the key the test looks up is absent.

## Model

| member | source | states |
|---|---|---|
| `Paths.Join` | lib/plugins/create/tests/create.js:90-91 | the service path is the working directory, one separator, then the name, and the name can be read back from it |
| `CreatePlugin.Present` | lib/plugins/create/tests/create.js:65-84 | an option is given when it is neither null nor empty; a null option, as in these tests, is missing |
| `Names.MatchesNameChars` | lib/plugins/create/tests/create.js:58-63 | the character-class matcher accepts a string exactly when every character is a letter, digit or hyphen |
| `Names.MatchesName` | lib/plugins/create/tests/create.js:51-63 | the name matcher accepts exactly the names of the grammar: a letter first, then one or more letters, digits or hyphens |
| `Names.UnderscoreRejected` | lib/plugins/create/tests/create.js:58-63 | a name with an underscore at any position is rejected |
| `Names.LeadingNonLetterRejected` | lib/plugins/create/tests/create.js:58-63 | a name that does not start with a letter (a digit or a hyphen) is rejected |
| `Names.HyphensAccepted` | lib/plugins/create/tests/create.js:51-56 | a name made of a letter, then letters and hyphens, is accepted |
| `Documents.Lookup` | lib/plugins/create/tests/create.js:131-152 | reads a chain of properties such as `stages.dev.regions.aws_useast1`; with no keys it is the document itself, and it is defined only while each key is a field of an object |
| `Documents.LookupAppend` | lib/plugins/create/tests/create.js:152 | a property chain may be split anywhere: reading `a.b` is reading `b` from the result of `a`, and nothing once `a` is undefined |
| `Documents.SetField` | lib/plugins/create/tests/create.js:125-144 | after substitution the key holds the new string, no key but that one is added, and every other template field is unchanged |
| `Documents.SetFieldIdempotent` | lib/plugins/create/tests/create.js:125-144 | substituting the same value twice gives the same document as once |
| `Documents.EnvDocument` | lib/plugins/create/tests/create.js:146-155 | the environment document for a stage and region; its meaning is given by `EnvDocumentBranch` and `EnvDocumentSingleBranch` |
| `Documents.EnvDocumentBranch` | lib/plugins/create/tests/create.js:146-155 | `stages[stage].regions[region]` of the env document is an empty object |
| `Documents.EnvDocumentSingleBranch` | lib/plugins/create/tests/create.js:146-155 | the env document has no top-level key but `stages`, no stage but the given one, no key but `regions` under it and no region but the given one |
| `CreatePlugin.CheckOptions` | lib/plugins/create/tests/create.js:51-84 | the check succeeds iff name, stage and region are all given and the name follows the grammar, and then yields exactly those three; a missing-option error names a field that is missing; an invalid-name error carries the name |
| `CreatePlugin.MissingOptionRejected` | lib/plugins/create/tests/create.js:65-84 | if any one of name, stage or region is missing, the check fails with a missing-option error, whatever the other two hold |
| `CreatePlugin.UnderscoreNameRejected` | lib/plugins/create/tests/create.js:58-63 | with all options given, a name containing an underscore fails with an invalid-name error |
| `CreatePlugin.ValidTestOptionsAccepted` | lib/plugins/create/tests/create.js:51-56 | name `valid-service-name`, stage `dev`, region `aws_useast1` pass the check |
| `CreatePlugin.InvalidTestOptionsRejected` | lib/plugins/create/tests/create.js:58-84 | `invalid_service_name` is an invalid name; a null name, stage or region is a missing-option error for that field |
| `CreatePlugin.TemplatePath` | lib/plugins/create/tests/create.js:95-101 | a template's path is the install directory, then `/templates/`, then the template's file name |
| `CreatePlugin.Loadable` | lib/plugins/create/tests/create.js:95-101 | a template loads when its file exists and holds an object with at least one key, the condition under which the parse test's two key sets are non-empty |
| `CreatePlugin.LoadTemplate` | lib/plugins/create/tests/create.js:95-101 | a template loads iff its file holds an object with at least one key, and then yields that object's fields; otherwise the error names the template's path |
| `CreatePlugin.ScaffoldArtifacts` | lib/plugins/create/tests/create.js:118-155 | the four files scaffold writes under the service path; their meaning is given by the five `Scaffold*` lemmas below |
| `CreatePlugin.ScaffoldWritesFourFiles` | lib/plugins/create/tests/create.js:118-155 | scaffold writes exactly four distinct files, all directly under the service path |
| `CreatePlugin.ScaffoldWritesHandler` | lib/plugins/create/tests/create.js:118-123 | `<servicePath>/handler.js` exists and holds the fixed stub |
| `CreatePlugin.ScaffoldRendersManifest` | lib/plugins/create/tests/create.js:125-134 | `<servicePath>/serverless.yaml` has `service` equal to the name, and every other field as in the template |
| `CreatePlugin.ScaffoldRendersPackage` | lib/plugins/create/tests/create.js:136-144 | `<servicePath>/package.json` has `name` equal to the name, and every other field as in the template |
| `CreatePlugin.ScaffoldWritesEnv` | lib/plugins/create/tests/create.js:146-155 | `<servicePath>/serverless.env.yaml` has `stages[stage].regions[region]` as an empty object |
| `CreatePlugin.ScaffoldRepeatable` | lib/plugins/create/tests/create.js:112-155 | the four scaffold tests pass the same template objects, already rendered by the first run, into the same service path; rendering those again gives the same four files, so every later run leaves the file map as the first run left it |
| `CreatePlugin.ScaffoldKeepsOtherFiles` | lib/plugins/create/tests/create.js:118-155 | every file other than the four artifacts keeps its content |
| `CreatePlugin.ScaffoldTestCase` | lib/plugins/create/tests/create.js:104-155 | for `new-service`/`dev`/`aws_useast_1` and templates `{service: ''}` and `{name: ''}`, the manifest is `{service: 'new-service'}` and the package is `{name: 'new-service'}`; the env document has `stages.dev.regions.aws_useast_1` but not `aws_useast1` |
| `CreatePlugin.Create.constructor` | lib/plugins/create/tests/create.js:14-16 | a new command starts with no options, no service path, no greetings and an empty log, over the given filesystem |
| `CreatePlugin.Create.Prompt` | lib/plugins/create/tests/create.js:31-47 | the greeting count rises by one when interactive and stays the same otherwise; the options are unchanged |
| `CreatePlugin.Create.Validate` | lib/plugins/create/tests/create.js:51-92 | succeeds iff the option check does; on success the service path is `join(cwd, name)`; on failure the error is the check's and the service path is unchanged; nothing else changes |
| `CreatePlugin.Create.Parse` | lib/plugins/create/tests/create.js:95-101 | succeeds iff both templates load, and then yields the two template objects, each with a non-empty key set; otherwise the error names the first template that does not load |
| `CreatePlugin.Create.Scaffold` | lib/plugins/create/tests/create.js:104-155 | the service directory exists afterwards and the new file map is the old one overwritten by the four artifacts |
| `CreatePlugin.Create.Finish` | lib/plugins/create/tests/create.js:158-165 | the log grows by exactly five lines and its earlier lines are kept |
| `CreatePlugin.Create.Run` | lib/plugins/create/tests/create.js:24-165 | the five steps in order. Invalid options stop the run before any directory, file or log line is written. A template that does not load stops it before Scaffold. A run that succeeds leaves the old file map overwritten by the four artifacts rendered from the loaded templates, and five new log lines |

## Left out

- The plugin's implementation file `lib/plugins/create/create.js` is not part of this model. Only its tests are, so the model follows what they assert. Where the tests are silent, the model makes these choices of its own:
  - the name grammar `^[a-zA-Z][0-9a-zA-Z-]+$`;
  - the check order: name, then stage, then region, then the grammar;
  - an empty string counts as a missing option;
  - the step order Prompt, Validate, Parse, Scaffold, Finish that `Run` fixes;
  - the template file names `serverless.yaml` and `package.json`, found under `<installDir>/templates`;
  - an empty template object is a load error.
- YAML and JSON encoding and decoding (`yamlParser.parse`, `readFileSync`, `fileExistsSync`) are not modelled. Files are map entries holding either a source text or a structured document.
- Numbers in documents are integers. Floating point is not modelled.
- `os.tmpdir()`, the time-stamped directory name and `process.cwd()` are not modelled. The working directory and the plugin's install directory are parameters.
- `path.join` is concatenation with `/`. Platform separators, normalisation of `..` and `.`, and the collapsing of repeated separators are not modelled: with working directory `/`, `path.join` gives `/new-service` but `Join` gives `//new-service`.
- The host framework is not modelled. That covers constructing `Serverless` and the plugin's `commands` and `hooks`.
- The sinon stubs, chai assertions and promise chaining are not modelled. Each step is a method that runs to completion.
- The text of `handler.js` is not modelled. The tests only check that the file exists, so `HandlerStub` is a placeholder; what the model keeps is that it is one fixed text, never templated.
- The text of the greeting is not modelled. The log lines are fixed placeholders; only their count is what the tests check.
- CreatePlugin.Create.Prompt: does not collect missing options interactively, because the prompt widget is external and the tests only count greetings.
- CreatePlugin.Create.Scaffold: has no failure path. Directory-creation and file-write errors, atomic writes and the absence of rollback after a partial write are I/O behaviour outside the model. The method requires name, stage, region and the service path to be set, as they are once Validate has run.
- CreatePlugin.Create.Scaffold: renders the templates into new documents and leaves the caller's template objects as they were. The plugin sets `service` and `name` on the objects it is handed, so a caller sees them changed. `ScaffoldRepeatable` covers the effect of that on a later run with the same objects.
- CreatePlugin.Create.Scaffold: records only the service directory itself in `dirs`, not the intermediate directories `mkdir -p` would create.
- CreatePlugin.LoadTemplate: treats an empty template object as a load error, because Parse guarantees two non-empty documents.
- Region keys are not normalised: `aws_useast_1` stays `aws_useast_1`.
