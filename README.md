# aws-service-tagger: the Lambda tagging run, modelled in Dafny

`tagger.py` audits AWS Lambda functions for missing tags. With `--write`, it
fills those tags in from a YAML mapping. The mapping gives, per tag name, the
tag values. Each value is listed with the ARN substrings that select it. This
project models one run of that script and proves what it does:

- `pystr.dfy` (module `PyStr`) holds the two Python string built-ins the run
  relies on. One is the substring test `part in arn`. The other is
  `args.tags.split(",")`, which turns the tag argument into the list of target
  tags.
- `resolver.dfy` (module `Resolver`) models value resolution (tagger.py:44-49).
  `LastMatch` is the reference definition: the value of the last table entry
  with a substring that occurs in the ARN. `ResolveNewTags` is the
  imperative pair of nested loops that fills `new_tags`. It is proved equal
  to that definition.
- `tagger.dfy` (module `Tagger`) models the run itself:
  - `FirstMissingTag` is the config check loop (lines 26-29).
  - `LambdaClient` is the boto3 client together with the provider behind it:
    the ARNs `list_functions` returns, the tags held per ARN, and a ghost log
    of every call.
  - `Run`, `ProcessFunctions`, `ProcessFunction` and `ProcessTag` are the
    nested loops (lines 31-62).
  - The pure functions `TagStep`, `TagCalls`, `FunctionCalls`, `Sweep` and
    `RunSpec` give the calls the run makes. The loop methods are proved to
    make exactly those calls.

How the model stands for the script's inputs and outside world:

- The config is `map<tag name, Option<seq<(value, seq<substring>)>>>`.
  `None` is a null YAML body. The sequence keeps the mapping's insertion
  order, which is the order Python iterates it in, and that order decides
  ties.
- `tag_resource` is modelled as adding the given tags to the function's tags,
  replacing the value of a key already there (AWS's documented behaviour).
- A `list_tags` response without a `Tags` field reads as no tags, through
  `.get('Tags', [])` (tagger.py:34). The model stands for that case by an ARN
  with no entry in the client's tag store. A `list_tags` call that raises
  falls under the provider errors of "## Left out".

Three behaviours of the code worth knowing:

- The run calls `list_functions` *before* the config check (line 21, then
  lines 23-29). So an aborted run has made exactly one call, `ListFunctions`,
  not none.
- Each `tag_resource` call carries only the tag just resolved. `new_tags` is
  reset for every target tag (line 44), so several tags resolved for one
  function are written in several calls, not one merged call.
- Ties between values are broken by the config's own order: the last
  matching entry wins. No sorting takes place.

## Model

| member | source | states |
|---|---|---|
| PyStr.OccursIff | tagger.py:48 | the substring test `part in arn` holds exactly when `part` appears at some position of `arn` |
| PyStr.Occurs | tagger.py:48 | definition of the substring test `arn_part in arn`; its properties are the lemmas `PyStr.OccursIff` and `PyStr.AbsentCharNoOccurs` |
| PyStr.AbsentCharNoOccurs | tagger.py:48 | a substring holding a character the ARN lacks never occurs in it |
| PyStr.Split | tagger.py:16 | `tags.split(",")` gives at least one name, and no name contains a comma |
| PyStr.JoinSplit | tagger.py:16 | joining the split names with commas gives back the argument |
| PyStr.SplitJoin | tagger.py:16 | splitting comma-joined, comma-free names gives back those names |
| Resolver.LastMatch | tagger.py:46-49 | definition: the value of the last entry with a substring that occurs in the ARN; its properties are the lemmas `Resolver.LastMatchNone`, `Resolver.LastMatchWins` and `Resolver.LastMatchFound` |
| Resolver.LastMatchNone | tagger.py:46-49 | no value is resolved exactly when no listed substring occurs in the ARN |
| Resolver.LastMatchWins | tagger.py:46-49 | last match wins: the value of the last matching entry is the one resolved, whatever earlier entries matched |
| Resolver.LastMatchFound | tagger.py:46-49 | a resolved value belongs to an entry with a substring that occurs in the ARN, and no later entry matches |
| Resolver.NewTags | tagger.py:44-51 | `new_tags` has at most one key, the target tag; a value appears only if the tag is in the config with a non-null body, and it is the last match; conversely, with a non-null body and some entry matching the ARN, the tag is resolved |
| Resolver.ResolvedValueMatches | tagger.py:44-51 | a resolved value is listed under the last entry with a substring that occurs in the ARN; a null or empty body resolves nothing |
| Resolver.ResolveNewTags | tagger.py:44-49 | the nested loops over values and substrings leave `new_tags` equal to the last-match resolution |
| Tagger.Covers | tagger.py:26-27 | definition of the condition the config check tests: every target tag is a config key; its property is the contract of `Tagger.FirstMissingTag` |
| Tagger.FirstMissingTag | tagger.py:26-29 | reports no missing tag exactly when every target tag is a config key; otherwise it reports the first missing one, the tag the abort message names |
| Tagger.Lookup | tagger.py:34 | definition of `list_tags(...).get('Tags', [])`: the stored tags, or none for an ARN with no entry; its properties are the lemmas `Tagger.KeysKept` and `Tagger.WritesLand` |
| Tagger.Apply | tagger.py:56 | definition of what `tag_resource` does to the provider: the given tags are merged over the function's tags; its properties are the lemmas `Tagger.KeysKept` and `Tagger.WritesLand` |
| Tagger.ReadsChangeNothing | tagger.py:21-34 | calls that only list functions or read tags leave every function's tags as they were |
| Tagger.KeysKept | tagger.py:56 | `tag_resource` only adds or replaces tags: a tag a function has is still there after any calls |
| Tagger.WritesLand | tagger.py:56 | after a run of calls, every tag a `tag_resource` wrote is on that function |
| Tagger.LambdaClient.ListFunctions | tagger.py:21 | returns the provider's functions in order, logs the call, and changes no tags |
| Tagger.LambdaClient.ListTags | tagger.py:34 | returns the function's tags (none if the provider has none for it) and logs the call |
| Tagger.LambdaClient.TagResource | tagger.py:56 | adds the given tags to the function's tags and logs the call |
| Tagger.Run | tagger.py:16-62 | aborts exactly when writing with a target tag the config lacks, and then has only listed the functions and written nothing; otherwise the calls and final tags are those of the run's specification |
| Tagger.ProcessFunctions | tagger.py:31-62 | the outer loop makes the calls of `Sweep`, function after function, and the tags end as those calls leave them |
| Tagger.ProcessFunction | tagger.py:32-62 | one function's tags are read once, then the inner loop makes that function's calls |
| Tagger.ProcessTag | tagger.py:38-62 | one (function, tag) pair makes exactly the call of `TagStep`: skip, no write, or one `tag_resource` |
| Tagger.Due | tagger.py:39 | definition: a target tag is handled when the function lacks it or `--overwrite` is set; its properties are the lemmas `Tagger.TagCallsComplete` and `Tagger.SettledSweepQuiet` |
| Tagger.TagStep | tagger.py:38-62 | definition of one (function, tag) step as intended (`--dry-run` read as `dry_run`); its properties are the lemmas `Tagger.TagStepSound`, `Tagger.TagCallsSound` and `Tagger.TagCallsComplete` |
| Tagger.TagCallsSound | tagger.py:37-62 | every call of the inner loop writes to the ARN the tags were read from, with exactly one key, a target tag; the tag was due (missing or `--overwrite`), `--write` was on, `--dry-run` off, and the value is the resolved one |
| Tagger.TagStepSound | tagger.py:39-56 | one (function, tag) pair issues at most one write: to that ARN, holding exactly that tag, only when the tag is due and resolves on a live run |
| Tagger.TagCallsComplete | tagger.py:39-56 | on a live run, every due target tag that resolves is written with its resolved value |
| Tagger.TagCallsQuiet | tagger.py:39-62 | when no target tag is due and resolvable on a live run, the inner loop makes no call |
| Tagger.TagCallsAppend | tagger.py:37 | writes follow the order of the target tags |
| Tagger.FunctionCallsReadThenWrite | tagger.py:34-56 | per function, the tags are read first, and every later call writes to that same ARN |
| Tagger.TagCalls | tagger.py:37-62 | definition of the calls of the inner loop over the target tags, for tags read once; its properties are the lemmas `Tagger.TagCallsSound`, `Tagger.TagCallsComplete`, `Tagger.TagCallsQuiet` and `Tagger.TagCallsAppend` |
| Tagger.FunctionCalls | tagger.py:33-62 | definition of one function's calls: `list_tags`, then the inner loop on what was read; its properties are the lemmas `Tagger.FunctionCallsReadThenWrite` and `Tagger.FunctionSettles` |
| Tagger.Sweep | tagger.py:31-62 | definition of the calls of the outer loop, each function seeing the tags earlier writes left; its properties are the lemmas `Tagger.SweepAppend`, `Tagger.SweepSound` and `Tagger.SweepSettles` |
| Tagger.RunSpec | tagger.py:21-62 | definition of a whole run: `list_functions`, then the abort or the sweep; its properties are the lemmas `Tagger.AuditOnlyWritesNothing`, `Tagger.DryRunWritesNothing` and `Tagger.RerunWritesNothing` |
| Tagger.SweepAppend | tagger.py:31 | writes follow the order of the functions; later functions see the tags earlier writes left |
| Tagger.SweepSound | tagger.py:31-62 | every call reads or writes a listed function, and every write holds one target tag with its resolved value, on a live run only |
| Tagger.AuditOnlyWritesNothing | tagger.py:43-60 | without `--write`, no `tag_resource` is issued and the provider's tags are unchanged, whatever the functions, tags or `--overwrite` |
| Tagger.DryRunWritesNothing | tagger.py:53-56 | with `--dry-run`, no `tag_resource` is issued and the provider's tags are unchanged |
| Tagger.SweepSettles | tagger.py:31-58 | after a live run, every function carries every target tag that resolves for it |
| Tagger.FunctionSettles | tagger.py:33-58 | after its own calls on a live run, a function carries each target tag it already had or that resolves for it |
| Tagger.SettledSweepQuiet | tagger.py:39-62 | without `--overwrite`, a run over functions that already carry every resolvable tag writes nothing |
| Tagger.RerunWritesNothing | tagger.py:31-62 | idempotence: after a live run, a second run without `--overwrite` issues no `tag_resource` |
| Tagger.TagStepAsWritten | tagger.py:38-62 | definition of one step as written, where line 55 reads `args.dry` and raises; its property is the lemma `Tagger.AsWrittenRaisesInsteadOfWriting` |
| Tagger.AsWrittenRaisesInsteadOfWriting | tagger.py:53-56 | as written, the step never writes: it raises exactly where the intended live run would write |
| Tagger.BillingResolvesProd | tagger.py:44-49 | `...function:billing-prod` resolves `env` to `prod`: `prod` occurs in the ARN and `dev` does not |
| Tagger.BillingProdExample | tagger.py:44-56 | `...function:billing-prod` with `env: {prod: [prod], dev: [dev]}` is written `{"env": "prod"}` on a live run and not at all on a dry run; the code as written raises on it |

## Findings

| source | as written | input that shows it | evidently intended | confidence | as-written member | corrected member |
|---|---|---|---|---|---|---|
| tagger.py:55 | `if not args.dry:`; argparse stores `--dry-run` as `args.dry_run`, so this line raises AttributeError | `--write`, and a function that lacks the tag (or `--overwrite` is set) whose ARN contains a substring configured for that tag, e.g. `...function:billing-prod` with `env: {prod: [prod]}` | `if not args.dry_run:`: `--dry-run` suppresses the write, and otherwise the tag is written | high (not executed) | Tagger.AsWrittenRaisesInsteadOfWriting | Tagger.DryRunWritesNothing |

`TagStepAsWritten` models line 55 as written. `TagStep` models the intended
behaviour, and the rest of the model (including `ProcessTag`) uses it. The
intent has two halves: with `--dry-run` nothing is written
(`Tagger.DryRunWritesNothing`), and otherwise every due tag that resolves is
written with its value (`Tagger.TagCallsComplete`).
`Tagger.BillingProdExample` shows the two disagreeing on one concrete input.

## Left out

- client.py is not part of this model. It is the multi-service wrapper
  (Lambda and CloudWatch Logs); its only logic is sorting by identifier and
  copying a field. tagger.py does not use it.
- Argument parsing, the region, client construction, opening the file and
  `yaml.load` (tagger.py:6-15, 18, 24-25) are outside the model. The flags
  and the parsed config are inputs; only `tags.split(",")` is modelled.
- All printed messages are left out.
- The `exit()` at line 29 is modelled as `Run` returning `aborted` at once.
- Network and provider errors are not modelled. This includes a `list_tags`
  or `tag_resource` call that raises, and boto3 refusing a tag value that is
  not a string at line 56.
- The errors a malformed config raises in tagger.py are not modelled. A file
  that loads as `None` raises TypeError at line 27. A tag body that is not a
  mapping raises at line 46 (`.items()`). A null substring list raises
  TypeError at line 47. The model assumes a well-formed config of the shape
  above.
- A string or a mapping given where a substring list belongs is not modelled.
  The code raises nothing there: line 47 walks a string character by
  character and a mapping key by key, and line 48 tests each against the ARN.
  So `prod: prod` selects `prod` for every function, since `r` occurs in
  every `arn:...`. `ValueTable` holds only lists of strings.
- `list_functions` is called once with no pagination, as in the source. The
  functions it returns are the client's `functions` sequence.
- `LambdaClient.log` is ghost: it records the calls the run makes, and
  nothing reads it at run time.
