/** The tagging run of tagger.py: check that the config knows every requested
    tag (lines 23-29), then for every Lambda function read its tags and, tag by
    tag, skip, resolve or write (lines 31-62). */
module Tagger {
  import opened PyStr
  import opened Resolver

  /** The switches of tagger.py:9-12 that steer the run (`--write`,
      `--dry-run`, `--overwrite`). */
  datatype Flags = Flags(write: bool, dryRun: bool, overwrite: bool)

  type TagMap = map<string, string>

  /** The tags the provider holds, per function ARN. */
  type Store = map<string, TagMap>

  /** A call the run makes on the Lambda client. */
  datatype Call =
    | ListFunctions
    | ListTags(arn: string)
    | TagResource(arn: string, tags: TagMap)

  /** `list_tags(...).get('Tags', [])`: a function without tags reads as none. */
  function Lookup(store: Store, arn: string): TagMap
  {
    if arn in store then store[arn] else map[]
  }

  /** The provider's tags after one call: `tag_resource` adds the given tags
      to the function's own, replacing values of keys it already has; the
      listing calls change nothing. */
  function Apply(store: Store, call: Call): Store
  {
    match call
    case TagResource(arn, tags) => store[arn := Lookup(store, arn) + tags]
    case _ => store
  }

  /** The provider's tags after a sequence of calls. */
  function ApplyAll(store: Store, calls: seq<Call>): Store
    decreases |calls|
  {
    if calls == [] then store else ApplyAll(Apply(store, calls[0]), calls[1..])
  }

  /** Every requested tag is a key of the config. */
  predicate Covers(config: Config, targets: seq<string>)
  {
    forall j :: 0 <= j < |targets| ==> targets[j] in config
  }

  /** The check of tagger.py:26-29: the first requested tag missing from the
      config, the one the abort message names, or None when all are there. */
  method FirstMissingTag(config: Config, targets: seq<string>) returns (missing: Option<nat>)
    ensures missing == None <==> Covers(config, targets)
    ensures missing.Some? ==>
              missing.value < |targets| && targets[missing.value] !in config &&
              forall j :: 0 <= j < missing.value ==> targets[j] in config
  {
    for j := 0 to |targets|
      invariant forall k :: 0 <= k < j ==> targets[k] in config
    {
      if targets[j] !in config {
        return Some(j);
      }
    }
    return None;
  }

  /** tagger.py:39: a tag is looked at when the function lacks it or
      `--overwrite` is set; otherwise it is already tagged and skipped. */
  predicate Due(existing: TagMap, target: string, flags: Flags)
  {
    target !in existing || flags.overwrite
  }

  /** The calls made for one (function, tag) pair, tagger.py:38-62: nothing
      for a skipped tag or with `--write` off; otherwise one `tag_resource`
      with `new_tags` when something was resolved and it is not a dry run. */
  function TagStep(arn: string, existing: TagMap, target: string, flags: Flags, config: Config): seq<Call>
  {
    if !Due(existing, target, flags) || !flags.write then []
    else
      var newTags := NewTags(arn, target, config);
      if |newTags| > 0 && !flags.dryRun then [TagResource(arn, newTags)] else []
  }

  /** The write `tag_resource(arn, tags)` is justified for `target`: the tag
      is due, the run writes for real, and `tags` is what resolution gave. */
  predicate Justified(arn: string, existing: TagMap, target: string, flags: Flags, config: Config, tags: TagMap)
  {
    Due(existing, target, flags) && flags.write && !flags.dryRun &&
    tags == NewTags(arn, target, config) && tags != map[]
  }

  /** The calls of the inner loop (tagger.py:37-62) over `targets`, for one
      function whose tags read as `existing`. */
  function TagCalls(arn: string, existing: TagMap, targets: seq<string>, flags: Flags, config: Config): seq<Call>
  {
    if targets == [] then []
    else
      TagCalls(arn, existing, targets[..|targets| - 1], flags, config) +
      TagStep(arn, existing, targets[|targets| - 1], flags, config)
  }

  /** The calls for one function (tagger.py:33-62): read its tags once, then
      the inner loop on what was read. */
  function FunctionCalls(store: Store, arn: string, targets: seq<string>, flags: Flags, config: Config): seq<Call>
  {
    [ListTags(arn)] + TagCalls(arn, Lookup(store, arn), targets, flags, config)
  }

  /** The calls of the outer loop (tagger.py:31-62) over `functions`; each
      function reads the tags as the earlier writes left them. */
  function Sweep(store: Store, functions: seq<string>, targets: seq<string>, flags: Flags, config: Config): seq<Call>
  {
    if functions == [] then []
    else
      var done := Sweep(store, functions[..|functions| - 1], targets, flags, config);
      done + FunctionCalls(ApplyAll(store, done), functions[|functions| - 1], targets, flags, config)
  }

  datatype RunResult = RunResult(aborted: bool, calls: seq<Call>)

  /** The whole run: list the functions, abort if writing with a tag the
      config lacks, otherwise sweep. */
  function RunSpec(store: Store, functions: seq<string>, targets: seq<string>, flags: Flags, config: Config): RunResult
  {
    if flags.write && !Covers(config, targets) then RunResult(true, [ListFunctions])
    else RunResult(false, [ListFunctions] + Sweep(store, functions, targets, flags, config))
  }

  /** The boto3 Lambda client of tagger.py:18, with the provider behind it:
      the functions it lists, the tags it holds, and the calls made on it. */
  class LambdaClient {
    /** The ARNs `list_functions` returns, in its order. */
    const functions: seq<string>
    /** The tags the provider holds, per ARN. */
    var store: Store
    /** Every call made on this client, in order. */
    ghost var log: seq<Call>

    constructor (functions: seq<string>, store: Store)
      ensures this.functions == functions && this.store == store && log == []
    {
      this.functions := functions;
      this.store := store;
      log := [];
    }

    /** `list_functions()` (tagger.py:21). */
    method ListFunctions() returns (arns: seq<string>)
      modifies this`log
      ensures arns == functions && log == old(log) + [Call.ListFunctions]
    {
      arns := functions;
      log := log + [Call.ListFunctions];
    }

    /** `list_tags(Resource=arn)` (tagger.py:34). */
    method ListTags(arn: string) returns (tags: TagMap)
      modifies this`log
      ensures tags == Lookup(store, arn) && log == old(log) + [Call.ListTags(arn)]
    {
      tags := Lookup(store, arn);
      log := log + [Call.ListTags(arn)];
    }

    /** `tag_resource(Resource=arn, Tags=tags)` (tagger.py:56). */
    method TagResource(arn: string, tags: TagMap)
      modifies this
      ensures store == Apply(old(store), Call.TagResource(arn, tags))
      ensures log == old(log) + [Call.TagResource(arn, tags)]
    {
      store := store[arn := Lookup(store, arn) + tags];
      log := log + [Call.TagResource(arn, tags)];
    }
  }

  /** One run of tagger.py on the comma-separated tag list `tagsArg`. */
  method Run(client: LambdaClient, tagsArg: string, flags: Flags, config: Config) returns (aborted: bool)
    modifies client
    ensures aborted <==> flags.write && exists j :: 0 <= j < |Split(tagsArg)| && Split(tagsArg)[j] !in config
    ensures aborted ==> client.log == old(client.log) + [ListFunctions] && client.store == old(client.store)
    ensures client.log == old(client.log) +
              RunSpec(old(client.store), client.functions, Split(tagsArg), flags, config).calls
    ensures client.store ==
              ApplyAll(old(client.store), RunSpec(old(client.store), client.functions, Split(tagsArg), flags, config).calls)
  {
    var targetTags := Split(tagsArg);
    ghost var store0, log0 := client.store, client.log;
    var functions := client.ListFunctions();
    ApplyAllOne(store0, ListFunctions);
    if flags.write {
      var missing := FirstMissingTag(config, targetTags);
      if missing.Some? {
        assert 0 <= missing.value < |Split(tagsArg)| && Split(tagsArg)[missing.value] !in config;
        assert RunSpec(store0, functions, targetTags, flags, config).calls == [ListFunctions];
        return true;
      }
    }
    aborted := false;
    ghost var sweep := Sweep(store0, functions, targetTags, flags, config);
    assert RunSpec(store0, functions, targetTags, flags, config).calls == [ListFunctions] + sweep;
    ProcessFunctions(client, functions, targetTags, flags, config);
    assert (log0 + [ListFunctions]) + sweep == log0 + ([ListFunctions] + sweep);
    ApplyAllSkipsRead(store0, ListFunctions, sweep);
  }

  /** The outer loop, tagger.py:31-62, over the listed functions. */
  method ProcessFunctions(client: LambdaClient, functions: seq<string>, targets: seq<string>, flags: Flags, config: Config)
    modifies client
    ensures client.log == old(client.log) + Sweep(old(client.store), functions, targets, flags, config)
    ensures client.store == ApplyAll(old(client.store), Sweep(old(client.store), functions, targets, flags, config))
  {
    ghost var store0, log0 := client.store, client.log;
    assert functions[..0] == [];
    for i := 0 to |functions|
      invariant client.log == log0 + Sweep(store0, functions[..i], targets, flags, config)
      invariant client.store == ApplyAll(store0, Sweep(store0, functions[..i], targets, flags, config))
    {
      ghost var done := Sweep(store0, functions[..i], targets, flags, config);
      ghost var next := FunctionCalls(ApplyAll(store0, done), functions[i], targets, flags, config);
      ProcessFunction(client, functions[i], targets, flags, config);
      ApplyAllAppend(store0, done, next);
      assert (log0 + done) + next == log0 + (done + next);
      SweepSnoc(store0, functions, i, targets, flags, config);
    }
    assert functions[..|functions|] == functions;
  }

  /** The body of the outer loop, tagger.py:32-62, for the function `arn`. */
  method ProcessFunction(client: LambdaClient, arn: string, targets: seq<string>, flags: Flags, config: Config)
    modifies client
    ensures client.log == old(client.log) + FunctionCalls(old(client.store), arn, targets, flags, config)
    ensures client.store == ApplyAll(old(client.store), FunctionCalls(old(client.store), arn, targets, flags, config))
  {
    ghost var store0 := client.store;
    var existing := client.ListTags(arn);
    ghost var read := client.log;
    for j := 0 to |targets|
      invariant client.log == read + TagCalls(arn, existing, targets[..j], flags, config)
      invariant client.store == ApplyAll(store0, TagCalls(arn, existing, targets[..j], flags, config))
    {
      ghost var sofar := TagCalls(arn, existing, targets[..j], flags, config);
      ghost var step := TagStep(arn, existing, targets[j], flags, config);
      ProcessTag(client, arn, existing, targets[j], flags, config);
      ApplyAllAppend(store0, sofar, step);
      assert (read + sofar) + step == read + (sofar + step);
      TagCallsSnoc(arn, existing, targets, j, flags, config);
    }
    assert targets[..|targets|] == targets;
    assert (old(client.log) + [ListTags(arn)]) + TagCalls(arn, existing, targets, flags, config) ==
           old(client.log) + ([ListTags(arn)] + TagCalls(arn, existing, targets, flags, config));
    ApplyAllSkipsRead(store0, ListTags(arn), TagCalls(arn, existing, targets, flags, config));
  }

  /** The body of the inner loop, tagger.py:38-62, for the tag `target` on
      the function `arn` whose tags read as `existing`. */
  method ProcessTag(client: LambdaClient, arn: string, existing: TagMap, target: string, flags: Flags, config: Config)
    modifies client
    ensures client.log == old(client.log) + TagStep(arn, existing, target, flags, config)
    ensures client.store == ApplyAll(old(client.store), TagStep(arn, existing, target, flags, config))
  {
    if target !in existing || flags.overwrite {
      if flags.write {
        var newTags := ResolveNewTags(arn, target, config);
        if |newTags| > 0 {
          // tagger.py:55 tests `args.dry`, which argparse never defines (the
          // option is stored as `dry_run`); this follows the evident intent.
          if !flags.dryRun {
            client.TagResource(arn, newTags);
            ApplyAllOne(old(client.store), TagResource(arn, newTags));
          }
        }
      }
    }
  }

  /** Applying calls one after the other is applying them in sequence. */
  lemma {:induction false} ApplyAllAppend(store: Store, a: seq<Call>, b: seq<Call>)
    ensures ApplyAll(store, a + b) == ApplyAll(ApplyAll(store, a), b)
    decreases |a|
  {
    if a == [] {
      assert a + b == b;
    } else {
      assert (a + b)[0] == a[0] && (a + b)[1..] == a[1..] + b;
      ApplyAllAppend(Apply(store, a[0]), a[1..], b);
    }
  }

  /** A call that writes nothing, made first, does not change the outcome. */
  lemma ApplyAllSkipsRead(store: Store, call: Call, rest: seq<Call>)
    requires !call.TagResource?
    ensures ApplyAll(store, [call] + rest) == ApplyAll(store, rest)
  {
    assert ([call] + rest)[0] == call && ([call] + rest)[1..] == rest;
  }

  /** One more requested tag adds that tag's step to the inner loop's calls. */
  lemma TagCallsSnoc(arn: string, existing: TagMap, targets: seq<string>, j: int, flags: Flags, config: Config)
    requires 0 <= j < |targets|
    ensures TagCalls(arn, existing, targets[..j + 1], flags, config) ==
            TagCalls(arn, existing, targets[..j], flags, config) + TagStep(arn, existing, targets[j], flags, config)
  {
    assert targets[..j + 1][..j] == targets[..j];
  }

  /** One more function adds that function's calls to the outer loop's. */
  lemma SweepSnoc(store: Store, functions: seq<string>, i: int, targets: seq<string>, flags: Flags, config: Config)
    requires 0 <= i < |functions|
    ensures var done := Sweep(store, functions[..i], targets, flags, config);
            Sweep(store, functions[..i + 1], targets, flags, config) ==
            done + FunctionCalls(ApplyAll(store, done), functions[i], targets, flags, config)
  {
    assert functions[..i + 1][..i] == functions[..i];
  }

  /** A single call applied as a sequence is that call applied. */
  lemma ApplyAllOne(store: Store, call: Call)
    ensures ApplyAll(store, [call]) == Apply(store, call)
  {
    assert [call][1..] == [];
  }

  /** Calls that write nothing leave the provider's tags as they were. */
  lemma {:induction false} ReadsChangeNothing(store: Store, calls: seq<Call>)
    requires forall c :: c in calls ==> !c.TagResource?
    ensures ApplyAll(store, calls) == store
    decreases |calls|
  {
    if calls != [] {
      assert calls[0] in calls;
      assert forall c :: c in calls[1..] ==> c in calls;
      ReadsChangeNothing(Apply(store, calls[0]), calls[1..]);
    }
  }

  /** A tag the provider holds stays there: `tag_resource` never removes one. */
  lemma {:induction false} KeysKept(store: Store, calls: seq<Call>, arn: string, key: string)
    requires key in Lookup(store, arn)
    ensures key in Lookup(ApplyAll(store, calls), arn)
    decreases |calls|
  {
    if calls != [] {
      KeysKept(Apply(store, calls[0]), calls[1..], arn, key);
    }
  }

  /** The keys of every `tag_resource` in `calls` are on that function afterwards. */
  lemma {:induction false} WritesLand(store: Store, calls: seq<Call>, k: int)
    requires 0 <= k < |calls| && calls[k].TagResource?
    ensures calls[k].tags.Keys <= Lookup(ApplyAll(store, calls), calls[k].arn).Keys
    decreases |calls|
  {
    if k == 0 {
      forall key | key in calls[0].tags
        ensures key in Lookup(ApplyAll(store, calls), calls[0].arn)
      {
        KeysKept(Apply(store, calls[0]), calls[1..], calls[0].arn, key);
      }
    } else {
      WritesLand(Apply(store, calls[0]), calls[1..], k - 1);
    }
  }

  /** `c` is a `tag_resource` on `arn` carrying exactly one requested tag,
      justified for that tag. */
  predicate WriteForSome(arn: string, existing: TagMap, targets: seq<string>, flags: Flags, config: Config, c: Call)
  {
    c.TagResource? && c.arn == arn &&
    exists j :: 0 <= j < |targets| && c.tags.Keys == {targets[j]} &&
                Justified(arn, existing, targets[j], flags, config, c.tags)
  }

  /** Soundness of the inner loop: every call it makes is a `tag_resource` on
      the function whose tags were read, carrying exactly the one tag some
      requested name resolved to, and only for a tag that is due, with
      `--write` on and `--dry-run` off. At most one write per requested tag. */
  lemma {:induction false} TagCallsSound(arn: string, existing: TagMap, targets: seq<string>, flags: Flags, config: Config)
    ensures |TagCalls(arn, existing, targets, flags, config)| <= |targets|
    ensures forall c :: c in TagCalls(arn, existing, targets, flags, config) ==>
              WriteForSome(arn, existing, targets, flags, config, c)
  {
    if targets != [] {
      var front := targets[..|targets| - 1];
      var last := |targets| - 1;
      TagCallsSound(arn, existing, front, flags, config);
      TagStepSound(arn, existing, targets[last], flags, config);
      var prev := TagCalls(arn, existing, front, flags, config);
      var step := TagStep(arn, existing, targets[last], flags, config);
      forall c: Call | c in prev + step
        ensures WriteForSome(arn, existing, targets, flags, config, c)
      {
        if c in prev {
          assert WriteForSome(arn, existing, front, flags, config, c);
          var j :| 0 <= j < |front| && c.tags.Keys == {front[j]} &&
                   Justified(arn, existing, front[j], flags, config, c.tags);
          assert front[j] == targets[j];
        } else {
          assert c in step;
          assert c.tags.Keys == {targets[last]};
        }
      }
    }
  }

  /** One step writes at most once, to `arn`, exactly the one tag it resolved. */
  lemma TagStepSound(arn: string, existing: TagMap, target: string, flags: Flags, config: Config)
    ensures |TagStep(arn, existing, target, flags, config)| <= 1
    ensures forall c :: c in TagStep(arn, existing, target, flags, config) ==>
              c.TagResource? && c.arn == arn && c.tags.Keys == {target} &&
              Justified(arn, existing, target, flags, config, c.tags)
  {
    if TagStep(arn, existing, target, flags, config) != [] {
      assert NewTags(arn, target, config).Keys == {target};
    }
  }

  /** Completeness of the inner loop: every requested tag that is due and
      resolves is written, with its resolved value, on a live run. */
  lemma {:induction false} TagCallsComplete(arn: string, existing: TagMap, targets: seq<string>, flags: Flags, config: Config, j: int)
    requires 0 <= j < |targets|
    requires Justified(arn, existing, targets[j], flags, config, NewTags(arn, targets[j], config))
    ensures TagResource(arn, NewTags(arn, targets[j], config)) in TagCalls(arn, existing, targets, flags, config)
  {
    var front := targets[..|targets| - 1];
    if j < |targets| - 1 {
      assert front[j] == targets[j];
      TagCallsComplete(arn, existing, front, flags, config, j);
    }
  }

  /** With no requested tag justified, the inner loop makes no call. */
  lemma {:induction false} TagCallsQuiet(arn: string, existing: TagMap, targets: seq<string>, flags: Flags, config: Config)
    requires forall j :: 0 <= j < |targets| ==>
               !Justified(arn, existing, targets[j], flags, config, NewTags(arn, targets[j], config))
    ensures TagCalls(arn, existing, targets, flags, config) == []
  {
    if targets != [] {
      var front := targets[..|targets| - 1];
      assert forall j :: 0 <= j < |front| ==> front[j] == targets[j];
      TagCallsQuiet(arn, existing, front, flags, config);
    }
  }

  /** Writes follow the order of the requested tags: the calls for `a + b`
      are those for `a` followed by those for `b`. */
  lemma {:induction false} TagCallsAppend(arn: string, existing: TagMap, a: seq<string>, b: seq<string>, flags: Flags, config: Config)
    ensures TagCalls(arn, existing, a + b, flags, config) ==
            TagCalls(arn, existing, a, flags, config) + TagCalls(arn, existing, b, flags, config)
    decreases |b|
  {
    if b == [] {
      assert a + b == a;
    } else {
      var front := b[..|b| - 1];
      assert (a + b)[..|a + b| - 1] == a + front;
      assert (a + b)[|a + b| - 1] == b[|b| - 1];
      TagCallsAppend(arn, existing, a, front, flags, config);
    }
  }

  /** The calls for one function: first the read of its tags, then only
      writes to that same ARN. */
  lemma FunctionCallsReadThenWrite(store: Store, arn: string, targets: seq<string>, flags: Flags, config: Config)
    ensures FunctionCalls(store, arn, targets, flags, config)[0] == ListTags(arn)
    ensures forall k :: 1 <= k < |FunctionCalls(store, arn, targets, flags, config)| ==>
              FunctionCalls(store, arn, targets, flags, config)[k].TagResource? &&
              FunctionCalls(store, arn, targets, flags, config)[k].arn == arn
  {
    var calls := FunctionCalls(store, arn, targets, flags, config);
    TagCallsSound(arn, Lookup(store, arn), targets, flags, config);
    forall k | 1 <= k < |calls|
      ensures calls[k].TagResource? && calls[k].arn == arn
    {
      assert calls[k] in TagCalls(arn, Lookup(store, arn), targets, flags, config);
    }
  }

  /** Writes follow the order of the functions: the calls for `fs + gs` are
      those for `fs` followed by those for `gs` on the tags `fs` left behind. */
  lemma {:induction false} SweepAppend(store: Store, fs: seq<string>, gs: seq<string>, targets: seq<string>, flags: Flags, config: Config)
    ensures Sweep(store, fs + gs, targets, flags, config) ==
            Sweep(store, fs, targets, flags, config) +
            Sweep(ApplyAll(store, Sweep(store, fs, targets, flags, config)), gs, targets, flags, config)
    decreases |gs|
  {
    var first := Sweep(store, fs, targets, flags, config);
    if gs == [] {
      assert fs + gs == fs;
    } else {
      var front := gs[..|gs| - 1];
      assert (fs + gs)[..|fs + gs| - 1] == fs + front;
      assert (fs + gs)[|fs + gs| - 1] == gs[|gs| - 1];
      SweepAppend(store, fs, front, targets, flags, config);
      ApplyAllAppend(store, first, Sweep(ApplyAll(store, first), front, targets, flags, config));
    }
  }

  /** The run writes `tags` to `arn` only as a resolution of a requested tag
      on a live run: `--write` on, `--dry-run` off, one key, the resolved value. */
  predicate ResolvedWrite(arn: string, targets: seq<string>, flags: Flags, config: Config, tags: TagMap)
  {
    flags.write && !flags.dryRun &&
    exists j :: 0 <= j < |targets| && tags.Keys == {targets[j]} && tags == NewTags(arn, targets[j], config)
  }

  /** Soundness of the outer loop: every call reads or writes a listed
      function, and every write is a resolved one. */
  lemma {:induction false} SweepSound(store: Store, fs: seq<string>, targets: seq<string>, flags: Flags, config: Config)
    ensures forall c :: c in Sweep(store, fs, targets, flags, config) ==>
              !c.ListFunctions? && c.arn in fs &&
              (c.TagResource? ==> ResolvedWrite(c.arn, targets, flags, config, c.tags))
    decreases |fs|
  {
    if fs != [] {
      var front := fs[..|fs| - 1];
      var done := Sweep(store, front, targets, flags, config);
      var f := fs[|fs| - 1];
      SweepSound(store, front, targets, flags, config);
      TagCallsSound(f, Lookup(ApplyAll(store, done), f), targets, flags, config);
      assert forall a :: a in front ==> a in fs;
    }
  }

  /** With `--write` off, the run issues no `tag_resource` and the provider's
      tags stay as they were, whatever the functions, tags or `--overwrite`. */
  lemma AuditOnlyWritesNothing(store: Store, fs: seq<string>, targets: seq<string>, flags: Flags, config: Config)
    requires !flags.write
    ensures forall c :: c in RunSpec(store, fs, targets, flags, config).calls ==> !c.TagResource?
    ensures ApplyAll(store, RunSpec(store, fs, targets, flags, config).calls) == store
  {
    SweepSound(store, fs, targets, flags, config);
    ReadsChangeNothing(store, RunSpec(store, fs, targets, flags, config).calls);
  }

  /** With `--dry-run`, the run issues no `tag_resource` and the provider's
      tags stay as they were. */
  lemma DryRunWritesNothing(store: Store, fs: seq<string>, targets: seq<string>, flags: Flags, config: Config)
    requires flags.dryRun
    ensures forall c :: c in RunSpec(store, fs, targets, flags, config).calls ==> !c.TagResource?
    ensures ApplyAll(store, RunSpec(store, fs, targets, flags, config).calls) == store
  {
    SweepSound(store, fs, targets, flags, config);
    ReadsChangeNothing(store, RunSpec(store, fs, targets, flags, config).calls);
  }

  /** Every listed function carries every requested tag that resolves for it. */
  predicate Settled(store: Store, fs: seq<string>, targets: seq<string>, config: Config)
  {
    forall i, j :: 0 <= i < |fs| && 0 <= j < |targets| ==>
      targets[j] in Lookup(store, fs[i]) || NewTags(fs[i], targets[j], config) == map[]
  }

  /** After a live sweep every function carries every requested tag that
      resolves for it. */
  lemma {:induction false} SweepSettles(store: Store, fs: seq<string>, targets: seq<string>, flags: Flags, config: Config)
    requires flags.write && !flags.dryRun
    ensures Settled(ApplyAll(store, Sweep(store, fs, targets, flags, config)), fs, targets, config)
    decreases |fs|
  {
    if fs != [] {
      var front := fs[..|fs| - 1];
      var f := fs[|fs| - 1];
      var done := Sweep(store, front, targets, flags, config);
      var s1 := ApplyAll(store, done);
      var calls := FunctionCalls(s1, f, targets, flags, config);
      var final := ApplyAll(store, done + calls);
      SweepSettles(store, front, targets, flags, config);
      ApplyAllAppend(store, done, calls);
      forall i, j | 0 <= i < |fs| && 0 <= j < |targets|
        ensures targets[j] in Lookup(final, fs[i]) || NewTags(fs[i], targets[j], config) == map[]
      {
        if i < |fs| - 1 {
          assert front[i] == fs[i];
          if targets[j] in Lookup(s1, fs[i]) {
            KeysKept(s1, calls, fs[i], targets[j]);
          }
        } else {
          FunctionSettles(s1, f, targets, flags, config, j);
        }
      }
    }
  }

  /** After its own calls, a function carries each requested tag that it
      already had or that resolves for it. */
  lemma FunctionSettles(store: Store, f: string, targets: seq<string>, flags: Flags, config: Config, j: int)
    requires flags.write && !flags.dryRun && 0 <= j < |targets|
    ensures var final := ApplyAll(store, FunctionCalls(store, f, targets, flags, config));
            targets[j] in Lookup(final, f) || NewTags(f, targets[j], config) == map[]
  {
    var calls := FunctionCalls(store, f, targets, flags, config);
    var m := NewTags(f, targets[j], config);
    if targets[j] in Lookup(store, f) {
      KeysKept(store, calls, f, targets[j]);
    } else if m != map[] {
      var existing := Lookup(store, f);
      TagCallsComplete(f, existing, targets, flags, config, j);
      var tc := TagCalls(f, existing, targets, flags, config);
      var k :| 0 <= k < |tc| && tc[k] == TagResource(f, m);
      assert calls[k + 1] == tc[k];
      WritesLand(store, calls, k + 1);
    }
  }

  /** A non-overwriting sweep over settled functions writes nothing. */
  lemma {:induction false} SettledSweepQuiet(store: Store, fs: seq<string>, targets: seq<string>, flags: Flags, config: Config)
    requires !flags.overwrite && Settled(store, fs, targets, config)
    ensures forall c :: c in Sweep(store, fs, targets, flags, config) ==> !c.TagResource?
    decreases |fs|
  {
    if fs != [] {
      var front := fs[..|fs| - 1];
      var f := fs[|fs| - 1];
      var done := Sweep(store, front, targets, flags, config);
      assert forall i :: 0 <= i < |front| ==> front[i] == fs[i];
      SettledSweepQuiet(store, front, targets, flags, config);
      ReadsChangeNothing(store, done);
      TagCallsQuiet(f, Lookup(store, f), targets, flags, config);
    }
  }

  /** Idempotence: after a live run, a second run without `--overwrite` on
      the same functions, tags and config issues no `tag_resource`. */
  lemma RerunWritesNothing(store: Store, fs: seq<string>, targets: seq<string>, config: Config, first: Flags, second: Flags)
    requires first.write && !first.dryRun && !second.overwrite
    ensures var store1 := ApplyAll(store, RunSpec(store, fs, targets, first, config).calls);
            forall c :: c in RunSpec(store1, fs, targets, second, config).calls ==> !c.TagResource?
  {
    var calls1 := RunSpec(store, fs, targets, first, config).calls;
    var store1 := ApplyAll(store, calls1);
    if !second.write {
      AuditOnlyWritesNothing(store1, fs, targets, second, config);
    } else if Covers(config, targets) {
      var sweep := Sweep(store, fs, targets, first, config);
      ApplyAllAppend(store, [ListFunctions], sweep);
      ApplyAllOne(store, ListFunctions);
      SweepSettles(store, fs, targets, first, config);
      SettledSweepQuiet(store1, fs, targets, second, config);
    }
  }

  /** The outcome of one (function, tag) pair as tagger.py:38-62 is written. */
  datatype StepOutcome = Completed(calls: seq<Call>) | Raised(error: string)

  /** tagger.py:38-62 as written: line 55 reads `args.dry`, but argparse
      stores `--dry-run` as `dry_run`, so reaching that line raises
      AttributeError, with or without `--dry-run`. */
  function TagStepAsWritten(arn: string, existing: TagMap, target: string, flags: Flags, config: Config): StepOutcome
  {
    if !Due(existing, target, flags) || !flags.write then Completed([])
    else if |NewTags(arn, target, config)| > 0 then Raised("AttributeError")
    else Completed([])
  }

  /** As written, the code never reaches `tag_resource`: exactly where the
      intended live run would write, it raises instead. */
  lemma AsWrittenRaisesInsteadOfWriting(arn: string, existing: TagMap, target: string, flags: Flags, config: Config)
    ensures TagStepAsWritten(arn, existing, target, flags, config).Completed? ==>
              TagStepAsWritten(arn, existing, target, flags, config).calls == []
    ensures TagStepAsWritten(arn, existing, target, flags, config).Raised? <==>
              TagStep(arn, existing, target, flags.(dryRun := false), config) != []
  {
  }

  /** A function whose ARN names the `prod` environment. */
  const BillingArn := "arn:aws:lambda:" + "us-east-1:1:" + "function:" + "billing-prod"

  /** A config mapping `env` to `prod` and `dev` by the substrings of the same names. */
  const EnvConfig: Config := map["env" := Some([("prod", ["prod"]), ("dev", ["dev"])])]

  /** The `prod` function gets `{"env": "prod"}` on a live run and no write on
      a dry run, while the code as written raises on it. */
  lemma BillingProdExample()
    ensures TagStep(BillingArn, map[], "env", Flags(true, false, false), EnvConfig) ==
            [TagResource(BillingArn, map["env" := "prod"])]
    ensures TagStep(BillingArn, map[], "env", Flags(true, true, false), EnvConfig) == []
    ensures TagStepAsWritten(BillingArn, map[], "env", Flags(true, false, false), EnvConfig) == Raised("AttributeError")
  {
    BillingResolvesProd();
  }

  /** The `prod` substring occurs in the ARN and `dev` does not, so `env`
      resolves to `prod`. */
  lemma BillingResolvesProd()
    ensures NewTags(BillingArn, "env", EnvConfig) == map["env" := "prod"]
  {
    assert OccursAt("prod", BillingArn, 44);
    OccursIff("prod", BillingArn);
    assert MatchesAny(["prod"], BillingArn) by { assert ["prod"][0] == "prod"; }
    assert 'v' !in BillingArn by {
      assert 'v' !in "arn:aws:lambda:" && 'v' !in "us-east-1:1:";
      assert 'v' !in "function:" && 'v' !in "billing-prod";
    }
    AbsentCharNoOccurs("dev", BillingArn, 'v');
    var table := EnvConfig["env"].value;
    assert table[..1] == [("prod", ["prod"])];
    assert LastMatch(BillingArn, table[..1]) == Some("prod");
  }
}
