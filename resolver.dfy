/** Tag value resolution (tagger.py:44-49): the value a target tag gets on one
    Lambda function, chosen by matching the configured substrings against the
    function's ARN. */
module Resolver {
  import opened PyStr

  datatype Option<+T> = None | Some(value: T)

  /** The YAML body under one tag name: each tag value with the ARN
      substrings that select it, in the order the YAML mapping lists them
      (Python dicts keep insertion order, and that order breaks ties). */
  type ValueTable = seq<(string, seq<string>)>

  /** The loaded YAML file: tag name to its body; `None` is a null body
      (a tag name with nothing after the colon). */
  type Config = map<string, Option<ValueTable>>

  /** Some substring in `parts` occurs in `arn`. */
  predicate MatchesAny(parts: seq<string>, arn: string)
  {
    exists k :: 0 <= k < |parts| && Occurs(parts[k], arn)
  }

  /** Entry `i` of the table matches `arn` and no later entry does. */
  predicate IsLastMatch(arn: string, table: ValueTable, i: int)
  {
    0 <= i < |table| && MatchesAny(table[i].1, arn) &&
    forall k :: i < k < |table| ==> !MatchesAny(table[k].1, arn)
  }

  /** The value of the last table entry whose substrings match `arn`, if any. */
  function LastMatch(arn: string, table: ValueTable): Option<string>
  {
    if table == [] then None
    else if MatchesAny(table[|table| - 1].1, arn) then Some(table[|table| - 1].0)
    else LastMatch(arn, table[..|table| - 1])
  }

  /** Nothing is resolved exactly when no listed substring occurs in the ARN. */
  lemma {:induction false} LastMatchNone(arn: string, table: ValueTable)
    ensures LastMatch(arn, table) == None <==>
            forall k :: 0 <= k < |table| ==> !MatchesAny(table[k].1, arn)
  {
    if table != [] {
      var front := table[..|table| - 1];
      LastMatchNone(arn, front);
      assert forall k :: 0 <= k < |front| ==> front[k] == table[k];
    }
  }

  /** Last match wins: when entry `i` is the last matching one, its value is
      the one resolved, whatever earlier entries matched. */
  lemma {:induction false} LastMatchWins(arn: string, table: ValueTable, i: int)
    requires IsLastMatch(arn, table, i)
    ensures LastMatch(arn, table) == Some(table[i].0)
  {
    if i < |table| - 1 {
      var front := table[..|table| - 1];
      assert !MatchesAny(table[|table| - 1].1, arn);
      assert front[i] == table[i];
      assert forall k :: i < k < |front| ==> front[k] == table[k];
      LastMatchWins(arn, front, i);
    }
  }

  /** A resolved value comes from the last matching entry. */
  lemma {:induction false} LastMatchFound(arn: string, table: ValueTable) returns (i: int)
    requires LastMatch(arn, table).Some?
    ensures IsLastMatch(arn, table, i) && LastMatch(arn, table) == Some(table[i].0)
  {
    var front := table[..|table| - 1];
    if MatchesAny(table[|table| - 1].1, arn) {
      i := |table| - 1;
    } else {
      i := LastMatchFound(arn, front);
      assert front[i] == table[i];
      assert forall k :: i < k < |front| ==> front[k] == table[k];
    }
  }

  /** `{target: v}` for a resolved value `v`, `{}` for none. */
  function TagsOf(target: string, resolved: Option<string>): map<string, string>
  {
    match resolved
    case Some(v) => map[target := v]
    case None => map[]
  }

  /** The map `new_tags` holds once the loops of tagger.py:44-49 are done: the
      last matching value under `target`, or nothing when the tag is not in
      the config, its body is null, or no substring matches. */
  function NewTags(arn: string, target: string, config: Config): (m: map<string, string>)
    ensures m.Keys <= {target}
    ensures target in m ==>
              target in config && config[target].Some? &&
              LastMatch(arn, config[target].value) == Some(m[target])
    ensures target in config && config[target].Some? &&
            (exists i :: 0 <= i < |config[target].value| && MatchesAny(config[target].value[i].1, arn)) ==>
              target in m
  {
    if target in config && config[target].Some? then
      LastMatchNone(arn, config[target].value);
      TagsOf(target, LastMatch(arn, config[target].value))
    else map[]
  }

  /** A resolved value is listed in the config under the last entry with a
      substring that occurs in the ARN; a null or empty body resolves nothing. */
  lemma ResolvedValueMatches(arn: string, target: string, config: Config)
    ensures target in NewTags(arn, target, config) ==>
              exists i :: IsLastMatch(arn, config[target].value, i) &&
                          config[target].value[i].0 == NewTags(arn, target, config)[target]
    ensures target in config && (config[target] == None || config[target] == Some([])) ==>
              NewTags(arn, target, config) == map[]
  {
    if target in NewTags(arn, target, config) {
      var i := LastMatchFound(arn, config[target].value);
    }
  }

  /** The nested loops of tagger.py:44-49: walk the values under `target` and
      their substrings in order, and for every substring that occurs in the
      ARN set `new_tags[target]` to that value. */
  method ResolveNewTags(arn: string, target: string, config: Config)
    returns (newTags: map<string, string>)
    ensures newTags == NewTags(arn, target, config)
  {
    newTags := map[];
    if target in config && config[target].Some? {
      var table := config[target].value;
      var i := 0;
      while i < |table|
        invariant 0 <= i <= |table|
        invariant newTags == TagsOf(target, LastMatch(arn, table[..i]))
      {
        var (value, parts) := table[i];
        var j := 0;
        while j < |parts|
          invariant 0 <= j <= |parts|
          invariant newTags == if MatchesAny(parts[..j], arn) then map[target := value]
                               else TagsOf(target, LastMatch(arn, table[..i]))
        {
          if Occurs(parts[j], arn) {
            newTags := newTags[target := value];
          }
          assert forall k :: 0 <= k < j ==> parts[..j + 1][k] == parts[..j][k];
          assert parts[..j + 1][j] == parts[j];
          j := j + 1;
        }
        assert parts[..j] == parts;
        assert table[..i + 1][..i] == table[..i];
        assert table[..i + 1][i] == (value, parts);
        i := i + 1;
      }
      assert table[..i] == table;
    }
  }
}
