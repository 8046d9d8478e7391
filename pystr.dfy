/** The two Python string built-ins the tagger relies on: the substring test
    `part in s` (tagger.py:48) and `s.split(",")` (tagger.py:16). */
module PyStr {

  /** `part in s` for Python strings: does `part` occur as a contiguous
      substring of `s`?  The empty string occurs in every string. */
  function Occurs(part: string, s: string): bool
    decreases |s|
  {
    if part <= s then true
    else if s == [] then false
    else Occurs(part, s[1..])
  }

  /** `s` has `part` starting at position `i`. */
  predicate OccursAt(part: string, s: string, i: int)
  {
    0 <= i && i + |part| <= |s| && s[i..i + |part|] == part
  }

  /** The recursive test agrees with the positional definition of a substring. */
  lemma {:induction false} OccursIff(part: string, s: string)
    ensures Occurs(part, s) <==> exists i :: OccursAt(part, s, i)
  {
    if Occurs(part, s) {
      var i := OccursWitness(part, s);
    }
    forall i | OccursAt(part, s, i) ensures Occurs(part, s) {
      OccursAtOccurs(part, s, i);
    }
  }

  /** A substring found by Occurs has a starting position. */
  lemma {:induction false} OccursWitness(part: string, s: string) returns (i: int)
    requires Occurs(part, s)
    ensures OccursAt(part, s, i)
    decreases |s|
  {
    if part <= s {
      i := 0;
    } else {
      var j := OccursWitness(part, s[1..]);
      assert s[1..][j..j + |part|] == s[j + 1..j + 1 + |part|];
      i := j + 1;
    }
  }

  /** A substring at any position is found by Occurs. */
  lemma {:induction false} OccursAtOccurs(part: string, s: string, i: int)
    requires OccursAt(part, s, i)
    ensures Occurs(part, s)
    decreases i
  {
    if i > 0 {
      assert s[1..][i - 1..i - 1 + |part|] == s[i..i + |part|];
      OccursAtOccurs(part, s[1..], i - 1);
    }
  }

  /** A string holding a character that `s` lacks does not occur in `s`. */
  lemma {:induction false} AbsentCharNoOccurs(part: string, s: string, c: char)
    requires c in part && c !in s
    ensures !Occurs(part, s)
    decreases |s|
  {
    var k :| 0 <= k < |part| && part[k] == c;
    if s != [] {
      assert forall x :: x in s[1..] ==> x in s;
      AbsentCharNoOccurs(part, s[1..], c);
    }
    assert k < |s| ==> s[k] != part[k];
  }

  /** `s.split(",")`: the pieces of `s` between commas, in order.  Like
      Python, an empty string gives one empty piece and a comma at either end
      gives an empty piece there. */
  function Split(s: string): (parts: seq<string>)
    ensures |parts| >= 1
    ensures forall k :: 0 <= k < |parts| ==> ',' !in parts[k]
  {
    if s == [] then [""]
    else
      var rest := Split(s[1..]);
      if s[0] == ',' then [""] + rest
      else [[s[0]] + rest[0]] + rest[1..]
  }

  /** `",".join(parts)`, the inverse of Split. */
  function Join(parts: seq<string>): string
    requires |parts| >= 1
  {
    if |parts| == 1 then parts[0] else parts[0] + "," + Join(parts[1..])
  }

  /** Joining the pieces again gives back the original argument. */
  lemma {:induction false} JoinSplit(s: string)
    ensures Join(Split(s)) == s
  {
    if s != [] {
      var rest := Split(s[1..]);
      JoinSplit(s[1..]);
      if s[0] == ',' {
        assert ([""] + rest)[1..] == rest;
        assert Join(Split(s)) == "" + "," + Join(rest);
      } else {
        var parts := [[s[0]] + rest[0]] + rest[1..];
        if |rest| == 1 {
          assert Join(parts) == [s[0]] + rest[0];
        } else {
          assert parts[1..] == rest[1..];
          assert Join(parts) == [s[0]] + rest[0] + "," + Join(rest[1..]);
        }
      }
    }
  }

  /** Splitting a comma-free list of names joined by commas gives the list back. */
  lemma {:induction false} SplitJoin(parts: seq<string>)
    requires |parts| >= 1
    requires forall k :: 0 <= k < |parts| ==> ',' !in parts[k]
    ensures Split(Join(parts)) == parts
    decreases |parts|, |parts[0]|
  {
    if |parts| == 1 {
      SplitPiece(parts[0]);
    } else {
      var tail := parts[1..];
      SplitJoin(tail);
      SplitPieceThenComma(parts[0], Join(tail));
      assert [parts[0]] + tail == parts;
    }
  }

  /** A string without commas splits into itself. */
  lemma {:induction false} SplitPiece(w: string)
    requires ',' !in w
    ensures Split(w) == [w]
  {
    if w != [] {
      SplitPiece(w[1..]);
      assert [w[0]] + w[1..] == w;
    }
  }

  /** A comma-free piece followed by a comma is split off in front. */
  lemma {:induction false} SplitPieceThenComma(w: string, rest: string)
    requires ',' !in w
    ensures Split(w + "," + rest) == [w] + Split(rest)
  {
    if w == [] {
      assert w + "," + rest == [','] + rest;
      assert (w + "," + rest)[1..] == rest;
    } else {
      assert (w + "," + rest)[1..] == w[1..] + "," + rest;
      SplitPieceThenComma(w[1..], rest);
      assert [w[0]] + w[1..] == w;
    }
  }
}
