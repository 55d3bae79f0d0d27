/** The version-bump classifier: commit texts to `patch`, `minor` or `major`. */
module Bump {
  import opened Text

  datatype Level = Patch | Minor | Major

  /** Severity order of the levels. */
  function Rank(l: Level): nat {
    match l
    case Patch => 0
    case Minor => 1
    case Major => 2
  }

  /** The more severe of two levels. */
  function Max(a: Level, b: Level): Level {
    if Rank(a) >= Rank(b) then a else b
  }

  /** The argument handed to `npm version`. */
  function LevelName(l: Level): string {
    match l
    case Patch => "patch"
    case Minor => "minor"
    case Major => "major"
  }

  /** The test for a major bump: the marker or the bang-colon, anywhere in the text. */
  predicate IsBreaking(m: string) {
    Includes(m, "BREAKING CHANGE") || Includes(m, "!:")
  }

  /** The test for a minor bump: the lower-cased text begins with "feat". */
  predicate IsFeature(m: string) {
    StartsWith(ToLower(m), "feat")
  }

  /** `msgs.map(p).includes(true)` */
  predicate AnyOf(msgs: seq<string>, p: string -> bool)
    decreases |msgs|
  {
    |msgs| > 0 && (p(msgs[0]) || AnyOf(msgs[1..], p))
  }

  lemma {:induction false} AnyOfIff(msgs: seq<string>, p: string -> bool)
    ensures AnyOf(msgs, p) <==> exists i :: 0 <= i < |msgs| && p(msgs[i])
    decreases |msgs|
  {
    if |msgs| > 0 {
      AnyOfIff(msgs[1..], p);
      if AnyOf(msgs[1..], p) {
        var j :| 0 <= j < |msgs[1..]| && p(msgs[1..][j]);
        assert p(msgs[j + 1]);
      }
      if exists i :: 0 <= i < |msgs| && p(msgs[i]) {
        var i :| 0 <= i < |msgs| && p(msgs[i]);
        if i > 0 {
          assert msgs[1..][i - 1] == msgs[i];
        }
      }
    }
  }

  /** The level for the assembled commit messages: the first matching rule of three, in priority order. */
  function Classify(msgs: seq<string>): (r: Level)
    ensures r == Major <==> exists i :: 0 <= i < |msgs| && IsBreaking(msgs[i])
    ensures r == Minor <==>
              (forall i :: 0 <= i < |msgs| ==> !IsBreaking(msgs[i])) &&
              (exists i :: 0 <= i < |msgs| && IsFeature(msgs[i]))
    ensures r == Patch <==> forall i :: 0 <= i < |msgs| ==> !IsBreaking(msgs[i]) && !IsFeature(msgs[i])
  {
    AnyOfIff(msgs, IsBreaking);
    AnyOfIff(msgs, IsFeature);
    if AnyOf(msgs, IsBreaking) then Major
    else if AnyOf(msgs, IsFeature) then Minor
    else Patch
  }

  /** The level one message asks for on its own. */
  function LevelOf(m: string): Level {
    if IsBreaking(m) then Major else if IsFeature(m) then Minor else Patch
  }

  /** The most severe per-message level, `Patch` for no messages. */
  function Highest(msgs: seq<string>): Level
    decreases |msgs|
  {
    if msgs == [] then Patch else Max(LevelOf(msgs[0]), Highest(msgs[1..]))
  }

  /** Classifying one more message in front joins its own level with the rest's. */
  lemma ClassifyCons(m: string, rest: seq<string>)
    ensures Classify([m] + rest) == Max(LevelOf(m), Classify(rest))
  {
    assert ([m] + rest)[1..] == rest;
  }

  /** The priority rules amount to taking the most severe level any single message asks for. */
  lemma {:induction false} ClassifyIsHighest(msgs: seq<string>)
    ensures Classify(msgs) == Highest(msgs)
    decreases |msgs|
  {
    if msgs != [] {
      ClassifyIsHighest(msgs[1..]);
      ClassifyCons(msgs[0], msgs[1..]);
      assert [msgs[0]] + msgs[1..] == msgs;
    }
  }

  /** Classifying two batches together gives the more severe of their separate levels. */
  lemma {:induction false} ClassifyConcat(a: seq<string>, b: seq<string>)
    ensures Classify(a + b) == Max(Classify(a), Classify(b))
    decreases |a|
  {
    if a == [] {
      assert a + b == b;
    } else {
      ClassifyConcat(a[1..], b);
      assert a + b == [a[0]] + (a[1..] + b);
      ClassifyCons(a[0], a[1..] + b);
      ClassifyCons(a[0], a[1..]);
      assert [a[0]] + a[1..] == a;
    }
  }

  /** Adding a commit anywhere in the list never lowers the level. */
  lemma ClassifyInsert(a: seq<string>, m: string, b: seq<string>)
    ensures Rank(Classify(a + b)) <= Rank(Classify(a + [m] + b))
  {
    ClassifyConcat(a, b);
    ClassifyConcat(a, [m] + b);
    ClassifyConcat([m], b);
    assert a + [m] + b == a + ([m] + b);
  }

  /** Every element of `a` also in `b`: a message of `a` with property `p` is one of `b`. */
  lemma Transfer(a: seq<string>, b: seq<string>, p: string -> bool)
    requires forall x :: x in a ==> x in b
    ensures (exists i :: 0 <= i < |a| && p(a[i])) ==> exists j :: 0 <= j < |b| && p(b[j])
  {
    if exists i :: 0 <= i < |a| && p(a[i]) {
      var i :| 0 <= i < |a| && p(a[i]);
      assert a[i] in b;
      var j :| 0 <= j < |b| && b[j] == a[i];
    }
  }

  /** Reordering the commits never changes the level. */
  lemma ClassifyPermutation(a: seq<string>, b: seq<string>)
    requires multiset(a) == multiset(b)
    ensures Classify(a) == Classify(b)
  {
    assert forall x :: x in a ==> x in multiset(a);
    assert forall x :: x in b ==> x in multiset(b);
    Transfer(a, b, IsBreaking);
    Transfer(b, a, IsBreaking);
    Transfer(a, b, IsFeature);
    Transfer(b, a, IsFeature);
  }
}
