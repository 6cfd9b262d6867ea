/** The process-path catalogue and its longest-prefix lookup. */
module PathCatalog {
  import opened Types

  datatype PathDefinition = PathDefinition(id: string, matchPrefix: string, capabilities: seq<string>,
      destinationRole: string)

  /** How strings are lower-cased; nothing about it is assumed. */
  type Casing = string -> string

  /** `id` equals the prefix, or goes on with a dash after it. */
  predicate MatchesPrefix(id: string, prefix: string) {
    id == prefix || prefix + "-" <= id
  }

  /** The dash is needed: an id of the family is the prefix itself, or the prefix with a dash right behind it. */
  lemma FamilyIffDash(id: string, prefix: string)
    ensures MatchesPrefix(id, prefix) <==>
      |prefix| <= |id| && id[..|prefix|] == prefix && (|id| == |prefix| || id[|prefix|] == '-')
  {
    if MatchesPrefix(id, prefix) && id != prefix {
      assert (prefix + "-")[..|prefix|] == prefix && (prefix + "-")[|prefix|] == '-';
      assert id[..|prefix| + 1] == prefix + "-";
      assert id[..|prefix|] == id[..|prefix| + 1][..|prefix|];
    }
    if |prefix| < |id| && id[..|prefix|] == prefix && id[|prefix|] == '-' {
      assert id[..|prefix| + 1] == prefix + "-";
    }
  }

  /** The lower-cased id begins with the definition's lower-cased prefix, and a dash or nothing follows. */
  ghost predicate InFamily(lower: Casing, d: PathDefinition, id: string) {
    var p, s := lower(d.matchPrefix), lower(id);
    0 < |p| <= |s| && s[..|p|] == p && (|s| == |p| || s[|p|] == '-')
  }

  lemma RecognizesIffInFamily(lower: Casing, d: PathDefinition, id: string)
    ensures Recognizes(lower, d, id) <==> InFamily(lower, d, id)
  {
    FamilyIffDash(lower(id), lower(d.matchPrefix));
  }

  /** The definition declares a non-empty prefix that matches the id. */
  predicate Recognizes(lower: Casing, d: PathDefinition, id: string) {
    lower(d.matchPrefix) != "" && MatchesPrefix(lower(id), lower(d.matchPrefix))
  }

  /** `d` recognizes the id, and nothing in `defs` does so with a longer prefix. */
  ghost predicate IsLongest(lower: Casing, defs: seq<PathDefinition>, id: string, d: PathDefinition) {
    && d in defs && Recognizes(lower, d, id)
    && forall e :: e in defs && Recognizes(lower, e, id) ==> |lower(e.matchPrefix)| <= |lower(d.matchPrefix)|
  }

  /** The first definition with the longest matching prefix; None exactly when none matches. */
  ghost predicate IsAnswer(lower: Casing, defs: seq<PathDefinition>, id: string, answer: Option<PathDefinition>) {
    match answer
    case None => forall e :: e in defs ==> !Recognizes(lower, e, id)
    case Some(d) =>
      && IsLongest(lower, defs, id, d)
      && exists i :: 0 <= i < |defs| && defs[i] == d && forall j :: 0 <= j < i ==> !IsLongest(lower, defs, id, defs[j])
  }

  class Catalogue {
    const defs: seq<PathDefinition>
    const lower: Casing

    constructor (defs: seq<PathDefinition>, lower: Casing)
      ensures this.defs == defs && this.lower == lower
    {
      this.defs, this.lower := defs, lower;
    }

    method Lookup(id: string) returns (answer: Option<PathDefinition>)
      ensures IsAnswer(lower, defs, id, answer)
      ensures answer == None <==> forall d :: d in defs ==> !InFamily(lower, d, id)
      ensures answer.Some? ==> InFamily(lower, answer.value, id)
    {
      var bestLen := -1;
      answer := None;
      ghost var at := 0;
      for i := 0 to |defs|
        invariant bestLen >= -1 && (bestLen == -1 <==> answer == None)
        invariant forall j :: 0 <= j < i && Recognizes(lower, defs[j], id) ==> |lower(defs[j].matchPrefix)| <= bestLen
        invariant answer.Some? ==> 0 <= at < i && defs[at] == answer.value && Recognizes(lower, defs[at], id)
        invariant answer.Some? ==> bestLen == |lower(defs[at].matchPrefix)|
        invariant forall j :: 0 <= j < at && answer.Some? && Recognizes(lower, defs[j], id) ==>
          |lower(defs[j].matchPrefix)| < bestLen
      {
        var prefix := lower(defs[i].matchPrefix);
        if prefix == "" { continue; }
        if !MatchesPrefix(lower(id), prefix) { continue; }
        if |prefix| > bestLen {
          answer, bestLen, at := Some(defs[i]), |prefix|, i;
        }
      }
      forall d ensures Recognizes(lower, d, id) <==> InFamily(lower, d, id) { RecognizesIffInFamily(lower, d, id); }
      if answer.Some? {
        assert defs[at] in defs;
        assert IsLongest(lower, defs, id, defs[at]);
      }
    }
  }

  /** Two prefixes of the same length that match the same id are the same prefix. */
  lemma EqualLengthMatchesAreEqual(id: string, p: string, q: string)
    requires MatchesPrefix(id, p) && MatchesPrefix(id, q) && |p| == |q|
    ensures p == q
  {
    assert id[..|p|] == p && id[..|q|] == q by {
      if id != p { assert (p + "-")[..|p|] == p; }
      if id != q { assert (q + "-")[..|q|] == q; }
    }
  }

  lemma AnswerIsUnique(lower: Casing, defs: seq<PathDefinition>, id: string, a: Option<PathDefinition>,
      b: Option<PathDefinition>)
    requires IsAnswer(lower, defs, id, a) && IsAnswer(lower, defs, id, b)
    ensures a == b
  {
    if a.Some? && b.Some? {
      var i :| 0 <= i < |defs| && defs[i] == a.value && forall j :: 0 <= j < i ==> !IsLongest(lower, defs, id, defs[j]);
      var k :| 0 <= k < |defs| && defs[k] == b.value && forall j :: 0 <= j < k ==> !IsLongest(lower, defs, id, defs[j]);
      assert i == k;
    }
  }

  lemma SameMembers(a: seq<PathDefinition>, b: seq<PathDefinition>, e: PathDefinition)
    requires multiset(a) == multiset(b)
    ensures e in a <==> e in b
  {
    assert e in multiset(a) <==> e in multiset(b);
  }

  /** Whether the longest match is one definition, however the definitions are ordered. */
  ghost predicate OneLongest(lower: Casing, defs: seq<PathDefinition>, id: string) {
    forall d, e :: IsLongest(lower, defs, id, d) && IsLongest(lower, defs, id, e) ==> d == e
  }

  /** With one longest match, every order of the definitions gives the same answer. */
  lemma OrderDoesNotMatter(lower: Casing, defs: seq<PathDefinition>, other: seq<PathDefinition>, id: string,
                           a: Option<PathDefinition>, b: Option<PathDefinition>)
    requires multiset(defs) == multiset(other) && OneLongest(lower, defs, id)
    requires IsAnswer(lower, defs, id, a) && IsAnswer(lower, other, id, b)
    ensures a == b
  {
    forall e ensures e in defs <==> e in other { SameMembers(defs, other, e); }
    if b.Some? { assert IsLongest(lower, defs, id, b.value); }
  }

  /** Moves one definition to the front. */
  function Fronted(defs: seq<PathDefinition>, i: nat): (r: seq<PathDefinition>)
    requires i < |defs|
    ensures multiset(r) == multiset(defs) && r[0] == defs[i]
  {
    assert defs == defs[..i] + [defs[i]] + defs[i + 1..];
    [defs[i]] + (defs[..i] + defs[i + 1..])
  }

  /** With two different longest matches, two orders of the same definitions answer differently. */
  lemma OrderMatters(lower: Casing, defs: seq<PathDefinition>, id: string, i: nat, k: nat)
    requires i < |defs| && k < |defs| && defs[i] != defs[k]
    requires IsLongest(lower, defs, id, defs[i]) && IsLongest(lower, defs, id, defs[k])
    ensures !OneLongest(lower, defs, id)
    ensures IsAnswer(lower, Fronted(defs, i), id, Some(defs[i])) && IsAnswer(lower, Fronted(defs, k), id, Some(defs[k]))
    ensures lower(defs[i].matchPrefix) == lower(defs[k].matchPrefix)
  {
    FrontWins(lower, defs, id, i);
    FrontWins(lower, defs, id, k);
    EqualLengthMatchesAreEqual(lower(id), lower(defs[i].matchPrefix), lower(defs[k].matchPrefix));
  }

  lemma FrontWins(lower: Casing, defs: seq<PathDefinition>, id: string, i: nat)
    requires i < |defs| && IsLongest(lower, defs, id, defs[i])
    ensures IsAnswer(lower, Fronted(defs, i), id, Some(defs[i]))
  {
    var r := Fronted(defs, i);
    forall e ensures e in defs <==> e in r { SameMembers(defs, r, e); }
    assert r[0] == defs[i];
    assert IsLongest(lower, r, id, r[0]);
  }

  /** Some order of the definitions gives this answer. */
  ghost predicate SomeOrderAnswers(lower: Casing, defs: seq<PathDefinition>, id: string,
      answer: Option<PathDefinition>)
  {
    exists other :: multiset(other) == multiset(defs) && IsAnswer(lower, other, id, answer)
  }

  ghost predicate OrderIndependent(lower: Casing, defs: seq<PathDefinition>, id: string) {
    forall a, b :: SomeOrderAnswers(lower, defs, id, a) && SomeOrderAnswers(lower, defs, id, b) ==> a == b
  }

  /** All orders of the definitions give the same answer exactly when the longest match is one definition. */
  lemma OrderIndependentIff(lower: Casing, defs: seq<PathDefinition>, id: string)
    ensures OrderIndependent(lower, defs, id) <==> OneLongest(lower, defs, id)
  {
    if OneLongest(lower, defs, id) {
      forall a, b | SomeOrderAnswers(lower, defs, id, a) && SomeOrderAnswers(lower, defs, id, b) ensures a == b {
        var x :| multiset(x) == multiset(defs) && IsAnswer(lower, x, id, a);
        var y :| multiset(y) == multiset(defs) && IsAnswer(lower, y, id, b);
        OneLongestInAnyOrder(lower, defs, x, id);
        OrderDoesNotMatter(lower, x, y, id, a, b);
      }
    } else {
      var d, e :| IsLongest(lower, defs, id, d) && IsLongest(lower, defs, id, e) && d != e;
      var i :| 0 <= i < |defs| && defs[i] == d;
      var k :| 0 <= k < |defs| && defs[k] == e;
      OrderMatters(lower, defs, id, i, k);
      assert SomeOrderAnswers(lower, defs, id, Some(d)) && SomeOrderAnswers(lower, defs, id, Some(e));
    }
  }

  lemma OneLongestInAnyOrder(lower: Casing, defs: seq<PathDefinition>, other: seq<PathDefinition>, id: string)
    requires multiset(defs) == multiset(other) && OneLongest(lower, defs, id)
    ensures OneLongest(lower, other, id)
  {
    forall e ensures e in defs <==> e in other { SameMembers(defs, other, e); }
    forall d, e | IsLongest(lower, other, id, d) && IsLongest(lower, other, id, e) ensures d == e {
      assert IsLongest(lower, defs, id, d) && IsLongest(lower, defs, id, e);
    }
  }

  /** Pairwise distinct lower-cased prefixes are enough for every id. */
  lemma DistinctPrefixesSuffice(lower: Casing, defs: seq<PathDefinition>, id: string)
    requires forall i, k :: 0 <= i < k < |defs| ==> lower(defs[i].matchPrefix) != lower(defs[k].matchPrefix)
    ensures OneLongest(lower, defs, id)
  {
    forall d, e | IsLongest(lower, defs, id, d) && IsLongest(lower, defs, id, e) ensures d == e {
      EqualLengthMatchesAreEqual(lower(id), lower(d.matchPrefix), lower(e.matchPrefix));
      var i :| 0 <= i < |defs| && defs[i] == d;
      var k :| 0 <= k < |defs| && defs[k] == e;
    }
  }
}
