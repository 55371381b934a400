/** Ordered keyword tables. The filename heuristics of the contract store and
    the topic router of the chat assistant are if/else-if chains over
    `includes` tests where the first test that succeeds decides; this module
    states that shape once, as a table of rules looked up first-match. */
module Rules {
  import opened Text

  /** One rung of an if/else-if chain: it fires when the text includes any of
      its keywords. */
  datatype Rule<T> = Rule(keywords: seq<string>, outcome: T)

  /** `kws.some(k => s.includes(k))`, written as a disjunction left to right. */
  predicate AnyContains(s: string, kws: seq<string>)
  {
    kws != [] && (Contains(s, kws[0]) || AnyContains(s, kws[1..]))
  }

  lemma {:induction false} AnyContainsIff(s: string, kws: seq<string>)
    ensures AnyContains(s, kws) <==> exists k :: 0 <= k < |kws| && Contains(s, kws[k])
  {
    if kws != [] {
      AnyContainsIff(s, kws[1..]);
      if AnyContains(s, kws[1..]) {
        var k :| 0 <= k < |kws| - 1 && Contains(s, kws[1..][k]);
        assert Contains(s, kws[k + 1]);
      }
      if exists k :: 0 <= k < |kws| && Contains(s, kws[k]) {
        var k :| 0 <= k < |kws| && Contains(s, kws[k]);
        if k > 0 {
          assert kws[1..][k - 1] == kws[k];
        }
      }
    }
  }

  predicate Hits<T>(rule: Rule<T>, s: string)
  {
    AnyContains(s, rule.keywords)
  }

  /** The index of the first rule that fires on `s`, if any. */
  function FirstHit<T>(rules: seq<Rule<T>>, s: string): (r: Option<nat>)
    ensures r.Some? ==> r.value < |rules| && Hits(rules[r.value], s)
    ensures r.Some? ==> forall j :: 0 <= j < r.value ==> !Hits(rules[j], s)
    ensures r.None? <==> forall j :: 0 <= j < |rules| ==> !Hits(rules[j], s)
  {
    if rules == [] then None
    else if Hits(rules[0], s) then Some(0)
    else match FirstHit(rules[1..], s)
      case Some(i) => Some(i + 1)
      case None => None
  }

  /** What an if/else-if chain over the table yields, rung by rung. */
  function Lookup<T>(rules: seq<Rule<T>>, s: string, default: T): T
  {
    if rules == [] then default
    else if Hits(rules[0], s) then rules[0].outcome
    else Lookup(rules[1..], s, default)
  }

  /** The chain yields the outcome of the first rule that fires, or `default`
      when none does. */
  lemma {:induction false} LookupIsFirstHit<T>(rules: seq<Rule<T>>, s: string, default: T)
    ensures Lookup(rules, s, default) == match FirstHit(rules, s)
                                         case Some(i) => rules[i].outcome
                                         case None => default
  {
    if rules != [] && !Hits(rules[0], s) {
      LookupIsFirstHit(rules[1..], s, default);
    }
  }

  /** A rule fires on `s` and no earlier rule does: its outcome is the result. */
  lemma LookupAt<T>(rules: seq<Rule<T>>, s: string, default: T, i: nat)
    requires i < |rules| && Hits(rules[i], s)
    requires forall j :: 0 <= j < i ==> !Hits(rules[j], s)
    ensures Lookup(rules, s, default) == rules[i].outcome
  {
    LookupIsFirstHit(rules, s, default);
    var k := FirstHit(rules, s);
    assert k.Some? && k.value == i;
  }

  /** No rule fires: the default is the result. */
  lemma LookupNone<T>(rules: seq<Rule<T>>, s: string, default: T)
    requires forall j :: 0 <= j < |rules| ==> !Hits(rules[j], s)
    ensures Lookup(rules, s, default) == default
  {
    LookupIsFirstHit(rules, s, default);
  }

  // Tables of fixed length, unrolled into the chains they stand for.

  lemma HitsOne<T>(kw: string, o: T, s: string)
    ensures Hits(Rule([kw], o), s) <==> Contains(s, kw)
  {
    assert [kw][1..] == [];
    assert !AnyContains(s, []);
  }

  lemma HitsTwo<T>(kw1: string, kw2: string, o: T, s: string)
    ensures Hits(Rule([kw1, kw2], o), s) <==> Contains(s, kw1) || Contains(s, kw2)
  {
    assert [kw1, kw2][1..] == [kw2];
    assert [kw2][1..] == [];
    assert !AnyContains(s, []);
    assert AnyContains(s, [kw2]) <==> Contains(s, kw2);
  }

  lemma Lookup1<T>(r0: Rule<T>, s: string, d: T)
    ensures Lookup([r0], s, d) == if Hits(r0, s) then r0.outcome else d
  {
    assert [r0][1..] == [];
  }

  lemma Lookup2<T>(r0: Rule<T>, r1: Rule<T>, s: string, d: T)
    ensures Lookup([r0, r1], s, d) == if Hits(r0, s) then r0.outcome else Lookup([r1], s, d)
  {
    assert [r0, r1][1..] == [r1];
  }

  lemma Lookup3<T>(r0: Rule<T>, r1: Rule<T>, r2: Rule<T>, s: string, d: T)
    ensures Lookup([r0, r1, r2], s, d) == if Hits(r0, s) then r0.outcome else Lookup([r1, r2], s, d)
  {
    assert [r0, r1, r2][1..] == [r1, r2];
  }

  lemma Lookup5<T>(r0: Rule<T>, r1: Rule<T>, r2: Rule<T>, r3: Rule<T>, r4: Rule<T>, s: string, d: T)
    ensures Lookup([r0, r1, r2, r3, r4], s, d) == if Hits(r0, s) then r0.outcome else Lookup([r1, r2, r3, r4], s, d)
    ensures Lookup([r1, r2, r3, r4], s, d) == if Hits(r1, s) then r1.outcome else Lookup([r2, r3, r4], s, d)
    ensures Lookup([r2, r3, r4], s, d) == if Hits(r2, s) then r2.outcome else Lookup([r3, r4], s, d)
  {
    assert [r0, r1, r2, r3, r4][1..] == [r1, r2, r3, r4];
    assert [r1, r2, r3, r4][1..] == [r2, r3, r4];
    assert [r2, r3, r4][1..] == [r3, r4];
  }
}
