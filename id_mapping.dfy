/**
 * Identifier mapping (src/utils/id-mapping.ts).
 *
 * The generator memoises a counter: the first time it sees a board id it
 * hands out `{{ID:n}}` with the current counter value and advances the
 * counter; every later call with that id returns the stored value. The
 * mapper is a plain cache from template ids to the ids of created items.
 */
module IdMapping {
  import opened Wrappers
  import opened Strings
  import opened TemplateTypes

  /** The synthetic id printed for counter value `n`: `{{ID:n}}`. */
  function TemplateIdOf(n: nat): string
  {
    "{{ID:" + DecimalString(n) + "}}"
  }

  /** Different counter values give different synthetic ids. */
  lemma TemplateIdInjective(m: nat, n: nat)
    requires TemplateIdOf(m) == TemplateIdOf(n)
    ensures m == n
  {
    var a, b := TemplateIdOf(m), TemplateIdOf(n);
    assert |DecimalString(m)| == |DecimalString(n)|;
    assert DecimalString(m) == a[5..|a| - 2];
    assert DecimalString(n) == b[5..|b| - 2];
    DecimalStringInjective(m, n);
  }

  /** The generator's closure state: the memo map and the next counter value. */
  datatype GeneratorState = GeneratorState(idMapping: map<string, string>, nextId: nat)

  /** The state `createIdGenerator()` starts from. */
  const FreshGenerator := GeneratorState(map[], 0)

  /** `map(miroId)`: the stored id when one is stored (and not empty), else the next `{{ID:n}}`. */
  function MapId(g: GeneratorState, miroId: string): (GeneratorState, string)
  {
    var existing := Lookup(g.idMapping, miroId);
    if Truthy(existing) then (g, existing.value)
    else
      var templateId := TemplateIdOf(g.nextId);
      (GeneratorState(g.idMapping[miroId := templateId], g.nextId + 1), templateId)
  }

  /** No two keys share a value. */
  ghost predicate Injective(m: map<string, string>)
  {
    forall a, b :: a in m && b in m && a != b ==> m[a] != m[b]
  }

  /** Every stored value is `{{ID:n}}` for a counter value already handed out, and no value is stored twice. */
  ghost predicate GeneratorInv(g: GeneratorState)
  {
    (forall k :: k in g.idMapping ==> exists n :: 0 <= n < g.nextId && g.idMapping[k] == TemplateIdOf(n))
    && Injective(g.idMapping)
  }

  /**
   * One call to `map`: a seen id gets its stored value back and nothing
   * changes; a new id gets `{{ID:nextId}}`, the counter advances by one, and
   * the map only gains that entry. The invariant is kept.
   */
  lemma MapIdStep(g: GeneratorState, miroId: string)
    requires GeneratorInv(g)
    ensures var (g', t) := MapId(g, miroId);
      && GeneratorInv(g')
      && miroId in g'.idMapping && g'.idMapping[miroId] == t
      && (miroId in g.idMapping ==> g' == g && t == g.idMapping[miroId])
      && (miroId !in g.idMapping ==>
            t == TemplateIdOf(g.nextId) && g'.nextId == g.nextId + 1
            && g'.idMapping == g.idMapping[miroId := t])
  {
    var (g', t) := MapId(g, miroId);
    if miroId in g.idMapping {
      var n :| 0 <= n < g.nextId && g.idMapping[miroId] == TemplateIdOf(n);
      assert |TemplateIdOf(n)| > 0;
    } else {
      assert |TemplateIdOf(g.nextId)| > 0;
      forall k | k in g'.idMapping
        ensures exists n :: 0 <= n < g'.nextId && g'.idMapping[k] == TemplateIdOf(n)
      {
        if k == miroId {
          assert g'.idMapping[k] == TemplateIdOf(g.nextId);
        } else {
          var n :| 0 <= n < g.nextId && g.idMapping[k] == TemplateIdOf(n);
          assert g'.idMapping[k] == TemplateIdOf(n);
        }
      }
      forall a, b | a in g'.idMapping && b in g'.idMapping && a != b
        ensures g'.idMapping[a] != g'.idMapping[b]
      {
        if a == miroId || b == miroId {
          var other := if a == miroId then b else a;
          var n :| 0 <= n < g.nextId && g.idMapping[other] == TemplateIdOf(n);
          if TemplateIdOf(n) == TemplateIdOf(g.nextId) {
            TemplateIdInjective(n, g.nextId);
          }
        }
      }
    }
  }

  /** No element occurs twice. */
  ghost predicate Distinct(s: seq<string>)
  {
    forall i, j :: 0 <= i < j < |s| ==> s[i] != s[j]
  }

  /** The ids of `ids` in first-encounter order, each once. */
  function FirstEncounters(ids: seq<string>): (r: seq<string>)
    ensures Distinct(r)
    ensures forall x :: x in r <==> x in ids
  {
    if ids == [] then []
    else
      var seen := FirstEncounters(ids[..|ids| - 1]);
      var last := ids[|ids| - 1];
      if last in seen then seen else seen + [last]
  }

  /** Position of `x` in `s`. */
  function IndexIn(s: seq<string>, x: string): (r: nat)
    requires x in s
    ensures r < |s| && s[r] == x && x !in s[..r]
  {
    if s[0] == x then 0 else 1 + IndexIn(s[1..], x)
  }

  /** `map` applied to each id in turn: the final state and the returned ids. */
  function MapIds(g: GeneratorState, ids: seq<string>): (r: (GeneratorState, seq<string>))
    ensures |r.1| == |ids|
  {
    if ids == [] then (g, [])
    else
      var (g', outs) := MapIds(g, ids[..|ids| - 1]);
      var (g'', t) := MapId(g', ids[|ids| - 1]);
      (g'', outs + [t])
  }

  /** The generator numbers `seen` in order: its `j`-th id is stored as `{{ID:j}}`, and nothing else is stored. */
  ghost predicate NumbersInOrder(g: GeneratorState, seen: seq<string>)
  {
    && g.nextId == |seen|
    && (forall x :: x in g.idMapping <==> x in seen)
    && (forall j :: 0 <= j < |seen| ==> seen[j] in g.idMapping && g.idMapping[seen[j]] == TemplateIdOf(j))
  }

  /** Each returned id is the one stored for its input. */
  ghost predicate OutputsStored(g: GeneratorState, ids: seq<string>, outs: seq<string>)
  {
    && |outs| == |ids|
    && forall i :: 0 <= i < |ids| ==> ids[i] in g.idMapping && outs[i] == g.idMapping[ids[i]]
  }

  /** The state after mapping `ids` on a fresh generator: one `{{ID:j}}` per first encounter, in order. */
  ghost predicate NumberedInOrder(g: GeneratorState, ids: seq<string>, outs: seq<string>)
  {
    NumbersInOrder(g, FirstEncounters(ids)) && OutputsStored(g, ids, outs)
  }

  /** A new id is numbered after the ones seen so far. */
  lemma NumbersExtend(g0: GeneratorState, seen0: seq<string>, last: string)
    requires NumbersInOrder(g0, seen0) && last !in seen0
    ensures NumbersInOrder(GeneratorState(g0.idMapping[last := TemplateIdOf(g0.nextId)], g0.nextId + 1), seen0 + [last])
  {
    var seen := seen0 + [last];
    var m := g0.idMapping[last := TemplateIdOf(g0.nextId)];
    forall j | 0 <= j < |seen|
      ensures seen[j] in m && m[seen[j]] == TemplateIdOf(j)
    {
      if j < |seen0| {
        assert seen[j] == seen0[j];
      }
    }
  }

  /** Storing more entries keeps earlier outputs valid, and one more output for `last` is its stored id. */
  lemma OutputsExtend(g0: GeneratorState, g1: GeneratorState, pre: seq<string>, o0: seq<string>, last: string, t: string)
    requires OutputsStored(g0, pre, o0)
    requires forall x :: x in g0.idMapping ==> x in g1.idMapping && g1.idMapping[x] == g0.idMapping[x]
    requires last in g1.idMapping && g1.idMapping[last] == t
    ensures OutputsStored(g1, pre + [last], o0 + [t])
  {
    var ids, outs := pre + [last], o0 + [t];
    forall i | 0 <= i < |ids|
      ensures ids[i] in g1.idMapping && outs[i] == g1.idMapping[ids[i]]
    {
      if i < |pre| {
        assert ids[i] == pre[i] && outs[i] == o0[i];
      }
    }
  }

  /** Mapping one more id keeps the numbering in first-encounter order. */
  lemma NumberedStep(g0: GeneratorState, pre: seq<string>, o0: seq<string>, last: string)
    requires NumberedInOrder(g0, pre, o0)
    ensures NumberedInOrder(MapId(g0, last).0, pre + [last], o0 + [MapId(g0, last).1])
  {
    var ids := pre + [last];
    assert ids[..|ids| - 1] == pre;
    var seen0 := FirstEncounters(pre);
    if last in seen0 {
      assert FirstEncounters(ids) == seen0;
      var j := IndexIn(seen0, last);
      assert g0.idMapping[last] == TemplateIdOf(j);
      assert MapId(g0, last) == (g0, g0.idMapping[last]);
      OutputsExtend(g0, g0, pre, o0, last, g0.idMapping[last]);
    } else {
      assert FirstEncounters(ids) == seen0 + [last];
      assert last !in g0.idMapping;
      var t := TemplateIdOf(g0.nextId);
      var g1 := GeneratorState(g0.idMapping[last := t], g0.nextId + 1);
      assert MapId(g0, last) == (g1, t);
      NumbersExtend(g0, seen0, last);
      OutputsExtend(g0, g1, pre, o0, last, t);
    }
  }

  /** Mapping `ids` on a fresh generator numbers them in first-encounter order. */
  lemma {:induction false} MapIdsNumbered(ids: seq<string>)
    ensures NumberedInOrder(MapIds(FreshGenerator, ids).0, ids, MapIds(FreshGenerator, ids).1)
  {
    if ids != [] {
      var pre, last := ids[..|ids| - 1], ids[|ids| - 1];
      MapIdsNumbered(pre);
      var r0 := MapIds(FreshGenerator, pre);
      NumberedStep(r0.0, pre, r0.1, last);
      var step := MapId(r0.0, last);
      assert MapIds(FreshGenerator, ids) == (step.0, r0.1 + [step.1]);
      assert pre + [last] == ids;
    }
  }

  /**
   * Feeding any sequence of board ids to a fresh generator: the `i`-th
   * result is `{{ID:j}}` where `j` is the rank of `ids[i]` among the ids in
   * first-encounter order.
   */
  lemma MapIdsFirstEncounter(ids: seq<string>)
    ensures var outs := MapIds(FreshGenerator, ids).1;
      forall i :: 0 <= i < |ids| ==> outs[i] == TemplateIdOf(IndexIn(FirstEncounters(ids), ids[i]))
  {
    MapIdsNumbered(ids);
    var (g, outs) := MapIds(FreshGenerator, ids);
    var seen := FirstEncounters(ids);
    forall i | 0 <= i < |ids|
      ensures outs[i] == TemplateIdOf(IndexIn(seen, ids[i]))
    {
      var k := IndexIn(seen, ids[i]);
      assert seen[k] == ids[i];
    }
  }

  /** Equal board ids get equal synthetic ids, and different board ids different ones. */
  lemma MapIdsInjective(ids: seq<string>, i: nat, j: nat)
    requires i < |ids| && j < |ids|
    ensures var outs := MapIds(FreshGenerator, ids).1; outs[i] == outs[j] <==> ids[i] == ids[j]
  {
    MapIdsFirstEncounter(ids);
    var outs := MapIds(FreshGenerator, ids).1;
    var seen := FirstEncounters(ids);
    if outs[i] == outs[j] {
      var a, b := IndexIn(seen, ids[i]), IndexIn(seen, ids[j]);
      TemplateIdInjective(a, b);
    }
  }

  /** A fresh generator numbers `id-1` then `id-2` as `{{ID:0}}` and `{{ID:1}}`, and repeats `{{ID:0}}` for `id-1`. */
  lemma GeneratorExample()
    ensures MapIds(FreshGenerator, ["id-1", "id-2", "id-1"]).1 == ["{{ID:0}}", "{{ID:1}}", "{{ID:0}}"]
  {
    assert TemplateIdOf(0) == "{{ID:0}}" && TemplateIdOf(1) == "{{ID:1}}";
    var ids := ["id-1", "id-2", "id-1"];
    assert ids[..2] == ["id-1", "id-2"] && ids[..2][..1] == ["id-1"] && ids[..2][..1][..0] == [];
    var g1 := GeneratorState(map["id-1" := "{{ID:0}}"], 1);
    assert MapIds(FreshGenerator, []) == (FreshGenerator, []);
    assert MapId(FreshGenerator, "id-1") == (g1, "{{ID:0}}");
    var one: seq<string> := ["id-1"];
    assert one[..0] == [] && one[0] == "id-1";
    assert MapIds(FreshGenerator, one) == (MapId(FreshGenerator, "id-1").0, [] + [MapId(FreshGenerator, "id-1").1]);
    var first := MapId(FreshGenerator, "id-1");
    assert first.0 == g1 && first.1 == "{{ID:0}}";
    assert MapIds(FreshGenerator, one).0 == g1;
    assert MapIds(FreshGenerator, one).1 == [] + [first.1];
    assert [] + [first.1] == [first.1];
    assert [first.1] == ["{{ID:0}}"];
    assert MapIds(FreshGenerator, one) == (g1, ["{{ID:0}}"]);
    var g2 := GeneratorState(map["id-1" := "{{ID:0}}", "id-2" := "{{ID:1}}"], 2);
    assert MapId(g1, "id-2") == (g2, "{{ID:1}}");
    var two: seq<string> := ["id-1", "id-2"];
    assert two[..1] == one && two[1] == "id-2";
    var second := MapId(g1, "id-2");
    assert second.0 == g2 && second.1 == "{{ID:1}}";
    assert MapIds(FreshGenerator, two).0 == g2;
    assert MapIds(FreshGenerator, two).1 == ["{{ID:0}}"] + [second.1];
    assert ["{{ID:0}}"] + [second.1] == ["{{ID:0}}", "{{ID:1}}"];
    assert MapIds(FreshGenerator, ids).1 == ["{{ID:0}}", "{{ID:1}}"] + [MapId(g2, "id-1").1];
    assert MapId(g2, "id-1") == (g2, "{{ID:0}}");
  }

  /** `createIdGenerator()`: the memo map and counter live in an object that every call updates. */
  class IdGenerator {
    var idMapping: map<string, string>
    var nextId: nat

    function State(): GeneratorState
      reads this
    {
      GeneratorState(idMapping, nextId)
    }

    ghost predicate Valid()
      reads this
    {
      GeneratorInv(State())
    }

    constructor ()
      ensures Valid() && State() == FreshGenerator
    {
      idMapping := map[];
      nextId := 0;
    }

    /** `map(miroId)`: returns the memoised id or assigns the next one. */
    method Map(miroId: string) returns (templateId: string)
      requires Valid()
      modifies this
      ensures Valid()
      ensures (State(), templateId) == MapId(old(State()), miroId)
      ensures miroId in old(idMapping) ==> templateId == old(idMapping)[miroId] && State() == old(State())
      ensures miroId !in old(idMapping) ==>
        templateId == TemplateIdOf(old(nextId)) && nextId == old(nextId) + 1
        && idMapping == old(idMapping)[miroId := templateId]
    {
      MapIdStep(State(), miroId);
      var existing := Lookup(idMapping, miroId);
      if !Truthy(existing) {
        templateId := TemplateIdOf(nextId);
        nextId := nextId + 1;
        idMapping := idMapping[miroId := templateId];
      } else {
        templateId := existing.value;
      }
    }
  }

  /** `createIdMapper()`: a cache from template ids to created item ids. */
  class IdMapper {
    var idMapping: map<string, string>

    constructor ()
      ensures idMapping == map[]
    {
      idMapping := map[];
    }

    /** `set`: records `templateId -> miroId`, overwriting an earlier entry; other keys are untouched. */
    method Set(templateId: string, miroId: string)
      modifies this
      ensures idMapping == old(idMapping)[templateId := miroId]
      ensures templateId in idMapping && idMapping[templateId] == miroId
      ensures forall k :: k != templateId ==> Lookup(idMapping, k) == Lookup(old(idMapping), k)
    {
      idMapping := idMapping[templateId := miroId];
    }

    /** `get`: the recorded id, or `undefined` for a key never set. */
    method Get(templateId: string) returns (miroId: Option<string>)
      ensures templateId in idMapping ==> miroId == Some(idMapping[templateId])
      ensures templateId !in idMapping ==> miroId == None
    {
      miroId := Lookup(idMapping, templateId);
    }
  }
}
