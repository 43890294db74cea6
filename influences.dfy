/**
 * External influences: the list of user-entered adjustments, each with a
 * severity that maps to a signed percentage, and their aggregate
 * `epsilon` as the fee computation consumes it.
 */
module Influences {
  import opened Wrappers
  import opened Seqs

  /** One entry of the list: `{id, label, perfil, valor}`. */
  datatype Influence = Influence(id: int, name: string, profile: string, value: real)

  /** The two fields the entry editor changes. */
  datatype Field = LabelField | ProfileField

  /** The severity table `PERFIS_INFLUENCIA`; an unknown or empty key is worth 0. */
  function SeverityValue(key: string): (v: real)
    ensures -0.15 <= v <= 0.15
    ensures v == 0.0 <==> key !in {"critica", "severa", "moderada", "leve", "positiva", "excelente"}
    ensures v < 0.0 <==> key in {"critica", "severa", "moderada"}
  {
    if key == "critica" then -0.15
    else if key == "severa" then -0.10
    else if key == "moderada" then -0.05
    else if key == "leve" then 0.05
    else if key == "positiva" then 0.10
    else if key == "excelente" then 0.15
    else 0.0
  }

  /** The entry after `atualizarInfluencia` sets one field to `text`. */
  function Updated(e: Influence, field: Field, text: string): (u: Influence)
    ensures u.id == e.id
    ensures field == LabelField ==> u == e.(name := text)
    ensures field == ProfileField ==> u.name == e.name && u.profile == text && u.value == SeverityValue(text)
  {
    match field
    case LabelField => e.(name := text)
    case ProfileField => e.(profile := text, value := SeverityValue(text))
  }

  function HasId(id: int): Influence -> bool {
    (e: Influence) => e.id == id
  }

  function NotId(id: int): Influence -> bool {
    (e: Influence) => e.id != id
  }

  /** Ids that grow strictly along the list. */
  ghost predicate IdsIncreasing(s: seq<Influence>) {
    forall i, j :: 0 <= i < j < |s| ==> s[i].id < s[j].id
  }

  lemma IdsIncreasingTail(s: seq<Influence>)
    requires s != [] && IdsIncreasing(s)
    ensures IdsIncreasing(s[1..])
  {
    var tail := s[1..];
    forall i, j | 0 <= i < j < |tail| ensures tail[i].id < tail[j].id {
      assert tail[i] == s[i + 1] && tail[j] == s[j + 1];
    }
  }

  lemma IdsIncreasingCons(x: Influence, rest: seq<Influence>)
    requires IdsIncreasing(rest)
    requires forall k :: 0 <= k < |rest| ==> x.id < rest[k].id
    ensures IdsIncreasing([x] + rest)
  {
    var r := [x] + rest;
    forall i, j | 0 <= i < j < |r| ensures r[i].id < r[j].id {
      assert r[j] == rest[j - 1];
      if i > 0 {
        assert r[i] == rest[i - 1];
      }
    }
  }

  /** Removing entries keeps the remaining ones in their order. */
  lemma {:induction false} FilterKeepsIdsIncreasing(s: seq<Influence>, p: Influence -> bool)
    requires IdsIncreasing(s)
    ensures IdsIncreasing(Filter(s, p))
  {
    if s != [] {
      var tail := s[1..];
      IdsIncreasingTail(s);
      FilterKeepsIdsIncreasing(tail, p);
      var rest := Filter(tail, p);
      if p(s[0]) {
        forall k | 0 <= k < |rest| ensures s[0].id < rest[k].id {
          var j :| 0 <= j < |tail| && tail[j] == rest[k];
          assert tail[j] == s[j + 1];
        }
        IdsIncreasingCons(s[0], rest);
        assert Filter(s, p) == [s[0]] + rest;
      } else {
        assert Filter(s, p) == rest;
      }
    }
  }

  /** Whether an entry enters `epsilon`: in a deficit only the negative ones do. */
  function Counted(deficit: bool): Influence -> bool {
    (e: Influence) => if deficit then e.value < 0.0 else true
  }

  /** The `reduce` of the values, added from the left starting at 0. */
  function SumValues(s: seq<Influence>): (r: real)
    ensures (forall i :: 0 <= i < |s| ==> s[i].value >= 0.0) ==> r >= 0.0
    ensures (forall i :: 0 <= i < |s| ==> s[i].value <= 0.0) ==> r <= 0.0
  {
    if s == [] then 0.0 else SumValues(s[..|s| - 1]) + s[|s| - 1].value
  }

  /** The aggregate `epsilon`: the sum of the values of the entries that count in this regime. */
  function Epsilon(entries: seq<Influence>, deficit: bool): (r: real)
    ensures (forall i :: 0 <= i < |entries| ==> entries[i].value >= 0.0) ==> r >= 0.0
    ensures (forall i :: 0 <= i < |entries| ==> entries[i].value <= 0.0) ==> r <= 0.0
  {
    SumValues(Filter(entries, Counted(deficit)))
  }

  lemma {:induction false} SumValuesConcat(a: seq<Influence>, b: seq<Influence>)
    ensures SumValues(a + b) == SumValues(a) + SumValues(b)
  {
    if b != [] {
      assert (a + b)[..|a + b| - 1] == a + b[..|b| - 1];
      SumValuesConcat(a, b[..|b| - 1]);
    } else {
      assert a + b == a;
    }
  }

  /** The negative part of the list: each value counted only when it is below 0. */
  function NegativePart(s: seq<Influence>): real {
    if s == [] then 0.0 else (if s[0].value < 0.0 then s[0].value else 0.0) + NegativePart(s[1..])
  }

  /** The positive part of the list: each value counted only when it is at least 0. */
  function PositivePart(s: seq<Influence>): real {
    if s == [] then 0.0 else (if s[0].value < 0.0 then 0.0 else s[0].value) + PositivePart(s[1..])
  }

  lemma {:induction false} PartsSplitSum(s: seq<Influence>)
    ensures SumValues(s) == NegativePart(s) + PositivePart(s)
    ensures NegativePart(s) <= 0.0 <= PositivePart(s)
  {
    if s != [] {
      PartsSplitSum(s[1..]);
      SumValuesConcat([s[0]], s[1..]);
      assert [s[0]] + s[1..] == s;
      assert SumValues([s[0]]) == s[0].value by {
        assert [s[0]][..0] == [];
      }
    }
  }

  /** In a deficit `epsilon` is the negative part of the list exactly. */
  lemma {:induction false} DeficitEpsilonIsNegativePart(s: seq<Influence>)
    ensures Epsilon(s, true) == NegativePart(s)
  {
    if s != [] {
      DeficitEpsilonIsNegativePart(s[1..]);
      var head := if s[0].value < 0.0 then [s[0]] else [];
      assert Filter(s, Counted(true)) == head + Filter(s[1..], Counted(true));
      SumValuesConcat(head, Filter(s[1..], Counted(true)));
      assert SumValues(head) == (if s[0].value < 0.0 then s[0].value else 0.0) by {
        if head != [] {
          assert head[..0] == [];
        }
      }
    }
  }

  /** Outside a deficit `epsilon` is the sum of every value. */
  lemma SurplusEpsilonIsTotal(s: seq<Influence>)
    ensures Epsilon(s, false) == SumValues(s)
  {
    FilterAll(s, Counted(false));
  }

  /** A deficit can only be deepened by external influences: its `epsilon` is never positive. */
  lemma DeficitEpsilonNonPositive(s: seq<Influence>)
    ensures Epsilon(s, true) <= 0.0
  {
    DeficitEpsilonIsNegativePart(s);
    PartsSplitSum(s);
  }

  /** Positive influences never soften a deficit: its `epsilon` is at most the surplus one. */
  lemma DeficitEpsilonAtMostSurplus(s: seq<Influence>)
    ensures Epsilon(s, true) <= Epsilon(s, false)
  {
    DeficitEpsilonIsNegativePart(s);
    SurplusEpsilonIsTotal(s);
    PartsSplitSum(s);
  }

  /**
   * One more entry with a non-negative value leaves a deficit `epsilon`
   * unchanged and adds its full value to a surplus one.
   */
  lemma NonNegativeEntryContribution(s: seq<Influence>, e: Influence)
    requires e.value >= 0.0
    ensures Epsilon(s + [e], true) == Epsilon(s, true)
    ensures Epsilon(s + [e], false) == Epsilon(s, false) + e.value
  {
    FilterConcat(s, [e], Counted(true));
    FilterConcat(s, [e], Counted(false));
    assert Filter([e], Counted(true)) == [];
    assert Filter([e], Counted(false)) == [e];
    assert Filter(s, Counted(true)) + [] == Filter(s, Counted(true));
  }

  /** Outside a deficit every entry counts: a new entry adds its value, whatever its sign. */
  lemma SurplusEntryContribution(s: seq<Influence>, e: Influence)
    ensures Epsilon(s + [e], false) == Epsilon(s, false) + e.value
  {
    SurplusEpsilonIsTotal(s);
    SurplusEpsilonIsTotal(s + [e]);
    assert (s + [e])[..|s + [e]| - 1] == s;
  }

  /** Values drawn from the severity table. */
  ghost predicate TableValues(s: seq<Influence>) {
    forall i :: 0 <= i < |s| ==> s[i].value == SeverityValue(s[i].profile)
  }

  /** With table values each entry moves `epsilon` by at most 0.15 either way. */
  lemma {:induction false} EpsilonBounds(s: seq<Influence>, deficit: bool)
    requires TableValues(s)
    ensures -0.15 * |s| as real <= Epsilon(s, deficit) <= 0.15 * |s| as real
  {
    if s != [] {
      var front := s[..|s| - 1];
      var last := s[|s| - 1];
      assert s == front + [last];
      EpsilonBounds(front, deficit);
      FilterConcat(front, [last], Counted(deficit));
      SumValuesConcat(Filter(front, Counted(deficit)), Filter([last], Counted(deficit)));
      var tail := Filter([last], Counted(deficit));
      assert SumValues(tail) == 0.0 || SumValues(tail) == last.value by {
        if tail != [] {
          assert tail == [last];
          assert tail[..0] == [];
        }
      }
    }
  }

  /**
   * The list `influenciasExternas` and its counter `contadorInfluencias`,
   * changed only by adding, removing, editing and resetting.
   */
  class Ledger {
    var entries: seq<Influence>
    var counter: int

    /** Ids are positive, never above the counter and strictly increasing; values follow the table. */
    ghost predicate Valid()
      reads this
    {
      && counter >= 0
      && (forall i :: 0 <= i < |entries| ==> 1 <= entries[i].id <= counter)
      && IdsIncreasing(entries)
      && TableValues(entries)
    }

    constructor ()
      ensures Valid()
      ensures entries == [] && counter == 0
    {
      entries := [];
      counter := 0;
    }

    /** `adicionarInfluencia`: the counter goes up and a blank entry with that id is appended. */
    method Add()
      requires Valid()
      modifies this
      ensures Valid()
      ensures counter == old(counter) + 1
      ensures entries == old(entries) + [Influence(counter, "", "", 0.0)]
      ensures forall i :: 0 <= i < |old(entries)| ==> old(entries)[i].id < counter
    {
      counter := counter + 1;
      entries := entries + [Influence(counter, "", "", 0.0)];
    }

    /** `removerInfluencia`: every entry with this id goes, the others stay in order. */
    method Remove(id: int)
      requires Valid()
      modifies this
      ensures Valid()
      ensures counter == old(counter)
      ensures entries == Filter(old(entries), NotId(id))
      ensures forall i :: 0 <= i < |entries| ==> entries[i].id != id && entries[i] in old(entries)
      ensures forall i :: 0 <= i < |old(entries)| && old(entries)[i].id != id ==> old(entries)[i] in entries
    {
      FilterKeepsIdsIncreasing(entries, NotId(id));
      entries := Filter(entries, NotId(id));
    }

    /**
     * `atualizarInfluencia`: the first entry with this id gets the new
     * label, or the new severity key together with its table value; an
     * unknown id changes nothing.
     */
    method Update(id: int, field: Field, text: string)
      requires Valid()
      modifies this
      ensures Valid()
      ensures counter == old(counter)
      ensures |entries| == |old(entries)|
      ensures Find(old(entries), HasId(id)).None? ==> entries == old(entries)
      ensures Find(old(entries), HasId(id)).Some? ==>
        var k := Find(old(entries), HasId(id)).value;
        entries == old(entries)[k := Updated(old(entries)[k], field, text)]
    {
      var k := Find(entries, HasId(id));
      if k.Some? {
        entries := entries[k.value := Updated(entries[k.value], field, text)];
      }
    }

    /** The form's reset: the list is emptied and the counter starts again from 0. */
    method Reset()
      modifies this
      ensures Valid()
      ensures entries == [] && counter == 0
    {
      entries := [];
      counter := 0;
    }
  }
}
