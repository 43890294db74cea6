/**
 * The two reference tables and their lookups: market values keyed by
 * (position, age, overall) (`buscarValorMercado`) and salary baselines
 * keyed by overall with a fallback to a lower overall
 * (`buscarDadosBaseSalarial`). The table contents are deployment data
 * and are passed in.
 */
module ReferenceData {
  import opened Wrappers
  import opened Seqs

  /** A row of the market table: the market value of a player profile in Brazilian reais (BRL). */
  datatype MarketRecord = MarketRecord(position: string, age: int, overall: int, valueBrl: real)

  /** A row of the salary table: monthly salary and yearly signing bonus for an overall. */
  datatype SalaryRecord = SalaryRecord(overall: int, salaryBase: real, bonusBase: real)

  /** What the salary lookup hands back. */
  datatype SalaryBaseline = SalaryBaseline(salaryBase: real, bonusBase: real)

  function BaselineOf(r: SalaryRecord): SalaryBaseline {
    SalaryBaseline(r.salaryBase, r.bonusBase)
  }

  function SameKey(position: string, age: int, overall: int): MarketRecord -> bool {
    (r: MarketRecord) => r.position == position && r.age == age && r.overall == overall
  }

  /** `buscarValorMercado`: the value of the first row with exactly this key, if any. */
  function FindMarketValue(db: seq<MarketRecord>, position: string, age: int, overall: int): (r: Option<real>)
    ensures r.None? <==> forall i :: 0 <= i < |db| ==> !SameKey(position, age, overall)(db[i])
    ensures r.Some? ==>
      exists i :: 0 <= i < |db| && SameKey(position, age, overall)(db[i]) && r.value == db[i].valueBrl &&
        forall j :: 0 <= j < i ==> !SameKey(position, age, overall)(db[j])
  {
    match Find(db, SameKey(position, age, overall))
    case None => None
    case Some(k) => Some(db[k].valueBrl)
  }

  function ExactOverall(overall: int): SalaryRecord -> bool {
    (r: SalaryRecord) => r.overall == overall
  }

  function AtMostOverall(overall: int): SalaryRecord -> bool {
    (r: SalaryRecord) => r.overall <= overall
  }

  /**
   * `buscarDadosBaseSalarial`: the first row with exactly this overall;
   * failing that, the last row in table order whose overall is at most
   * the requested one; failing that, nothing.
   */
  function FindSalaryBaseline(db: seq<SalaryRecord>, overall: int): (r: Option<SalaryBaseline>)
    ensures r.None? <==> forall i :: 0 <= i < |db| ==> db[i].overall > overall
    ensures r.Some? ==> exists i :: 0 <= i < |db| && db[i].overall <= overall && r.value == BaselineOf(db[i])
  {
    match Find(db, ExactOverall(overall))
    case Some(k) => Some(BaselineOf(db[k]))
    case None =>
      var lower := Filter(db, AtMostOverall(overall));
      if |lower| > 0 then
        assert exists i :: 0 <= i < |db| && db[i].overall <= overall && db[i] == lower[|lower| - 1] by {
          var i := LastOfFilter(db, AtMostOverall(overall));
        }
        Some(BaselineOf(lower[|lower| - 1]))
      else
        None
  }

  /** An exact overall is always preferred, and the first such row wins. */
  lemma SalaryExactMatch(db: seq<SalaryRecord>, overall: int, i: nat)
    requires i < |db| && db[i].overall == overall
    requires forall j :: 0 <= j < i ==> db[j].overall != overall
    ensures FindSalaryBaseline(db, overall) == Some(BaselineOf(db[i]))
  {
    var k := Find(db, ExactOverall(overall));
    assert ExactOverall(overall)(db[i]);
    assert k.Some?;
  }

  /**
   * Without an exact row the lookup falls back to the LAST row, in table
   * order, whose overall is below the requested one.
   */
  lemma SalaryFallback(db: seq<SalaryRecord>, overall: int) returns (i: nat)
    requires forall j :: 0 <= j < |db| ==> db[j].overall != overall
    requires exists j :: 0 <= j < |db| && db[j].overall < overall
    ensures i < |db| && db[i].overall < overall
    ensures forall j :: i < j < |db| ==> db[j].overall > overall
    ensures FindSalaryBaseline(db, overall) == Some(BaselineOf(db[i]))
  {
    assert Find(db, ExactOverall(overall)).None?;
    var lower := Filter(db, AtMostOverall(overall));
    var j :| 0 <= j < |db| && db[j].overall < overall;
    assert AtMostOverall(overall)(db[j]);
    assert db[j] in lower;
    i := LastOfFilter(db, AtMostOverall(overall));
    forall j' | i < j' < |db| ensures db[j'].overall > overall {
      assert !AtMostOverall(overall)(db[j']);
    }
  }

  /** Rows sorted by overall, lowest first, as the salary table is laid out. */
  ghost predicate SortedByOverall(db: seq<SalaryRecord>) {
    forall i, j :: 0 <= i < j < |db| ==> db[i].overall <= db[j].overall
  }

  /**
   * On a table sorted by overall the lookup returns a row with the greatest
   * overall not above the requested one: never a higher overall, never a
   * lower one when a closer one exists.
   */
  lemma SalaryGreatestLowerOnSortedTable(db: seq<SalaryRecord>, overall: int) returns (i: nat)
    requires SortedByOverall(db)
    requires FindSalaryBaseline(db, overall).Some?
    ensures i < |db| && db[i].overall <= overall
    ensures FindSalaryBaseline(db, overall) == Some(BaselineOf(db[i]))
    ensures forall j :: 0 <= j < |db| && db[j].overall <= overall ==> db[j].overall <= db[i].overall
  {
    var k := Find(db, ExactOverall(overall));
    if k.Some? {
      assert ExactOverall(overall)(db[k.value]);
      i := k.value;
    } else {
      forall j | 0 <= j < |db| ensures db[j].overall != overall {
        assert !ExactOverall(overall)(db[j]);
      }
      i := SalaryFallback(db, overall);
    }
  }

  /** "77 falls back to 75": with rows for 75 and 80 only, overall 77 gets the 75 baseline. */
  lemma SalaryFallbackExample()
    ensures var db := [SalaryRecord(75, 60000.0, 120000.0), SalaryRecord(80, 100000.0, 200000.0)];
      FindSalaryBaseline(db, 77) == Some(SalaryBaseline(60000.0, 120000.0))
  {
    var db := [SalaryRecord(75, 60000.0, 120000.0), SalaryRecord(80, 100000.0, 200000.0)];
    var i := SalaryFallback(db, 77);
    assert i == 0;
  }
}
