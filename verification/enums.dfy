/**
 * The closed sets of values the query functions take as arguments: the
 * sensor, the original split, the season and the country.  Each stands for
 * a string-valued enumeration; `Name` is the string the tables store.
 * Arguments outside these sets are refused before the functions run
 * (pydantic's `validate_arguments`), so the model makes them unrepresentable.
 */
module Enums {
  import opened Wrappers
  import opened Strings
  import Constants

  datatype SentinelSource = S1 | S2

  datatype Split = Train | Validation | Test
  {
    function Name(): string {
      match this
      case Train => "train"
      case Validation => "validation"
      case Test => "test"
    }
  }

  /** The meteorological seasons of the northern hemisphere, in declaration order. */
  datatype Season = Winter | Spring | Summer | Fall
  {
    function Name(): string {
      match this
      case Winter => "Winter"
      case Spring => "Spring"
      case Summer => "Summer"
      case Fall => "Fall"
    }
  }

  /** `list(Season)`: the members in declaration order. */
  const SEASONS: seq<Season> := [Winter, Spring, Summer, Fall]

  /**
   * `Season.from_idx(idx)`, i.e. `list(Season)[idx]`: Python list indexing,
   * where a negative index counts from the end, so -4 .. 3 are accepted and
   * anything else raises IndexError.
   */
  function SeasonFromIdx(idx: int): (r: Result<Season>)
    ensures r.Ok? <==> -4 <= idx < 4
    ensures r.Err? ==> r.error == IndexError
    ensures 0 <= idx < 4 ==> r == Ok(SEASONS[idx])
  {
    if 0 <= idx < 4 then Ok(SEASONS[idx])
    else if -4 <= idx < 0 then Ok(SEASONS[idx + 4])
    else Err(IndexError)
  }

  /** A negative index names the same season as the index four places later. */
  lemma SeasonFromNegativeIdx(idx: int)
    requires -4 <= idx < 0
    ensures SeasonFromIdx(idx) == SeasonFromIdx(idx + 4)
  {
  }

  /** Each season sits at its own position: `from_idx` is a bijection from 0 .. 3. */
  lemma SeasonFromIdxBijective(s: Season)
    ensures exists i :: 0 <= i < 4 && SeasonFromIdx(i) == Ok(s)
    ensures forall i, j :: 0 <= i < j < 4 ==> SeasonFromIdx(i) != SeasonFromIdx(j)
  {
    match s
    case Winter => assert SeasonFromIdx(0) == Ok(s);
    case Spring => assert SeasonFromIdx(1) == Ok(s);
    case Summer => assert SeasonFromIdx(2) == Ok(s);
    case Fall => assert SeasonFromIdx(3) == Ok(s);
  }

  /** The ten BigEarthNet countries. */
  datatype Country =
    | Austria | Belgium | Finland | Ireland | Kosovo
    | Lithuania | Luxembourg | Portugal | Serbia | Switzerland
  {
    function Name(): (n: string)
      ensures n in Constants.COUNTRIES
    {
      match this
      case Austria => "Austria"
      case Belgium => "Belgium"
      case Finland => "Finland"
      case Ireland => "Ireland"
      case Kosovo => "Kosovo"
      case Lithuania => "Lithuania"
      case Luxembourg => "Luxembourg"
      case Portugal => "Portugal"
      case Serbia => "Serbia"
      case Switzerland => "Switzerland"
    }
  }

  /** Every name in `COUNTRIES` belongs to exactly one member of the enumeration. */
  lemma CountryNames(n: string)
    requires n in Constants.COUNTRIES
    ensures exists c: Country :: c.Name() == n
    ensures forall c: Country, d: Country :: c.Name() == n && d.Name() == n ==> c == d
  {
    var i :| 0 <= i < |Constants.COUNTRIES| && Constants.COUNTRIES[i] == n;
    var all := [Austria, Belgium, Finland, Ireland, Kosovo, Lithuania, Luxembourg, Portugal, Serbia, Switzerland];
    assert all[i].Name() == n;
  }

  /** Different countries have different names. */
  lemma CountryNameInjective(a: Country, b: Country)
    requires a != b
    ensures a.Name() != b.Name()
  {
    CountryNames(a.Name());
  }
}
