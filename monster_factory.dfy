/** The monster factory of the modular generation (factories/MonsterFactory.js):
    a base-stat table per element type scaled by level, and a random name made
    of a type-specific prefix and a shared suffix. The two random draws are
    parameters in [0, 1). */
module Factory {
  import opened Common
  import opened Monsters

  datatype Stats = Stats(hp: int, attack: int, defense: int)

  /** The four entries of the stat table. */
  function StatTable(elementType: string): Option<Stats> {
    match elementType
    case "fire" => Some(Stats(100, 15, 10))
    case "water" => Some(Stats(120, 12, 15))
    case "grass" => Some(Stats(90, 14, 12))
    case "normal" => Some(Stats(110, 13, 13))
    case _ => None
  }

  /** `getBaseStats(type)`: the table entry, or the normal stats for a type it lacks. */
  function GetBaseStats(elementType: string): (st: Stats)
    ensures StatTable(elementType).Some? ==> st == StatTable(elementType).value
    ensures StatTable(elementType).None? ==> st == Stats(110, 13, 13)
    ensures st.hp >= 90 && st.attack >= 12 && st.defense >= 10
  {
    match StatTable(elementType)
    case Some(st) => st
    case None => Stats(110, 13, 13)
  }

  /** `1 + (level - 1) * 0.1`. */
  function LevelMultiplier(level: int): (m: real)
    ensures m == 1.0 <==> level == 1
    ensures level >= 1 ==> m >= 1.0
    ensures level < 1 ==> m < 1.0
  {
    1.0 + (level - 1) as real * 0.1
  }

  /** `Math.floor(base * levelMultiplier)`: the largest whole number not above the scaled stat. */
  function ScaleStat(base: int, level: int): (r: int)
    ensures r as real <= base as real * LevelMultiplier(level) < r as real + 1.0
  {
    (base as real * LevelMultiplier(level)).Floor
  }

  /** At level 1 the stats are the base stats. */
  lemma LevelOneKeepsBase(base: int)
    ensures ScaleStat(base, 1) == base
  {
  }

  /** A non-negative stat never shrinks as the level rises. */
  lemma ScaleStatMonotone(base: int, level: int, higher: int)
    requires base >= 0 && level <= higher
    ensures ScaleStat(base, level) <= ScaleStat(base, higher)
  {
    var lo := base as real * LevelMultiplier(level);
    var hi := base as real * LevelMultiplier(higher);
    assert hi - lo == base as real * ((higher - level) as real * 0.1);
    assert lo <= hi;
    assert lo.Floor as real <= lo && hi < hi.Floor as real + 1.0;
  }

  /** Each level adds a tenth of the base, so from level 1 on a non-negative
      stat is at least its base. */
  lemma ScaleStatAtLeastBase(base: int, level: int)
    requires base >= 0 && level >= 1
    ensures ScaleStat(base, level) >= base
  {
    ScaleStatMonotone(base, 1, level);
  }

  /** The three name prefixes of each type the name table knows. */
  function Prefixes(elementType: string): Option<seq<string>> {
    match elementType
    case "fire" => Some(["블레이즈", "플레임", "인페르노"])
    case "water" => Some(["웨이브", "타이드", "오션"])
    case "grass" => Some(["리프", "바인", "포레스트"])
    case "normal" => Some(["와일드", "페럴", "내추럴"])
    case _ => None
  }

  const Suffixes: seq<string> := ["몬", "드라", "곤", "이트", "츄"]

  lemma ProductOfPositives(a: real, b: real)
    requires a > 0.0 && b > 0.0
    ensures a * b > 0.0
  {
  }

  /** `Math.floor(rnd * n)`: a valid index into a list of length n. */
  function PickIndex(rnd: real, n: nat): (i: nat)
    requires 0.0 <= rnd < 1.0 && n > 0
    ensures i < n
  {
    var x := rnd * n as real;
    assert x < n as real by {
      ProductOfPositives(n as real, 1.0 - rnd);
      assert n as real - x == n as real * (1.0 - rnd);
    }
    x.Floor
  }

  /** `generateName(type)`: a prefix of the type followed by a suffix. A type
      missing from the name table makes `prefixes[type].length` throw. */
  function GenerateName(elementType: string, rndPrefix: real, rndSuffix: real): (r: Result<string>)
    requires 0.0 <= rndPrefix < 1.0 && 0.0 <= rndSuffix < 1.0
    ensures Prefixes(elementType).None? <==> r == Err(TypeError)
    ensures r.Ok? ==> exists i, j :: 0 <= i < 3 && 0 <= j < 5 &&
                        r.value == Prefixes(elementType).value[i] + Suffixes[j]
  {
    match Prefixes(elementType)
    case None => Err(TypeError)
    case Some(prefixes) =>
      var i := PickIndex(rndPrefix, |prefixes|);
      var j := PickIndex(rndSuffix, |Suffixes|);
      Ok(prefixes[i] + Suffixes[j])
  }

  /** Every type with a stat entry also has names, but a type missing from
      both tables gets the normal stats and still cannot be named. */
  lemma FallbackStatsButNoName(elementType: string, rndPrefix: real, rndSuffix: real)
    requires 0.0 <= rndPrefix < 1.0 && 0.0 <= rndSuffix < 1.0
    ensures StatTable(elementType).Some? <==> Prefixes(elementType).Some?
    ensures StatTable(elementType).None? ==>
              GetBaseStats(elementType) == GetBaseStats("normal")
              && GenerateName(elementType, rndPrefix, rndSuffix) == Err(TypeError)
  {
  }

  /** The evidently intended naming: a type without names of its own borrows
      the normal prefixes, as its stats do. */
  function GenerateNameWithFallback(elementType: string, rndPrefix: real, rndSuffix: real): (name: string)
    requires 0.0 <= rndPrefix < 1.0 && 0.0 <= rndSuffix < 1.0
    ensures Prefixes(elementType).Some? ==> Ok(name) == GenerateName(elementType, rndPrefix, rndSuffix)
    ensures Prefixes(elementType).None? ==> Ok(name) == GenerateName("normal", rndPrefix, rndSuffix)
  {
    var prefixes := match Prefixes(elementType) case Some(p) => p case None => Prefixes("normal").value;
    prefixes[PickIndex(rndPrefix, |prefixes|)] + Suffixes[PickIndex(rndSuffix, |Suffixes|)]
  }

  /** `createMonster(type, level)`: the base stats scaled by the level, a
      generated name, full hit points; a type without names throws. */
  method CreateMonster(elementType: string, level: int, rndPrefix: real, rndSuffix: real) returns (r: Result<Monster>)
    requires 0.0 <= rndPrefix < 1.0 && 0.0 <= rndSuffix < 1.0
    ensures Prefixes(elementType).None? ==> r == Err(TypeError)
    ensures Prefixes(elementType).Some? ==>
              && r.Ok? && fresh(r.value)
              && Ok(r.value.name) == GenerateName(elementType, rndPrefix, rndSuffix)
              && r.value.elementType == elementType
              && r.value.hp == r.value.maxHp == ScaleStat(GetBaseStats(elementType).hp, level)
              && r.value.attack == ScaleStat(GetBaseStats(elementType).attack, level)
              && r.value.defense == ScaleStat(GetBaseStats(elementType).defense, level)
              && r.value.state == None && r.value.observers == [] && r.value.outbox == []
  {
    var base := GetBaseStats(elementType);
    var name := GenerateName(elementType, rndPrefix, rndSuffix);
    if name.Err? {
      return Err(name.exception);
    }
    var m := new Monster(name.value, elementType, ScaleStat(base.hp, level),
                         ScaleStat(base.attack, level), ScaleStat(base.defense, level));
    r := Ok(m);
  }
}
