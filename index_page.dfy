/** The hub page (`Index`): which level is open, if any, and the set of
    levels completed in this session. */
module IndexPage {
  import opened LevelTypes
  import Levels

  /** `levels.find(l => l.id === id)`: the first level with that id. */
  function Find(levels: seq<Level>, id: int): (r: Option<Level>)
    ensures r.None? <==> forall k :: 0 <= k < |levels| ==> levels[k].id != id
    ensures r.Some? ==> r.value.id == id
    ensures r.Some? ==>
      (exists k :: 0 <= k < |levels| && levels[k] == r.value && forall j :: 0 <= j < k ==> levels[j].id != id)
  {
    if levels == [] then None
    else if levels[0].id == id then Some(levels[0])
    else Find(levels[1..], id)
  }

  /** With unique ids, looking up a level of the list finds that level. */
  lemma {:induction false} FindMember(levels: seq<Level>, k: nat)
    requires Levels.UniqueIds(levels) && k < |levels|
    ensures Find(levels, levels[k].id) == Some(levels[k])
  {
    if k > 0 {
      assert levels[0].id != levels[k].id;
      assert Levels.UniqueIds(levels[1..]) by {
        forall i, j | 0 <= i < j < |levels| - 1
          ensures levels[1..][i].id != levels[1..][j].id
        {
          assert levels[1..][i] == levels[i + 1] && levels[1..][j] == levels[j + 1];
        }
      }
      FindMember(levels[1..], k - 1);
    }
  }

  /** `Math.min(5, completedLevels.size)`: the stars in the progress card. */
  function ProgressStars(count: nat): (stars: nat)
    ensures stars <= 5 && stars <= count
    ensures stars == count || stars == 5
  {
    if count < 5 then count else 5
  }

  /** Levels are completed only from the catalog, which has three, so the
      progress stars always equal the number of completed levels. */
  lemma ProgressStarsCountCompleted(completed: set<int>)
    requires completed <= Levels.CatalogIds()
    ensures |completed| <= 3 && ProgressStars(|completed|) == |completed|
  {
    assert completed <= {1, 2, 3};
    SubsetCardinality(completed, {1, 2, 3});
  }

  lemma SubsetCardinality(a: set<int>, b: set<int>)
    requires a <= b
    ensures |a| <= |b|
  {
    assert a * b == a && a + b == b && a - b == {};
    assert |a - b| + |b - a| + |a * b| == |a + b|;
  }

  /** What the hub renders. */
  datatype Screen = Playing(level: Level) | LevelSelection

  class Index {
    var currentLevel: Option<int>
    var completedLevels: set<int>

    /** Every completed level is a level of the catalog. */
    ghost predicate Valid()
      reads this
    {
      completedLevels <= Levels.CatalogIds()
    }

    constructor()
      ensures Valid() && currentLevel == None && completedLevels == {}
    {
      currentLevel, completedLevels := None, {};
    }

    /** The runner shows a level only when the open id names a catalog level;
        otherwise the level selection is shown. */
    function Screen(): (s: Screen)
      reads this
      ensures s.Playing? <==> currentLevel.Some? && currentLevel.value in Levels.CatalogIds()
      ensures s.Playing? ==> s.level in Levels.Catalog && s.level.id == currentLevel.value
    {
      match currentLevel
      case None => LevelSelection
      case Some(id) =>
        match Find(Levels.Catalog, id)
        case None => LevelSelection
        case Some(level) => Playing(level)
    }

    /** `onPlay` of a level card: opens that card's level. */
    method OnPlay(level: Level)
      requires level in Levels.Catalog
      modifies this
      ensures currentLevel == Some(level.id) && completedLevels == old(completedLevels)
      ensures Screen() == Playing(level)
    {
      currentLevel := Some(level.id);
      Levels.CatalogWellFormed();
      var k :| 0 <= k < |Levels.Catalog| && Levels.Catalog[k] == level;
      FindMember(Levels.Catalog, k);
    }

    /** `handleLevelComplete(levelId, score)`: records the level and goes back
        to the selection. The score is only logged. */
    method HandleLevelComplete(levelId: int, score: int)
      modifies this
      ensures completedLevels == old(completedLevels) + {levelId} && currentLevel == None
      ensures levelId in old(completedLevels) ==> completedLevels == old(completedLevels)
      ensures IsCompleted(levelId) && forall id :: old(IsCompleted(id)) ==> IsCompleted(id)
      ensures old(Valid()) && levelId in Levels.CatalogIds() ==> Valid()
      ensures Screen() == LevelSelection
    {
      completedLevels := completedLevels + {levelId};
      currentLevel := None;
    }

    /** `handleBackToLevels`. */
    method HandleBackToLevels()
      modifies this
      ensures currentLevel == None && completedLevels == old(completedLevels)
      ensures Screen() == LevelSelection
    {
      currentLevel := None;
    }

    /** `completedLevels.size`, shown as the progress count. */
    function ProgressCount(): (n: nat)
      reads this
      requires Valid()
      ensures n <= |Levels.Catalog| && ProgressStars(n) == n
    {
      ProgressStarsCountCompleted(completedLevels);
      |completedLevels|
    }

    /** `completedLevels.has(id)`, passed to the level card: only a catalog
        level's card can be marked completed. */
    predicate IsCompleted(id: int)
      reads this
      ensures Valid() && IsCompleted(id) ==> id in {1, 2, 3}
    {
      id in completedLevels
    }
  }
}
