/**
 * Muscle categories and the muscle groups that bucket them
 * (FitnessApp/Core/Models/MuscleCategory.swift). Exercises are stored per group.
 */
module MuscleCategories {
  import Sequences

  /** `MuscleCategory`, in declaration order; raw values are the German names. */
  datatype MuscleCategory = Chest | Back | Shoulders | Biceps | Triceps | Legs | Abs {
    function RawValue(): string {
      match this
      case Chest => "Brust"
      case Back => "Rücken"
      case Shoulders => "Schultern"
      case Biceps => "Bizeps"
      case Triceps => "Trizeps"
      case Legs => "Beine"
      case Abs => "Bauch"
    }

    /** `Identifiable.id` is the raw value. */
    function Id(): string {
      RawValue()
    }

    /** The group a category is filed under. */
    function Group(): MuscleCategoryGroup {
      match this
      case Biceps | Triceps => MuscleCategoryGroup.Arms
      case Chest => MuscleCategoryGroup.Chest
      case Back | Shoulders => MuscleCategoryGroup.Back
      case Legs => MuscleCategoryGroup.Legs
      case Abs => MuscleCategoryGroup.Abs
    }

    /** Shoulders has its own picture; every other category shows its group's. */
    function ImageName(): string {
      match this
      case Shoulders => "shoulders"
      case Chest => MuscleCategoryGroup.Chest.ImageName()
      case Back => MuscleCategoryGroup.Back.ImageName()
      case Biceps | Triceps => MuscleCategoryGroup.Arms.ImageName()
      case Legs => MuscleCategoryGroup.Legs.ImageName()
      case Abs => MuscleCategoryGroup.Abs.ImageName()
    }
  }

  /** `MuscleCategoryGroup`, in declaration order. */
  datatype MuscleCategoryGroup = Arms | Chest | Back | Legs | Abs {
    function RawValue(): string {
      match this
      case Arms => "Arme"
      case Chest => "Brust"
      case Back => "Rücken"
      case Legs => "Beine"
      case Abs => "Bauch"
    }

    function Id(): string {
      RawValue()
    }

    /** `rawValue.lowercased()`. */
    function ImageName(): string {
      Lowercased(RawValue())
    }

    /** `MuscleCategory.allCases.filter { $0.group == self }`. */
    function Categories(): seq<MuscleCategory> {
      InGroup(AllCategories, this)
    }
  }

  /** `MuscleCategory.allCases`. */
  const AllCategories: seq<MuscleCategory> := [
    MuscleCategory.Chest, MuscleCategory.Back, MuscleCategory.Shoulders,
    MuscleCategory.Biceps, MuscleCategory.Triceps, MuscleCategory.Legs, MuscleCategory.Abs]

  /** `MuscleCategoryGroup.allCases`. */
  const AllGroups: seq<MuscleCategoryGroup> := [
    MuscleCategoryGroup.Arms, MuscleCategoryGroup.Chest, MuscleCategoryGroup.Back,
    MuscleCategoryGroup.Legs, MuscleCategoryGroup.Abs]

  /** `lowercased()` on the letters that occur in the raw values (ASCII capitals). */
  function Lowercased(s: string): string {
    if s == [] then []
    else [if 'A' <= s[0] <= 'Z' then (s[0] as int + 32) as char else s[0]] + Lowercased(s[1..])
  }

  /** The categories of `cs` filed under `g`, in their order in `cs`. */
  function InGroup(cs: seq<MuscleCategory>, g: MuscleCategoryGroup): seq<MuscleCategory> {
    if cs == [] then []
    else if cs[0].Group() == g then [cs[0]] + InGroup(cs[1..], g)
    else InGroup(cs[1..], g)
  }

  /** The filter keeps exactly the categories of the group, in their original order. */
  lemma {:induction false} InGroupExact(cs: seq<MuscleCategory>, g: MuscleCategoryGroup)
    ensures forall c :: c in InGroup(cs, g) <==> c in cs && c.Group() == g
    ensures Sequences.IsSubsequence(InGroup(cs, g), cs)
  {
    if cs != [] {
      InGroupExact(cs[1..], g);
      assert cs == [cs[0]] + cs[1..];
      var r := InGroup(cs, g);
      if cs[0].Group() == g {
        assert r[0] == cs[0] && r[1..] == InGroup(cs[1..], g);
      }
    }
  }

  /** A category is in a group's list exactly when that is its group. */
  lemma CategoriesOfGroup(c: MuscleCategory, g: MuscleCategoryGroup)
    ensures c in g.Categories() <==> c.Group() == g
  {
    InGroupExact(AllCategories, g);
    assert c in AllCategories;
  }

  /** Every category is listed under one group and no other; no group's list is empty. */
  lemma GroupsPartitionCategories()
    ensures forall c: MuscleCategory :: c in c.Group().Categories()
    ensures forall c: MuscleCategory, g1: MuscleCategoryGroup, g2: MuscleCategoryGroup :: c in g1.Categories() && c in g2.Categories() ==> g1 == g2
    ensures forall g: MuscleCategoryGroup :: |g.Categories()| > 0
  {
    forall c: MuscleCategory
      ensures c in c.Group().Categories()
    {
      CategoriesOfGroup(c, c.Group());
    }
    forall c: MuscleCategory, g1: MuscleCategoryGroup, g2: MuscleCategoryGroup | c in g1.Categories() && c in g2.Categories()
      ensures g1 == g2
    {
      CategoriesOfGroup(c, g1);
      CategoriesOfGroup(c, g2);
    }
    forall g: MuscleCategoryGroup
      ensures |g.Categories()| > 0
    {
      var c := match g
        case Arms => MuscleCategory.Biceps
        case Chest => MuscleCategory.Chest
        case Back => MuscleCategory.Back
        case Legs => MuscleCategory.Legs
        case Abs => MuscleCategory.Abs;
      CategoriesOfGroup(c, g);
    }
  }

  /** The concrete lists: arms holds biceps and triceps, back holds back and shoulders. */
  lemma GroupCategoryLists()
    ensures MuscleCategoryGroup.Arms.Categories() == [MuscleCategory.Biceps, MuscleCategory.Triceps]
    ensures MuscleCategoryGroup.Chest.Categories() == [MuscleCategory.Chest]
    ensures MuscleCategoryGroup.Back.Categories() == [MuscleCategory.Back, MuscleCategory.Shoulders]
    ensures MuscleCategoryGroup.Legs.Categories() == [MuscleCategory.Legs]
    ensures MuscleCategoryGroup.Abs.Categories() == [MuscleCategory.Abs]
  {
  }

  /** Raw values, and so ids, tell the cases of each enumeration apart. */
  lemma IdsDistinct()
    ensures forall c1: MuscleCategory, c2: MuscleCategory :: c1 != c2 ==> c1.Id() != c2.Id()
    ensures forall g1: MuscleCategoryGroup, g2: MuscleCategoryGroup :: g1 != g2 ==> g1.Id() != g2.Id()
  {
  }

  /** The group pictures are the lower-cased raw values; biceps and triceps share the arms picture. */
  lemma ImageNames()
    ensures MuscleCategoryGroup.Arms.ImageName() == "arme"
    ensures MuscleCategoryGroup.Chest.ImageName() == "brust"
    ensures MuscleCategoryGroup.Back.ImageName() == "rücken"
    ensures MuscleCategoryGroup.Legs.ImageName() == "beine"
    ensures MuscleCategoryGroup.Abs.ImageName() == "bauch"
    ensures MuscleCategory.Biceps.ImageName() == MuscleCategory.Triceps.ImageName() == "arme"
    ensures forall c: MuscleCategory :: c != MuscleCategory.Shoulders ==> c.ImageName() == c.Group().ImageName()
  {
  }
}
