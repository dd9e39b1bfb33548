/** The asset value types shared by every component: categories, rarities and base item properties. */
module StandardTypes {

  /** EInterverseItemCategory, in declaration order. */
  datatype ItemCategory = Weapon | Armor | Accessory | Consumable | Currency | Cosmetic | Mount | Pet

  /** EInterverseRarity, in declaration order. */
  datatype Rarity = Common | Uncommon | Rare | Epic | Legendary | Mythic

  /** FLinearColor: four float channels, modelled as reals. */
  datatype LinearColor = LinearColor(r: real, g: real, b: real, a: real)

  /** FInterverseBaseProperties. `level` is an int32 in the plugin. */
  datatype BaseProperties = BaseProperties(
    category: ItemCategory,
    rarity: Rarity,
    level: int,
    modelIdentifier: string,
    primaryColor: LinearColor,
    secondaryColor: LinearColor,
    numericProperties: map<string, real>,
    stringProperties: map<string, string>,
    tags: seq<string>,
    ownerGlobalId: string,
    targetPlayerId: string)

  /** The categories in declaration order; position i is the enumerator's uint8 value. */
  const Categories: seq<ItemCategory> := [Weapon, Armor, Accessory, Consumable, Currency, Cosmetic, Mount, Pet]

  /** The rarities in declaration order; position i is the enumerator's uint8 value. */
  const Rarities: seq<Rarity> := [Common, Uncommon, Rare, Epic, Legendary, Mythic]

  /** The uint8 value of a category. */
  function CategoryValue(c: ItemCategory): (i: nat)
    ensures i < |Categories| && Categories[i] == c
  {
    match c
    case Weapon => 0
    case Armor => 1
    case Accessory => 2
    case Consumable => 3
    case Currency => 4
    case Cosmetic => 5
    case Mount => 6
    case Pet => 7
  }

  /** The uint8 value of a rarity. */
  function RarityValue(r: Rarity): (i: nat)
    ensures i < |Rarities| && Rarities[i] == r
  {
    match r
    case Common => 0
    case Uncommon => 1
    case Rare => 2
    case Epic => 3
    case Legendary => 4
    case Mythic => 5
  }

  /** Exactly eight categories and six rarities, each listed once. */
  lemma EnumerationsAreComplete()
    ensures |Categories| == 8 && |Rarities| == 6
    ensures forall i, j :: 0 <= i < j < |Categories| ==> Categories[i] != Categories[j]
    ensures forall i, j :: 0 <= i < j < |Rarities| ==> Rarities[i] != Rarities[j]
    ensures forall c: ItemCategory :: c in Categories
    ensures forall r: Rarity :: r in Rarities
  {
    forall c: ItemCategory ensures c in Categories {
      assert Categories[CategoryValue(c)] == c;
    }
    forall r: Rarity ensures r in Rarities {
      assert Rarities[RarityValue(r)] == r;
    }
  }

  /** FInterverseBaseProperties::IsValid: an asset needs a model identifier. */
  predicate IsValid(p: BaseProperties) {
    p.modelIdentifier != []
  }

  /** Validity looks at the model identifier only. */
  lemma IsValidDependsOnlyOnModel(p: BaseProperties, q: BaseProperties)
    requires p.modelIdentifier == q.modelIdentifier
    ensures IsValid(p) == IsValid(q)
    ensures IsValid(p) <==> |p.modelIdentifier| > 0
  {
  }
}
