/** The on-chain asset record carried by the chain events. */
module ChainDelegates {
  import opened StandardTypes

  /** EInterverseAssetType, in declaration order. */
  datatype AssetType = COSMETIC | WEAPON | COLLECTIBLE | CURRENCY | UTILITY

  /** FInterverseAsset. */
  datatype Asset = Asset(
    assetId: string,
    owner: string,
    assetType: AssetType,
    category: ItemCategory,
    rarity: Rarity,
    metadata: map<string, string>)

  /**
   * A freshly declared FInterverseAsset. C++ leaves its enum fields
   * uninitialised; the model gives them their zero enumerators.
   */
  const BlankAsset: Asset := Asset("", "", COSMETIC, Weapon, Common, map[])
}
