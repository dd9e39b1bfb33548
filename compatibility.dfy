/**
 * The wire-format helpers of the plugin (namespace InterverseCompat): endpoint
 * prefixing, the enum-to-name converters, and the translation between asset
 * properties and the JSON objects exchanged with the ledger node.
 */
module Compatibility {
  import opened Wrappers
  import opened Text
  import opened Json
  import opened StandardTypes
  import opened ChainDelegates

  /** Every REST path lives under this prefix. */
  const EndpointPrefix: string := "verse/"

  /** GetEndpointPath: prefix a path with "verse/" unless it already starts with it (ignoring case). */
  function GetEndpointPath(endpoint: string): (path: string)
    ensures StartsWithIgnoreCase(path, EndpointPrefix)
    ensures path == endpoint <==> StartsWithIgnoreCase(endpoint, EndpointPrefix)
    ensures |endpoint| <= |path| <= |endpoint| + |EndpointPrefix|
    ensures path[|path| - |endpoint|..] == endpoint
  {
    if StartsWithIgnoreCase(endpoint, EndpointPrefix) then endpoint
    else
      var path := EndpointPrefix + endpoint;
      assert path[..|EndpointPrefix|] == EndpointPrefix;
      path
  }

  /** Prefixing twice is prefixing once. */
  lemma GetEndpointPathIdempotent(endpoint: string)
    ensures GetEndpointPath(GetEndpointPath(endpoint)) == GetEndpointPath(endpoint)
  {
  }

  /** ConvertItemCategory: the upper-case wire name of a category. */
  function ConvertItemCategory(category: ItemCategory): (name: string)
    ensures name != "UNKNOWN"
    ensures name != [] && forall i :: 0 <= i < |name| ==> 'A' <= name[i] <= 'Z'
  {
    match category
    case Weapon => "WEAPON"
    case Armor => "ARMOR"
    case Accessory => "ACCESSORY"
    case Consumable => "CONSUMABLE"
    case Currency => "CURRENCY"
    case Cosmetic => "COSMETIC"
    case Mount => "MOUNT"
    case Pet => "PET"
  }

  /** ConvertRarity: the upper-case wire name of a rarity. */
  function ConvertRarity(rarity: Rarity): (name: string)
    ensures name != [] && forall i :: 0 <= i < |name| ==> 'A' <= name[i] <= 'Z'
  {
    match rarity
    case Common => "COMMON"
    case Uncommon => "UNCOMMON"
    case Rare => "RARE"
    case Epic => "EPIC"
    case Legendary => "LEGENDARY"
    case Mythic => "MYTHIC"
  }

  /** The name of a category determines it: the converter is injective. */
  lemma ConvertItemCategoryInjective(a: ItemCategory, b: ItemCategory)
    ensures ConvertItemCategory(a) == ConvertItemCategory(b) ==> a == b
  {
  }

  /** The name of a rarity determines it: the converter is injective. */
  lemma ConvertRarityInjective(a: Rarity, b: Rarity)
    ensures ConvertRarity(a) == ConvertRarity(b) ==> a == b
  {
  }

  /** The exact inverse of ConvertItemCategory: a reference decoder for all eight names. */
  function CategoryFromName(name: string): Option<ItemCategory> {
    if name == "WEAPON" then Some(Weapon)
    else if name == "ARMOR" then Some(Armor)
    else if name == "ACCESSORY" then Some(Accessory)
    else if name == "CONSUMABLE" then Some(Consumable)
    else if name == "CURRENCY" then Some(Currency)
    else if name == "COSMETIC" then Some(Cosmetic)
    else if name == "MOUNT" then Some(Mount)
    else if name == "PET" then Some(Pet)
    else None
  }

  /** The exact inverse of ConvertRarity: a reference decoder for all six names. */
  function RarityFromName(name: string): Option<Rarity> {
    if name == "COMMON" then Some(Common)
    else if name == "UNCOMMON" then Some(Uncommon)
    else if name == "RARE" then Some(Rare)
    else if name == "EPIC" then Some(Epic)
    else if name == "LEGENDARY" then Some(Legendary)
    else if name == "MYTHIC" then Some(Mythic)
    else None
  }

  lemma CategoryNameRoundTrip(c: ItemCategory)
    ensures CategoryFromName(ConvertItemCategory(c)) == Some(c)
  {
  }

  lemma RarityNameRoundTrip(r: Rarity)
    ensures RarityFromName(ConvertRarity(r)) == Some(r)
  {
  }

  /** A colour as the JSON object {r, g, b, a}. */
  function ColorToJson(color: LinearColor): JsonValue {
    JObject(map["r" := JNumber(color.r), "g" := JNumber(color.g), "b" := JNumber(color.b), "a" := JNumber(color.a)])
  }

  function NumbersToJson(m: map<string, real>): (j: JsonValue)
    ensures j.JObject? && j.fields.Keys == m.Keys
    ensures forall k :: k in m ==> j.fields[k] == JNumber(m[k])
  {
    JObject(map k | k in m :: JNumber(m[k]))
  }

  function StringsToJson(m: map<string, string>): (j: JsonValue)
    ensures j.JObject? && j.fields.Keys == m.Keys
    ensures forall k :: k in m ==> j.fields[k] == JString(m[k])
  {
    JObject(map k | k in m :: JString(m[k]))
  }

  function TagsToJson(tags: seq<string>): (j: JsonValue)
    ensures j.JArray? && |j.items| == |tags|
    ensures forall i :: 0 <= i < |tags| ==> j.items[i] == JString(tags[i])
  {
    JArray(seq(|tags|, i requires 0 <= i < |tags| => JString(tags[i])))
  }

  /** The fields of the object ConvertAssetToJson builds. */
  const AssetJsonFields: set<string> := {
    "category", "rarity", "level", "model_id", "primary_color", "secondary_color",
    "numeric_properties", "string_properties", "tags", "custom_properties"}

  /** ConvertAssetToJson: the JSON object sent to the ledger for an asset's properties. */
  function ConvertAssetToJson(p: BaseProperties, custom: map<string, string>): (o: JsonObject)
    ensures o.Keys == AssetJsonFields
  {
    map[
      "category" := JString(ConvertItemCategory(p.category)),
      "rarity" := JString(ConvertRarity(p.rarity)),
      "level" := JNumber(p.level as real),
      "model_id" := JString(p.modelIdentifier),
      "primary_color" := ColorToJson(p.primaryColor),
      "secondary_color" := ColorToJson(p.secondaryColor),
      "numeric_properties" := NumbersToJson(p.numericProperties),
      "string_properties" := StringsToJson(p.stringProperties),
      "tags" := TagsToJson(p.tags),
      "custom_properties" := StringsToJson(custom)]
  }

  /** The scalar fields of the encoded asset. */
  lemma AssetJsonScalars(p: BaseProperties, custom: map<string, string>)
    ensures var o := ConvertAssetToJson(p, custom);
            && o["category"] == JString(ConvertItemCategory(p.category))
            && o["rarity"] == JString(ConvertRarity(p.rarity))
            && o["level"] == JNumber(p.level as real)
            && o["model_id"] == JString(p.modelIdentifier)
  {
  }

  /** The colours of the encoded asset, each as an {r, g, b, a} object. */
  lemma AssetJsonColors(p: BaseProperties, custom: map<string, string>)
    ensures var o := ConvertAssetToJson(p, custom);
            && o["primary_color"] == ColorToJson(p.primaryColor)
            && o["secondary_color"] == ColorToJson(p.secondaryColor)
  {
  }

  /** The numeric and string property maps of the encoded asset. */
  lemma AssetJsonNumbers(p: BaseProperties, custom: map<string, string>)
    ensures var o := ConvertAssetToJson(p, custom);
            && o["numeric_properties"] == NumbersToJson(p.numericProperties)
            && o["string_properties"] == StringsToJson(p.stringProperties)
  {
  }

  /** The tags, in order, and the custom properties of the encoded asset. */
  lemma AssetJsonTexts(p: BaseProperties, custom: map<string, string>)
    ensures var o := ConvertAssetToJson(p, custom);
            && o["custom_properties"] == StringsToJson(custom)
            && o["tags"] == TagsToJson(p.tags)
  {
  }

  /** The category a wire name selects in ConvertJsonToAsset: only WEAPON and ARMOR are recognised. */
  function ReadCategory(name: string, current: ItemCategory): ItemCategory {
    if EqualsIgnoreCase(name, "WEAPON") then Weapon
    else if EqualsIgnoreCase(name, "ARMOR") then Armor
    else current
  }

  /** The text form of every metadata value. */
  function MetadataText(m: JsonObject, c: Coercion): map<string, string> {
    map k | k in m :: AsString(m[k], c)
  }

  /**
   * ConvertJsonToAsset: fill an asset from a JSON object. Fails only for a null
   * object; otherwise the id and owner are overwritten, the category only for
   * WEAPON or ARMOR, and every metadata entry is added to the asset's metadata.
   */
  function ConvertJsonToAsset(json: Option<JsonObject>, outAsset: Asset, c: Coercion): (r: (bool, Asset))
    ensures r.0 <==> json.Some?
    ensures !r.0 ==> r.1 == outAsset
    ensures r.1.assetType == outAsset.assetType && r.1.rarity == outAsset.rarity
    ensures r.0 ==> r.1.assetId == GetStringField(json.value, "asset_id", c)
    ensures r.0 ==> r.1.owner == GetStringField(json.value, "owner", c)
    ensures r.0 && !EqualsIgnoreCase(GetStringField(json.value, "category", c), "WEAPON")
                && !EqualsIgnoreCase(GetStringField(json.value, "category", c), "ARMOR")
            ==> r.1.category == outAsset.category
    ensures r.0 && EqualsIgnoreCase(GetStringField(json.value, "category", c), "WEAPON") ==> r.1.category == Weapon
    ensures r.0 && !EqualsIgnoreCase(GetStringField(json.value, "category", c), "WEAPON")
                && EqualsIgnoreCase(GetStringField(json.value, "category", c), "ARMOR")
            ==> r.1.category == Armor
    ensures r.0 && TryGetObjectField(json.value, "metadata").None? ==> r.1.metadata == outAsset.metadata
  {
    match json
    case None => (false, outAsset)
    case Some(o) =>
      var metadata :=
        match TryGetObjectField(o, "metadata")
        case Some(m) => outAsset.metadata + MetadataText(m, c)
        case None => outAsset.metadata;
      (true, outAsset.(
        assetId := GetStringField(o, "asset_id", c),
        owner := GetStringField(o, "owner", c),
        category := ReadCategory(GetStringField(o, "category", c), outAsset.category),
        metadata := metadata))
  }

  /** Among the eight wire names, only the one of Weapon reads as WEAPON and only the one of Armor as ARMOR. */
  lemma {:induction false} CategoryNameMatches(category: ItemCategory)
    ensures EqualsIgnoreCase(ConvertItemCategory(category), "WEAPON") <==> category == Weapon
    ensures EqualsIgnoreCase(ConvertItemCategory(category), "ARMOR") <==> category == Armor
  {
    var name := ConvertItemCategory(category);
    if category == Mount {
      assert LowerAscii(name[0]) != LowerAscii("ARMOR"[0]);
    }
  }

  /**
   * The category survives ConvertItemCategory followed by ConvertJsonToAsset
   * exactly for Weapon and Armor; for the other six the target keeps the
   * category it had.
   */
  lemma {:induction false} CategoryRoundTrip(p: BaseProperties, custom: map<string, string>, outAsset: Asset, c: Coercion)
    ensures var r := ConvertJsonToAsset(Some(ConvertAssetToJson(p, custom)), outAsset, c);
            r.1.category == if p.category == Weapon || p.category == Armor then p.category else outAsset.category
  {
    var o := ConvertAssetToJson(p, custom);
    AssetJsonScalars(p, custom);
    assert GetStringField(o, "category", c) == ConvertItemCategory(p.category);
    CategoryNameMatches(p.category);
  }

  /** With a metadata object, every key lands in the asset's metadata with its value's text; other keys are kept. */
  lemma MetadataCopied(o: JsonObject, outAsset: Asset, c: Coercion)
    requires "metadata" in o && o["metadata"].JObject?
    ensures var asset := ConvertJsonToAsset(Some(o), outAsset, c).1;
            var md := o["metadata"].fields;
            && asset.metadata.Keys == outAsset.metadata.Keys + md.Keys
            && (forall k :: k in md ==> asset.metadata[k] == AsString(md[k], c))
            && (forall k :: k in outAsset.metadata && k !in md ==> asset.metadata[k] == outAsset.metadata[k])
  {
  }

  // A reference decoder for the full property object, used to state what the encoder preserves.

  function Field(o: JsonObject, key: string): Option<JsonValue> {
    if key in o then Some(o[key]) else None
  }

  function StringOf(v: JsonValue): Option<string> {
    if v.JString? then Some(v.s) else None
  }

  function NumberOf(v: JsonValue): Option<real> {
    if v.JNumber? then Some(v.n) else None
  }

  function DecodeColor(v: JsonValue): Option<LinearColor> {
    if v.JObject? && "r" in v.fields && "g" in v.fields && "b" in v.fields && "a" in v.fields
       && v.fields["r"].JNumber? && v.fields["g"].JNumber? && v.fields["b"].JNumber? && v.fields["a"].JNumber?
    then Some(LinearColor(v.fields["r"].n, v.fields["g"].n, v.fields["b"].n, v.fields["a"].n))
    else None
  }

  function DecodeNumbers(v: JsonValue): Option<map<string, real>> {
    if v.JObject? && forall k :: k in v.fields ==> v.fields[k].JNumber?
    then Some(map k | k in v.fields :: v.fields[k].n)
    else None
  }

  function DecodeStrings(v: JsonValue): Option<map<string, string>> {
    if v.JObject? && forall k :: k in v.fields ==> v.fields[k].JString?
    then Some(map k | k in v.fields :: v.fields[k].s)
    else None
  }

  function DecodeTags(v: JsonValue): Option<seq<string>> {
    if v.JArray? && forall i :: 0 <= i < |v.items| ==> v.items[i].JString?
    then Some(seq(|v.items|, i requires 0 <= i < |v.items| => v.items[i].s))
    else None
  }

  /** Read every property field back; the two player ids are not on the wire and come back empty. */
  function DecodeProperties(o: JsonObject): Option<BaseProperties> {
    var categoryValue :- Field(o, "category");
    var categoryName :- StringOf(categoryValue);
    var category :- CategoryFromName(categoryName);
    var rarityValue :- Field(o, "rarity");
    var rarityName :- StringOf(rarityValue);
    var rarity :- RarityFromName(rarityName);
    var levelValue :- Field(o, "level");
    var level :- NumberOf(levelValue);
    var modelValue :- Field(o, "model_id");
    var model :- StringOf(modelValue);
    var primaryValue :- Field(o, "primary_color");
    var primary :- DecodeColor(primaryValue);
    var secondaryValue :- Field(o, "secondary_color");
    var secondary :- DecodeColor(secondaryValue);
    var numericValue :- Field(o, "numeric_properties");
    var numeric :- DecodeNumbers(numericValue);
    var stringValue :- Field(o, "string_properties");
    var strings :- DecodeStrings(stringValue);
    var tagsValue :- Field(o, "tags");
    var tags :- DecodeTags(tagsValue);
    Some(BaseProperties(category, rarity, level.Floor, model, primary, secondary, numeric, strings, tags, "", ""))
  }

  lemma DecodeColorRoundTrip(color: LinearColor)
    ensures DecodeColor(ColorToJson(color)) == Some(color)
  {
  }

  lemma DecodeNumbersRoundTrip(m: map<string, real>)
    ensures DecodeNumbers(NumbersToJson(m)) == Some(m)
  {
    var fields := NumbersToJson(m).fields;
    assert (map k | k in fields :: fields[k].n) == m;
  }

  lemma DecodeStringsRoundTrip(m: map<string, string>)
    ensures DecodeStrings(StringsToJson(m)) == Some(m)
  {
    var fields := StringsToJson(m).fields;
    assert (map k | k in fields :: fields[k].s) == m;
  }

  lemma DecodeTagsRoundTrip(tags: seq<string>)
    ensures DecodeTags(TagsToJson(tags)) == Some(tags)
  {
    var items := TagsToJson(tags).items;
    assert seq(|items|, i requires 0 <= i < |items| => items[i].s) == tags;
  }

  /** Any object carrying the encoded fields of `p` decodes to `p` without its owner and target player ids. */
  lemma DecodeEncodedFields(o: JsonObject, p: BaseProperties)
    requires Field(o, "category") == Some(JString(ConvertItemCategory(p.category)))
    requires Field(o, "rarity") == Some(JString(ConvertRarity(p.rarity)))
    requires Field(o, "level") == Some(JNumber(p.level as real))
    requires Field(o, "model_id") == Some(JString(p.modelIdentifier))
    requires Field(o, "primary_color") == Some(ColorToJson(p.primaryColor))
    requires Field(o, "secondary_color") == Some(ColorToJson(p.secondaryColor))
    requires Field(o, "numeric_properties") == Some(NumbersToJson(p.numericProperties))
    requires Field(o, "string_properties") == Some(StringsToJson(p.stringProperties))
    requires Field(o, "tags") == Some(TagsToJson(p.tags))
    ensures DecodeProperties(o) == Some(p.(ownerGlobalId := "", targetPlayerId := ""))
  {
    CategoryNameRoundTrip(p.category);
    RarityNameRoundTrip(p.rarity);
    DecodeColorRoundTrip(p.primaryColor);
    DecodeColorRoundTrip(p.secondaryColor);
    DecodeNumbersRoundTrip(p.numericProperties);
    DecodeStringsRoundTrip(p.stringProperties);
    DecodeTagsRoundTrip(p.tags);
    assert (p.level as real).Floor == p.level;
  }

  /**
   * Encoding loses nothing but the owner and target player ids: category,
   * rarity, level, model, colours, both property maps and the tags in order
   * all decode back.
   */
  lemma AssetJsonRoundTrip(p: BaseProperties, custom: map<string, string>)
    ensures DecodeProperties(ConvertAssetToJson(p, custom)) == Some(p.(ownerGlobalId := "", targetPlayerId := ""))
  {
    AssetJsonScalars(p, custom);
    AssetJsonColors(p, custom);
    AssetJsonNumbers(p, custom);
    AssetJsonTexts(p, custom);
    DecodeEncodedFields(ConvertAssetToJson(p, custom), p);
  }
}
