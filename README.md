# Interverse plugin core, modelled in Dafny

Interverse is an Unreal Engine plugin. It lets games share items through a
small blockchain node. This project models the plugin's deterministic core and
proves properties of that model:

- **Wire format** (module `Compatibility`): the `verse/` endpoint prefix, the
  category and rarity names, the asset-to-JSON builder and the JSON-to-asset
  reader.
- **Item types** (module `StandardTypes`): the category and rarity enumerations,
  the base properties and their validity rule. The on-chain asset record is in
  module `ChainDelegates`.
- **Inventory component** (module `Inventory`): a class over the item list, with
  add, remove, equip-with-category-exclusivity and the category filter.
- **Conversion subsystem** (module `Conversion`): a class over the rule table,
  with register-with-replace, first-match lookup and the table-driven transform.
- **Blueprint library** (module `BlueprintLibrary`): the fixed Fantasy/SciFi
  weapon converters, damage scaling, effect colours and property validation.
- **Chain component** (module `Chain`):
  - the REST request each operation issues, and its guard;
  - the WebSocket URL and handshake;
  - the routing of HTTP responses and the dispatch of pushed frames;
  - the connection lifecycle with its reconnect timers and status. Each
    socket the component creates carries a number, so a callback of a socket
    that a reconnect has replaced acts on that socket, not on its successor.
- **Game-link component** (module `GameLink`): a class over the link table and
  the transfer record log.
- **Mining component** (module `Mining`): a class over the miner address,
  difficulty and timer.

Unreal's JSON objects are the `Json.JsonValue` datatype. The JSON library's
number-to-text and text-to-number conversions are a `Coercion` parameter.
`FString` equality, `StartsWith`, `Contains` and `ReplaceInline` ignore case in
Unreal; module `Text` models them with ASCII case folding.

Components whose fields change in place are classes. Each method's `ensures`
ties the new state to a pure step function of the old state. The properties
are proved as lemmas over those step functions.

Where the plugin's behaviour is odd, the model keeps the code's behaviour:

- The HTTP transfer branch reads `success` from the top level of the response
  (`Chain.TransferSuccessReadFromTopLevel`).
- The balance branch tests the literal `wallet/balance`, which the URL that
  `GetBalance` builds for a hexadecimal address does not contain, so its
  response is dropped (`Chain.BalanceResponseDropped`); only an address such as
  `balance` makes the URL match (`Chain.BalanceAddressRouted`).
- Every unclean close arms one more 5-second timer, and none is ever cancelled
  (`Chain.EachUncleanCloseArmsATimer`).
- `StartMining` rejects every non-empty address, so `IsMining()` never becomes
  true (`Mining.NeverMines`).
- `TransferGameObject` records the transfer twice and announces it three times
  (`GameLink.TransferGameObjectTwiceRecorded`).
- The serialized source game id stays empty, so a transferred object never
  spawns (`GameLink.TransferredObjectNeverSpawns`).

Where the code and the documented design disagree, the model follows the code:

- `GetTransactionHistory` keeps every element of the `transactions` array that
  has a text form (`TryGetString` succeeds on strings, numbers and booleans),
  not only the strings.
- The component calls `OnAssetMinted` and `OnTransferComplete` with an extra
  empty player-id argument that the delegate declarations in
  `InterverseChainDelegates.h` do not have. The event records keep the
  arguments as the calls pass them.

## Model

| member | source | states |
|---|---|---|
| StandardTypes.EnumerationsAreComplete | Source/InterverseChainPlugin/Public/InterverseStandardTypes.h:7-28 | exactly 8 distinct categories and 6 distinct rarities, and every value appears in the declaration-order lists |
| StandardTypes.CategoryValue | Source/InterverseChainPlugin/Public/InterverseStandardTypes.h:7-17 | a category's position in declaration order, which indexes back to it |
| StandardTypes.RarityValue | Source/InterverseChainPlugin/Public/InterverseStandardTypes.h:19-28 | a rarity's position in declaration order, which indexes back to it |
| StandardTypes.IsValidDependsOnlyOnModel | Source/InterverseChainPlugin/Public/InterverseStandardTypes.h:68-71 | validity holds exactly when the model identifier is non-empty; two property sets with the same model identifier agree on it |
| Compatibility.GetEndpointPath | Source/InterverseChainPlugin/Public/InterverseCompatibility.h:10-18 | the result starts with `verse/` (ignoring case); the input is returned unchanged exactly when it already starts so; otherwise the prefix is added and the input ends the result |
| Compatibility.GetEndpointPathIdempotent | Source/InterverseChainPlugin/Public/InterverseCompatibility.h:10-18 | prefixing twice equals prefixing once |
| Compatibility.ConvertItemCategory | Source/InterverseChainPlugin/Public/InterverseCompatibility.h:20-34 | every category gets a non-empty upper-case name, never `UNKNOWN` |
| Compatibility.ConvertItemCategoryInjective | Source/InterverseChainPlugin/Public/InterverseCompatibility.h:20-34 | distinct categories get distinct names |
| Compatibility.CategoryNameRoundTrip | Source/InterverseChainPlugin/Public/InterverseCompatibility.h:20-34 | a reference decoder of the eight names recovers every category from its name |
| Compatibility.ConvertRarity | Source/InterverseChainPlugin/Public/InterverseCompatibility.h:36-48 | every rarity gets a non-empty upper-case name |
| Compatibility.ConvertRarityInjective | Source/InterverseChainPlugin/Public/InterverseCompatibility.h:36-48 | distinct rarities get distinct names |
| Compatibility.RarityNameRoundTrip | Source/InterverseChainPlugin/Public/InterverseCompatibility.h:36-48 | a reference decoder of the six names recovers every rarity from its name |
| Compatibility.ConvertAssetToJson | Source/InterverseChainPlugin/Public/InterverseCompatibility.h:50-109 | the object has exactly the ten fields the builder sets |
| Compatibility.AssetJsonScalars | Source/InterverseChainPlugin/Public/InterverseCompatibility.h:56-59 | category and rarity as their wire names, level as a number, model id as written |
| Compatibility.AssetJsonColors | Source/InterverseChainPlugin/Public/InterverseCompatibility.h:61-74 | both colours as {r, g, b, a} objects |
| Compatibility.AssetJsonNumbers | Source/InterverseChainPlugin/Public/InterverseCompatibility.h:76-90 | the numeric and string property maps copied key for key |
| Compatibility.AssetJsonTexts | Source/InterverseChainPlugin/Public/InterverseCompatibility.h:92-106 | the tags in order and the custom properties copied key for key |
| Compatibility.DecodeColorRoundTrip | Source/InterverseChainPlugin/Public/InterverseCompatibility.h:62-74 | a colour object decodes back to the colour |
| Compatibility.DecodeNumbersRoundTrip | Source/InterverseChainPlugin/Public/InterverseCompatibility.h:76-82 | the numeric-properties object decodes back to the map |
| Compatibility.DecodeStringsRoundTrip | Source/InterverseChainPlugin/Public/InterverseCompatibility.h:84-90 | the string-properties object decodes back to the map |
| Compatibility.DecodeTagsRoundTrip | Source/InterverseChainPlugin/Public/InterverseCompatibility.h:92-98 | the tags array decodes back to the tag list |
| Compatibility.AssetJsonRoundTrip | Source/InterverseChainPlugin/Public/InterverseCompatibility.h:50-109 | the builder loses only the owner and target-player ids: a reference decoder recovers everything else |
| Compatibility.ConvertJsonToAsset | Source/InterverseChainPlugin/Public/InterverseCompatibility.h:111-135 | false with the asset untouched exactly when there is no object; otherwise true, with asset id and owner read from the object; a name equal to WEAPON ignoring case sets Weapon, else one equal to ARMOR sets Armor, and any other name leaves the category as it was; without a metadata object the metadata is unchanged |
| Compatibility.CategoryNameMatches | Source/InterverseChainPlugin/Public/InterverseCompatibility.h:119-121 | among the eight names, only Weapon's compares equal to WEAPON and only Armor's to ARMOR |
| Compatibility.CategoryRoundTrip | Source/InterverseChainPlugin/Public/InterverseCompatibility.h:119-122 | after building and reading back an asset, the category survives exactly for Weapon and Armor; otherwise the target keeps its own |
| Compatibility.MetadataCopied | Source/InterverseChainPlugin/Public/InterverseCompatibility.h:124-132 | every metadata key lands in the asset with its value's text; earlier keys not in the object are kept |
| Inventory.IndexOfAsset | Source/InterverseChainPlugin/Private/InterverseInventoryComponent.cpp:22-24 | the position of the first item whose asset id equals the id ignoring case, or INDEX_NONE when none does |
| Inventory.IndexOfIgnoresCase | Source/InterverseChainPlugin/Private/InterverseInventoryComponent.cpp:22-24 | ids that differ only in letter case find the same item |
| Inventory.InventoryComponent.constructor | Source/InterverseChainPlugin/Private/InterverseInventoryComponent.cpp:3-6 | the inventory starts empty, with no updates broadcast |
| Inventory.InventoryComponent.AddItem | Source/InterverseChainPlugin/Private/InterverseInventoryComponent.cpp:8-18 | returns true; appends one unequipped item whose slot is the old size; broadcasts the new list |
| Inventory.AddTwiceKeepsBoth | Source/InterverseChainPlugin/Private/InterverseInventoryComponent.cpp:8-18 | adding the same asset twice gives two items in consecutive slots; earlier items unchanged |
| Inventory.InventoryComponent.FindAsset | Source/InterverseChainPlugin/Private/InterverseInventoryComponent.cpp:22-24 | the search loop returns the first position whose id equals the id ignoring case |
| Inventory.InventoryComponent.RemoveItem | Source/InterverseChainPlugin/Private/InterverseInventoryComponent.cpp:20-33 | true exactly when some item holds the asset; then the first such item is removed and the list broadcast, otherwise nothing changes |
| Inventory.RemoveFirstKeepsOthers | Source/InterverseChainPlugin/Private/InterverseInventoryComponent.cpp:26-28 | removal drops exactly the first match: items before it stay, items after it move down with their slots unchanged, and the multiset loses that one item |
| Inventory.InventoryComponent.EquipItem | Source/InterverseChainPlugin/Private/InterverseInventoryComponent.cpp:35-56 | true exactly when some item holds the asset; the nested loops leave the first such item equipped and every other item of its category unequipped |
| Inventory.EquipFirstExclusive | Source/InterverseChainPlugin/Private/InterverseInventoryComponent.cpp:37-52 | after equipping, the chosen item is the only equipped item of its category, items of other categories are untouched, and only equip flags change |
| Inventory.CountEquippedExactlyOne | Source/InterverseChainPlugin/Private/InterverseInventoryComponent.cpp:42-50 | a list in which exactly one position holds an equipped item of the category counts one |
| Inventory.EquipSecondUnequipsFirst | Source/InterverseChainPlugin/Private/InterverseInventoryComponent.cpp:37-52 | equipping A and then B of the same category leaves B equipped and A not, across owners |
| Inventory.InventoryComponent.GetItemsByCategory | Source/InterverseChainPlugin/Private/InterverseInventoryComponent.cpp:58-69 | the loop returns the category filter of the items, in order |
| Inventory.FilterByCategoryMembers | Source/InterverseChainPlugin/Private/InterverseInventoryComponent.cpp:58-69 | the filter holds exactly the items of that category |
| Inventory.InventoryComponent.HasItem | Source/InterverseChainPlugin/Private/InterverseInventoryComponent.cpp:71-76 | true exactly when some item's asset id equals the id ignoring case |
| Conversion.ConversionSubsystem.Initialize | Source/InterverseChainPlugin/Private/InterverseConversionSubsystem.cpp:3-23 | the table holds exactly the default Fantasy-to-SciFi weapon rule |
| Conversion.DefaultRuleConvertsFireSword | Source/InterverseChainPlugin/Private/InterverseConversionSubsystem.cpp:8-22 | under the default table, a fantasy weapon with Fire damage 5 becomes a SciFi one with Plasma damage 50 |
| Conversion.ConversionSubsystem.RegisterConversionRule | Source/InterverseChainPlugin/Private/InterverseConversionSubsystem.cpp:25-35 | the loop drops every rule for the same conversion and appends the new rule |
| Conversion.WithoutKeyMembers | Source/InterverseChainPlugin/Private/InterverseConversionSubsystem.cpp:28-32 | removal keeps exactly the rules for other conversions |
| Conversion.RegisterReplaces | Source/InterverseChainPlugin/Private/InterverseConversionSubsystem.cpp:25-35 | afterwards exactly one rule is for the conversion: the new one, at the end; the others keep their order |
| Conversion.FindAfterRegister | Source/InterverseChainPlugin/Private/InterverseConversionSubsystem.cpp:25-35 | after registering a rule, looking up its own conversion finds it |
| Conversion.FindOtherAfterRegister | Source/InterverseChainPlugin/Private/InterverseConversionSubsystem.cpp:25-35 | registering a rule does not change the lookup of any conversion it does not match |
| Conversion.FindRule | Source/InterverseChainPlugin/Private/InterverseConversionSubsystem.cpp:83-98 | a position it returns is in range and holds a rule matching all three fields |
| Conversion.FindRuleFirst | Source/InterverseChainPlugin/Private/InterverseConversionSubsystem.cpp:83-98 | no rule before the one found matches, and none at all matches when nothing is found |
| Conversion.FindRuleWithoutKey | Source/InterverseChainPlugin/Private/InterverseConversionSubsystem.cpp:28-32 | removing one conversion's rules leaves the lookup of any other conversion finding the same rule |
| Conversion.FindRuleAppend | Source/InterverseChainPlugin/Private/InterverseConversionSubsystem.cpp:83-98 | an appended rule is found only when no earlier rule matches and it does |
| Conversion.ConversionSubsystem.FindConversionRule | Source/InterverseChainPlugin/Private/InterverseConversionSubsystem.cpp:83-98 | the search loop returns the first match or none |
| Conversion.ConversionSubsystem.ConvertAsset | Source/InterverseChainPlugin/Private/InterverseConversionSubsystem.cpp:37-81 | the result is the rule's transform when a rule matches, and the input otherwise |
| Conversion.ScaleNumbers | Source/InterverseChainPlugin/Private/InterverseConversionSubsystem.cpp:48-55 | the loop multiplies each numeric entry that has a rate |
| Conversion.MapStrings | Source/InterverseChainPlugin/Private/InterverseConversionSubsystem.cpp:58-64 | the loop rewrites each string entry whose value is mapped |
| Conversion.ConvertWithoutRule | Source/InterverseChainPlugin/Private/InterverseConversionSubsystem.cpp:42-45 | with no matching rule the conversion returns its input |
| Conversion.ApplyRuleEffect | Source/InterverseChainPlugin/Private/InterverseConversionSubsystem.cpp:47-74 | rated numbers are multiplied and the rest kept; mapped string values replaced once; a mapped Primary or Secondary colour takes the mapped value and an unmapped one is kept; key sets and all other fields unchanged |
| Conversion.ConvertKeepsIdentity | Source/InterverseChainPlugin/Private/InterverseConversionSubsystem.cpp:42-75 | category, rarity, level, model id, tags and both ids never change |
| BlueprintLibrary.RenameDamageType | Source/InterverseChainPlugin/Private/InterverseBlueprintLibrary.cpp:11-22 | the rename keeps the key set and every entry but DamageType; a DamageType equal to the first name ignoring case becomes the first replacement, else one equal to the second name becomes the second replacement, else nothing changes |
| BlueprintLibrary.ScaleDamageEntry | Source/InterverseChainPlugin/Private/InterverseBlueprintLibrary.cpp:25-29 | the scaling keeps the key set and every entry but Damage |
| BlueprintLibrary.ConvertFantasyToSciFiWeapon | Source/InterverseChainPlugin/Private/InterverseBlueprintLibrary.cpp:6-32 | only the string and numeric maps change, with key sets kept; Damage is scaled as ScaleDamageValue scales Fantasy to SciFi; a DamageType of Fire becomes Plasma and one of Ice becomes Cryo, ignoring case, and any other string map is kept |
| BlueprintLibrary.ConvertSciFiToFantasyWeapon | Source/InterverseChainPlugin/Private/InterverseBlueprintLibrary.cpp:34-60 | only the string and numeric maps change, with key sets kept; Damage is scaled as ScaleDamageValue scales SciFi to Fantasy; a DamageType of Plasma becomes Fire and one of Cryo becomes Ice, ignoring case, and any other string map is kept |
| BlueprintLibrary.DamageTypeRoundTrip | Source/InterverseChainPlugin/Private/InterverseBlueprintLibrary.cpp:11-50 | renaming to SciFi and back restores a damage type that was not Plasma or Cryo, up to letter case, and exactly when it was spelt Fire or Ice |
| BlueprintLibrary.WeaponRoundTrip | Source/InterverseChainPlugin/Private/InterverseBlueprintLibrary.cpp:6-60 | SciFi-to-Fantasy after Fantasy-to-SciFi restores damage exactly and everything else, except the case of the damage type |
| BlueprintLibrary.FixedConverterAgreesWithDefaultRule | Source/InterverseChainPlugin/Private/InterverseBlueprintLibrary.cpp:6-32 | the fixed converter and the default conversion rule agree on Damage and on a Fire or Ice damage type |
| BlueprintLibrary.ScaleDamageValue | Source/InterverseChainPlugin/Private/InterverseBlueprintLibrary.cpp:62-74 | unchanged for every game pair other than Fantasy-to-SciFi and SciFi-to-Fantasy |
| BlueprintLibrary.ScaleDamageRoundTrip | Source/InterverseChainPlugin/Private/InterverseBlueprintLibrary.cpp:62-74 | scaling Fantasy to SciFi and back returns the damage (in exact arithmetic) |
| BlueprintLibrary.ConvertEffectColor | Source/InterverseChainPlugin/Private/InterverseBlueprintLibrary.cpp:76-93 | alpha is always kept; any effect other than Fire, Ice or Plasma returns the input |
| BlueprintLibrary.EffectColorIgnoresInput | Source/InterverseChainPlugin/Private/InterverseBlueprintLibrary.cpp:79-90 | for Fire, Ice and Plasma the colour depends on the input only through alpha |
| BlueprintLibrary.ValidateAssetProperties | Source/InterverseChainPlugin/Private/InterverseBlueprintLibrary.cpp:95-118 | true exactly when the properties are valid and a weapon has Damage and armour has Defense |
| BlueprintLibrary.WeaponNeedsDamage | Source/InterverseChainPlugin/Private/InterverseBlueprintLibrary.cpp:104-112 | a valid weapon validates with a Damage entry and never without one |
| BlueprintLibrary.GetAssetTypeString | Source/InterverseChainPlugin/Private/InterverseBlueprintLibrary.cpp:120-123 | the category's wire name, which decodes back to the category |
| Chain.EndpointPrefixed | Source/InterverseChainPlugin/Public/InterverseCompatibility.h:13-16 | a path whose first letter is not v gets the prefix added |
| Chain.CreateWallet | Source/InterverseChainPlugin/Private/InterverseChainComponent.cpp:35-48 | a POST to node/verse/wallet/create, with the JSON and key headers and no body |
| Chain.GetBalance | Source/InterverseChainPlugin/Private/InterverseChainComponent.cpp:50-63 | no request exactly for an empty address; otherwise a GET to node/verse/wallet/address/balance with the key header |
| Chain.MintGameAsset | Source/InterverseChainPlugin/Private/InterverseChainComponent.cpp:65-97 | no request exactly when the properties are invalid or the owner is empty; otherwise a POST to verse/assets/mint of the asset JSON plus owner and game id |
| Chain.TransferAsset | Source/InterverseChainPlugin/Private/InterverseChainComponent.cpp:99-125 | no request exactly when an argument is empty; otherwise a POST to verse/assets/transfer of the three ids |
| Chain.GetPlayerAssets | Source/InterverseChainPlugin/Private/InterverseChainComponent.cpp:127-139 | no request exactly for an empty address; otherwise a GET to verse/assets/player/address |
| Chain.RecordTransaction | Source/InterverseChainPlugin/Private/InterverseChainComponent.cpp:388-404 | no request exactly for empty data; otherwise a POST of the data as is to verse/transactions/record |
| Chain.LedgerStateRequest | Source/InterverseChainPlugin/Private/InterverseChainComponent.cpp:406-421 | a GET of node/chain, which is not the prefixed REST path |
| Chain.LedgerStateAfter | Source/InterverseChainPlugin/Private/InterverseChainComponent.cpp:409-415 | the completion handler sets the out-parameter to the response text exactly on a successful, valid response, and leaves it unchanged otherwise |
| Chain.TransactionHistoryRequest | Source/InterverseChainPlugin/Private/InterverseChainComponent.cpp:451-454 | a GET of node/transactions/address, with no guard on an empty address |
| Chain.TransactionTexts | Source/InterverseChainPlugin/Private/InterverseChainComponent.cpp:435-446 | never more texts than elements; an all-string array keeps every element |
| Chain.AppendTransactions | Source/InterverseChainPlugin/Private/InterverseChainComponent.cpp:438-446 | the completion handler's loop appends the texts of the array to the out-array |
| Chain.TransactionTextsOfStrings | Source/InterverseChainPlugin/Private/InterverseChainComponent.cpp:438-446 | without numbers or booleans, the texts are exactly the string elements in order |
| Chain.TrimTrailingSlashes | Source/InterverseChainPlugin/Private/InterverseChainComponent.cpp:167-171 | the longest prefix not ending in a slash, with only slashes removed after it |
| Chain.ChopTrailingSlashes | Source/InterverseChainPlugin/Private/InterverseChainComponent.cpp:167-171 | the while loop computes exactly the trimmed URL |
| Chain.TrimmedAfterHost | Source/InterverseChainPlugin/Private/InterverseChainComponent.cpp:167-171 | any run of slashes after a text not ending in one is removed entirely |
| Chain.WebSocketUrl | Source/InterverseChainPlugin/Private/InterverseChainComponent.cpp:155-174 | no URL exactly without a node URL or API key; otherwise a URL ending in /ws?api_key=key whose part before the query is empty or does not end in a slash |
| Chain.SecureScheme | Source/InterverseChainPlugin/Private/InterverseChainComponent.cpp:163-165 | an https node URL with no other scheme text in it has only its scheme rewritten, to wss:// |
| Chain.SecureWebSocketUrl | Source/InterverseChainPlugin/Private/InterverseChainComponent.cpp:162-174 | for any host without a trailing slash or scheme text, https://host followed by any slashes gives wss://host/ws?api_key=key |
| Chain.PlainScheme | Source/InterverseChainPlugin/Private/InterverseChainComponent.cpp:162-163 | an http node URL with no other scheme text in it has only its scheme rewritten, to ws:// |
| Chain.PlainWebSocketUrl | Source/InterverseChainPlugin/Private/InterverseChainComponent.cpp:162-174 | for any host without a trailing slash or scheme text, http://host followed by any slashes gives ws://host/ws?api_key=key |
| Chain.NoPlainHttp | Source/InterverseChainPlugin/Private/InterverseChainComponent.cpp:162-163 | the http:// rewrite finds nothing in an https URL whose rest has no http:// |
| Chain.OnHttpResponse | Source/InterverseChainPlugin/Private/InterverseChainComponent.cpp:283-337 | at most one event; none for a failed, invalid or unparsable response or one without data; an event only for a mint, transfer or literal wallet/balance URL |
| Chain.HttpRouting | Source/InterverseChainPlugin/Private/InterverseChainComponent.cpp:309-335 | mint beats transfer beats wallet/balance; the transfer flag comes from the top level; any other URL yields nothing |
| Chain.TransferUrlRouted | Source/InterverseChainPlugin/Private/InterverseChainComponent.cpp:309-319 | for all non-empty ids and every node URL without assets/mint, the URL TransferAsset builds passes the transfer test and not the mint test |
| Chain.TransferSuccessReadFromTopLevel | Source/InterverseChainPlugin/Private/InterverseChainComponent.cpp:319-326 | for every node URL without assets/mint, a transfer response whose data says success, with no top-level flag, reports failure |
| Chain.BalanceUrlUnrouted | Source/InterverseChainPlugin/Private/InterverseChainComponent.cpp:309-328 | for every hexadecimal address and every node URL free of the three patterns, the URL GetBalance builds passes none of the three routing tests |
| Chain.BalanceResponseDropped | Source/InterverseChainPlugin/Private/InterverseChainComponent.cpp:328-335 | for every hexadecimal address and every node URL free of the three patterns, no response to GetBalance yields an event |
| Chain.BalanceAddressRouted | Source/InterverseChainPlugin/Private/InterverseChainComponent.cpp:328-335 | the address balance does make the URL pass the wallet/balance test, so the response yields the data balance |
| Chain.RouteAcrossNode | Source/InterverseChainPlugin/Private/InterverseChainComponent.cpp:309-328 | a routing pattern occurs in node/verse/path exactly when it occurs in the node URL or in the path |
| Chain.ProcessWebSocketMessage | Source/InterverseChainPlugin/Private/InterverseChainComponent.cpp:339-386 | at most one event; none for an unparsable frame or a type other than the three known ones |
| Chain.FrameTypesDistinct | Source/InterverseChainPlugin/Private/InterverseChainComponent.cpp:348-373 | the three frame types differ even ignoring case |
| Chain.PushDispatch | Source/InterverseChainPlugin/Private/InterverseChainComponent.cpp:346-384 | asset_update yields the read asset; balance_update the data balance; transfer_complete the data id and flag; each only when the payload object is present |
| Chain.PushedTransferReadsData | Source/InterverseChainPlugin/Private/InterverseChainComponent.cpp:373-383 | the same payload pushed as transfer_complete reports success |
| Chain.Connect | Source/InterverseChainPlugin/Private/InterverseChainComponent.cpp:141-192 | without a WebSocket URL nothing changes; otherwise a new, unconnected socket for that URL replaces the old one |
| Chain.Started | Source/InterverseChainPlugin/Private/InterverseChainComponent.cpp:12-26 | nothing changes unless node URL, game id and API key are all set; then the new state is the connect step, so the component is connecting |
| Chain.Disconnect | Source/InterverseChainPlugin/Private/InterverseChainComponent.cpp:274-281 | afterwards not connected; a connected socket keeps its number and URL and only its flag is cleared, with frames, events and timers kept; a socket that was not connected is left alone |
| Chain.ReconnectReplacesSocket | Source/InterverseChainPlugin/Private/InterverseChainComponent.cpp:475-480 | reconnecting leaves a fresh unconnected socket, so the status reads Disconnected |
| Chain.Opened | Source/InterverseChainPlugin/Private/InterverseChainComponent.cpp:195-216 | success is broadcast; when the callback comes from the current socket, that socket, with its number and URL, becomes connected and the handshake is sent exactly when a game is set; a replaced socket's callback leaves the current socket as it was and sends the handshake on it when it is connected |
| Chain.HandshakeIffGame | Source/InterverseChainPlugin/Private/InterverseChainComponent.cpp:209-215 | the handshake goes out on opening exactly when the game id is non-empty |
| Chain.ConnectionError | Source/InterverseChainPlugin/Private/InterverseChainComponent.cpp:219-231 | failure is broadcast and no reconnect is armed |
| Chain.Message | Source/InterverseChainPlugin/Private/InterverseChainComponent.cpp:234-247 | the raw frame is broadcast first, followed by the events ProcessWebSocketMessage dispatches for it; socket, frames and timers are kept |
| Chain.Closed | Source/InterverseChainPlugin/Private/InterverseChainComponent.cpp:250-268 | the current socket's close leaves it not connected, with its number and URL kept; a replaced socket's close leaves the current socket as it was; an unclean close adds one 5-second timer, a clean one none |
| Chain.StaleCloseKeepsNewSocket | Source/InterverseChainPlugin/Private/InterverseChainComponent.cpp:250-268 | after a reconnect whose new socket has opened, the old socket's close leaves the component connected on the new socket |
| Chain.EachUncleanCloseArmsATimer | Source/InterverseChainPlugin/Private/InterverseChainComponent.cpp:254-267 | over any run of closes, one 5-second timer per unclean close is added and none removed |
| Chain.TimerFired | Source/InterverseChainPlugin/Private/InterverseChainComponent.cpp:259-266 | the first timer is used up and the others kept; frames and events are unchanged; with a WebSocket URL a new unconnected socket for it takes over, without one the component is not connected |
| Chain.Send | Source/InterverseChainPlugin/Private/InterverseChainComponent.cpp:457-468 | a frame goes out only on a connected socket; otherwise nothing changes |
| Chain.Status | Source/InterverseChainPlugin/Private/InterverseChainComponent.cpp:482-496 | Not Initialized exactly without a socket, Connected exactly when connected, Disconnected exactly when a socket is not connected |
| Chain.ChainComponent.constructor | Source/InterverseChainPlugin/Private/InterverseChainComponent.cpp:6-10 | configured, with no socket, frames, timers or events |
| Chain.ChainComponent.BeginPlay | Source/InterverseChainPlugin/Private/InterverseChainComponent.cpp:12-26 | the new state is the BeginPlay step of the old one |
| Chain.ChainComponent.EndPlay | Source/InterverseChainPlugin/Private/InterverseChainComponent.cpp:28-33 | the new state is the disconnect step of the old one |
| Chain.ChainComponent.ConnectWebSocket | Source/InterverseChainPlugin/Private/InterverseChainComponent.cpp:141-192 | the new state is the connect step, with the URL built by the slash-chopping loop |
| Chain.ChainComponent.DisconnectWebSocket | Source/InterverseChainPlugin/Private/InterverseChainComponent.cpp:274-281 | the new state is the disconnect step |
| Chain.ChainComponent.ReconnectWebSocket | Source/InterverseChainPlugin/Private/InterverseChainComponent.cpp:475-480 | disconnect, then connect |
| Chain.ChainComponent.OnConnected | Source/InterverseChainPlugin/Private/InterverseChainComponent.cpp:195-216 | the new state is the opened step for socket id |
| Chain.ChainComponent.OnConnectionError | Source/InterverseChainPlugin/Private/InterverseChainComponent.cpp:219-231 | the new state is the error step |
| Chain.ChainComponent.OnClosed | Source/InterverseChainPlugin/Private/InterverseChainComponent.cpp:250-268 | the new state is the closed step for socket id |
| Chain.ChainComponent.OnReconnectTimer | Source/InterverseChainPlugin/Private/InterverseChainComponent.cpp:259-266 | the new state is the timer step |
| Chain.ChainComponent.OnMessage | Source/InterverseChainPlugin/Private/InterverseChainComponent.cpp:234-247 | the new state is the message step |
| Chain.ChainComponent.OnHttpResponseReceived | Source/InterverseChainPlugin/Private/InterverseChainComponent.cpp:283-337 | the routed events are appended; socket, socket count, frames, timers and configuration are kept |
| Chain.ChainComponent.SendWebSocketMessage | Source/InterverseChainPlugin/Private/InterverseChainComponent.cpp:457-468 | the new state is the send step |
| Chain.ChainComponent.IsWebSocketConnected | Source/InterverseChainPlugin/Private/InterverseChainComponent.cpp:470-473 | connected exactly when the status reads Connected |
| GameLink.Register | Source/InterverseChainPlugin/Private/InterverseGameLinkComponent.cpp:23-65 | false with nothing changed exactly for an empty id; otherwise the link is stored under its id, replacing any earlier one, and announced; the empty id never becomes a key |
| GameLink.RegisterThenLookup | Source/InterverseChainPlugin/Private/InterverseGameLinkComponent.cpp:248-269 | after registering, the game is linked, its config is returned, and its class mappings are used |
| GameLink.RegisterKeepsOthers | Source/InterverseChainPlugin/Private/InterverseGameLinkComponent.cpp:31 | registering leaves every other game's link, or its absence, as it was |
| GameLink.RegisterAllNoEmptyKey | Source/InterverseChainPlugin/Private/InterverseGameLinkComponent.cpp:25-31 | after any run of registrations, the empty id is not linked and every non-empty registered id is |
| GameLink.RegisterAllKeepsLinked | Source/InterverseChainPlugin/Private/InterverseGameLinkComponent.cpp:31 | registration never removes a link |
| GameLink.LookupConfig | Source/InterverseChainPlugin/Private/InterverseGameLinkComponent.cpp:260-269 | found exactly when linked, returning the stored config; otherwise the out-parameter is unchanged |
| GameLink.FindMappedClass | Source/InterverseChainPlugin/Private/InterverseGameLinkComponent.cpp:198-217 | none exactly when the game is unlinked; the mapped class when the source class has a mapping; otherwise the source class |
| GameLink.RecordOnChain | Source/InterverseChainPlugin/Private/InterverseGameLinkComponent.cpp:219-246 | the record built from the arguments and the clock is appended when the owner has a chain component, none otherwise; always one successful transfer broadcast |
| GameLink.TransferRecordReadsBack | Source/InterverseChainPlugin/Private/InterverseGameLinkComponent.cpp:226-233 | the record carries the type, games, object, players and timestamp under the expected names |
| GameLink.TransferData | Source/InterverseChainPlugin/Private/InterverseGameLinkComponent.cpp:271-295 | true exactly when the target is linked and allows direct transfer; otherwise nothing changes; on success two broadcasts |
| GameLink.TransferDataRecords | Source/InterverseChainPlugin/Private/InterverseGameLinkComponent.cpp:284-291 | a permitted transfer adds one record when the owner has a chain component |
| GameLink.SerializeActor | Source/InterverseChainPlugin/Private/InterverseGameLinkComponent.cpp:108-132 | valid data with the fresh id, the actor's class and SaveGame properties, and an empty source game id |
| GameLink.TransferGameObjectTwiceRecorded | Source/InterverseChainPlugin/Private/InterverseGameLinkComponent.cpp:67-106 | true exactly with an actor, a player component, a link and permission; otherwise nothing changes; on success two records with an empty source game and three success broadcasts |
| GameLink.Spawn | Source/InterverseChainPlugin/Private/InterverseGameLinkComponent.cpp:134-174 | an actor exactly for valid data whose class the engine finds, a linked source game and a successful spawn; its class is the one the data's class maps to, and its arrival is announced |
| GameLink.TransferredObjectNeverSpawns | Source/InterverseChainPlugin/Private/InterverseGameLinkComponent.cpp:134-152 | data serialized by a transfer never spawns while the empty id is unlinked |
| GameLink.GameLinkComponent.constructor | Source/InterverseChainPlugin/Private/InterverseGameLinkComponent.cpp:8-11 | no links, records or broadcasts |
| GameLink.GameLinkComponent.RegisterGameLink | Source/InterverseChainPlugin/Private/InterverseGameLinkComponent.cpp:23-65 | the register step, keeping the empty id unlinked |
| GameLink.GameLinkComponent.RecordTransferOnChain | Source/InterverseChainPlugin/Private/InterverseGameLinkComponent.cpp:219-246 | the record step |
| GameLink.GameLinkComponent.TransferObjectData | Source/InterverseChainPlugin/Private/InterverseGameLinkComponent.cpp:271-295 | the transfer-data step |
| GameLink.GameLinkComponent.TransferGameObject | Source/InterverseChainPlugin/Private/InterverseGameLinkComponent.cpp:67-106 | the transfer-object step |
| GameLink.GameLinkComponent.SpawnReceivedObject | Source/InterverseChainPlugin/Private/InterverseGameLinkComponent.cpp:134-174 | the spawn step |
| GameLink.GameLinkComponent.IsGameLinked | Source/InterverseChainPlugin/Private/InterverseGameLinkComponent.cpp:248-251 | linked exactly when the config lookup finds the game |
| GameLink.GameLinkComponent.GetLinkedGames | Source/InterverseChainPlugin/Private/InterverseGameLinkComponent.cpp:253-258 | every linked id exactly once and nothing else |
| Mining.Begin | Source/InterverseChainPlugin/Private/InterverseMiningComponent.cpp:13-22 | difficulty reset to 1; auto-start does not start mining, since its address is non-empty |
| Mining.Start | Source/InterverseChainPlugin/Private/InterverseMiningComponent.cpp:36-49 | nothing changes without a world or for a non-empty address; with a world the empty address is stored and the timer armed with the interval; starting never turns mining on |
| Mining.Stop | Source/InterverseChainPlugin/Private/InterverseMiningComponent.cpp:51-58 | with a world, not mining and no timer afterwards; without one, nothing changes |
| Mining.SetDifficulty | Source/InterverseChainPlugin/Private/InterverseMiningComponent.cpp:75-78 | the new difficulty is the larger of the argument and 0.1 |
| Mining.Tick | Source/InterverseChainPlugin/Private/InterverseMiningComponent.cpp:80-91 | nothing while not mining; otherwise one reward broadcast |
| Mining.NeverMines | Source/InterverseChainPlugin/Private/InterverseMiningComponent.cpp:36-58 | from a non-mining state, no sequence of calls makes the component mine or broadcast a reward |
| Mining.DifficultyStaysAboveFloor | Source/InterverseChainPlugin/Private/InterverseMiningComponent.cpp:75-78 | once at least 0.1, the difficulty stays so under any sequence of calls |
| Mining.MiningComponent.constructor | Source/InterverseChainPlugin/Private/InterverseMiningComponent.cpp:4-11 | power 1, interval 60, difficulty 1, no auto-start, no address, timer or broadcast |
| Mining.MiningComponent.BeginPlay | Source/InterverseChainPlugin/Private/InterverseMiningComponent.cpp:13-22 | the BeginPlay step |
| Mining.MiningComponent.EndPlay | Source/InterverseChainPlugin/Private/InterverseMiningComponent.cpp:24-28 | the stop step |
| Mining.MiningComponent.StartMining | Source/InterverseChainPlugin/Private/InterverseMiningComponent.cpp:36-49 | the start step |
| Mining.MiningComponent.StopMining | Source/InterverseChainPlugin/Private/InterverseMiningComponent.cpp:51-58 | the stop step |
| Mining.MiningComponent.IsMining | Source/InterverseChainPlugin/Private/InterverseMiningComponent.cpp:70-73 | mining exactly when the address is non-empty |
| Mining.MiningComponent.SetMiningDifficulty | Source/InterverseChainPlugin/Private/InterverseMiningComponent.cpp:75-78 | the difficulty step |
| Mining.MiningComponent.OnMiningTick | Source/InterverseChainPlugin/Private/InterverseMiningComponent.cpp:80-91 | the tick step |

## Left out

- Network I/O: sending requests, opening and closing sockets and reading responses are not modelled. A request is the record handed to the HTTP module; responses and frames arrive already parsed.
- JSON text: parsing and printing are not modelled, so request bodies are JSON objects. The game-link transfer records are the objects before serialization; the chain request that carries them is `Chain.RecordTransaction`.
- The JSON library's number-to-text and text-to-number conversions are a `Coercion` parameter.
- Thread marshalling (`AsyncTask`, game-thread tasks): events are an ordered log.
- Timers are recorded as armed delays or periods, not real time. A reconnect timer fires when `OnReconnectTimer` is called.
- Floating point: `float` fields are `real`, so results such as 10 × 0.1 are exact. `int32` fields are unbounded integers.
- Case folding is ASCII only. Unreal's full Unicode folding is not modelled.
- `TMap` keys with `FString` type hash and compare ignoring case in Unreal; the model's map keys are exact.
- `ConvertItemCategory`'s `UNKNOWN` branch and `ConvertRarity`'s default branch are unreachable for declared enum values and have no model.
- A freshly declared `FInterverseAsset` leaves its enum fields uninitialised; the model gives them their first enumerators.
- `CalculateReward` (float arithmetic and a random bonus) and the GUIDs are passed in as values.
- `InterversePlayerComponent.cpp` is not part of this model: the player component is only a present-or-absent global id.
- The Blueprint hook `OnAssetConverted` is taken as the identity.
- `PropertiesToJson` and `JsonToProperties` go through engine reflection and are not modelled.
- Engine reflection in `SerializeActor` and `DeserializeToActor`: an actor is its class path plus its SaveGame property texts, and property import is not modelled.
- `FindObject` and `SpawnActor` outcomes are parameters.
- Soft class pointers are taken as loaded, so a mapping never resolves to null.
- `RegisterGameLink` builds a link record but sends nothing; the record is not modelled.
- Calls through a null `GetOwner()`, `GetWorld()` or game instance are not modelled, except the mining component's world check.
- `ConnectWebSocket` can fail to load the WebSockets module or create the socket; both failures are not modelled. The socket's extra headers and sub-protocol are not modelled either.
- `DisconnectWebSocket` marks the socket disconnected immediately; the close callback that later follows is a separate call.
- The player-scoped inventory functions declared in `InterverseInventoryComponent.h` have no implementation and are not modelled.
- `InterverseSubsystem`, `InterverseGameInstance`, `InterverseWalletSave.h` and the build script are not part of this model.
- Inventory.InventoryComponent.GetInventorySize: has no contract of its own; it returns the length of the item list.
- Chain.LedgerStateAfter: `GetLedgerState` returns before the response arrives; its completion handler writes through a reference captured at call time, so the caller's out-parameter is unchanged on return and the later write may reach an object that no longer exists. The model states the write the handler performs, not when it happens or whether its target is still alive.
- Chain.AppendTransactions: likewise for `GetTransactionHistory`; the appended texts reach the out-array only when the handler runs, after the call has returned.
- Chain.Opened: the model routes the handshake through `SendWebSocketMessage`, which sends only on a connected current socket; the source calls `WebSocket->Send` on the current socket directly, with no connected check, and what `IWebSocket::Send` does on a socket that is not connected is not modelled.
- Chain.BalanceResponseDropped: stated for hexadecimal addresses and node URLs without the three routing patterns; other addresses can make the URL match (`Chain.BalanceAddressRouted`).
- BlueprintLibrary.ScaleDamageValue: the ×10 and ×0.1 scalings are exact reals, so the float rounding of the source is not modelled.
