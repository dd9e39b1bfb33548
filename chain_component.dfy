/**
 * The chain client component: the REST requests it issues and their guards,
 * the WebSocket address and handshake, how HTTP responses and pushed frames
 * turn into events, and the lifecycle of the WebSocket connection.
 *
 * Sending and receiving are not modelled: a request is the record the
 * component would hand to the HTTP module, a response or frame arrives as an
 * already parsed JSON object (or none when the text did not parse), and the
 * events the component broadcasts are appended to a log.
 */
module Chain {
  import opened Wrappers
  import opened Text
  import opened Json
  import opened StandardTypes
  import opened ChainDelegates
  import opened Compatibility

  /** The component's configuration properties NodeUrl, GameId and ApiKey. */
  datatype Config = Config(nodeUrl: string, gameId: string, apiKey: string)

  datatype Verb = GET | POST

  /** A request body: none, a JSON object the component serialises, or raw text. */
  datatype Body = NoBody | JsonBody(fields: JsonObject) | TextBody(text: string)

  /** What the component hands to the HTTP module. */
  datatype HttpRequest = HttpRequest(verb: Verb, url: string, headers: map<string, string>, body: Body)

  /** The delegates the component broadcasts, with their arguments. */
  datatype ChainEvent =
    | AssetMinted(asset: Asset, playerId: string)
    | TransferComplete(assetId: string, playerId: string, success: bool)
    | BalanceUpdated(balance: real)
    | WebSocketConnected(success: bool)
    | WebSocketMessage(message: string)

  // ---------------------------------------------------------------- requests

  /** The URL of a REST endpoint: the node URL, a slash, the prefixed path. */
  function RestUrl(cfg: Config, endpoint: string): string {
    cfg.nodeUrl + "/" + GetEndpointPath(endpoint)
  }

  /** The API key header every request carries. */
  function KeyHeader(cfg: Config): map<string, string> {
    map["X-API-Key" := cfg.apiKey]
  }

  /** The headers of a request with a JSON body. */
  function JsonHeaders(cfg: Config): map<string, string> {
    KeyHeader(cfg)["Content-Type" := "application/json"]
  }

  /** Every path the component builds gets the "verse/" prefix, because none starts with a v. */
  lemma EndpointPrefixed(endpoint: string)
    requires |endpoint| > 0 && LowerAscii(endpoint[0]) != 'v'
    ensures GetEndpointPath(endpoint) == EndpointPrefix + endpoint
  {
    if |EndpointPrefix| <= |endpoint| {
      assert endpoint[..|EndpointPrefix|][0] == endpoint[0];
    }
  }

  /** So the URL of such a path is the node URL, "/verse/" and the path. */
  lemma RestUrlOf(cfg: Config, endpoint: string)
    requires |endpoint| > 0 && LowerAscii(endpoint[0]) != 'v'
    ensures RestUrl(cfg, endpoint) == cfg.nodeUrl + "/verse/" + endpoint
  {
    EndpointPrefixed(endpoint);
    assert "/" + EndpointPrefix == "/verse/";
    assert cfg.nodeUrl + "/" + (EndpointPrefix + endpoint) == cfg.nodeUrl + ("/" + EndpointPrefix) + endpoint;
  }

  /** CreateWallet: a POST to verse/wallet/create, with no body. */
  function CreateWallet(cfg: Config): (r: HttpRequest)
    ensures r == HttpRequest(POST, cfg.nodeUrl + "/verse/" + "wallet/create", JsonHeaders(cfg), NoBody)
  {
    RestUrlOf(cfg, "wallet/create");
    HttpRequest(POST, RestUrl(cfg, "wallet/create"), JsonHeaders(cfg), NoBody)
  }

  /** GetBalance: nothing for an empty address, else a GET to verse/wallet/<address>/balance. */
  function GetBalance(cfg: Config, address: string): (r: Option<HttpRequest>)
    ensures r.None? <==> address == []
    ensures r.Some? ==> r.value == HttpRequest(GET, cfg.nodeUrl + "/verse/" + ("wallet/" + address + "/balance"), KeyHeader(cfg), NoBody)
  {
    if address == [] then None
    else
      var endpoint := "wallet/" + address + "/balance";
      RestUrlOf(cfg, endpoint);
      Some(HttpRequest(GET, RestUrl(cfg, endpoint), KeyHeader(cfg), NoBody))
  }

  /** The body of a mint request: the asset's JSON plus the owner and the game. */
  function MintBody(cfg: Config, owner: string, p: BaseProperties, custom: map<string, string>): JsonObject {
    ConvertAssetToJson(p, custom)["owner" := JString(owner)]["game_id" := JString(cfg.gameId)]
  }

  /** MintGameAsset: nothing for invalid properties or an empty owner, else a POST to verse/assets/mint. */
  function MintGameAsset(cfg: Config, owner: string, p: BaseProperties, custom: map<string, string>): (r: Option<HttpRequest>)
    ensures r.None? <==> !IsValid(p) || owner == []
    ensures r.Some? ==> r.value == HttpRequest(POST, cfg.nodeUrl + "/verse/" + "assets/mint", JsonHeaders(cfg), JsonBody(MintBody(cfg, owner, p, custom)))
  {
    if !IsValid(p) || owner == [] then None
    else
      RestUrlOf(cfg, "assets/mint");
      Some(HttpRequest(POST, RestUrl(cfg, "assets/mint"), JsonHeaders(cfg), JsonBody(MintBody(cfg, owner, p, custom))))
  }

  /** TransferAsset: nothing when any argument is empty, else a POST to verse/assets/transfer. */
  function TransferAsset(cfg: Config, assetId: string, fromAddress: string, toAddress: string): (r: Option<HttpRequest>)
    ensures r.None? <==> assetId == [] || fromAddress == [] || toAddress == []
    ensures r.Some? ==> r.value == HttpRequest(POST, cfg.nodeUrl + "/verse/" + "assets/transfer", JsonHeaders(cfg),
                                               JsonBody(map["asset_id" := JString(assetId), "from_address" := JString(fromAddress),
                                                            "to_address" := JString(toAddress)]))
  {
    if assetId == [] || fromAddress == [] || toAddress == [] then None
    else
      RestUrlOf(cfg, "assets/transfer");
      var body := map["asset_id" := JString(assetId), "from_address" := JString(fromAddress), "to_address" := JString(toAddress)];
      Some(HttpRequest(POST, RestUrl(cfg, "assets/transfer"), JsonHeaders(cfg), JsonBody(body)))
  }

  /** GetPlayerAssets: nothing for an empty address, else a GET to verse/assets/player/<address>. */
  function GetPlayerAssets(cfg: Config, player: string): (r: Option<HttpRequest>)
    ensures r.None? <==> player == []
    ensures r.Some? ==> r.value == HttpRequest(GET, cfg.nodeUrl + "/verse/" + ("assets/player/" + player), KeyHeader(cfg), NoBody)
  {
    if player == [] then None
    else
      var endpoint := "assets/player/" + player;
      RestUrlOf(cfg, endpoint);
      Some(HttpRequest(GET, RestUrl(cfg, endpoint), KeyHeader(cfg), NoBody))
  }

  /** RecordTransaction: nothing for empty data, else a POST of the data as it is to verse/transactions/record. */
  function RecordTransaction(cfg: Config, data: string): (r: Option<HttpRequest>)
    ensures r.None? <==> data == []
    ensures r.Some? ==> r.value == HttpRequest(POST, cfg.nodeUrl + "/verse/" + "transactions/record", JsonHeaders(cfg), TextBody(data))
  {
    if data == [] then None
    else
      RestUrlOf(cfg, "transactions/record");
      Some(HttpRequest(POST, RestUrl(cfg, "transactions/record"), JsonHeaders(cfg), TextBody(data)))
  }

  /** GetLedgerState's request: a GET of <node>/chain, not under the verse/ prefix. */
  function LedgerStateRequest(cfg: Config): (r: HttpRequest)
    ensures r.verb == GET && r.headers == KeyHeader(cfg) && r.body == NoBody
    ensures r.url == cfg.nodeUrl + "/chain" && r.url != RestUrl(cfg, "chain")
  {
    EndpointPrefixed("chain");
    assert (cfg.nodeUrl + "/chain")[|cfg.nodeUrl| + 1] == 'c';
    HttpRequest(GET, cfg.nodeUrl + "/chain", KeyHeader(cfg), NoBody)
  }

  /** GetLedgerState's completion: the out-parameter takes the response text only when a valid response arrived. */
  function LedgerStateAfter(outLedgerState: string, success: bool, valid: bool, content: string): (r: string)
    ensures r == outLedgerState || r == content
    ensures r != outLedgerState ==> success && valid
    ensures success && valid ==> r == content
  {
    if success && valid then content else outLedgerState
  }

  /** GetTransactionHistory's request: a GET of <node>/transactions/<address>, issued even for an empty address. */
  function TransactionHistoryRequest(cfg: Config, address: string): (r: HttpRequest)
    ensures r.verb == GET && r.headers == KeyHeader(cfg) && r.body == NoBody
    ensures r.url == cfg.nodeUrl + "/transactions/" + address
    ensures r.url[..|cfg.nodeUrl| + 1] == cfg.nodeUrl + "/"
  {
    var url := cfg.nodeUrl + "/transactions/" + address;
    assert url[..|cfg.nodeUrl| + 1] == cfg.nodeUrl + "/";
    HttpRequest(GET, url, KeyHeader(cfg), NoBody)
  }

  /** The text of every element of the transactions array that has one (strings, numbers and booleans), in order. */
  function TransactionTexts(items: seq<JsonValue>, c: Coercion): (r: seq<string>)
    ensures |r| <= |items|
    ensures (forall i :: 0 <= i < |items| ==> items[i].JString?) ==> |r| == |items|
    decreases |items|
  {
    if |items| == 0 then []
    else ToSeq(TryGetString(items[0], c)) + TransactionTexts(items[1..], c)
  }

  /** The transactions array of a history response, when the response is valid, parses and has one. */
  function HistoryItems(success: bool, valid: bool, parsed: Option<JsonObject>): seq<JsonValue> {
    if success && valid && parsed.Some? then
      match TryGetArrayField(parsed.value, "transactions")
      case Some(items) => items
      case None => []
    else []
  }

  /** GetTransactionHistory's completion loop: the text of each element with one is appended to the out-array. */
  method AppendTransactions(outTransactions: seq<string>, items: seq<JsonValue>, c: Coercion) returns (r: seq<string>)
    ensures r == outTransactions + TransactionTexts(items, c)
  {
    r := outTransactions;
    var i := 0;
    assert items[i..] == items;
    while i < |items|
      invariant 0 <= i <= |items|
      invariant r + TransactionTexts(items[i..], c) == outTransactions + TransactionTexts(items, c)
    {
      TransactionTextsStep(items, i, c);
      var text := TryGetString(items[i], c);
      if text.Some? {
        assert (r + [text.value]) + TransactionTexts(items[i + 1..], c) == r + ([text.value] + TransactionTexts(items[i + 1..], c));
        r := r + [text.value];
      }
      i := i + 1;
    }
    assert items[i..] == [] && r + [] == r;
  }

  /** One element of the array contributes its text, if any, ahead of the rest. */
  lemma TransactionTextsStep(items: seq<JsonValue>, i: nat, c: Coercion)
    requires i < |items|
    ensures TransactionTexts(items[i..], c) == ToSeq(TryGetString(items[i], c)) + TransactionTexts(items[i + 1..], c)
  {
    assert items[i..][0] == items[i] && items[i..][1..] == items[i + 1..];
  }

  /** Exactly the string elements survive when the array holds no numbers or booleans; they keep their order. */
  lemma {:induction false} TransactionTextsOfStrings(items: seq<JsonValue>, c: Coercion)
    requires forall i :: 0 <= i < |items| ==> !items[i].JNumber? && !items[i].JBool?
    ensures TransactionTexts(items, c) == seq(|Strings(items)|, i requires 0 <= i < |Strings(items)| => Strings(items)[i].s)
    decreases |items|
  {
    if |items| > 0 {
      TransactionTextsOfStrings(items[1..], c);
    }
  }

  /** The string elements of an array, in order. */
  function Strings(items: seq<JsonValue>): (r: seq<JsonValue>)
    ensures forall i :: 0 <= i < |r| ==> r[i].JString?
    decreases |items|
  {
    if |items| == 0 then []
    else (if items[0].JString? then [items[0]] else []) + Strings(items[1..])
  }

  // ------------------------------------------------------ WebSocket address

  /** The node URL with http:// rewritten to ws:// and then https:// to wss:// (ignoring case). */
  function WebSocketScheme(nodeUrl: string): string {
    ReplaceAllIgnoreCase(ReplaceAllIgnoreCase(nodeUrl, "http://", "ws://"), "https://", "wss://")
  }

  /** A string with every trailing slash removed. */
  function TrimTrailingSlashes(s: string): (r: string)
    ensures |r| <= |s| && r == s[..|r|]
    ensures r == [] || r[|r| - 1] != '/'
    ensures forall i :: |r| <= i < |s| ==> s[i] == '/'
    decreases |s|
  {
    if |s| > 0 && s[|s| - 1] == '/' then TrimTrailingSlashes(s[..|s| - 1]) else s
  }

  /** The while loop of ConnectWebSocket: chop one trailing slash at a time. */
  method ChopTrailingSlashes(url: string) returns (r: string)
    ensures r == TrimTrailingSlashes(url)
  {
    r := url;
    while |r| > 0 && r[|r| - 1] == '/'
      invariant TrimTrailingSlashes(r) == TrimTrailingSlashes(url)
      decreases |r|
    {
      r := r[..|r| - 1];
    }
  }

  /** The query ConnectWebSocket appends to the WebSocket address. */
  function WebSocketQuery(apiKey: string): string {
    "/ws?api_key=" + apiKey
  }

  /**
   * The WebSocket URL ConnectWebSocket opens: nothing without a node URL or an
   * API key; otherwise a base without trailing slashes, followed by the query.
   */
  function WebSocketUrl(cfg: Config): (r: Option<string>)
    ensures r.None? <==> cfg.nodeUrl == [] || cfg.apiKey == []
    ensures r.Some? ==> var q := WebSocketQuery(cfg.apiKey);
                        && |q| <= |r.value| && r.value[|r.value| - |q|..] == q
                        && var base := r.value[..|r.value| - |q|];
                        (base == [] || base[|base| - 1] != '/')
  {
    if cfg.nodeUrl == [] || cfg.apiKey == [] then None
    else
      var base := TrimTrailingSlashes(WebSocketScheme(cfg.nodeUrl));
      var url := base + WebSocketQuery(cfg.apiKey);
      assert url[..|base|] == base && url[|base|..] == WebSocketQuery(cfg.apiKey);
      Some(url)
  }

  /** Neither scheme occurs in `s`, in any letter case. */
  predicate NoScheme(s: string) {
    !ContainsIgnoreCase(s, "http://") && !ContainsIgnoreCase(s, "https://")
  }

  /**
   * For a host without a trailing slash, an https node is reached at
   * wss://<host>/ws?api_key=<key>, whatever trailing slashes the node URL has.
   */
  lemma SecureWebSocketUrl(host: string, slashes: string, gameId: string, apiKey: string)
    requires NoScheme(host + slashes) && host != [] && host[|host| - 1] != '/'
    requires forall i :: 0 <= i < |slashes| ==> slashes[i] == '/'
    requires apiKey != []
    ensures WebSocketUrl(Config("https://" + host + slashes, gameId, apiKey)) == Some("wss://" + host + "/ws?api_key=" + apiKey)
  {
    var rest := host + slashes;
    SecureScheme(rest);
    assert "https://" + host + slashes == "https://" + rest;
    assert "wss://" + rest == ("wss://" + host) + slashes;
    TrimmedAfterHost("wss://" + host, slashes);
    assert "wss://" + host + "/ws?api_key=" + apiKey == ("wss://" + host) + WebSocketQuery(apiKey);
  }

  /**
   * For a host without a trailing slash, an http node is reached at
   * ws://<host>/ws?api_key=<key>, whatever trailing slashes the node URL has.
   */
  lemma PlainWebSocketUrl(host: string, slashes: string, gameId: string, apiKey: string)
    requires NoScheme(host + slashes) && host != [] && host[|host| - 1] != '/'
    requires forall i :: 0 <= i < |slashes| ==> slashes[i] == '/'
    requires apiKey != []
    ensures WebSocketUrl(Config("http://" + host + slashes, gameId, apiKey)) == Some("ws://" + host + "/ws?api_key=" + apiKey)
  {
    var rest := host + slashes;
    PlainScheme(rest);
    assert "http://" + host + slashes == "http://" + rest;
    assert "ws://" + rest == ("ws://" + host) + slashes;
    TrimmedAfterHost("ws://" + host, slashes);
    assert "ws://" + host + "/ws?api_key=" + apiKey == ("ws://" + host) + WebSocketQuery(apiKey);
  }

  /** The http:// rewrite leaves an https URL alone, and the https:// rewrite replaces only its scheme. */
  lemma SecureScheme(rest: string)
    requires NoScheme(rest)
    ensures WebSocketScheme("https://" + rest) == "wss://" + rest
  {
    var url := "https://" + rest;
    NoPlainHttp(rest);
    ReplaceAbsent(url, "http://", "ws://");
    assert url[..8] == "https://" && url[8..] == rest;
    EqualsIgnoreCaseIsEquivalence("https://", "https://", "https://");
    ReplaceAbsent(rest, "https://", "wss://");
  }

  /** The http:// rewrite replaces only the scheme, and leaves nothing for the https:// rewrite. */
  lemma PlainScheme(rest: string)
    requires NoScheme(rest)
    ensures WebSocketScheme("http://" + rest) == "ws://" + rest
  {
    var url := "http://" + rest;
    assert url[..7] == "http://" && url[7..] == rest;
    EqualsIgnoreCaseIsEquivalence("http://", "http://", "http://");
    ReplaceAbsent(rest, "http://", "ws://");
    var ws := "ws://" + rest;
    SkipNonStarters("ws://", rest, "https://");
    ReplaceAbsent(ws, "https://", "wss://");
  }

  /** An https URL whose rest holds no http:// does not contain http://: its own h is followed by "ttps". */
  lemma NoPlainHttp(rest: string)
    requires !ContainsIgnoreCase(rest, "http://")
    ensures !ContainsIgnoreCase("https://" + rest, "http://")
  {
    var url := "https://" + rest;
    assert url[..7][4] == 's';
    assert url[1..] == "ttps://" + rest;
    SkipNonStarters("ttps://", rest, "http://");
  }

  /** Trailing slashes after a text that does not end in one are all removed. */
  lemma {:induction false} TrimmedAfterHost(text: string, slashes: string)
    requires text != [] && text[|text| - 1] != '/'
    requires forall i :: 0 <= i < |slashes| ==> slashes[i] == '/'
    ensures TrimTrailingSlashes(text + slashes) == text
    decreases |slashes|
  {
    if |slashes| == 0 {
      assert text + slashes == text;
    } else {
      var s := text + slashes;
      assert s[..|s| - 1] == text + slashes[..|slashes| - 1];
      TrimmedAfterHost(text, slashes[..|slashes| - 1]);
    }
  }

  /** The handshake frame sent when the connection opens. */
  function HandshakeFrame(gameId: string): string {
    "{\"type\":\"handshake\",\"game_id\":\"" + gameId + "\"}"
  }

  // ----------------------------------------------------- incoming messages

  /**
   * OnHttpResponseReceived: the event a response yields, routed by the request
   * URL. A failed, invalid or unparsable response, or one without a data
   * object, yields nothing; the mint test comes first, then transfer, then the
   * literal wallet/balance. The transfer's success flag is read from the top
   * level of the response, not from its data object.
   */
  function OnHttpResponse(url: string, success: bool, valid: bool, parsed: Option<JsonObject>, c: Coercion): (events: seq<ChainEvent>)
    ensures |events| <= 1
    ensures (!success || !valid || parsed.None? || TryGetObjectField(parsed.value, "data").None?) ==> events == []
    ensures events != [] ==> ContainsIgnoreCase(url, "assets/mint") || ContainsIgnoreCase(url, "assets/transfer")
                             || ContainsIgnoreCase(url, "wallet/balance")
  {
    if !success || !valid || parsed.None? then []
    else
      var top := parsed.value;
      match TryGetObjectField(top, "data")
      case None => []
      case Some(data) =>
        if ContainsIgnoreCase(url, "assets/mint") then
          var (ok, asset) := ConvertJsonToAsset(Some(data), BlankAsset, c);
          if ok then [AssetMinted(asset, "")] else []
        else if ContainsIgnoreCase(url, "assets/transfer") then
          [TransferComplete(GetStringField(data, "asset_id", c), "", GetBoolField(top, "success", c))]
        else if ContainsIgnoreCase(url, "wallet/balance") then
          [BalanceUpdated(GetNumberField(data, "balance", c))]
        else []
  }

  /**
   * ProcessWebSocketMessage: the event a pushed frame yields, chosen by its
   * type field (ignoring case); unknown types and unparsable frames yield nothing.
   */
  function ProcessWebSocketMessage(parsed: Option<JsonObject>, c: Coercion): (events: seq<ChainEvent>)
    ensures |events| <= 1
    ensures parsed.None? ==> events == []
    ensures (parsed.Some? && !EqualsIgnoreCase(GetStringField(parsed.value, "type", c), "asset_update")
             && !EqualsIgnoreCase(GetStringField(parsed.value, "type", c), "balance_update")
             && !EqualsIgnoreCase(GetStringField(parsed.value, "type", c), "transfer_complete")) ==> events == []
  {
    match parsed
    case None => []
    case Some(frame) =>
      var messageType := GetStringField(frame, "type", c);
      if EqualsIgnoreCase(messageType, "asset_update") then
        match TryGetObjectField(frame, "asset")
        case None => []
        case Some(assetObject) =>
          var (ok, asset) := ConvertJsonToAsset(Some(assetObject), BlankAsset, c);
          if ok then [AssetMinted(asset, "")] else []
      else if EqualsIgnoreCase(messageType, "balance_update") then
        match TryGetObjectField(frame, "data")
        case None => []
        case Some(data) => [BalanceUpdated(GetNumberField(data, "balance", c))]
      else if EqualsIgnoreCase(messageType, "transfer_complete") then
        match TryGetObjectField(frame, "data")
        case None => []
        case Some(data) => [TransferComplete(GetStringField(data, "asset_id", c), "", GetBoolField(data, "success", c))]
      else []
  }

  /** The three pushed frame types are told apart even ignoring case. */
  lemma FrameTypesDistinct()
    ensures !EqualsIgnoreCase("asset_update", "balance_update") && !EqualsIgnoreCase("asset_update", "transfer_complete")
    ensures !EqualsIgnoreCase("balance_update", "asset_update") && !EqualsIgnoreCase("balance_update", "transfer_complete")
    ensures !EqualsIgnoreCase("transfer_complete", "asset_update") && !EqualsIgnoreCase("transfer_complete", "balance_update")
  {
    assert LowerAscii("asset_update"[0]) != LowerAscii("transfer_complete"[0]);
  }

  /** A frame of each known type yields the event its payload describes. */
  lemma PushDispatch(frame: JsonObject, c: Coercion)
    ensures var events := ProcessWebSocketMessage(Some(frame), c);
            var messageType := GetStringField(frame, "type", c);
            && (EqualsIgnoreCase(messageType, "asset_update") ==>
                  events == if TryGetObjectField(frame, "asset").Some?
                            then [AssetMinted(ConvertJsonToAsset(TryGetObjectField(frame, "asset"), BlankAsset, c).1, "")]
                            else [])
            && (EqualsIgnoreCase(messageType, "balance_update") ==>
                  events == if TryGetObjectField(frame, "data").Some?
                            then [BalanceUpdated(GetNumberField(frame["data"].fields, "balance", c))]
                            else [])
            && (EqualsIgnoreCase(messageType, "transfer_complete") ==>
                  events == if TryGetObjectField(frame, "data").Some?
                            then [TransferComplete(GetStringField(frame["data"].fields, "asset_id", c), "",
                                                   GetBoolField(frame["data"].fields, "success", c))]
                            else [])
  {
    var messageType := GetStringField(frame, "type", c);
    FrameTypesDistinct();
    if EqualsIgnoreCase(messageType, "balance_update") {
      EqualsIgnoreCaseIsEquivalence(messageType, "balance_update", "asset_update");
    } else if EqualsIgnoreCase(messageType, "transfer_complete") {
      EqualsIgnoreCaseIsEquivalence(messageType, "transfer_complete", "asset_update");
      EqualsIgnoreCaseIsEquivalence(messageType, "transfer_complete", "balance_update");
    }
  }

  /**
   * Routing precedence of HTTP responses carrying a data object: a mint URL
   * yields the minted asset whatever else it contains, a transfer URL the
   * transfer result with the top-level success flag, a URL containing the
   * literal wallet/balance the balance, and any other URL nothing.
   */
  lemma HttpRouting(url: string, top: JsonObject, c: Coercion)
    requires TryGetObjectField(top, "data").Some?
    ensures var events := OnHttpResponse(url, true, true, Some(top), c);
            var data := top["data"].fields;
            && (ContainsIgnoreCase(url, "assets/mint") ==>
                  events == [AssetMinted(ConvertJsonToAsset(Some(data), BlankAsset, c).1, "")])
            && (!ContainsIgnoreCase(url, "assets/mint") && ContainsIgnoreCase(url, "assets/transfer") ==>
                  events == [TransferComplete(GetStringField(data, "asset_id", c), "", GetBoolField(top, "success", c))])
            && ((!ContainsIgnoreCase(url, "assets/mint") && !ContainsIgnoreCase(url, "assets/transfer")
                 && ContainsIgnoreCase(url, "wallet/balance")) ==> events == [BalanceUpdated(GetNumberField(data, "balance", c))])
            && ((!ContainsIgnoreCase(url, "assets/mint") && !ContainsIgnoreCase(url, "assets/transfer")
                 && !ContainsIgnoreCase(url, "wallet/balance")) ==> events == [])
  {
  }

  /**
   * The transfer response's own success flag is ignored: a response whose data
   * says the transfer of A succeeded, with no top-level flag, reports failure,
   * for every node URL that does not itself contain assets/mint.
   */
  lemma TransferSuccessReadFromTopLevel(cfg: Config, top: JsonObject, data: JsonObject, c: Coercion)
    requires !ContainsIgnoreCase(cfg.nodeUrl, "assets/mint")
    requires data == map["asset_id" := JString("A"), "success" := JBool(true)] && top == map["data" := JObject(data)]
    ensures OnHttpResponse(TransferAsset(cfg, "A", "from", "to").value.url, true, true, Some(top), c)
            == [TransferComplete("A", "", false)]
  {
    var url := TransferAsset(cfg, "A", "from", "to").value.url;
    TransferUrlRouted(cfg, "A", "from", "to");
    TransferFields(top, data, c);
    HttpRouting(url, top, c);
  }

  /** The fields the transfer branch reads from the response above. */
  lemma TransferFields(top: JsonObject, data: JsonObject, c: Coercion)
    requires data == map["asset_id" := JString("A"), "success" := JBool(true)] && top == map["data" := JObject(data)]
    ensures TryGetObjectField(top, "data") == Some(data) && top["data"].fields == data
    ensures GetBoolField(top, "success", c) == false && GetStringField(data, "asset_id", c) == "A"
  {
    assert "success" !in top;
  }

  /** The same payload pushed as a transfer_complete frame reports success: the push reads the flag from its data. */
  lemma PushedTransferReadsData(data: JsonObject, c: Coercion)
    requires data == map["asset_id" := JString("A"), "success" := JBool(true)]
    ensures ProcessWebSocketMessage(Some(map["type" := JString("transfer_complete"), "data" := JObject(data)]), c)
            == [TransferComplete("A", "", true)]
  {
    var frame := map["type" := JString("transfer_complete"), "data" := JObject(data)];
    assert GetStringField(frame, "type", c) == "transfer_complete";
    PushDispatch(frame, c);
  }

  /** The three URL fragments OnHttpResponseReceived routes on. */
  predicate IsRoutePattern(pattern: string) {
    pattern == "assets/mint" || pattern == "assets/transfer" || pattern == "wallet/balance"
  }

  /** None of the route patterns occurs in `s`. */
  predicate RouteFree(s: string) {
    !ContainsIgnoreCase(s, "assets/mint") && !ContainsIgnoreCase(s, "assets/transfer") && !ContainsIgnoreCase(s, "wallet/balance")
  }

  /**
   * A route pattern occurs in a REST URL exactly when it occurs in the node URL
   * or in the endpoint path: its one slash is never followed by a v, so no
   * occurrence spans the /verse/ between them.
   */
  lemma RouteAcrossNode(node: string, path: string, pattern: string)
    requires IsRoutePattern(pattern)
    ensures ContainsIgnoreCase(node + "/verse/" + path, pattern) <==> ContainsIgnoreCase(node, pattern) || ContainsIgnoreCase(path, pattern)
  {
    var tail := "/verse/" + path;
    RoutePatternNoStraddle(tail, pattern);
    ContainsAcross(node, tail, pattern);
    SkipNonStarters("/verse/", path, pattern);
    assert node + "/verse/" + path == node + tail;
  }

  lemma RoutePatternNoStraddle(tail: string, pattern: string)
    requires IsRoutePattern(pattern) && |tail| >= 2 && tail[0] == '/' && tail[1] == 'v'
    ensures NoStraddle(tail, pattern)
  {
  }

  /** The transfer URL, for any node URL without assets/mint, passes the transfer test and not the mint test. */
  lemma TransferUrlRouted(cfg: Config, assetId: string, fromAddress: string, toAddress: string)
    requires assetId != [] && fromAddress != [] && toAddress != []
    requires !ContainsIgnoreCase(cfg.nodeUrl, "assets/mint")
    ensures var url := TransferAsset(cfg, assetId, fromAddress, toAddress).value.url;
            !ContainsIgnoreCase(url, "assets/mint") && ContainsIgnoreCase(url, "assets/transfer")
  {
    var path := "assets/transfer";
    TransferPathNotMint(path);
    RouteAcrossNode(cfg.nodeUrl, path, "assets/mint");
    RouteAcrossNode(cfg.nodeUrl, path, "assets/transfer");
  }

  /** The transfer path starts with itself and holds no mint path. */
  lemma TransferPathNotMint(path: string)
    requires path == "assets/transfer"
    ensures !ContainsIgnoreCase(path, "assets/mint") && ContainsIgnoreCase(path, "assets/transfer")
  {
    TransferPathStart(path);
    TransferTailNotMint(path[1..]);
  }

  /** At its start the transfer path reads assets/t, not assets/m. */
  lemma TransferPathStart(path: string)
    requires path == "assets/transfer"
    ensures StartsWithIgnoreCase(path, "assets/transfer") && !StartsWithIgnoreCase(path, "assets/mint")
  {
    assert path[..11][7] == 't';
    assert path[..15] == path;
  }

  /** After its first letter, the transfer path's a's are followed by n, never by s. */
  lemma TransferTailNotMint(tail: string)
    requires tail == "ssets/transfer"
    ensures !ContainsIgnoreCase(tail, "assets/mint")
  {
    NoOpeningPair(tail, "assets/mint");
  }

  /** A wallet address written in hexadecimal, as 0x-prefixed addresses are. */
  predicate HexAddress(address: string) {
    forall i :: 0 <= i < |address| ==>
      '0' <= address[i] <= '9' || 'a' <= address[i] <= 'f' || 'A' <= address[i] <= 'F' || address[i] == 'x' || address[i] == 'X'
  }

  /**
   * GetBalance's response is never routed for a hexadecimal address: the URL
   * verse/wallet/<address>/balance contains neither asset path nor the literal
   * wallet/balance, so no event is broadcast whatever the node answers, for
   * every node URL that holds no route pattern itself.
   */
  lemma BalanceResponseDropped(cfg: Config, address: string, top: JsonObject, success: bool, valid: bool, c: Coercion)
    requires address != [] && HexAddress(address) && RouteFree(cfg.nodeUrl)
    ensures OnHttpResponse(GetBalance(cfg, address).value.url, success, valid, Some(top), c) == []
  {
    BalanceUrlUnrouted(cfg, address);
  }

  /** The balance URL of a hexadecimal address, on a node URL without route patterns, passes none of the routing tests. */
  lemma BalanceUrlUnrouted(cfg: Config, address: string)
    requires address != [] && HexAddress(address) && RouteFree(cfg.nodeUrl)
    ensures RouteFree(GetBalance(cfg, address).value.url)
  {
    var path := "wallet/" + address + "/balance";
    BalancePathUnrouted(address, path);
    RouteAcrossNode(cfg.nodeUrl, path, "assets/mint");
    RouteAcrossNode(cfg.nodeUrl, path, "assets/transfer");
    RouteAcrossNode(cfg.nodeUrl, path, "wallet/balance");
  }

  /**
   * The source's balance route is reachable only through the address: for the
   * address "balance" the URL holds wallet/balance and the response is routed.
   */
  lemma BalanceAddressRouted(cfg: Config, top: JsonObject, c: Coercion)
    requires TryGetObjectField(top, "data").Some? && RouteFree(cfg.nodeUrl)
    ensures OnHttpResponse(GetBalance(cfg, "balance").value.url, true, true, Some(top), c)
            == [BalanceUpdated(GetNumberField(top["data"].fields, "balance", c))]
  {
    var path := "wallet/" + "balance" + "/balance";
    BalanceNamedPath(path);
    RouteAcrossNode(cfg.nodeUrl, path, "assets/mint");
    RouteAcrossNode(cfg.nodeUrl, path, "assets/transfer");
    RouteAcrossNode(cfg.nodeUrl, path, "wallet/balance");
    HttpRouting(GetBalance(cfg, "balance").value.url, top, c);
  }

  lemma BalanceNamedPath(path: string)
    requires path == "wallet/balance/balance"
    ensures !ContainsIgnoreCase(path, "assets/mint") && !ContainsIgnoreCase(path, "assets/transfer")
    ensures ContainsIgnoreCase(path, "wallet/balance")
  {
    NamedPathLacks(path, "assets/mint");
    NamedPathLacks(path, "assets/transfer");
    assert path[..14] == "wallet/balance";
    EqualsIgnoreCaseIsEquivalence("wallet/balance", "wallet/balance", "wallet/balance");
  }

  /** wallet/balance/balance has no a followed by an s. */
  lemma NamedPathLacks(path: string, pattern: string)
    requires path == "wallet/balance/balance" && (pattern == "assets/mint" || pattern == "assets/transfer")
    ensures !ContainsIgnoreCase(path, pattern)
  {
    NoOpeningPair(path, pattern);
  }

  /** In the balance path of a hexadecimal address no a is followed by an s, and its only w starts "wallet/" followed by no l. */
  lemma BalancePathUnrouted(address: string, path: string)
    requires HexAddress(address) && path == "wallet/" + address + "/balance"
    ensures RouteFree(path)
  {
    BalancePathNoAssets(address, path);
    BalancePathNotBalanceRoute(address, path);
  }

  lemma BalancePathNoAssets(address: string, path: string)
    requires HexAddress(address) && path == "wallet/" + address + "/balance"
    ensures !ContainsIgnoreCase(path, "assets/mint") && !ContainsIgnoreCase(path, "assets/transfer")
  {
    BalancePathLetters(address, path);
    NoOpeningPair(path, "assets/mint");
    NoOpeningPair(path, "assets/transfer");
  }

  lemma BalancePathNotBalanceRoute(address: string, path: string)
    requires HexAddress(address) && path == "wallet/" + address + "/balance"
    ensures !ContainsIgnoreCase(path, "wallet/balance")
  {
    BalancePathLetters(address, path);
    var pattern := "wallet/balance";
    assert path[..14][9] == path[9] && pattern[9] == 'l';
    assert !StartsWithIgnoreCase(path, pattern);
    var rest := path[1..];
    assert forall i :: 0 <= i < |rest| ==> rest[i] == path[i + 1];
    NoFirstCharNoMatch(rest, pattern);
  }

  /** The balance path of a hexadecimal address holds no s, a w only at its start, and no l at position 9. */
  lemma BalancePathLetters(address: string, path: string)
    requires HexAddress(address) && path == "wallet/" + address + "/balance"
    ensures forall i :: 0 <= i < |path| ==> LowerAscii(path[i]) != 's'
    ensures forall i :: 0 < i < |path| ==> LowerAscii(path[i]) != 'w'
    ensures |path| > 14 && LowerAscii(path[9]) != 'l'
  {
    forall i | 0 <= i < |path|
      ensures LowerAscii(path[i]) != 's' && (i > 0 ==> LowerAscii(path[i]) != 'w') && (i == 9 ==> LowerAscii(path[i]) != 'l')
    {
      if i < 7 {
        assert path[i] == "wallet/"[i];
      } else if i < 7 + |address| {
        assert path[i] == address[i - 7];
      } else {
        assert path[i] == "/balance"[i - 7 - |address|];
      }
    }
  }

  // ------------------------------------------------------------ connection

  /**
   * A WebSocket object: which one it is (the n-th created, counting from 0),
   * the URL it was created for and whether it is connected. Callbacks name the
   * socket that fired them, which after a reconnect may be a replaced one.
   */
  datatype Socket = Socket(id: nat, url: string, connected: bool)

  /**
   * The connection side of the component: the current socket (none before the
   * first connect), how many sockets have been created, the frames sent, the
   * delays of the reconnect timers armed so far that have not fired, and the
   * events broadcast.
   */
  datatype Connection = Connection(socket: Option<Socket>, created: nat, sent: seq<string>, reconnectTimers: seq<real>, events: seq<ChainEvent>)

  /** The delay of the reconnect timer an unclean close arms. */
  const ReconnectDelay: real := 5.0

  const Initial: Connection := Connection(None, 0, [], [], [])

  /** IsWebSocketConnected. */
  predicate IsConnected(st: Connection) {
    st.socket.Some? && st.socket.value.connected
  }

  /** The callback's socket is the current one. */
  predicate IsCurrent(st: Connection, id: nat) {
    st.socket.Some? && st.socket.value.id == id
  }

  /** ConnectWebSocket: with a node URL and an API key, a new socket replaces the old one and starts connecting. */
  function Connect(cfg: Config, st: Connection): (r: Connection)
    ensures r.sent == st.sent && r.reconnectTimers == st.reconnectTimers && r.events == st.events
    ensures WebSocketUrl(cfg).None? ==> r == st
    ensures WebSocketUrl(cfg).Some? ==>
              r.socket == Some(Socket(st.created, WebSocketUrl(cfg).value, false)) && r.created == st.created + 1
  {
    match WebSocketUrl(cfg)
    case None => st
    case Some(url) => st.(socket := Some(Socket(st.created, url, false)), created := st.created + 1)
  }

  /** BeginPlay: connect only when the node URL, the game and the API key are all configured. */
  function Started(cfg: Config, st: Connection): (r: Connection)
    ensures r != st ==> cfg.nodeUrl != [] && cfg.gameId != [] && cfg.apiKey != []
    ensures cfg.nodeUrl != [] && cfg.gameId != [] && cfg.apiKey != [] ==> IsConnecting(r) && !IsConnected(r)
    ensures cfg.nodeUrl != [] && cfg.gameId != [] && cfg.apiKey != [] ==> r == Connect(cfg, st)
  {
    if cfg.nodeUrl == [] || cfg.gameId == [] || cfg.apiKey == [] then st else Connect(cfg, st)
  }

  /** There is a socket that has not connected yet. */
  predicate IsConnecting(st: Connection) {
    st.socket.Some? && !st.socket.value.connected
  }

  /** DisconnectWebSocket: a connected socket is closed; otherwise nothing happens. */
  function Disconnect(st: Connection): (r: Connection)
    ensures !IsConnected(r)
    ensures r.socket.Some? == st.socket.Some? && r.created == st.created
    ensures !IsConnected(st) ==> r == st
    ensures IsConnected(st) ==> r == st.(socket := Some(st.socket.value.(connected := false)))
  {
    if IsConnected(st) then st.(socket := Some(st.socket.value.(connected := false))) else st
  }

  /** ReconnectWebSocket: disconnect, then connect. */
  function Reconnect(cfg: Config, st: Connection): Connection {
    Connect(cfg, Disconnect(st))
  }

  /**
   * Socket `id`'s connected callback: that socket is connected, success is
   * broadcast, and when a game is configured the handshake goes out on the
   * component's current socket, which takes it when connected.
   */
  function Opened(cfg: Config, st: Connection, id: nat): (r: Connection)
    ensures r.events == st.events + [WebSocketConnected(true)]
    ensures IsCurrent(st, id) ==> IsConnected(r) && r.socket == Some(st.socket.value.(connected := true))
    ensures IsCurrent(st, id) ==> r.sent == st.sent + (if cfg.gameId == [] then [] else [HandshakeFrame(cfg.gameId)])
    ensures !IsCurrent(st, id) ==> r.socket == st.socket
    ensures !IsCurrent(st, id) && !IsConnected(st) ==> r.sent == st.sent
    ensures !IsCurrent(st, id) && IsConnected(st) ==> r.sent == st.sent + (if cfg.gameId == [] then [] else [HandshakeFrame(cfg.gameId)])
    ensures r.reconnectTimers == st.reconnectTimers && r.created == st.created
  {
    var marked := if IsCurrent(st, id) then st.(socket := Some(st.socket.value.(connected := true))) else st;
    var announced := marked.(events := st.events + [WebSocketConnected(true)]);
    if cfg.gameId == [] then announced else Send(announced, HandshakeFrame(cfg.gameId))
  }

  /** The socket's error callback: broadcast failure; no reconnect is scheduled. */
  function ConnectionError(st: Connection): (r: Connection)
    ensures r.events == st.events + [WebSocketConnected(false)]
    ensures r.reconnectTimers == st.reconnectTimers && r.socket == st.socket && r.sent == st.sent
  {
    st.(events := st.events + [WebSocketConnected(false)])
  }

  /**
   * Socket `id`'s closed callback: that socket is no longer connected, and an
   * unclean close arms one more 5-second reconnect timer. A replaced socket's
   * close leaves the current socket alone.
   */
  function Closed(st: Connection, id: nat, wasClean: bool): (r: Connection)
    ensures IsCurrent(st, id) ==> !IsConnected(r) && r.socket == Some(st.socket.value.(connected := false))
    ensures !IsCurrent(st, id) ==> r.socket == st.socket
    ensures r.sent == st.sent && r.events == st.events && r.created == st.created
    ensures r.reconnectTimers == st.reconnectTimers + (if wasClean then [] else [ReconnectDelay])
  {
    st.(socket := if IsCurrent(st, id) then Some(st.socket.value.(connected := false)) else st.socket,
        reconnectTimers := st.reconnectTimers + if wasClean then [] else [ReconnectDelay])
  }

  /**
   * The earliest pending reconnect timer fires: it is used up and the component
   * reconnects, so with a WebSocket URL a new, not yet connected socket takes over.
   */
  function TimerFired(cfg: Config, st: Connection): (r: Connection)
    requires st.reconnectTimers != []
    ensures r.reconnectTimers == st.reconnectTimers[1..]
    ensures r.sent == st.sent && r.events == st.events
    ensures WebSocketUrl(cfg).Some? ==> r.socket == Some(Socket(st.created, WebSocketUrl(cfg).value, false))
    ensures WebSocketUrl(cfg).None? ==> !IsConnected(r) && r.socket.Some? == st.socket.Some?
  {
    Reconnect(cfg, st.(reconnectTimers := st.reconnectTimers[1..]))
  }

  /** The socket's message callback: broadcast the raw frame, then dispatch it. */
  function Message(st: Connection, raw: string, parsed: Option<JsonObject>, c: Coercion): (r: Connection)
    ensures |st.events| + 1 <= |r.events| <= |st.events| + 2
    ensures r.events[..|st.events| + 1] == st.events + [WebSocketMessage(raw)]
    ensures r.events[|st.events| + 1..] == ProcessWebSocketMessage(parsed, c)
    ensures r.(events := st.events) == st
  {
    st.(events := st.events + [WebSocketMessage(raw)] + ProcessWebSocketMessage(parsed, c))
  }

  /** SendWebSocketMessage: the frame goes out only on a connected socket. */
  function Send(st: Connection, frame: string): (r: Connection)
    ensures IsConnected(st) ==> r.sent == st.sent + [frame]
    ensures !IsConnected(st) ==> r == st
  {
    if IsConnected(st) then st.(sent := st.sent + [frame]) else st
  }

  /** GetConnectionStatus. */
  function Status(st: Connection): (s: string)
    ensures s == "Not Initialized" <==> st.socket.None?
    ensures s == "Connected" <==> IsConnected(st)
    ensures s == "Disconnected" <==> IsConnecting(st)
  {
    if st.socket.None? then "Not Initialized"
    else if st.socket.value.connected then "Connected"
    else "Disconnected"
  }

  /** A run of close callbacks from socket `id`, unclean ones marked false. */
  function ClosedMany(st: Connection, id: nat, cleanFlags: seq<bool>): Connection
    decreases |cleanFlags|
  {
    if |cleanFlags| == 0 then st else ClosedMany(Closed(st, id, cleanFlags[0]), id, cleanFlags[1..])
  }

  function CountUnclean(cleanFlags: seq<bool>): nat
    decreases |cleanFlags|
  {
    if |cleanFlags| == 0 then 0 else (if cleanFlags[0] then 0 else 1) + CountUnclean(cleanFlags[1..])
  }

  /** Timers are never cancelled: every unclean close adds one 5-second timer, every clean one none. */
  lemma {:induction false} EachUncleanCloseArmsATimer(st: Connection, id: nat, cleanFlags: seq<bool>)
    ensures var r := ClosedMany(st, id, cleanFlags);
            && |r.reconnectTimers| == |st.reconnectTimers| + CountUnclean(cleanFlags)
            && r.reconnectTimers[..|st.reconnectTimers|] == st.reconnectTimers
            && (forall i :: |st.reconnectTimers| <= i < |r.reconnectTimers| ==> r.reconnectTimers[i] == ReconnectDelay)
            && r.events == st.events && r.sent == st.sent
    decreases |cleanFlags|
  {
    if |cleanFlags| > 0 {
      var next := Closed(st, id, cleanFlags[0]);
      EachUncleanCloseArmsATimer(next, id, cleanFlags[1..]);
    }
  }

  /**
   * Reconnecting: the old socket is closed and a new, not yet connected socket
   * for the same address takes its place, so the status reads Disconnected.
   */
  lemma ReconnectReplacesSocket(cfg: Config, st: Connection)
    requires WebSocketUrl(cfg).Some?
    ensures var r := Reconnect(cfg, st);
            && r.socket == Some(Socket(st.created, WebSocketUrl(cfg).value, false))
            && Status(r) == "Disconnected"
            && r.sent == st.sent && r.events == st.events && r.reconnectTimers == st.reconnectTimers
  {
  }

  /** Every socket the component holds was created by it: its number is below the count. */
  predicate Numbered(st: Connection) {
    st.socket.Some? ==> st.socket.value.id < st.created
  }

  /**
   * A late close of a replaced socket does not touch its successor: after a
   * reconnect whose new socket has opened, the old socket's close (clean or
   * not) leaves the component connected on the new socket.
   */
  lemma StaleCloseKeepsNewSocket(cfg: Config, st: Connection, wasClean: bool)
    requires Numbered(st) && st.socket.Some? && WebSocketUrl(cfg).Some?
    ensures var renewed := Reconnect(cfg, st);
            var afterOpen := Opened(cfg, renewed, st.created);
            var r := Closed(afterOpen, st.socket.value.id, wasClean);
            && IsConnected(r) && Status(r) == "Connected"
            && r.socket == Some(Socket(st.created, WebSocketUrl(cfg).value, true))
  {
    var renewed := Reconnect(cfg, st);
    assert IsCurrent(renewed, st.created);
    var afterOpen := Opened(cfg, renewed, st.created);
    assert !IsCurrent(afterOpen, st.socket.value.id);
  }

  /** The handshake goes out on opening if and only if a game is configured. */
  lemma HandshakeIffGame(cfg: Config, st: Connection)
    requires st.socket.Some?
    ensures HandshakeFrame(cfg.gameId) in Opened(cfg, st, st.socket.value.id).sent[|st.sent|..] <==> cfg.gameId != []
  {
    var r := Opened(cfg, st, st.socket.value.id);
    if cfg.gameId == [] {
      assert r.sent[|st.sent|..] == [];
    } else {
      assert r.sent[|st.sent|..] == [HandshakeFrame(cfg.gameId)];
    }
  }

  /** UInterverseChainComponent. */
  class ChainComponent {
    var nodeUrl: string
    var gameId: string
    var apiKey: string
    /** WebSocket: none until the first connect. */
    var socket: Option<Socket>
    /** How many WebSocket objects have been created. */
    var created: nat
    /** The frames sent on the socket. */
    var sent: seq<string>
    /** The delays of the armed reconnect timers that have not fired. */
    var reconnectTimers: seq<real>
    /** The delegates broadcast, in order. */
    var events: seq<ChainEvent>

    function Cfg(): Config
      reads this
    {
      Config(nodeUrl, gameId, apiKey)
    }

    function State(): Connection
      reads this
    {
      Connection(socket, created, sent, reconnectTimers, events)
    }

    constructor (nodeUrl: string, gameId: string, apiKey: string)
      ensures Cfg() == Config(nodeUrl, gameId, apiKey) && State() == Initial
    {
      this.nodeUrl := nodeUrl;
      this.gameId := gameId;
      this.apiKey := apiKey;
      socket := None;
      created := 0;
      sent := [];
      reconnectTimers := [];
      events := [];
    }

    method SetState(st: Connection)
      modifies this
      ensures State() == st && Cfg() == old(Cfg())
    {
      socket := st.socket;
      created := st.created;
      sent := st.sent;
      reconnectTimers := st.reconnectTimers;
      events := st.events;
    }

    method BeginPlay()
      modifies this
      ensures State() == Started(Cfg(), old(State())) && Cfg() == old(Cfg())
    {
      if nodeUrl == [] || gameId == [] || apiKey == [] {
        return;
      }
      ConnectWebSocket();
    }

    method EndPlay()
      modifies this
      ensures State() == Disconnect(old(State())) && Cfg() == old(Cfg())
    {
      DisconnectWebSocket();
    }

    method ConnectWebSocket()
      modifies this
      ensures State() == Connect(Cfg(), old(State())) && Cfg() == old(Cfg())
    {
      if nodeUrl == [] || apiKey == [] {
        return;
      }
      var url := ReplaceAllIgnoreCase(nodeUrl, "http://", "ws://");
      url := ReplaceAllIgnoreCase(url, "https://", "wss://");
      url := ChopTrailingSlashes(url);
      url := url + WebSocketQuery(apiKey);
      socket := Some(Socket(created, url, false));
      created := created + 1;
    }

    method DisconnectWebSocket()
      modifies this
      ensures State() == Disconnect(old(State())) && Cfg() == old(Cfg())
    {
      if socket.Some? && socket.value.connected {
        socket := Some(socket.value.(connected := false));
      }
    }

    method ReconnectWebSocket()
      modifies this
      ensures State() == Reconnect(Cfg(), old(State())) && Cfg() == old(Cfg())
    {
      DisconnectWebSocket();
      ConnectWebSocket();
    }

    /** The connected callback of socket `id`. */
    method OnConnected(id: nat)
      modifies this
      ensures State() == Opened(Cfg(), old(State()), id) && Cfg() == old(Cfg())
    {
      if socket.Some? && socket.value.id == id {
        socket := Some(socket.value.(connected := true));
      }
      events := events + [WebSocketConnected(true)];
      if gameId != [] {
        SendWebSocketMessage(HandshakeFrame(gameId));
      }
    }

    method OnConnectionError()
      modifies this
      ensures State() == ConnectionError(old(State())) && Cfg() == old(Cfg())
    {
      events := events + [WebSocketConnected(false)];
    }

    /** The closed callback of socket `id`. */
    method OnClosed(id: nat, wasClean: bool)
      modifies this
      ensures State() == Closed(old(State()), id, wasClean) && Cfg() == old(Cfg())
    {
      if socket.Some? && socket.value.id == id {
        socket := Some(socket.value.(connected := false));
      }
      if !wasClean {
        reconnectTimers := reconnectTimers + [ReconnectDelay];
      }
    }

    /** The earliest reconnect timer fires. */
    method OnReconnectTimer()
      requires reconnectTimers != []
      modifies this
      ensures State() == TimerFired(Cfg(), old(State())) && Cfg() == old(Cfg())
    {
      reconnectTimers := reconnectTimers[1..];
      ReconnectWebSocket();
    }

    method OnMessage(raw: string, parsed: Option<JsonObject>, c: Coercion)
      modifies this
      ensures State() == Message(old(State()), raw, parsed, c) && Cfg() == old(Cfg())
    {
      events := events + [WebSocketMessage(raw)];
      events := events + ProcessWebSocketMessage(parsed, c);
    }

    method OnHttpResponseReceived(url: string, success: bool, valid: bool, parsed: Option<JsonObject>, c: Coercion)
      modifies this
      ensures events == old(events) + OnHttpResponse(url, success, valid, parsed, c)
      ensures socket == old(socket) && created == old(created) && sent == old(sent) && reconnectTimers == old(reconnectTimers)
      ensures Cfg() == old(Cfg())
    {
      events := events + OnHttpResponse(url, success, valid, parsed, c);
    }

    method SendWebSocketMessage(frame: string)
      modifies this
      ensures State() == Send(old(State()), frame) && Cfg() == old(Cfg())
    {
      if socket.Some? && socket.value.connected {
        sent := sent + [frame];
      }
    }

    function IsWebSocketConnected(): (b: bool)
      reads this
      ensures b <==> GetConnectionStatus() == "Connected"
    {
      IsConnected(State())
    }

    function GetConnectionStatus(): string
      reads this
    {
      Status(State())
    }
  }
}
