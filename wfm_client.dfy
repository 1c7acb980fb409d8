/**
 * The warframe.market client `WFMClientState`: how a request is built, how
 * a reply is classified into a value or a `GlobleError`, and the order
 * operations built on top of it.
 *
 * The network is a `Server` object: it records every request it receives
 * and answers the n-th one with a reply fixed in advance by `respond`, so
 * contracts can say which requests an operation sends, in which order, and
 * what it makes of the replies. The serde derive decoders of the records
 * are parameters (`Decoders`); the string decoders are written out.
 */
module WfmClient {
  import opened Wrappers
  import opened Structs
  import opened Helper
  import J = Json
  import Auth

  const Endpoint: string := "https://api.warframe.market/v1/"
  const LogFile: string := "wfmAPICalls.log"
  const AssetsPrefix: string := "https://warframe.market/static/assets/"

  datatype Method = GET | POST | PUT | DELETE

  /** One response header; names are stored lower-case, as `HeaderMap` does. */
  datatype Header = Header(name: string, value: string)

  type HeaderMap = seq<Header>

  /** What the client puts on the wire. */
  datatype Request = Request(
    verb: Method,
    url: string,
    authorization: string,
    language: string,
    body: Option<J.Json>)

  /** What comes back: a transport failure, or a status with headers, the body
      text and the body parsed as JSON. */
  datatype HttpReply =
    | TransportFailure(cause: ReqwestFailure)
    | Reply(status: StatusCode, headers: HeaderMap, text: string, json: J.Json)

  /** A serde derive decoder for `T`. */
  type Decoder<T> = J.Json -> Result<T, SerdeFailure>

  /** The derive decoders of the records the client reads. */
  datatype Decoders = Decoders(
    order: Decoder<Order>,
    ordres: Decoder<Ordres>,
    ordersByItem: Decoder<seq<OrderByItem>>,
    authState: Decoder<Auth.AuthState>,
    items: Decoder<seq<Item>>,
    itemDetails: Decoder<ItemDetails>)

  /** The result of an operation that may panic. */
  datatype Outcome<T> = Done(result: T) | Panicked(reason: string)

  // ---- the network ------------------------------------------------------------

  class Server {
    /** Every request received so far, in order. */
    var log: seq<Request>
    /** The reply to a request when it is the n-th one received. */
    const respond: (Request, nat) -> HttpReply

    constructor (respond: (Request, nat) -> HttpReply)
      ensures log == [] && this.respond == respond
    {
      log := [];
      this.respond := respond;
    }

    method Exchange(req: Request) returns (reply: HttpReply)
      modifies this`log
      ensures log == old(log) + [req]
      ensures reply == respond(req, |old(log)|)
    {
      reply := respond(req, |log|);
      log := log + [req];
    }
  }

  // ---- request building and reply classification ------------------------------

  /** The `Authorization` header: "JWT " and the token, or "JWT " alone. */
  function AuthorizationValue(token: Option<string>): (v: string)
    ensures |v| >= 4 && v[..4] == "JWT " && v[4..] == token.GetOr("")
  {
    "JWT " + token.GetOr("")
  }

  /** The first value of a header. */
  function GetHeader(headers: HeaderMap, name: string): (r: Option<string>)
    ensures r.None? <==> forall i :: 0 <= i < |headers| ==> headers[i].name != name
    ensures r.Some? ==> exists i :: 0 <= i < |headers| && headers[i] == Header(name, r.value)
                                    && forall k :: 0 <= k < i ==> headers[k].name != name
  {
    if headers == [] then None
    else if headers[0].name == name then Some(headers[0].value)
    else
      var r := GetHeader(headers[1..], name);
      assert forall k :: 1 <= k < |headers| ==> headers[1..][k - 1] == headers[k];
      if r.Some? then
        var i :| 0 <= i < |headers| - 1 && headers[1..][i] == Header(name, r.value)
                 && forall k :: 0 <= k < i ==> headers[1..][k].name != name;
        assert headers[i + 1] == Header(name, r.value);
        r
      else r
  }

  /** `response["payload"]`, or `response["payload"][key]`. */
  function Payload(response: J.Json, key: Option<string>): (data: J.Json)
  {
    match key
    case None => J.Get(response, "payload")
    case Some(k) => J.Get(J.Get(response, "payload"), k)
  }

  /** The envelope `{"payload": v}` gives back `v`, or `v[key]`; a missing
      envelope or key gives `null`. */
  lemma PayloadOfEnvelope(v: J.Json, key: string, other: seq<J.Member>)
    requires forall k :: k in J.Keys(other) ==> k != "payload"
    ensures Payload(J.JObj([J.Member("payload", v)]), None) == v
    ensures Payload(J.JObj([J.Member("payload", v)]), Some(key)) == J.Get(v, key)
    ensures Payload(J.JObj(other), None) == J.JNull
    ensures Payload(J.JObj(other), Some(key)) == J.JNull
  {
  }

  /** The text of the `OtherError` for a status other than 200 and 429. */
  function StatusFailureText(url: string, body: Option<J.Json>, status: StatusCode, text: string): string {
    "URL: " + url + ", Body: " + J.Text(body.GetOr(J.JObj([])))
    + ", Status: " + StatusText(status) + ", Response: " + text
  }

  /** What `send_request` makes of a reply: transport error, then 429, then
      any other non-200 status, then the payload decode. */
  function Classify<T>(url: string, body: Option<J.Json>, reply: HttpReply, key: Option<string>, decode: Decoder<T>)
    : (r: Result<(T, HeaderMap), GlobleError>)
    ensures reply.TransportFailure? ==> r == Err(ReqwestError(reply.cause))
    ensures reply.Reply? && reply.status.code == 429 ==> r == Err(TooManyRequests("Too Many Requests"))
    ensures reply.Reply? && reply.status.code != 200 && reply.status.code != 429 ==>
              r == Err(OtherError(StatusFailureText(url, body, reply.status, reply.text)))
    ensures r.Ok? <==> reply.Reply? && reply.status.code == 200 && decode(Payload(reply.json, key)).Ok?
    ensures r.Ok? ==> r.value == (decode(Payload(reply.json, key)).value, reply.headers)
    ensures reply.Reply? && reply.status.code == 200 && decode(Payload(reply.json, key)).Err? ==>
              var e := decode(Payload(reply.json, key)).error;
              r == Err(SerdeError(J.Text(Payload(reply.json, key)), e.line, e.column))
  {
    match reply
    case TransportFailure(cause) => Err(ReqwestError(cause))
    case Reply(status, headers, text, json) =>
      if status.code == 429 then Err(TooManyRequests("Too Many Requests"))
      else if status.code != 200 then Err(OtherError(StatusFailureText(url, body, status, text)))
      else
        var data := Payload(json, key);
        match decode(data)
        case Ok(payload) => Ok((payload, headers))
        case Err(e) => Err(SerdeError(J.Text(data), e.line, e.column))
  }

  /** The decoded value alone, the headers dropped. */
  function WithoutHeaders<T>(sent: Result<(T, HeaderMap), GlobleError>): (r: Result<T, GlobleError>)
    ensures r.Ok? <==> sent.Ok?
    ensures r.Ok? ==> r.value == sent.value.0
    ensures r.Err? ==> r.error == sent.error
  {
    match sent
    case Ok((value, _)) => Ok(value)
    case Err(e) => Err(e)
  }

  /** The error variant tells which branch was taken: a 429 is never an
      `OtherError`, and a transport failure is never anything but a
      `ReqwestError`. */
  lemma ClassifyBranches<T>(url: string, body: Option<J.Json>, reply: HttpReply, key: Option<string>, decode: Decoder<T>)
    ensures var r := Classify(url, body, reply, key, decode);
            && (r.Err? && r.error.ReqwestError? <==> reply.TransportFailure?)
            && (r.Err? && r.error.TooManyRequests? <==> reply.Reply? && reply.status.code == 429)
            && (r.Err? && r.error.OtherError? <==> reply.Reply? && reply.status.code != 200 && reply.status.code != 429)
            && (r.Err? && r.error.SerdeError? <==>
                  reply.Reply? && reply.status.code == 200 && decode(Payload(reply.json, key)).Err?)
  {
  }

  // ---- the string decoders -------------------------------------------------------

  /** `String`'s decoder: a JSON string, nothing else. */
  function DecodeString(v: J.Json): (r: Result<string, SerdeFailure>)
    ensures r.Ok? <==> v.JStr?
    ensures r.Ok? ==> r.value == v.s
  {
    match v
    case JStr(s) => Ok(s)
    case _ => Err(SerdeFailure("invalid type, expected a string", 0, 0))
  }

  /** `Option<String>`'s decoder: `null` is `None`. */
  function DecodeOptionString(v: J.Json): (r: Result<Option<string>, SerdeFailure>)
    ensures r.Ok? <==> v.JStr? || v.JNull?
    ensures r == Ok(None) <==> v.JNull?
    ensures r.Ok? && r.value.Some? ==> v == J.JStr(r.value.value)
  {
    match v
    case JNull => Ok(None)
    case JStr(s) => Ok(Some(s))
    case _ => Err(SerdeFailure("invalid type, expected a string or null", 0, 0))
  }

  // ---- the session token -----------------------------------------------------------

  /** `to_str()` succeeds only on visible ASCII and tab. */
  predicate VisibleAscii(c: char) {
    c == '\t' || (32 <= c as int < 127)
  }

  /** `cookie_value.to_str().unwrap_or_default()`. */
  function HeaderStr(value: string): (s: string)
    ensures s == value <==> forall i :: 0 <= i < |value| ==> VisibleAscii(value[i])
    ensures s != value ==> s == ""
  {
    if forall i :: 0 <= i < |value| ==> VisibleAscii(value[i]) then value else ""
  }

  /** `s.split(';').next().unwrap_or("")`: the text before the first `;`. */
  function UpToSemicolon(s: string): (r: string)
    ensures r <= s && ';' !in r
    ensures |r| == |s| || s[|r|] == ';'
  {
    if s == [] || s[0] == ';' then ""
    else [s[0]] + UpToSemicolon(s[1..])
  }

  /** `cookie_str[4..].split(';').next()`: slicing panics when the header text
      is shorter than 4 bytes, which includes a value `to_str` rejects. */
  function SessionToken(cookie: string): (r: Outcome<string>)
    ensures r.Panicked? <==> |HeaderStr(cookie)| < 4
    ensures r.Done? ==> r.result == UpToSemicolon(cookie[4..])
  {
    var s := HeaderStr(cookie);
    if |s| < 4 then Panicked("byte index 4 is out of range")
    else Done(UpToSemicolon(s[4..]))
  }

  /** The token is everything up to the first `;`, whatever follows it. */
  lemma {:induction false} UpToSemicolonOf(token: string, rest: string)
    requires ';' !in token
    ensures UpToSemicolon(token + ";" + rest) == token
  {
    if token != [] {
      assert (token + ";" + rest)[1..] == token[1..] + ";" + rest;
      UpToSemicolonOf(token[1..], rest);
    }
  }

  /** What the token is for a typical `set-cookie` value. */
  lemma SessionTokenOfJwtCookie()
    ensures SessionToken("JWT=abc; Path=/") == Done("abc")
  {
    var c := "JWT=abc; Path=/";
    assert HeaderStr(c) == c;
    assert c[4..] == "abc" + ";" + " Path=/";
    UpToSemicolonOf("abc", " Path=/");
  }

  /** The token and avatar update `login` applies to the signed-in user. */
  function ApplySession(user: Auth.AuthState, headers: HeaderMap): (r: Outcome<Auth.AuthState>)
    ensures GetHeader(headers, "set-cookie").None? ==> r == Done(user)
    ensures GetHeader(headers, "set-cookie").Some? ==>
      var cookie := GetHeader(headers, "set-cookie").value;
      && (r.Panicked? <==> |HeaderStr(cookie)| < 4)
      && (r.Done? ==> r.result == user.(access_token := Some(SessionToken(cookie).result),
                                         avatar := AssetsPrefix + user.avatar))
  {
    match GetHeader(headers, "set-cookie")
    case None => Done(user)
    case Some(cookie) =>
      match SessionToken(cookie)
      case Panicked(reason) => Panicked(reason)
      case Done(token) => Done(user.(access_token := Some(token), avatar := AssetsPrefix + user.avatar))
  }

  // ---- request bodies ---------------------------------------------------------------

  function LoginBody(email: string, password: string): J.Json {
    J.JObj([J.Member("email", J.JStr(email)), J.Member("password", J.JStr(password))])
  }

  /** The five keys every `post_ordre` body has. */
  function NewOrderFields(itemId: string, orderType: string, platinum: i64, quantity: i64, visible: bool)
    : (body: J.Json)
    ensures body.JObj?
    ensures J.Get(body, "item") == J.JStr(itemId) && J.Get(body, "order_type") == J.JStr(orderType)
    ensures J.Get(body, "platinum") == J.JInt(platinum as int) && J.Get(body, "quantity") == J.JInt(quantity as int)
    ensures J.Get(body, "visible") == J.JBool(visible)
  {
    var ms := [
      J.Member("item", J.JStr(itemId)),
      J.Member("order_type", J.JStr(orderType)),
      J.Member("platinum", J.JInt(platinum as int)),
      J.Member("quantity", J.JInt(quantity as int)),
      J.Member("visible", J.JBool(visible))];
    J.LookupDistinct(ms);
    assert ms[0].key == "item" && ms[1].key == "order_type" && ms[2].key == "platinum";
    assert ms[3].key == "quantity" && ms[4].key == "visible";
    J.JObj(ms)
  }

  lemma NewOrderFieldsKeys(itemId: string, orderType: string, platinum: i64, quantity: i64, visible: bool)
    ensures J.Keys(NewOrderFields(itemId, orderType, platinum, quantity, visible).members)
            == ["item", "order_type", "platinum", "quantity", "visible"]
  {
  }

  /** The `post_ordre` body: the five fixed fields, and `rank` only when given. */
  function PostOrderBody(itemId: string, orderType: string, platinum: i64, quantity: i64, visible: bool, rank: Option<Float64>)
    : (body: J.Json)
    ensures body.JObj?
    ensures forall k :: k != "rank" ==> J.Get(body, k) == J.Get(NewOrderFields(itemId, orderType, platinum, quantity, visible), k)
    ensures J.Get(body, "rank") == if rank.Some? then J.JFloat(rank.value) else J.JNull
  {
    var base := NewOrderFields(itemId, orderType, platinum, quantity, visible);
    if rank.None? then
      NewOrderFieldsKeys(itemId, orderType, platinum, quantity, visible);
      base
    else J.Set(base, "rank", J.JFloat(rank.value))
  }

  /** The body has no key besides the five fixed ones and `rank`, and has
      `rank` exactly when a rank is given. */
  lemma PostOrderBodyKeys(itemId: string, orderType: string, platinum: i64, quantity: i64, visible: bool, rank: Option<Float64>)
    ensures var body := PostOrderBody(itemId, orderType, platinum, quantity, visible, rank);
            forall k :: k in J.Keys(body.members) <==>
              k in ["item", "order_type", "platinum", "quantity", "visible"] || (k == "rank" && rank.Some?)
  {
    NewOrderFieldsKeys(itemId, orderType, platinum, quantity, visible);
  }

  /** The `update_order_listing` body: exactly platinum, quantity and visible. */
  function UpdateOrderBody(platinum: i64, quantity: i64, visible: bool): (body: J.Json)
    ensures body.JObj? && J.Keys(body.members) == ["platinum", "quantity", "visible"]
    ensures J.Get(body, "platinum") == J.JInt(platinum as int) && J.Get(body, "quantity") == J.JInt(quantity as int)
    ensures J.Get(body, "visible") == J.JBool(visible)
  {
    var ms := [
      J.Member("platinum", J.JInt(platinum as int)),
      J.Member("quantity", J.JInt(quantity as int)),
      J.Member("visible", J.JBool(visible))];
    assert J.Keys(ms) == ["platinum", "quantity", "visible"];
    J.LookupDistinct(ms);
    assert ms[0].key == "platinum" && ms[1].key == "quantity" && ms[2].key == "visible";
    J.JObj(ms)
  }

  /** The probe order `validate` creates and deletes again. */
  const ProbeItemName: string := "Lex Prime Set"
  const ProbeItemId: string := "56783f24cbfa8f0432dd89a2"
  const ProbeOrderType: string := "buy"

  // ---- tables of orders ----------------------------------------------------------------

  /** Row i of an order table: order i's fields under the column names. */
  function OrderRow(o: Order): Row {
    [Field("id", StrV(o.id)), Field("visible", BoolV(o.visible)), Field("url_name", StrV(o.item.url_name)),
     Field("platinum", I64V(o.platinum)), Field("platform", StrV(o.platform)),
     Field("quantity", I64V(o.quantity)), Field("last_update", StrV(o.last_update)),
     Field("creation_date", StrV(o.creation_date))]
  }

  const OrderColumns: seq<string> :=
    ["id", "visible", "url_name", "platinum", "platform", "quantity", "last_update", "creation_date"]

  const OrderColumnTypes: seq<ColumnType> := [String, Bool, String, I64, String, I64, String, String]

  /** `Series::new(name, values)` over strings. */
  function StrSeries(name: string, xs: seq<string>): (s: Series)
    ensures s.name == name && DType(s.data) == String && Len(s.data) == |xs|
    ensures forall i :: 0 <= i < |xs| ==> CellAt(s.data, i) == StrV(xs[i])
  {
    Series(name, StrData(seq(|xs|, i requires 0 <= i < |xs| => Some(xs[i]))))
  }

  /** `Series::new(name, values)` over booleans. */
  function BoolSeries(name: string, xs: seq<bool>): (s: Series)
    ensures s.name == name && DType(s.data) == Bool && Len(s.data) == |xs|
    ensures forall i :: 0 <= i < |xs| ==> CellAt(s.data, i) == BoolV(xs[i])
  {
    Series(name, BoolData(seq(|xs|, i requires 0 <= i < |xs| => Some(xs[i]))))
  }

  /** `Series::new(name, values)` over optional `i64`s: `None` is a null. */
  function I64Series(name: string, xs: seq<Option<i64>>): (s: Series)
    ensures s.name == name && DType(s.data) == I64 && Len(s.data) == |xs|
    ensures forall i :: 0 <= i < |xs| ==> CellAt(s.data, i) == if xs[i].Some? then I64V(xs[i].value) else Null
  {
    Series(name, I64Data(xs))
  }

  /** The eight-column table `get_ordres_data_frames` builds from a list. */
  function OrdersFrame(orders: seq<Order>): (df: DataFrame)
    ensures |df| == 8 && WellFormed(df) && Height(df) == |orders|
  {
    var n := |orders|;
    [StrSeries("id", seq(n, i requires 0 <= i < n => orders[i].id)),
     BoolSeries("visible", seq(n, i requires 0 <= i < n => orders[i].visible)),
     StrSeries("url_name", seq(n, i requires 0 <= i < n => orders[i].item.url_name)),
     I64Series("platinum", seq(n, i requires 0 <= i < n => Some(orders[i].platinum))),
     StrSeries("platform", seq(n, i requires 0 <= i < n => orders[i].platform)),
     I64Series("quantity", seq(n, i requires 0 <= i < n => Some(orders[i].quantity))),
     StrSeries("last_update", seq(n, i requires 0 <= i < n => orders[i].last_update)),
     StrSeries("creation_date", seq(n, i requires 0 <= i < n => orders[i].creation_date))]
  }

  /** The order table's column names and types do not depend on the orders. */
  lemma OrdersFrameSchema(orders: seq<Order>)
    ensures Names(OrdersFrame(orders)) == OrderColumns
    ensures forall j :: 0 <= j < 8 ==> DType(OrdersFrame(orders)[j].data) == OrderColumnTypes[j]
  {
    var df := OrdersFrame(orders);
    assert df[0].name == "id" && df[1].name == "visible" && df[2].name == "url_name" && df[3].name == "platinum";
    assert df[4].name == "platform" && df[5].name == "quantity" && df[6].name == "last_update" && df[7].name == "creation_date";
    assert Names(df) == OrderColumns;
  }

  /** Row i of the order table is order i. */
  lemma OrdersFrameRows(orders: seq<Order>)
    ensures forall i :: 0 <= i < |orders| ==> RowAt(OrdersFrame(orders), i) == OrderRow(orders[i])
  {
    var df := OrdersFrame(orders);
    forall i | 0 <= i < |orders| ensures RowAt(df, i) == OrderRow(orders[i]) {
      forall j | 0 <= j < 8 ensures RowAt(df, i)[j] == OrderRow(orders[i])[j] {
      }
    }
  }

  lemma OrderColumnsDistinct()
    ensures NoDuplicates(OrderColumns)
  {
  }

  /** The buy table and the sell table always stack into one: same names, same
      types, and the rows of both. */
  lemma OrdersFramesMerge(a: seq<Order>, b: seq<Order>)
    ensures MergeSpec([OrdersFrame(a), OrdersFrame(b)]).Ok?
    ensures Height(MergeSpec([OrdersFrame(a), OrdersFrame(b)]).value) == |a| + |b|
  {
    var x := OrdersFrame(a);
    var y := OrdersFrame(b);
    OrdersFrameSchema(a);
    OrdersFrameSchema(b);
    OrderColumnsDistinct();
    SameSchemaMerges(x, y);
    MergedHeight(x, y);
  }

  /** `Option<i64>`'s order: `None` below every `Some`. */
  predicate RankLeq(a: Option<i64>, b: Option<i64>) {
    a.None? || (b.Some? && a.value <= b.value)
  }

  /** The largest `mod_rank` among the orders (`max_by` on `mod_rank`). */
  function MaxModRank(orders: seq<OrderByItem>): (m: Option<i64>)
    requires orders != []
    ensures forall o :: o in orders ==> RankLeq(o.mod_rank, m)
    ensures exists o :: o in orders && o.mod_rank == m
  {
    if |orders| == 1 then orders[0].mod_rank
    else
      var rest := MaxModRank(orders[1..]);
      assert forall o :: o in orders ==> o == orders[0] || o in orders[1..];
      if RankLeq(rest, orders[0].mod_rank) then orders[0].mod_rank else rest
  }

  /** The orders at rank `top` whose author is in game, in their order. */
  function KeepTier(orders: seq<OrderByItem>, top: Option<i64>): (r: seq<OrderByItem>)
    ensures forall o :: o in r <==> o in orders && o.user.status == "ingame" && o.mod_rank == top
    ensures |r| <= |orders|
  {
    if orders == [] then []
    else
      assert forall o :: o in orders <==> o == orders[0] || o in orders[1..];
      (if orders[0].user.status == "ingame" && orders[0].mod_rank == top then [orders[0]] else [])
      + KeepTier(orders[1..], top)
  }

  /** Filtering keeps the relative order: it distributes over concatenation. */
  lemma {:induction false} KeepTierAppend(a: seq<OrderByItem>, b: seq<OrderByItem>, top: Option<i64>)
    ensures KeepTier(a + b, top) == KeepTier(a, top) + KeepTier(b, top)
  {
    if a == [] {
      assert a + b == b;
    } else {
      assert (a + b)[1..] == a[1..] + b;
      KeepTierAppend(a[1..], b, top);
    }
  }

  const ByItemColumns: seq<string> := ["username", "platinum", "mod_rank", "username", "order_type"]

  function ByItemRow(o: OrderByItem): Row {
    [Field("username", StrV(o.user.ingame_name)), Field("platinum", I64V(o.platinum)),
     Field("mod_rank", if o.mod_rank.Some? then I64V(o.mod_rank.value) else Null),
     Field("username", StrV(o.user.ingame_name)), Field("order_type", StrV(o.order_type))]
  }

  /** The five columns over the kept orders. */
  function ByItemTable(kept: seq<OrderByItem>): (df: DataFrame)
    ensures Names(df) == ByItemColumns && WellFormed(df) && Height(df) == |kept|
  {
    var n := |kept|;
    [StrSeries("username", seq(n, i requires 0 <= i < n => kept[i].user.ingame_name)),
     I64Series("platinum", seq(n, i requires 0 <= i < n => Some(kept[i].platinum))),
     I64Series("mod_rank", seq(n, i requires 0 <= i < n => kept[i].mod_rank)),
     StrSeries("username", seq(n, i requires 0 <= i < n => kept[i].user.ingame_name)),
     StrSeries("order_type", seq(n, i requires 0 <= i < n => kept[i].order_type))]
  }

  /** Row i of the table is the i-th kept order. */
  lemma ByItemTableRows(kept: seq<OrderByItem>)
    ensures forall i :: 0 <= i < |kept| ==> RowAt(ByItemTable(kept), i) == ByItemRow(kept[i])
  {
    var df := ByItemTable(kept);
    forall i | 0 <= i < |kept| ensures RowAt(df, i) == ByItemRow(kept[i]) {
      forall j | 0 <= j < 5 ensures RowAt(df, i)[j] == ByItemRow(kept[i])[j] {
      }
    }
  }

  /** The table `get_ordres_by_item` returns for the fetched orders: no
      columns for no orders, otherwise five columns over the kept orders. */
  function ByItemFrame(orders: seq<OrderByItem>): (df: DataFrame)
    ensures orders == [] ==> df == []
    ensures orders != [] ==> Names(df) == ByItemColumns && WellFormed(df)
                             && Height(df) == |KeepTier(orders, MaxModRank(orders))|
  {
    if orders == [] then [] else ByItemTable(KeepTier(orders, MaxModRank(orders)))
  }

  /** An order `get_ordres_by_item` keeps: its author is in game and no
      fetched order has a higher rank. */
  predicate TopInGame(orders: seq<OrderByItem>, o: OrderByItem) {
    o.user.status == "ingame" && forall p :: p in orders ==> RankLeq(p.mod_rank, o.mod_rank)
  }

  lemma TopRankIsMax(orders: seq<OrderByItem>, o: OrderByItem)
    requires orders != [] && o in orders
    ensures o.mod_rank == MaxModRank(orders) <==> forall p :: p in orders ==> RankLeq(p.mod_rank, o.mod_rank)
  {
    var m := MaxModRank(orders);
    if forall p :: p in orders ==> RankLeq(p.mod_rank, o.mod_rank) {
      var w :| w in orders && w.mod_rank == m;
      assert RankLeq(m, o.mod_rank) && RankLeq(o.mod_rank, m);
    }
  }

  /** Every row of the table is an in-game order at the top rank. */
  lemma ByItemRowsQualify(orders: seq<OrderByItem>, i: nat)
    requires orders != [] && i < Height(ByItemFrame(orders))
    ensures exists o :: o in orders && TopInGame(orders, o) && RowAt(ByItemFrame(orders), i) == ByItemRow(o)
  {
    var kept := KeepTier(orders, MaxModRank(orders));
    ByItemTableRows(kept);
    var o := kept[i];
    assert o in kept;
    TopRankIsMax(orders, o);
    assert TopInGame(orders, o);
    assert RowAt(ByItemFrame(orders), i) == ByItemRow(o);
  }

  /** Every in-game order at the top rank has a row in the table. */
  lemma QualifyingOrderHasRow(orders: seq<OrderByItem>, o: OrderByItem)
    requires orders != [] && o in orders && TopInGame(orders, o)
    ensures exists i :: 0 <= i < Height(ByItemFrame(orders)) && RowAt(ByItemFrame(orders), i) == ByItemRow(o)
  {
    var kept := KeepTier(orders, MaxModRank(orders));
    TopRankIsMax(orders, o);
    assert o in kept;
    var i :| 0 <= i < |kept| && kept[i] == o;
    ByItemTableRows(kept);
    assert RowAt(ByItemFrame(orders), i) == ByItemRow(o);
  }

  /** The duplicated `username` column makes the table unusable for a merge. */
  lemma ByItemFrameNotMergeable(orders: seq<OrderByItem>)
    requires orders != []
    ensures MergeSpec([ByItemFrame(orders)]).Err?
  {
    var df := ByItemFrame(orders);
    assert Names(df)[0] == Names(df)[3];
    assert !NoDuplicates(Names(df));
  }

  /** The first order for the item, searching the list in order. */
  function FindByUrlName(orders: seq<Order>, item: string): (r: Option<Order>)
    ensures r.None? <==> forall i :: 0 <= i < |orders| ==> orders[i].item.url_name != item
    ensures r.Some? ==> exists i :: 0 <= i < |orders| && orders[i] == r.value && r.value.item.url_name == item
                                    && forall k :: 0 <= k < i ==> orders[k].item.url_name != item
  {
    if orders == [] then None
    else if orders[0].item.url_name == item then Some(orders[0])
    else
      var r := FindByUrlName(orders[1..], item);
      assert forall k :: 1 <= k < |orders| ==> orders[1..][k - 1] == orders[k];
      if r.Some? then
        var i :| 0 <= i < |orders| - 1 && orders[1..][i] == r.value && r.value.item.url_name == item
                 && forall k :: 0 <= k < i ==> orders[1..][k].item.url_name != item;
        assert orders[i + 1] == r.value;
        r
      else r
  }

  /** Searching a concatenation finds a match in the first part before
      anything in the second. */
  lemma {:induction false} FindInPrefix(a: seq<Order>, b: seq<Order>, item: string)
    requires FindByUrlName(a, item).Some?
    ensures FindByUrlName(a + b, item) == FindByUrlName(a, item)
  {
    if a[0].item.url_name != item {
      assert (a + b)[1..] == a[1..] + b;
      FindInPrefix(a[1..], b, item);
    }
  }

  /** Without a match in the first part, the search goes on in the second. */
  lemma {:induction false} FindAfterPrefix(a: seq<Order>, b: seq<Order>, item: string)
    requires FindByUrlName(a, item).None?
    ensures FindByUrlName(a + b, item) == FindByUrlName(b, item)
  {
    if a == [] {
      assert a + b == b;
    } else {
      assert (a + b)[1..] == a[1..] + b;
      assert a[0].item.url_name != item;
      FindAfterPrefix(a[1..], b, item);
    }
  }

  /** `close_order_by_url` closes a buy order for the item when there is one,
      and only otherwise a sell order. */
  lemma BuyOrdersSearchedFirst(ordres: Ordres, item: string)
    ensures FindByUrlName(ordres.buy_orders, item).Some? ==>
              FindByUrlName(ordres.buy_orders + ordres.sell_orders, item) == FindByUrlName(ordres.buy_orders, item)
    ensures FindByUrlName(ordres.buy_orders, item).None? ==>
              FindByUrlName(ordres.buy_orders + ordres.sell_orders, item) == FindByUrlName(ordres.sell_orders, item)
  {
    if FindByUrlName(ordres.buy_orders, item).Some? {
      FindInPrefix(ordres.buy_orders, ordres.sell_orders, item);
    } else {
      FindAfterPrefix(ordres.buy_orders, ordres.sell_orders, item);
    }
  }

  // ---- the client -----------------------------------------------------------------------

  class WFMClientState {
    const endpoint: string
    const logFile: string
    /** The signed-in user, as read from the shared lock. */
    const auth: Auth.AuthState
    const net: Server
    const decoders: Decoders

    /** `WFMClientState::new`. */
    constructor (auth: Auth.AuthState, net: Server, decoders: Decoders)
      ensures endpoint == Endpoint && logFile == LogFile
      ensures this.auth == auth && this.net == net && this.decoders == decoders
    {
      endpoint := Endpoint;
      logFile := LogFile;
      this.auth := auth;
      this.net := net;
      this.decoders := decoders;
    }

    /** The request `send_request` builds for a path relative to the endpoint. */
    function Prepare(verb: Method, url: string, body: Option<J.Json>): (req: Request)
      ensures req.url == endpoint + url && req.verb == verb && req.body == body
      ensures req.authorization == AuthorizationValue(auth.access_token) && req.language == "en"
    {
      Request(verb, endpoint + url, AuthorizationValue(auth.access_token), "en", body)
    }

    /** What the server answers to `req` as its next request. */
    function Next<T>(verb: Method, url: string, key: Option<string>, body: Option<J.Json>, decode: Decoder<T>, n: nat)
      : Result<(T, HeaderMap), GlobleError>
    {
      Classify(endpoint + url, body, net.respond(Prepare(verb, url, body), n), key, decode)
    }

    /** `send_request`: one request, then the reply classified. */
    method SendRequest<T>(verb: Method, url: string, payloadKey: Option<string>, body: Option<J.Json>, decode: Decoder<T>)
      returns (r: Result<(T, HeaderMap), GlobleError>)
      modifies net
      ensures net.log == old(net.log) + [Prepare(verb, url, body)]
      ensures r == Next(verb, url, payloadKey, body, decode, |old(net.log)|)
    {
      var newUrl := endpoint + url;
      var request := Request(verb, newUrl, AuthorizationValue(auth.access_token), "en", body);
      var response := net.Exchange(request);
      if response.TransportFailure? {
        return Err(ReqwestError(response.cause));
      }
      var status := response.status;
      if status.code == 429 {
        return Err(TooManyRequests("Too Many Requests"));
      }
      if status.code != 200 {
        return Err(OtherError(StatusFailureText(newUrl, body, status, response.text)));
      }
      var headers := response.headers;
      var data := J.Get(response.json, "payload");
      if payloadKey.Some? {
        data := J.Get(J.Get(response.json, "payload"), payloadKey.value);
      }
      match decode(data)
      case Ok(payload) =>
        r := Ok((payload, headers));
      case Err(e) =>
        r := Err(SerdeError(J.Text(data), e.line, e.column));
    }

    /** `login`: signs in, then takes the token from `set-cookie`. */
    method Login(email: string, password: string) returns (r: Outcome<Result<Auth.AuthState, GlobleError>>)
      modifies net
      ensures net.log == old(net.log) + [Prepare(POST, "/auth/signin", Some(LoginBody(email, password)))]
      ensures var sent := Next(POST, "/auth/signin", Some("user"), Some(LoginBody(email, password)),
                               decoders.authState, |old(net.log)|);
              && (sent.Err? ==> r == Done(Err(sent.error)))
              && (sent.Ok? ==> r == match ApplySession(sent.value.0, sent.value.1)
                                    case Panicked(reason) => Panicked(reason)
                                    case Done(user) => Done(Ok(user)))
    {
      var body := LoginBody(email, password);
      var sent := SendRequest(POST, "/auth/signin", Some("user"), Some(body), decoders.authState);
      if sent.Err? {
        return Done(Err(sent.error));
      }
      var user := sent.value.0;
      var headers := sent.value.1;
      var cookies := GetHeader(headers, "set-cookie");
      if cookies.Some? {
        var cookieStr := HeaderStr(cookies.value);
        if |cookieStr| < 4 {
          return Panicked("byte index 4 is out of range");
        }
        var accessToken := Some(UpToSemicolon(cookieStr[4..]));
        user := user.(access_token := accessToken);
        user := user.(avatar := AssetsPrefix + user.avatar);
      }
      r := Done(Ok(user));
    }

    /** `post_ordre`. */
    method PostOrdre(itemName: string, itemId: string, orderType: string, platinum: i64, quantity: i64,
                     visible: bool, rank: Option<Float64>)
      returns (r: Result<Order, GlobleError>)
      modifies net
      ensures var body := PostOrderBody(itemId, orderType, platinum, quantity, visible, rank);
              && net.log == old(net.log) + [Prepare(POST, "profile/orders", Some(body))]
              && var sent := Next(POST, "profile/orders", Some("order"), Some(body), decoders.order, |old(net.log)|);
                 r == WithoutHeaders(sent)
    {
      var body := PostOrderBody(itemId, orderType, platinum, quantity, visible, rank);
      var sent := SendRequest(POST, "profile/orders", Some("order"), Some(body), decoders.order);
      if sent.Err? {
        return Err(sent.error);
      }
      r := Ok(sent.value.0);
    }

    /** `delete_order`: the reply's `order_id`. */
    method DeleteOrder(orderId: string, itemName: string, itemId: string, orderType: string)
      returns (r: Result<string, GlobleError>)
      modifies net
      ensures net.log == old(net.log) + [Prepare(DELETE, "profile/orders/" + orderId, None)]
      ensures var sent := Next(DELETE, "profile/orders/" + orderId, Some("order_id"), None, DecodeString, |old(net.log)|);
              r == WithoutHeaders(sent)
    {
      var sent := SendRequest(DELETE, "profile/orders/" + orderId, Some("order_id"), None, DecodeString);
      if sent.Err? {
        return Err(sent.error);
      }
      r := Ok(sent.value.0);
    }

    /** `validate`: creates a probe order and deletes it again. A failed
        creation answers `false`; a failed deletion is passed on. */
    method Validate() returns (r: Result<bool, GlobleError>)
      modifies net
      ensures var body := PostOrderBody(ProbeItemId, ProbeOrderType, 1, 1, false, None);
              var posted := Next(POST, "profile/orders", Some("order"), Some(body), decoders.order, |old(net.log)|);
              && (posted.Err? ==> r == Ok(false) && net.log == old(net.log) + [Prepare(POST, "profile/orders", Some(body))])
              && (posted.Ok? ==>
                    var path := "profile/orders/" + posted.value.0.id;
                    var deleted := Next(DELETE, path, Some("order_id"), None, DecodeString, |old(net.log)| + 1);
                    && net.log == old(net.log) + [Prepare(POST, "profile/orders", Some(body))] + [Prepare(DELETE, path, None)]
                    && r == if deleted.Ok? then Ok(true) else Err(deleted.error))
    {
      var posted := PostOrdre(ProbeItemName, ProbeItemId, ProbeOrderType, 1, 1, false, None);
      if posted.Err? {
        return Ok(false);
      }
      var deleted := DeleteOrder(posted.value.id, ProbeItemName, ProbeItemId, ProbeOrderType);
      if deleted.Err? {
        return Err(deleted.error);
      }
      r := Ok(true);
    }

    /** `get_tradable_items`. */
    method GetTradableItems() returns (r: Result<seq<Item>, GlobleError>)
      modifies net
      ensures net.log == old(net.log) + [Prepare(GET, "items", None)]
      ensures var sent := Next(GET, "items", Some("items"), None, decoders.items, |old(net.log)|);
              r == WithoutHeaders(sent)
    {
      var sent := SendRequest(GET, "items", Some("items"), None, decoders.items);
      if sent.Err? {
        return Err(sent.error);
      }
      r := Ok(sent.value.0);
    }

    /** `get_item`. */
    method GetItem(item: string) returns (r: Result<ItemDetails, GlobleError>)
      modifies net
      ensures net.log == old(net.log) + [Prepare(GET, "items/" + item, None)]
      ensures var sent := Next(GET, "items/" + item, Some("item"), None, decoders.itemDetails, |old(net.log)|);
              r == WithoutHeaders(sent)
    {
      var sent := SendRequest(GET, "items/" + item, Some("item"), None, decoders.itemDetails);
      if sent.Err? {
        return Err(sent.error);
      }
      r := Ok(sent.value.0);
    }

    /** `get_user_ordres`: the whole payload is the two lists. */
    method GetUserOrdres() returns (r: Result<Ordres, GlobleError>)
      modifies net
      ensures net.log == old(net.log) + [Prepare(GET, "profile/" + auth.ingame_name + "/orders", None)]
      ensures var sent := Next(GET, "profile/" + auth.ingame_name + "/orders", None, None, decoders.ordres, |old(net.log)|);
              r == WithoutHeaders(sent)
    {
      var url := "profile/" + auth.ingame_name + "/orders";
      var sent := SendRequest(GET, url, None, None, decoders.ordres);
      if sent.Err? {
        return Err(sent.error);
      }
      r := Ok(sent.value.0);
    }

    /** `get_ordres_data_frames`: one table for the buy orders, one for the sell
        orders. */
    method GetOrdresDataFrames() returns (r: Result<(DataFrame, DataFrame), GlobleError>)
      modifies net
      ensures net.log == old(net.log) + [Prepare(GET, "profile/" + auth.ingame_name + "/orders", None)]
      ensures var sent := Next(GET, "profile/" + auth.ingame_name + "/orders", None, None, decoders.ordres, |old(net.log)|);
              r == if sent.Ok? then Ok((OrdersFrame(sent.value.0.buy_orders), OrdersFrame(sent.value.0.sell_orders)))
                   else Err(sent.error)
    {
      var currentOrders := GetUserOrdres();
      if currentOrders.Err? {
        return Err(currentOrders.error);
      }
      var buyOrders := currentOrders.value.buy_orders;
      var myBuyOrdersDf := OrdersFrame(buyOrders);
      var sellOrders := currentOrders.value.sell_orders;
      var mySellOrdersDf := OrdersFrame(sellOrders);
      r := Ok((myBuyOrdersDf, mySellOrdersDf));
    }

    /** `convet_order_to_datafream`: the one-row table of an order. */
    function ConvetOrderToDatafream(order: Order): (r: Result<DataFrame, GlobleError>)
      ensures r.Ok? && Names(r.value) == OrderColumns && WellFormed(r.value) && Height(r.value) == 1
      ensures RowAt(r.value, 0) == OrderRow(order)
    {
      OrdersFrameSchema([order]);
      OrdersFrameRows([order]);
      Ok(OrdersFrame([order]))
    }

    /** `update_order_listing`. */
    method UpdateOrderListing(orderId: string, platinum: i64, quantity: i64, visible: bool,
                              itemName: string, itemId: string, orderType: string)
      returns (r: Result<Order, GlobleError>)
      modifies net
      ensures var body := UpdateOrderBody(platinum, quantity, visible);
              && net.log == old(net.log) + [Prepare(PUT, "profile/orders/" + orderId, Some(body))]
              && var sent := Next(PUT, "profile/orders/" + orderId, Some("order"), Some(body), decoders.order, |old(net.log)|);
                 r == WithoutHeaders(sent)
    {
      var body := UpdateOrderBody(platinum, quantity, visible);
      var url := "profile/orders/" + orderId;
      var sent := SendRequest(PUT, url, Some("order"), Some(body), decoders.order);
      if sent.Err? {
        return Err(sent.error);
      }
      r := Ok(sent.value.0);
    }

    /** `get_ordres_by_item`: a failed fetch counts as no orders; never fails. */
    method GetOrdresByItem(item: string) returns (r: Result<DataFrame, GlobleError>)
      modifies net
      ensures net.log == old(net.log) + [Prepare(GET, "items/" + item + "/orders", None)]
      ensures var sent := Next(GET, "items/" + item + "/orders", Some("orders"), None, decoders.ordersByItem, |old(net.log)|);
              r == Ok(ByItemFrame(if sent.Ok? then sent.value.0 else []))
    {
      var url := "items/" + item + "/orders";
      var sent := SendRequest(GET, url, Some("orders"), None, decoders.ordersByItem);
      var orders: seq<OrderByItem> := if sent.Ok? then sent.value.0 else [];
      if |orders| == 0 {
        return Ok([]);
      }
      var modRank := MaxModRank(orders);
      var kept := KeepTier(orders, modRank);
      r := Ok(ByItemTable(kept));
    }

    /** `close_order_by_url`: finds the user's first order for the item, buy
        orders before sell orders, and closes it. */
    method CloseOrderByUrl(item: string) returns (r: Result<string, GlobleError>)
      modifies net
      ensures var path := "profile/" + auth.ingame_name + "/orders";
              var fetched := Next(GET, path, None, None, decoders.ordres, |old(net.log)|);
              && (fetched.Err? ==> r == Err(fetched.error) && net.log == old(net.log) + [Prepare(GET, path, None)])
              && (fetched.Ok? ==>
                    var found := FindByUrlName(fetched.value.0.buy_orders + fetched.value.0.sell_orders, item);
                    && (found.None? ==> r == Ok("No Order Found") && net.log == old(net.log) + [Prepare(GET, path, None)])
                    && (found.Some? ==>
                          var close := "profile/orders/close/" + found.value.id;
                          var closed := Next(PUT, close, Some("order_id"), None, DecodeOptionString, |old(net.log)| + 1);
                          && net.log == old(net.log) + [Prepare(GET, path, None)] + [Prepare(PUT, close, None)]
                          && r == if closed.Ok? then Ok(closed.value.0.GetOr("Order Successfully Closed"))
                                  else Err(closed.error)))
    {
      var ordresVec := GetUserOrdres();
      if ordresVec.Err? {
        return Err(ordresVec.error);
      }
      var ordres := ordresVec.value.buy_orders;
      ordres := ordres + ordresVec.value.sell_orders;
      var order := FindByUrlName(ordres, item);
      if order.None? {
        return Ok("No Order Found");
      }
      var url := "profile/orders/close/" + order.value.id;
      var result := SendRequest(PUT, url, Some("order_id"), None, DecodeOptionString);
      match result
      case Ok((orderData, _)) =>
        r := Ok(orderData.GetOr("Order Successfully Closed"));
      case Err(e) =>
        r := Err(e);
    }
  }
}
