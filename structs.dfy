/**
 * The error taxonomy `GlobleError`, its conversions from the foreign error
 * types, and the plain records the market client decodes.
 *
 * The foreign errors (reqwest, io, sqlx, polars, serde_json, the std parse
 * errors) are kept as small records standing for the original values; the
 * conversions only move them into a fixed variant.
 */
module Structs {
  import opened Wrappers
  import Fmt

  /** Rust's `i64`. */
  newtype i64 = x: int | -0x8000_0000_0000_0000 <= x < 0x8000_0000_0000_0000

  /** An `f64`, kept opaque: no arithmetic is done on it. `ordinal` is its
      position in the total order used when sorting, `text` its printed form. */
  datatype Float64 = Float64(ordinal: int, text: string)

  /** `reqwest::StatusCode`: the numeric code and its canonical reason phrase. */
  datatype StatusCode = StatusCode(code: nat, reason: Option<string>)

  /** `Display` of a status code, e.g. "404 Not Found". */
  function StatusText(s: StatusCode): string {
    Fmt.NatText(s.code) + " " + s.reason.GetOr("<unknown status code>")
  }

  // ---- foreign error values --------------------------------------------

  /** A `reqwest::Error` (connection, DNS, TLS, ...). */
  datatype ReqwestFailure = ReqwestFailure(description: string)

  datatype IoErrorKind = NotFound | PermissionDenied | InvalidData | UnexpectedEof | OtherIo

  /** A `std::io::Error`. */
  datatype IoFailure = IoFailure(kind: IoErrorKind, message: string)

  /** A `sqlx::Error`. */
  datatype SqlxFailure = SqlxFailure(description: string)

  /** A `serde_json::Error`: its message and where it occurred. */
  datatype SerdeFailure = SerdeFailure(message: string, line: nat, column: nat)

  /** `Debug` of a `serde_json::Error`. */
  function SerdeDebug(e: SerdeFailure): string {
    "Error(" + Fmt.DebugStr(e.message) + ", line: " + Fmt.NatText(e.line)
    + ", column: " + Fmt.NatText(e.column) + ")"
  }

  /** The `std::num::IntErrorKind` of a `ParseIntError`. */
  datatype IntErrorKind = Empty | InvalidDigit | PosOverflow | NegOverflow | Zero

  datatype FloatErrorKind = FloatEmpty | FloatInvalid

  datatype ParseBoolFailure = ParseBoolFailure

  /** A `std::sync::PoisonError<T>`; the guarded value is not inspected. */
  datatype PoisonFailure = PoisonFailure

  /** The kinds of `polars::error::PolarsError` the table helpers raise. */
  datatype PolarsFailure =
    | ColumnNotFound(name: string)
    | SchemaMismatch(detail: string)
    | Duplicate(name: string)
    | ShapeMismatch(detail: string)

  /** `Debug` of a polars error. */
  function PolarsDebug(e: PolarsFailure): string {
    match e
    case ColumnNotFound(n) => "ColumnNotFound(" + Fmt.DebugStr(n) + ")"
    case SchemaMismatch(d) => "SchemaMismatch(" + Fmt.DebugStr(d) + ")"
    case Duplicate(n) => "Duplicate(" + Fmt.DebugStr(n) + ")"
    case ShapeMismatch(d) => "ShapeMismatch(" + Fmt.DebugStr(d) + ")"
  }

  // ---- the taxonomy ------------------------------------------------------

  datatype GlobleError =
    | ReqwestError(reqwest: ReqwestFailure)
    | SerdeError(text: string, line: nat, column: nat)
    | PolarsError(message: string)
    | IoError(io: IoFailure)
    | ParseIntError(intKind: IntErrorKind)
    | ParseFloatError(floatKind: FloatErrorKind)
    | ParseBoolError(boolFailure: ParseBoolFailure)
    | DabaseError(database: SqlxFailure)
    | ParseError(message: string)
    | TooManyRequests(message: string)
    | OtherError(message: string)
    | HttpError(status: StatusCode, context: string, body: string)

  // ---- From conversions: total, one fixed variant each ------------------

  function FromPoison(e: PoisonFailure): (r: GlobleError)
    ensures r.OtherError? && r.message == "PoisonError { .. }"
  {
    OtherError("PoisonError { .. }")
  }

  function FromSqlx(e: SqlxFailure): (r: GlobleError)
    ensures r.DabaseError? && r.database == e
  {
    DabaseError(e)
  }

  function FromReqwest(e: ReqwestFailure): (r: GlobleError)
    ensures r.ReqwestError? && r.reqwest == e
  {
    ReqwestError(e)
  }

  function FromSerde(e: SerdeFailure): (r: GlobleError)
    ensures r.SerdeError? && r.line == e.line && r.column == e.column
    ensures r.text == SerdeDebug(e)
  {
    SerdeError(SerdeDebug(e), e.line, e.column)
  }

  function FromPolars(e: PolarsFailure): (r: GlobleError)
    ensures r.PolarsError? && r.message == PolarsDebug(e)
  {
    PolarsError(PolarsDebug(e))
  }

  function FromIo(e: IoFailure): (r: GlobleError)
    ensures r.IoError? && r.io == e
  {
    IoError(e)
  }

  function FromParseInt(k: IntErrorKind): (r: GlobleError)
    ensures r.ParseIntError? && r.intKind == k
  {
    ParseIntError(k)
  }

  function FromParseFloat(k: FloatErrorKind): (r: GlobleError)
    ensures r.ParseFloatError? && r.floatKind == k
  {
    ParseFloatError(k)
  }

  function FromParseBool(e: ParseBoolFailure): (r: GlobleError)
    ensures r.ParseBoolError?
  {
    ParseBoolError(e)
  }

  function FromString(s: string): (r: GlobleError)
    ensures r.ParseError? && r.message == s
  {
    ParseError(s)
  }

  /** `From<&str>` stores the debug-quoted text, not the text itself. */
  function FromStr(s: string): (r: GlobleError)
    ensures r.ParseError? && r.message == Fmt.DebugStr(s)
  {
    ParseError(Fmt.DebugStr(s))
  }

  /** Different `&str` values convert to different errors, and a `&str`
      conversion never coincides with converting the same text as `String`. */
  lemma {:induction false} FromStrInjective(a: string, b: string)
    ensures FromStr(a) == FromStr(b) <==> a == b
    ensures FromStr(a) != FromString(a)
  {
    if FromStr(a) == FromStr(b) {
      Fmt.DebugStrInjective(a, b);
    }
    var q := Fmt.DebugStr(a);
    assert |q| >= 2 && q[0] == '"';
    if q == a {
      QuotedIsLonger(a);
    }
  }

  lemma {:induction false} EscapeDebugNotShorter(s: string)
    ensures |Fmt.EscapeDebug(s)| >= |s|
  {
    if s != [] {
      EscapeDebugNotShorter(s[1..]);
    }
  }

  lemma QuotedIsLonger(s: string)
    ensures |Fmt.DebugStr(s)| > |s|
  {
    EscapeDebugNotShorter(s);
  }

  // ---- records -----------------------------------------------------------

  datatype Item = Item(
    item_name: string,
    id: string,
    url_name: string,
    thumb: string,
    set_items: Option<seq<string>>,
    tags: Option<seq<string>>,
    mod_max_rank: Option<i64>,
    subtypes: Option<seq<string>>)

  datatype ItemInfo = ItemInfo(id: string, mod_max_rank: Option<Float64>)

  datatype ItemDetails = ItemDetails(id: string, items_in_set: seq<ItemInfo>)

  datatype OrderItemTranslation = OrderItemTranslation(item_name: string)

  datatype OrderItem = OrderItem(
    id: string,
    url_name: string,
    icon: string,
    icon_format: string,
    thumb: string,
    sub_icon: Option<string>,
    mod_max_rank: Option<i64>,
    subtypes: Option<seq<string>>,
    tags: seq<string>,
    ducats: Option<i64>,
    quantity_for_set: Option<i64>,
    en: OrderItemTranslation)

  /** One of the signed-in user's own orders. */
  datatype Order = Order(
    id: string,
    platinum: i64,
    visible: bool,
    last_update: string,
    region: string,
    platform: string,
    creation_date: string,
    order_type: string,
    quantity: i64,
    item: OrderItem)

  /** The user's orders, buy and sell kept apart. */
  datatype Ordres = Ordres(sell_orders: seq<Order>, buy_orders: seq<Order>)

  /** The author of a competing order. */
  datatype User = User(reputation: i64, ingame_name: string, id: string, status: string)

  /** Another trader's order for an item. */
  datatype OrderByItem = OrderByItem(
    order_type: string,
    quantity: i64,
    platinum: i64,
    mod_rank: Option<i64>,
    user: User,
    platform: string,
    creation_date: string,
    last_update: string,
    visible: bool,
    id: string,
    region: string)
}
