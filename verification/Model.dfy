/** The state document (internal/model/model.go). Enumerations that the source keeps as
    open strings carry an Unknown case for values written by hand or by another version. */
module Model {
  import opened Prelude
  import opened Sorting

  /** A decoded JSON/YAML value of a proxy dictionary. Number stands for every integral
      encoding (int, int64, uint16, integral float64), Shown for anything else by its
      default rendering. */
  datatype Value = Null | Str(text: string) | Number(n: int) | Shown(rendered: string)

  type Raw = map<string, Value>

  datatype SourceKind = Subscription | Manual | UnknownSource(text: string)

  /** An RFC 3339 timestamp field: empty, readable (whole seconds) or not readable. */
  datatype Stamp = Never | At(sec: int) | Unreadable

  datatype Source = Source(
    id: string, kind: SourceKind, name: string, url: string, enabled: bool,
    interval: int, lastUpdate: Stamp, failCount: int, nextRetryAt: Stamp,
    failed: bool, panel: Option<string>)

  datatype Server = Server(
    id: string, sourceId: string, name: string, kind: string, raw: Raw,
    delayMs: int, stale: bool, staleMisses: int)

  datatype GroupType = Select | UrlTest | Fallback | LoadBalance | UnknownGroupType(text: string)

  datatype Group = Group(id: string, name: string, kind: GroupType, members: seq<string>)

  datatype CondType =
    | Domain | DomainSuffix | DomainKeyword | Geosite | GeoIp | IpCidr | SrcDevice | DstPort
    | UnknownCond(text: string)

  datatype Condition = Condition(kind: CondType, value: string, caption: string)

  datatype TargetType = ToServer | ToGroup | ToDirect | ToReject | UnknownTarget(text: string)

  datatype Target = Target(kind: TargetType, id: string)

  datatype Route = Route(
    id: string, name: string, enabled: bool, order: int, conditions: seq<Condition>,
    target: Target, onUnavailable: string, providers: seq<string>)

  function RouteKey(rt: Route): Key {
    Key(rt.order, rt.id)
  }

  datatype Settings = Settings(
    delayTestIntervalSec: int, defaultPolicy: Target,
    geositeSource: string, geoipSource: string,
    geositeCustomUrl: string, geoipCustomUrl: string,
    additions: map<string, seq<string>>, disabledTemplates: seq<string>)

  datatype State = State(
    settings: Settings, sources: seq<Source>, servers: seq<Server>,
    groups: seq<Group>, routes: seq<Route>)

  /** Go library calls the model leaves uninterpreted: strings.ToLower, net.ParseCIDR, and
      netip.ParseAddr reduced to the longest prefix of the address family (32 or 128). */
  datatype Library = Library(lower: string -> string, isCidr: string -> bool, maxPrefix: string -> Option<int>)
}
