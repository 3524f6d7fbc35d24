/**
 * The configuration endpoint: run the translator and answer with the
 * non-empty protocol sections of the merged configuration.
 */
module Handler {
  import opened Dynamic
  import opened Podman
  import opened Translate

  /** One value of the response object, keyed by lower-case protocol name. */
  datatype SectionBody =
    | HttpSection(http: HttpConfiguration)
    | TcpSection(tcp: StreamConfiguration)
    | UdpSection(udp: StreamConfiguration)

  /**
   * What the endpoint answers: a JSON object of sections; a plain-text
   * error with a status code; or nothing, when the translator panicked and
   * the HTTP server dropped the request.
   */
  datatype Response =
    | Json(sections: map<string, SectionBody>)
    | PlainError(status: int, body: string)
    | Dropped

  /** The response object: a section appears only when it has routers or services. */
  function Sections(cfg: Configuration): (out: map<string, SectionBody>)
    ensures "http" in out <==> |cfg.http.routers| != 0 || |cfg.http.services| != 0
    ensures "tcp" in out <==> |cfg.tcp.routers| != 0 || |cfg.tcp.services| != 0
    ensures "udp" in out <==> |cfg.udp.routers| != 0 || |cfg.udp.services| != 0
    ensures "http" in out ==> out["http"] == HttpSection(cfg.http)
    ensures "tcp" in out ==> out["tcp"] == TcpSection(cfg.tcp)
    ensures "udp" in out ==> out["udp"] == UdpSection(cfg.udp)
    ensures forall k :: k in out ==> k == "http" || k == "tcp" || k == "udp"
  {
    var out: map<string, SectionBody> := map[];
    var out := if |cfg.http.services| != 0 || |cfg.http.routers| != 0 then out["http" := HttpSection(cfg.http)] else out;
    var out := if |cfg.tcp.routers| != 0 || |cfg.tcp.services| != 0 then out["tcp" := TcpSection(cfg.tcp)] else out;
    var out := if |cfg.udp.routers| != 0 || |cfg.udp.services| != 0 then out["udp" := UdpSection(cfg.udp)] else out;
    out
  }

  /** The configuration endpoint. */
  method TraefikHandler(listing: Result<seq<Container>, string>, schedule: seq<seq<string>>,
                        decode: Labels -> Result<Configuration, string>,
                        merge: map<string, Configuration> -> Configuration,
                        ip: string) returns (resp: Response)
    requires listing.Ok? ==> WellScheduled(listing.value, schedule, decode)
    ensures listing.Err? ==>
      resp == PlainError(500, "Failed to get Traefik config: " + ("unable to list containers: " + listing.error) + "\n")
    ensures listing.Ok? ==>
      resp == match TranslateContainers(map[], listing.value, schedule, decode, ip)
              case Err(_) => Dropped
              case Ok(configs) => Json(Sections(merge(configs)))
  {
    var config := GetTraefikConfig(listing, schedule, decode, merge, ip);
    if config.Ok? {
      resp := Json(Sections(config.value));
    } else if config.error.ListFailed? {
      resp := PlainError(500, "Failed to get Traefik config: " + config.error.message + "\n");
    } else {
      resp := Dropped;
    }
  }
}
