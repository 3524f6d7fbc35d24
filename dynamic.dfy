/**
 * The parts of the reverse proxy's dynamic configuration that the translator
 * reads or writes: per-protocol sections of named routers and services, and
 * the load-balancer server records of an HTTP service.
 */
module Dynamic {

  /** Outcome of an operation that can fail. */
  datatype Result<+T, +E> = Ok(value: T) | Err(error: E)

  /**
   * One backend of a load balancer. `url` is what the proxy dials; `scheme`
   * and `port` are the pieces the label decoder fills in when a label gives
   * a port instead of a full URL.
   */
  datatype Server = Server(url: string, scheme: string, port: string)

  /** A load balancer over an ordered list of servers. */
  datatype ServersLoadBalancer = ServersLoadBalancer(servers: seq<Server>)

  /**
   * An HTTP service. A service of another kind (weighted, mirroring,
   * failover) has no servers load balancer: `loadBalancer` is None.
   */
  datatype Service = Service(loadBalancer: Option<ServersLoadBalancer>)

  datatype Option<+T> = None | Some(value: T)

  /** An HTTP router; an empty `service` means "the service named like me". */
  datatype Router = Router(rule: string, service: string)

  datatype HttpConfiguration = HttpConfiguration(
    routers: map<string, Router>,
    services: map<string, Service>)

  /** TCP and UDP routers and services are carried through untouched. */
  datatype StreamRouter = StreamRouter(service: string)
  datatype StreamService = StreamService(addresses: seq<string>)

  datatype StreamConfiguration = StreamConfiguration(
    routers: map<string, StreamRouter>,
    services: map<string, StreamService>)

  /** One configuration document: its HTTP, TCP and UDP sections. */
  datatype Configuration = Configuration(
    http: HttpConfiguration,
    tcp: StreamConfiguration,
    udp: StreamConfiguration)
}
