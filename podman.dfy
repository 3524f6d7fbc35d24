/**
 * What the translator sees of a running container: its identifier, its
 * labels and its published port mappings.
 */
module Podman {

  /** An unsigned 16-bit integer, as the runtime reports host ports. */
  newtype uint16 = x: int | 0 <= x < 0x1_0000

  type Labels = map<string, string>

  /** A published port: container port `containerPort` bound on the host at `hostIP`:`hostPort`. */
  datatype PortMapping = PortMapping(hostIP: string, containerPort: uint16, hostPort: uint16)

  datatype Container = Container(id: string, labels: Labels, ports: seq<PortMapping>)
}
