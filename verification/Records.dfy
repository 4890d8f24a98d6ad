/** The datastore's rows. */
module Records {
  import opened Ipv4

  /** models.Container. */
  datatype Container = Container(
    id: string, ip: string, mac: string, hostIP: string, network: string, sandbox: string, app: string)

  /** The record Setup returns for a container that got the address `ip`. */
  function RecordOf(id: string, ip: IP, mac: string, hostIP: string, network: string, sandbox: string,
    app: string): Container
    requires To4(ip).Some?
  {
    Container(id, ToString(ip), mac, hostIP, network, sandbox, app)
  }
}
