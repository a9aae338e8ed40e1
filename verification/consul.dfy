/** The shapes of the Consul API values the core reads; the client itself is not modelled. */
module ConsulApi {

  /** The fields of `api.ServiceEntry` the core uses: `Node.Address`, `Service.Address`, `Service.Port`. */
  datatype ServiceEntry = ServiceEntry(nodeAddress: string, serviceAddress: string, servicePort: int)

  /** A value in the parameter map handed to `watch.Parse`. */
  datatype Param = PStr(s: string) | PBool(b: bool)
}
