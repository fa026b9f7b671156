/**
 * The notification of the downstream worker. The HTTP POST itself (with
 * its 2-second timeout) is outside the model. The parameter `reachable`
 * says whether the POST returned a response, of any status: the HTTP
 * client raises only on a connection failure or a timeout, so a 404 or a
 * 500 from the worker is still logged as dispatched. The only effect is
 * the log line written either way; no exception leaves the call.
 */
module Services {
  /** A logged dispatch attempt: a response came back, or the exception was swallowed. */
  datatype Notice = Dispatched(orderId: nat) | DispatchFailed(orderId: nat)

  class CeleryService {
    var log: seq<Notice>

    constructor ()
      ensures log == []
    {
      log := [];
    }

    method DispatchOrderProcessed(orderId: nat, reachable: bool)
      modifies this
      ensures log == old(log) + [if reachable then Dispatched(orderId) else DispatchFailed(orderId)]
    {
      if reachable {
        log := log + [Dispatched(orderId)];
      } else {
        log := log + [DispatchFailed(orderId)];
      }
    }
  }
}
