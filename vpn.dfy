/** The error values a VPN client session can end with. */
module Vpn {

  /**
   * A Go `error` value seen by the monitor. The three sentinels of the vpn
   * package are compared by identity in the source; every other error
   * (from a visor call, the network, decoding) is an `OtherError`.
   */
  datatype Error =
    | ErrSetupNode
    | ErrNotPermitted
    | ErrServerOffline
    | OtherError(message: string)

  /**
   * The `Error()` texts of the three sentinels. The vpn package is not part
   * of this model, so the texts are a parameter; the app-error string a
   * visor reports is matched against them.
   */
  datatype SentinelTexts = SentinelTexts(setupNode: string, notPermitted: string, serverOffline: string)
}
