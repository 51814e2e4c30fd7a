/** The network tag a key ring is bound to. Only equality of tags matters to the key ring. */
module Networks {

  /** An illustrative set of network tags; no property depends on which tags exist. */
  datatype Network = Bitcoin | Testnet | Testnet4 | Signet | Regtest
}
