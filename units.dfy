/** Option: a value that may be missing (Python's `None`). */
module Options {
  datatype Option<+T> = None | Some(value: T)
}

/**
 * The unit-conversion primitives of the converter: Gwei to ether and
 * Satoshis to bitcoin, and the two multiplications by the same constants
 * with which the cross form turns an ether or bitcoin amount back into
 * Gwei or Satoshis. All quantities are exact reals.
 */
module Units {

  /** Number of Gwei in one ether. */
  const GweiPerEth: real := 1000000000.0

  /** Number of Satoshis in one bitcoin. */
  const SatsPerBtc: real := 100000000.0

  /** `gwei_to_eth`: total, and defined for negative amounts too. */
  function GweiToEth(gwei: real): (eth: real)
    ensures eth * GweiPerEth == gwei
    ensures eth > 0.0 <==> gwei > 0.0
    ensures gwei > 0.0 ==> eth < gwei
  {
    gwei / GweiPerEth
  }

  /** `sats_to_btc`: total, and defined for negative amounts too. */
  function SatsToBtc(sats: real): (btc: real)
    ensures btc * SatsPerBtc == sats
    ensures btc > 0.0 <==> sats > 0.0
    ensures sats > 0.0 ==> btc < sats
  {
    sats / SatsPerBtc
  }

  /** The last step of the Sats-to-Gwei direction: ether back to Gwei. */
  function EthToGwei(eth: real): (gwei: real)
    ensures GweiToEth(gwei) == eth
  {
    eth * GweiPerEth
  }

  /** The last step of the Gwei-to-Sats direction: bitcoin back to Satoshis. */
  function BtcToSats(btc: real): (sats: real)
    ensures SatsToBtc(sats) == btc
  {
    btc * SatsPerBtc
  }

  /** Converting to ether and back loses nothing. */
  lemma GweiRoundTrip(gwei: real)
    ensures EthToGwei(GweiToEth(gwei)) == gwei
  {
  }

  /** Converting to bitcoin and back loses nothing. */
  lemma SatsRoundTrip(sats: real)
    ensures BtcToSats(SatsToBtc(sats)) == sats
  {
  }
}
