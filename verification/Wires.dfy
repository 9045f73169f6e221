/** The signal bundles between the host model and the device. */
module Wires {
  import opened LineCode

  /** Device to host signals. */
  datatype D2p = D2p(dp: bool, dpEn: bool, dn: bool, dnEn: bool, d: bool, dEn: bool,
                     se0: bool, txUseDSe0: bool, dppu: bool, dnpu: bool, rxEnable: bool)
  {
    predicate Pullup() { dppu || dnpu }

    predicate Driving() { dpEn || dnEn || dEn }
  }

  /** Host to device signals. */
  datatype P2d = P2d(sense: bool, dn: bool, dp: bool, d: bool, oe: bool)

  datatype Sample = Sample(dp: bool, dn: bool)

  function SampleOf(l: Line): Sample {
    Sample(l == J, l == K)
  }

  /** The wires carry line state l; with the pull-up on D- the pins are swapped. */
  predicate Shows(p: P2d, dnpu: bool, l: Line) {
    p.dp == (l == if dnpu then K else J) && p.dn == (l == if dnpu then J else K) && p.d == (l == J)
  }
}
