/** Types and constants shared by the models of the nRF RPC core. */
module Common {

  datatype Option<+T> = None | Some(value: T)

  /** The two processors that talk to each other. */
  datatype Side = Local | Remote

  function Other(side: Side): (r: Side)
    ensures r != side
  {
    if side.Local? then Remote else Local
  }

  /** One value per processor. */
  datatype PerSide<T> = PerSide(local: T, remote: T) {
    function At(side: Side): T {
      if side.Local? then local else remote
    }

    function With(side: Side, v: T): (r: PerSide<T>)
      ensures r.At(side) == v && r.At(Other(side)) == At(Other(side))
    {
      if side.Local? then this.(local := v) else this.(remote := v)
    }
  }

  /** NRF_RPC_ID_UNKNOWN: "no such id yet", for contexts and for groups. */
  const ID_UNKNOWN: nat := 0xFF

  // The error codes the core returns (negated, as in the source).
  const EPERM: int := -1
  const ENOMEM: int := -12
  const EFAULT: int := -14
  const EPROTONOSUPPORT: int := -43
  const ETIMEDOUT: int := -60
  const EBADMSG: int := -77

  lemma ErrorNumbers()
    ensures EPERM == -1 && ENOMEM == -12 && EFAULT == -14 && EPROTONOSUPPORT == -43 && ETIMEDOUT == -60 && EBADMSG == -77
    ensures ID_UNKNOWN == 0xFF
  {
  }
}
