/** The kernel conventions the driver uses: error numbers, returned negated, and references that
    may be absent. */
module Kernel {
  const EPERM := 1
  const ENOMEM := 12
  const EBUSY := 16
  const ENODEV := 19
  const EINVAL := 22

  /** The numbers Linux gives these errors. */
  lemma ErrorNumbers()
    ensures EPERM == 1 && ENOMEM == 12 && EBUSY == 16 && ENODEV == 19 && EINVAL == 22
  {
  }

  datatype Option<+T> = None | Some(value: T)
}
