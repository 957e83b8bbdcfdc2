/** The error numbers that the modelled code returns, negated. */
module Errno {

  const EIO: int := 5
  const EAGAIN: int := 11
  const EACCES: int := 13
  const EINVAL: int := 22
  const ENOTSUP: int := 95
  const ENOMEDIUM: int := 123
}
