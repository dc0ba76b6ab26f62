/** `struct pollfd` as both poll loops of the repository use it: a descriptor without events is
    stored complemented, so that poll ignores it. */
module PollFds {

  datatype PollFd = PollFd(fd: int, pollIn: bool, pollOut: bool) {
    predicate NoEvents() {
      !pollIn && !pollOut
    }

    /** The descriptor behind the stored number. */
    function Descriptor(): int {
      if fd < 0 then -fd - 1 else fd
    }

    /** The number is negative exactly when poll is asked for nothing. */
    predicate Ok() {
      fd < 0 <==> NoEvents()
    }

    /** `clear_pollfd_flags`. */
    function Clear(maskIn: bool, maskOut: bool): (p: PollFd)
      ensures p.Descriptor() == Descriptor()
      ensures p.pollIn == (pollIn && !maskIn) && p.pollOut == (pollOut && !maskOut)
      ensures Ok() ==> p.Ok()
    {
      var p := PollFd(fd, pollIn && !maskIn, pollOut && !maskOut);
      if p.NoEvents() && fd >= 0 then PollFd(-fd - 1, p.pollIn, p.pollOut) else p
    }

    /** `set_pollfd_flags`. */
    function Set(maskIn: bool, maskOut: bool): (p: PollFd)
      ensures p.Descriptor() == Descriptor()
      ensures p.pollIn == (pollIn || maskIn) && p.pollOut == (pollOut || maskOut)
      ensures Ok() ==> p.Ok()
    {
      if !maskIn && !maskOut then this
      else PollFd(if fd < 0 then -fd - 1 else fd, pollIn || maskIn, pollOut || maskOut)
    }
  }
}
