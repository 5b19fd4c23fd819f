/** The kernel lock between thread and handler mode (source/lock/lock.hpp). */
module KernelLocks {
  import opened Handles

  class KernelLock {
    var interlock: Word

    constructor ()
      ensures interlock == 0
    {
      interlock := 0;
    }

    /** True when the interlock is zero, whatever the name suggests. */
    method IsLocked() returns (zero: bool)
      ensures zero <==> interlock == 0
    {
      zero := interlock == 0;
    }

    method Enter()
      modifies this
      ensures interlock as nat == (old(interlock) as nat + 1) % 0x1_0000_0000
      ensures interlock == Incremented(old(interlock))
    {
      interlock := Incremented(interlock);
    }

    /** Undoes one `Enter`, also across wrap-around. */
    method Leave()
      modifies this
      ensures (interlock as nat + 1) % 0x1_0000_0000 == old(interlock) as nat
      ensures interlock == Decremented(old(interlock))
    {
      interlock := Decremented(interlock);
    }
  }
}
