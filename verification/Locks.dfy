/** The set of keys (volume ids and CSI names) with an operation in progress. */
module Locks {

  class VolumeLocks {
    var locks: set<string>

    constructor ()
      ensures locks == {}
    {
      locks := {};
    }

    // True, and the key is taken, exactly when it was free.
    method TryAcquire(volumeID: string) returns (acquired: bool)
      modifies this
      ensures acquired <==> volumeID !in old(locks)
      ensures locks == old(locks) + {volumeID}
    {
      if volumeID in locks {
        return false;
      }
      locks := locks + {volumeID};
      return true;
    }

    method Release(volumeID: string)
      modifies this
      ensures locks == old(locks) - {volumeID}
    {
      locks := locks - {volumeID};
    }
  }
}
