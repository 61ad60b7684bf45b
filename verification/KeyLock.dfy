/** The in-flight forward lock: a set of resource ids that never evicts. */
module KeyLocks {
  import opened Base

  class KeyLock {
    var items: set<Id>

    constructor ()
      ensures items == {}
    {
      items := {};
    }

    method AddIfAbsent(resourceId: Id) returns (added: bool)
      modifies this
      ensures added == (resourceId !in old(items))
      ensures items == old(items) + {resourceId}
    {
      if resourceId in items {
        return false;
      }
      items := items + {resourceId};
      return true;
    }

    method Remove(resourceId: Id)
      modifies this
      ensures items == old(items) - {resourceId}
    {
      items := items - {resourceId};
    }
  }
}
