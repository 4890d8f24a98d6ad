/** The watcher's table of done channels, as the two methods update it. */
module Watcher {

  class DoneChannel {
    var closed: bool

    constructor ()
      ensures !closed
    {
      closed := false;
    }
  }

  class MissWatcher {
    var doneChans: map<string, DoneChannel>

    /** Registered channels are open and pairwise distinct. */
    ghost predicate Valid()
      reads this, doneChans.Values
    {
      && (forall ns :: ns in doneChans ==> !doneChans[ns].closed)
      && (forall m, n :: m in doneChans && n in doneChans && doneChans[m] == doneChans[n] ==> m == n)
    }

    constructor ()
      ensures Valid() && doneChans == map[]
    {
      doneChans := map[];
    }

    /**
     Registers a new done channel before anything can fail; the two flags say whether the inserter finds its
     link and whether the subscription succeeds. A channel that was registered for the namespace is dropped
     from the table and stays open.
     */
    method StartMonitor(ns: string, inserterReady: bool, subscribed: bool) returns (ok: bool)
      requires Valid()
      modifies this
      ensures Valid()
      ensures ok <==> inserterReady && subscribed
      ensures ns in doneChans && fresh(doneChans[ns]) && doneChans == old(doneChans)[ns := doneChans[ns]]
    {
      var doneChan := new DoneChannel();
      doneChans := doneChans[ns := doneChan];
      if !inserterReady {
        return false;
      }
      return subscribed;
    }

    /** Closes the registered channel and no other. */
    method StopMonitor(ns: string) returns (ok: bool)
      requires Valid()
      modifies this, if ns in doneChans then {doneChans[ns]} else {}
      ensures Valid()
      ensures ok <==> ns in old(doneChans)
      ensures doneChans == old(doneChans) - {ns}
      ensures ok ==> old(doneChans)[ns].closed
    {
      if ns !in doneChans {
        return false;
      }
      var doneChan := doneChans[ns];
      doneChans := doneChans - {ns};
      doneChan.closed := true;
      return true;
    }
  }
}
