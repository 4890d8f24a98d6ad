/** The in-memory reservation store of one network. */
module MemoryStore {
  import opened Ipv4
  import opened AddressPool

  class InMemoryStore {
    /** Which container ID holds which address text. */
    var reserved: map<string, string>

    constructor ()
      ensures reserved == map[]
    {
      reserved := map[];
    }

    /** `text` is what the library prints for the address; on IPv4 addresses that is known. */
    method Reserve(id: string, ip: IP, text: string) returns (ok: bool)
      requires To4(ip).Some? ==> text == ToString(ip)
      modifies this
      ensures ok <==> text !in old(reserved)
      ensures reserved == if ok then old(reserved)[text := id] else old(reserved)
    {
      if text in reserved {
        return false;
      }
      reserved := reserved[text := id];
      return true;
    }

    method ReleaseByID(id: string)
      modifies this
      ensures reserved == Released(old(reserved), id)
    {
      var keys := reserved.Keys;
      while keys != {}
        invariant keys <= reserved.Keys <= old(reserved).Keys
        invariant forall k :: k in reserved ==> reserved[k] == old(reserved)[k]
        invariant forall k :: k in old(reserved) && k !in keys ==> (k in reserved <==> old(reserved)[k] != id)
        decreases keys
      {
        var k :| k in keys;
        keys := keys - {k};
        if reserved[k] == id {
          reserved := reserved - {k};
        }
      }
    }

    method Contains(id: string) returns (found: bool)
      ensures found <==> id in reserved.Values
    {
      var keys := reserved.Keys;
      while keys != {}
        invariant keys <= reserved.Keys
        invariant forall k :: k in reserved && k !in keys ==> reserved[k] != id
        decreases keys
      {
        var k :| k in keys;
        if reserved[k] == id {
          return true;
        }
        keys := keys - {k};
      }
      return false;
    }
  }
}
