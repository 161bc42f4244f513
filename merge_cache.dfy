/** lib/core/mergeCache.ts: one slot holding the latest merged document and
    the time it was stored. `null` is `None`; the clock reading `new Date()`
    is the `now` parameter of `Set`. */
module MergeCache {
  import opened Wrappers

  class MergeCache {
    var content: Option<string>
    var lastUpdate: Option<int>

    /** Content and time are stored and cleared together. */
    predicate Valid()
      reads this
    {
      content.Some? <==> lastUpdate.Some?
    }

    /** A fresh cache holds nothing. */
    constructor()
      ensures content == None && lastUpdate == None
      ensures Valid()
    {
      content := None;
      lastUpdate := None;
    }

    /** `set`: the new content replaces whatever was there (last write wins),
        stamped with the current time. */
    method Set(c: string, now: int)
      modifies this
      ensures content == Some(c) && lastUpdate == Some(now)
      ensures Valid()
    {
      content := Some(c);
      lastUpdate := Some(now);
    }

    /** `get`: reads the slot and changes nothing. */
    method Get() returns (r: Option<string>)
      ensures r == content
    {
      r := content;
    }

    /** `getLastUpdate`: reads the stamp and changes nothing. */
    method GetLastUpdate() returns (r: Option<int>)
      requires Valid()
      ensures r == lastUpdate
      ensures r.Some? <==> content.Some?
    {
      r := lastUpdate;
    }

    /** `clear`: back to the fresh state. */
    method Clear()
      modifies this
      ensures content == None && lastUpdate == None
      ensures Valid()
    {
      content := None;
      lastUpdate := None;
    }

    /** `hasContent`: any stored string counts, the empty one included. */
    method HasContent() returns (r: bool)
      ensures r <==> content.Some?
      ensures content == Some("") ==> r
    {
      r := content != None;
    }
  }
}
