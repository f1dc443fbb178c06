/** The gateway as it runs (gateway.py, `_route`, `_flush_buffer`, `_drain`): requests go to the owner
    of their pickup cell, or wait in a buffer for a view that knows one. */
module Gateways {
  import opened Models
  import opened Sharding
  import opened Protocol

  class Gateway {
    var view: Option<ClusterView>
    var buffer: seq<Request>
    var emitted: nat

    constructor ()
      ensures view.None? && buffer == [] && emitted == 0
    {
      view, buffer, emitted := None, [], 0;
    }

    /** The owner the gateway knows of. */
    function Owner(req: Request): Option<Node>
      reads this`view
    {
      if view.Some? then view.value.shardMap.OwnerAt(req.pickupCell) else None
    }

    /** `_route`. */
    method Route(req: Request) returns (sent: seq<Message>)
      modifies this`buffer, this`emitted
      ensures Owner(req).None? ==> buffer == old(buffer) + [req] && sent == [] && emitted == old(emitted)
      ensures Owner(req).Some? ==> buffer == old(buffer) && sent == [ToWorker(Owner(req).value, req)]
                                   && emitted == old(emitted) + 1
    {
      var owner := Owner(req);
      if owner.None? {
        buffer := buffer + [req];
        return [];
      }
      sent := [ToWorker(owner.value, req)];
      emitted := emitted + 1;
    }

    /** `_flush_buffer`: with a view, exactly the requests without an owner stay buffered, in order. */
    method FlushBuffer() returns (sent: seq<Message>)
      modifies this`buffer, this`emitted
      ensures view.None? ==> sent == [] && buffer == old(buffer)
      ensures view.Some? ==> sent == ToOwners(old(buffer), view.value.shardMap)
                             && buffer == Ownerless(old(buffer), view.value.shardMap)
      ensures emitted == old(emitted) + |sent|
    {
      sent := [];
      if view.None? || buffer == [] {
        return;
      }
      var pending, m := buffer, view.value.shardMap;
      buffer := [];
      for k := 0 to |pending|
        invariant sent == ToOwners(pending[..k], m) && buffer == Ownerless(pending[..k], m)
        invariant emitted == old(emitted) + |sent|
      {
        assert pending[..k + 1] == pending[..k] + [pending[k]];
        ToOwnersSnoc(pending[..k], pending[k], m);
        ToOwnersOne(pending[k], m);
        var more := Route(pending[k]);
        sent := sent + more;
      }
      assert pending[..|pending|] == pending;
    }

    /** `_drain`: the latest view counts, and every new view flushes the buffer. */
    method Drain(inbox: seq<Message>) returns (sent: seq<Message>)
      modifies this
      ensures view == LastView(inbox, old(view))
      ensures buffer == StillBuffered(inbox, old(buffer)) && sent == FlushedBy(inbox, old(buffer))
      ensures (exists m :: m in inbox && m.ClusterState?) ==>
                view.Some? && forall r :: r in buffer ==> view.value.shardMap.OwnerAt(r.pickupCell).None?
      ensures emitted == old(emitted) + |sent|
    {
      sent := [];
      ghost var was, v := buffer, view;
      for k := 0 to |inbox|
        invariant view == LastView(inbox[..k], old(view))
        invariant buffer == StillBuffered(inbox[..k], was) && sent == FlushedBy(inbox[..k], was)
        invariant emitted == old(emitted) + |sent|
      {
        assert inbox[..k + 1][..k] == inbox[..k];
        if inbox[k].ClusterState? {
          view := Some(inbox[k].view);
          var more := FlushBuffer();
          sent := sent + more;
        }
      }
      assert inbox[..|inbox|] == inbox;
      if exists m :: m in inbox && m.ClusterState? {
        OwnedAreSent(inbox, was, v);
      }
    }
  }
}
