/** The message queue of a Codex worker: responses are matched by id, everything else is kept in order. */
module RpcQueue {
  import opened Wrappers

  /** One printed line; a response carries the id of its request. */
  datatype Message = Undecodable | Message(id: int, failed: bool, text: string)

  /** The members of `read` whose positions are not in `dropped`, in order. */
  ghost function Kept(read: seq<Message>, dropped: set<nat>): seq<Message> {
    if read == [] then [] else
    var before := Kept(read[..|read| - 1], dropped);
    if |read| - 1 in dropped then before else before + [read[|read| - 1]]
  }

  lemma KeptNext(wire: seq<Message>, position: nat, dropped: set<nat>)
    requires position < |wire|
    ensures Kept(wire[..position + 1], dropped)
         == Kept(wire[..position], dropped) + if position in dropped then [] else [wire[position]]
  {
    assert wire[..position + 1][..position] == wire[..position];
  }

  /** Dropping takes out exactly the dropped positions: with the kept messages they account for all that was read. */
  lemma {:induction false} KeptCount(read: seq<Message>, dropped: set<nat>)
    requires forall k :: k in dropped ==> k < |read|
    ensures |Kept(read, dropped)| + |dropped| == |read|
  {
    if read == [] {
      assert dropped == {};
    } else {
      var last := |read| - 1;
      KeptCount(read[..last], dropped - {last});
      KeptWithout(read, dropped);
    }
  }

  lemma KeptWithout(read: seq<Message>, dropped: set<nat>)
    requires read != []
    ensures var last := |read| - 1;
            && |Kept(read, dropped)| == |Kept(read[..last], dropped - {last})| + (if last in dropped then 0 else 1)
            && |dropped| == |dropped - {last}| + (if last in dropped then 1 else 0)
  {
    var last := |read| - 1;
    var earlier := dropped - {last};
    KeptStable(read[..last], earlier, last);
    if last in dropped {
      assert dropped == earlier + {last};
    } else {
      assert dropped == earlier;
    }
  }

  lemma {:induction false} KeptStable(read: seq<Message>, dropped: set<nat>, extra: nat)
    requires extra >= |read|
    ensures Kept(read, dropped + {extra}) == Kept(read, dropped)
  {
    if read != [] {
      KeptStable(read[..|read| - 1], dropped, extra);
    }
  }

  lemma KeptDrop(wire: seq<Message>, position: nat, dropped: set<nat>)
    requires position < |wire|
    ensures Kept(wire[..position + 1], dropped + {position}) == Kept(wire[..position], dropped)
  {
    KeptStable(wire[..position], dropped, position);
    KeptNext(wire, position, dropped + {position});
  }

  /** The first messages of the wire, without the dropped ones, are exactly these. */
  ghost predicate Accounted(wire: seq<Message>, position: nat, kept: seq<Message>, dropped: set<nat>) {
    && position <= |wire|
    && (forall k :: k in dropped ==> k < position)
    && kept == Kept(wire[..position], dropped)
  }

  lemma AccountedKeep(wire: seq<Message>, position: nat, kept: seq<Message>, dropped: set<nat>)
    requires Accounted(wire, position, kept, dropped) && position < |wire|
    ensures Accounted(wire, position + 1, kept + [wire[position]], dropped)
  {
    hide Kept;
    KeptNext(wire, position, dropped);
  }

  lemma AccountedDrop(wire: seq<Message>, position: nat, kept: seq<Message>, dropped: set<nat>)
    requires Accounted(wire, position, kept, dropped) && position < |wire|
    ensures Accounted(wire, position + 1, kept, dropped + {position}) && position !in dropped
  {
    hide Kept;
    KeptDrop(wire, position, dropped);
  }

  class AppServerWorker {
    const wire: seq<Message>
    var position: nat
    var pending: seq<Message>
    /** Everything handed to the run loop so far, and the positions consumed as responses. */
    ghost var delivered: seq<Message>
    ghost var dropped: set<nat>

    /** Nothing lost, nothing repeated, nothing out of order. */
    ghost predicate Valid()
      reads this
    {
      Accounted(wire, position, delivered + pending, dropped)
    }

    constructor (wire: seq<Message>)
      ensures Valid() && this.wire == wire && position == 0 && pending == [] && delivered == [] && dropped == {}
    {
      this.wire := wire;
      position, pending, delivered, dropped := 0, [], [], {};
    }

    /**
      Reads up to the response of a request and keeps every other message for later. The only message dropped
      is that response, or the line that could not be decoded.
    */
    method WaitRpcResult(wanted: nat) returns (result: Option<Message>)
      requires Valid()
      modifies this`position, this`pending, this`dropped
      ensures Valid() && old(position) <= position && delivered == old(delivered)
      ensures result.Some? ==>
                && old(position) < position && dropped == old(dropped) + {position - 1}
                && result.value == wire[position - 1] && result.value.Message?
                && result.value.id == wanted && !result.value.failed
      ensures result.None? ==>
                || (position == |wire| && dropped == old(dropped))
                || (old(position) < position && dropped == old(dropped) + {position - 1}
                    && (wire[position - 1].Undecodable?
                        || (wire[position - 1].id == wanted && wire[position - 1].failed)))
      ensures forall k :: old(position) <= k < position && k !in dropped ==> wire[k].Message? && wire[k].id != wanted
    {
      hide Accounted;
      InRange();
      while position < |wire|
        invariant Valid() && old(position) <= position <= |wire| && dropped == old(dropped)
        invariant forall k :: old(position) <= k < position ==> wire[k].Message? && wire[k].id != wanted
      {
        var raw := wire[position];
        if raw.Undecodable? || raw.id == wanted {
          AccountedDrop(wire, position, delivered + pending, dropped);
          dropped := dropped + {position};
          position := position + 1;
          return if raw.Undecodable? || raw.failed then None else Some(raw);
        }
        AccountedKeep(wire, position, delivered + pending, dropped);
        assert delivered + (pending + [raw]) == delivered + pending + [raw];
        pending := pending + [raw];
        position := position + 1;
      }
      result := None;
    }

    lemma InRange()
      requires Valid()
      ensures position <= |wire|
    {
    }

    /** The next message for the run loop: what was kept aside first, then new ones. */
    method NextMessage() returns (message: Option<Message>)
      requires Valid()
      modifies this`position, this`pending, this`delivered
      ensures Valid() && old(position) <= position && dropped == old(dropped)
      ensures message.Some? ==> delivered == old(delivered) + [message.value]
      ensures message.None? ==> delivered == old(delivered) && pending == [] && position == |wire|
      ensures old(pending) != [] ==> message == Some(old(pending)[0])
    {
      hide Accounted;
      InRange();
      if pending != [] {
        message := Some(pending[0]);
        assert delivered + [pending[0]] + pending[1..] == delivered + pending;
        delivered := delivered + [pending[0]];
        pending := pending[1..];
        return;
      }
      if position == |wire| {
        return None;
      }
      AccountedKeep(wire, position, delivered + pending, dropped);
      assert delivered + [wire[position]] + pending == delivered + pending + [wire[position]];
      message := Some(wire[position]);
      delivered := delivered + [wire[position]];
      position := position + 1;
    }
  }
}
