/**
 * The connection registry (manager/spokes.js): an insertion-ordered set of
 * the connected spoke sockets.
 */
module Spokes {
  import opened Common

  /** `Set.prototype.add`: append the socket unless it is already there. */
  function Inserted<S(==)>(sockets: seq<S>, socket: S): (r: seq<S>)
    ensures socket in r
    ensures |sockets| <= |r| && r[..|sockets|] == sockets
    ensures socket in sockets ==> r == sockets
    ensures socket !in sockets ==> r == sockets + [socket]
  {
    if socket in sockets then sockets else sockets + [socket]
  }

  lemma {:induction false} InsertedNoDup<S>(sockets: seq<S>, socket: S)
    requires NoDup(sockets)
    ensures NoDup(Inserted(sockets, socket))
  {
    var r := Inserted(sockets, socket);
    forall i, j | 0 <= i < j < |r| ensures r[i] != r[j] {
      assert r[i] == sockets[i];
      if j < |sockets| { assert r[j] == sockets[j]; }
    }
  }

  /** Adding a socket and then deleting it gives back the registry without that socket. */
  lemma {:induction false} DeleteUndoesAdd<S>(sockets: seq<S>, socket: S)
    ensures Remove(Inserted(sockets, socket), socket) == Remove(sockets, socket)
  {
    if socket !in sockets {
      RemoveAppend(sockets, [socket], socket);
      assert Remove([socket], socket) == [];
      assert Remove(sockets, socket) + [] == Remove(sockets, socket);
    }
  }

  /** Deleting keeps every other socket, and their order: deleting from a concatenation deletes from each part. */
  lemma {:induction false} DeleteKeepsOthers<S>(before: seq<S>, socket: S, after: seq<S>)
    requires socket !in before && socket !in after
    ensures Remove(before + [socket] + after, socket) == before + after
  {
    RemoveAppend(before + [socket], after, socket);
    RemoveAppend(before, [socket], socket);
    assert Remove([socket], socket) == [];
    assert before + [] == before;
  }

  class SpokesManager<S(==)> {
    var sockets: seq<S>

    ghost predicate Valid() reads this {
      NoDup(sockets)
    }

    constructor ()
      ensures Valid() && sockets == []
    {
      sockets := [];
    }

    /**
     * `destroy`: calls `end()` on every registered socket, in order, and
     * returns them in the order they were ended. It leaves the set as it
     * is; the sockets leave it when their `close` event is handled.
     */
    method Destroy() returns (ended: seq<S>)
      ensures ended == sockets
    {
      ended := [];
      for i := 0 to |sockets|
        invariant ended == sockets[..i]
      {
        ended := ended + [sockets[i]];
      }
    }

    method Add(socket: S)
      requires Valid()
      modifies this
      ensures Valid() && sockets == Inserted(old(sockets), socket)
    {
      InsertedNoDup(sockets, socket);
      if socket !in sockets {
        sockets := sockets + [socket];
      }
    }

    /** `all`: a snapshot copy of the set in insertion order. */
    method All() returns (r: seq<S>)
      requires Valid()
      ensures r == sockets && NoDup(r)
    {
      r := sockets;
    }

    method Delete(socket: S)
      requires Valid()
      modifies this
      ensures Valid() && sockets == Remove(old(sockets), socket)
    {
      RemoveNoDup(sockets, socket);
      sockets := Remove(sockets, socket);
    }
  }
}
