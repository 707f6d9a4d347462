/** What the streaming adapters write to. */
module Wire {

  /** A response: everything written to it, in order -- pieces of text, or framed events. */
  class Writer<E> {
    var log: seq<E>

    constructor ()
      ensures log == []
    {
      log := [];
    }

    method Write(e: E)
      modifies this
      ensures log == old(log) + [e]
    {
      log := log + [e];
    }
  }

  lemma Associative<E>(a: seq<E>, b: seq<E>, c: seq<E>)
    ensures (a + b) + c == a + (b + c)
  {
  }

  /** The texts of a sequence of events, joined. */
  function Joined<E>(log: seq<E>, text: E -> string): string {
    if log == [] then "" else text(log[0]) + Joined(log[1..], text)
  }

  lemma {:induction false} JoinedConcat<E>(a: seq<E>, b: seq<E>, text: E -> string)
    ensures Joined(a + b, text) == Joined(a, text) + Joined(b, text)
  {
    if a == [] {
      assert a + b == b;
    } else {
      assert (a + b)[1..] == a[1..] + b;
      JoinedConcat(a[1..], b, text);
    }
  }

  lemma JoinedOne<E>(e: E, text: E -> string)
    ensures Joined([e], text) == text(e)
  {
    assert [e][1..] == [];
  }

  lemma {:induction false} JoinedNothing<E>(log: seq<E>, text: E -> string)
    requires forall e :: e in log ==> text(e) == ""
    ensures Joined(log, text) == ""
  {
    if log != [] {
      JoinedNothing(log[1..], text);
    }
  }
}
