/**
 The application manager as the program has it: lists searched in loops, each critical section one method,
 proved to be a step of the registry.
 */
module CommunicatorsRuntime {
  import opened Communicators

  class AppManager {
    var links: map<Comm, Link>
    var registry: seq<Comm>
    var count: int
    var senders: map<Proc, seq<Comm>>
    ghost var at: map<Proc, Progress>
    var closed: seq<Socket>
    var sockets: nat
    ghost var creator: map<Comm, Proc>

    ghost function View(): Sys
      reads this
    {
      Sys(links, registry, count, senders, at, closed, sockets, creator)
    }

    constructor (procs: set<Proc>)
      ensures View() == Start(procs)
    {
      links, registry, count, closed, sockets, creator := map[], [], 0, [], 0, map[];
      senders := map p | p in procs :: [];
      at := map p | p in procs :: Idle;
    }

    /** The first communicator of the list that matches. */
    method Match(list: seq<Comm>, from: Proc, to: Proc) returns (found: seq<Comm>)
      requires forall c :: c in list ==> c in links
      ensures found == Search(View(), list, from, to)
    {
      var i := 0;
      while i < |list|
        invariant i <= |list|
        invariant Search(View(), list, from, to) == Search(View(), list[i..], from, to)
      {
        if links[list[i]].Matches(from, to) {
          return [list[i]];
        }
        assert list[i..][1..] == list[i + 1..];
        i := i + 1;
      }
      found := [];
    }

    /** get_interthread_communicator up to the point where one has to be made. */
    method Get(p: Proc, from: Proc, to: Proc) returns (found: seq<Comm>)
      requires WellTyped(View()) && p in at && p in senders
      modifies this
      ensures View() == Ask(old(View()), p, from, to)
      ensures forall c :: c in found ==> c in links && links[c].Matches(from, to)
      ensures found == [] ==> View().at[p] == Missed(from, to)
    {
      found := Match(senders[p], from, to);
      if found == [] {
        found := Match(registry, from, to);
        at := at[p := if found != [] then Found(found[0]) else Missed(from, to)];
      }
    }

    /** The socket pair and its two communicators, made outside the lock. */
    method MakeBoth(p: Proc, from: Proc, to: Proc, c: Comm, d: Comm)
      requires p in at && c != d
      modifies this
      ensures View() == Make(old(View()), p, from, to, c, d)
    {
      var a, b := sockets, sockets + 1;
      sockets := sockets + 2;
      links := links[c := Link(from, to, a, b, 0)];
      links := links[d := Link(to, from, b, a, 0)];
      links := links[c := links[c].(reverse := d)];
      links := links[d := links[d].(reverse := c)];
      at := at[p := Made(c, d)];
      assert links == old(links)[c := Link(from, to, a, b, d)][d := Link(to, from, b, a, c)];
    }

    /** Inside the lock: look again, and register both unless somebody was earlier. */
    method RegisterPair(p: Proc, c: Comm, d: Comm) returns (chosen: Comm)
      requires WellTyped(View()) && p in at && c in links && d in links && c !in registry
      modifies this
      ensures View() == Publish(old(View()), p, c, d)
      ensures chosen in registry && c in links && Alike(View(), chosen, c)
    {
      var earlier := Match(registry, links[c].sender, links[c].recipient);
      if earlier != [] {
        chosen := earlier[0];
        at := at[p := Losing(chosen, c, d)];
      } else {
        count := count + 1;
        registry := registry + [c];
        registry := registry + [d];
        assert registry == old(registry) + [c, d];
        chosen := c;
        at := at[p := Found(c)];
        creator := creator[c := p][d := p];
      }
    }

    /** The loser's two communicators are deleted. */
    method Delete(p: Proc, ghost winner: Comm, c: Comm, d: Comm)
      requires p in at && c in links && d in links
      modifies this
      ensures View() == Discard(old(View()), p, winner, c, d)
    {
      closed := closed + [links[c].receiving];
      closed := closed + [links[d].receiving];
      assert closed == old(closed) + [links[c].receiving, links[d].receiving];
      links := links - {c};
      links := links - {d};
      assert links == old(links) - {c, d};
      at := at[p := Found(winner)];
    }

    /** register_interthread_connection: both directions, unless it is there already. */
    method Add(p: Proc, c: Comm)
      requires p in senders && c in links
      modifies this`senders
      ensures View() == Register(old(View()), p, c)
    {
      for i := 0 to |senders[p]|
        invariant senders == old(senders) && c !in senders[p][..i]
      {
        if senders[p][i] == c {
          return;
        }
      }
      assert senders[p][..|senders[p]|] == senders[p];
      senders := senders[p := senders[p] + [c]];
      senders := senders[p := senders[p] + [links[c].reverse]];
      assert old(senders)[p] + [c] + [links[c].reverse] == old(senders)[p] + [c, links[c].reverse];
    }

    /** The thread that has found its communicator adds it to its own list. */
    method AddFound(p: Proc, c: Comm)
      requires p in at && p in senders && c in links
      modifies this
      ensures View() == Move(Register(old(View()), p, c), p, Idle)
    {
      Add(p, c);
      at := at[p := Idle];
    }

    method Knows(p: Proc, c: Comm) returns (known: bool)
      requires p in senders
      ensures known == (c in senders[p])
    {
      var j := |senders[p]|;
      while j > 0
        invariant 0 <= j <= |senders[p]| && c !in senders[p][j..]
      {
        j := j - 1;
        if senders[p][j] == c {
          return true;
        }
      }
      known := false;
    }

    /** One turn of the fetch loop. */
    method FetchOne(p: Proc, c: Comm)
      requires p in senders && c in links
      modifies this`senders, this`count
      ensures View() == Fetched(old(View()), p, c)
    {
      if links[c].recipient == p {
        var known := Knows(p, c);
        if !known {
          Add(p, c);
          count := count - 1;
        }
      }
    }

    /** fetch_new_interthread_communicators: from the end, until the counter says that nobody is waiting. */
    static lemma AllLinked(s: Sys)
      requires WellTyped(s)
      ensures forall c :: c in s.registry ==> c in s.links
    {
    }

    method FetchNew(p: Proc)
      requires WellTyped(View()) && p in senders
      modifies this`senders, this`count
      ensures View() == FetchFrom(old(View()), p, |old(registry)|)
    {
      hide Register, Fetched, WellTyped;
      ghost var s := View();
      AllLinked(s);
      var i := |registry|;
      while i > 0 && count > 0
        invariant 0 <= i <= |registry| && p in senders && registry == s.registry && links == s.links
        invariant FetchFrom(View(), p, i) == FetchFrom(s, p, |registry|)
        decreases i
      {
        i := i - 1;
        FetchOne(p, registry[i]);
      }
    }
  }
}
