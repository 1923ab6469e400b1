/**
 * The host's network namespace, as far as a lab changes it.  Two rules of the kernel
 * matter: a veth loses both ends at once, and a container takes its namespace's links
 * with it.
 */
module HostLinks {

  datatype Peer = OnHost(name: string) | Inside(container: string)

  datatype HostLink = Bridge | Other | Veth(peer: Peer)

  type Links = map<string, HostLink>

  /** The ends on the host know each other, and ends inside a container have a live container. */
  predicate Paired(h: Links, containers: set<string>) {
    && (forall x {:trigger h[x].peer} :: x in h && h[x].Veth? && h[x].peer.OnHost? ==>
          h[x].peer.name in h && h[x].peer.name != x && h[h[x].peer.name] == Veth(OnHost(x)))
    && (forall x {:trigger h[x].peer} :: x in h && h[x].Veth? && h[x].peer.Inside? ==> h[x].peer.container in containers)
  }

  function Delete(h: Links, name: string): Links {
    if name !in h then h
    else h - (if h[name].Veth? && h[name].peer.OnHost? then {name, h[name].peer.name} else {name})
  }

  function DropInside(h: Links, container: string): Links {
    map x | x in h && h[x] != Veth(Inside(container)) :: h[x]
  }

  ghost predicate Part<K, V>(a: map<K, V>, b: map<K, V>) {
    forall x :: x in a ==> x in b && b[x] == a[x]
  }

  predicate Doomed(link: HostLink, ids: set<string>, names: set<string>) {
    link.Veth? && match link.peer
                  case OnHost(m) => m in names
                  case Inside(c) => c in ids
  }

  /** What deleting some links and some containers leaves. */
  function Clear(h: Links, ids: set<string>, names: set<string>): Links {
    map x | x in h && x !in names && !Doomed(h[x], ids, names) :: h[x]
  }

  lemma DeleteKeepsPaired(h: Links, containers: set<string>, name: string)
    requires Paired(h, containers)
    ensures Paired(Delete(h, name), containers) && Part(Delete(h, name), h) && name !in Delete(h, name)
  {
  }

  lemma DropKeepsPaired(h: Links, containers: set<string>, id: string)
    requires Paired(h, containers)
    ensures Paired(DropInside(h, id), containers - {id}) && Part(DropInside(h, id), h)
  {
  }

  /** Deleting a doomed link, or a doomed container, spares everything that is not doomed. */
  lemma DeleteSpares(h0: Links, h: Links, containers: set<string>, ids: set<string>, names: set<string>, name: string)
    requires Part(h, h0) && Part(Clear(h0, ids, names), h) && Paired(h, containers) && name in names
    ensures Part(Clear(h0, ids, names), Delete(h, name))
  {
    forall x | x in Clear(h0, ids, names) ensures x in Delete(h, name) {
      assert h[x] == h0[x];
    }
  }

  lemma DropSpares(h0: Links, h: Links, ids: set<string>, names: set<string>, id: string)
    requires Part(h, h0) && Part(Clear(h0, ids, names), h) && id in ids
    ensures Part(Clear(h0, ids, names), DropInside(h, id))
  {
    forall x | x in Clear(h0, ids, names) ensures x in DropInside(h, id) {
      assert h[x] == h0[x];
    }
  }

  /** When every doomed name and container is gone, exactly the rest is left. */
  lemma ClearReached(h0: Links, h: Links, containers: set<string>, ids: set<string>, names: set<string>)
    requires Part(h, h0) && Part(Clear(h0, ids, names), h) && Paired(h, containers)
    requires (forall n :: n in names ==> n !in h) && (forall id :: id in ids ==> id !in containers)
    ensures h == Clear(h0, ids, names)
  {
    forall x | x in h ensures x in Clear(h0, ids, names) {
      assert h[x] == h0[x];
    }
  }

  /** Nothing old is changed, and what is new is ours: by its name and by where its other end is. */
  ghost predicate Grown(h0: Links, h: Links, names: set<string>, ids: set<string>) {
    && Part(h0, h)
    && (forall x :: x in h && x !in h0 ==>
          && x in names
          && (h[x].Veth? && h[x].peer.OnHost? ==> h[x].peer.name in names)
          && (h[x].Veth? && h[x].peer.Inside? ==> h[x].peer.container in ids))
  }

  lemma GrownAgain(h0: Links, h1: Links, h2: Links, n1: set<string>, n2: set<string>, i1: set<string>, i2: set<string>,
                   names: set<string>, ids: set<string>)
    requires Grown(h0, h1, n1, i1) && Grown(h1, h2, n2, i2)
    requires n1 + n2 <= names && i1 + i2 <= ids
    ensures Grown(h0, h2, names, ids)
  {
    forall x | x in h2 && x !in h0 ensures x in names {
      if x in h1 {
        assert h2[x] == h1[x];
      }
    }
    forall x | x in h2 && x !in h0 && h2[x].Veth? && h2[x].peer.OnHost? ensures h2[x].peer.name in names {
      if x in h1 {
        assert h2[x] == h1[x];
      }
    }
    forall x | x in h2 && x !in h0 && h2[x].Veth? && h2[x].peer.Inside? ensures h2[x].peer.container in ids {
      if x in h1 {
        assert h2[x] == h1[x];
      }
    }
  }

  /** Clearing what grew, by the names and containers it grew with, gives back what there was, short of those names. */
  lemma ClearUndoesGrowth(h0: Links, h: Links, before: set<string>, ids: set<string>, names: set<string>, removed: set<string>)
    requires Grown(h0, h, names, ids) && Paired(h0, before)
    requires ids <= removed && forall id :: id in removed ==> id !in before
    ensures Clear(h, removed, names) == Clear(h0, {}, names)
  {
    forall x | x in h0 && x !in names ensures Doomed(h0[x], removed, names) <==> Doomed(h0[x], {}, names) {
      if h0[x].Veth? && h0[x].peer.Inside? {
        assert h0[x].peer.container in before;
      }
    }
  }
}
