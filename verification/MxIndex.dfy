/** The index over MX records: hosts by preference, and the preferences in order. */
module MxIndex {
  import opened Wire

  type Host = seq<char>

  datatype Mx = Mx(preference: int, host: Host)

  // ---- Stable sorting --------------------------------------------------------------------

  /** The hosts of the records with one preference, in the order they came. */
  function HostsOf(rs: seq<Mx>, p: int): seq<Host> {
    if rs == [] then []
    else
      var front, r := rs[..|rs| - 1], rs[|rs| - 1];
      if r.preference == p then HostsOf(front, p) + [r.host] else HostsOf(front, p)
  }

  ghost predicate Ordered(rs: seq<Mx>) {
    forall i, j :: 0 <= i < j < |rs| ==> rs[i].preference <= rs[j].preference
  }

  /** `out` has the records of `rs` by preference, those of one preference in their old order. */
  ghost predicate StableSort(out: seq<Mx>, rs: seq<Mx>) {
    |out| == |rs| && Ordered(out) && forall p :: HostsOf(out, p) == HostsOf(rs, p)
  }

  /** A record with a preference that has hosts. */
  lemma {:induction false} FindPreference(rs: seq<Mx>, p: int) returns (i: nat)
    requires HostsOf(rs, p) != []
    ensures i < |rs| && rs[i].preference == p
  {
    if rs[|rs| - 1].preference == p {
      i := |rs| - 1;
    } else {
      i := FindPreference(rs[..|rs| - 1], p);
    }
  }

  lemma {:induction false} HostsOfNone(rs: seq<Mx>, p: int)
    requires forall i :: 0 <= i < |rs| ==> rs[i].preference != p
    ensures HostsOf(rs, p) == []
  {
    if rs != [] {
      HostsOfNone(rs[..|rs| - 1], p);
    }
  }

  lemma {:induction false} HostsOfSome(rs: seq<Mx>, i: nat)
    requires i < |rs|
    ensures HostsOf(rs, rs[i].preference) != []
  {
    if i < |rs| - 1 {
      HostsOfSome(rs[..|rs| - 1], i);
    }
  }

  lemma {:induction false} HostsOfConcat(a: seq<Mx>, b: seq<Mx>, p: int)
    ensures HostsOf(a + b, p) == HostsOf(a, p) + HostsOf(b, p)
    decreases |b|
  {
    if b == [] {
      assert a + b == a;
    } else {
      assert (a + b)[..|a + b| - 1] == a + b[..|b| - 1];
      HostsOfConcat(a, b[..|b| - 1], p);
    }
  }

  ghost predicate SameHosts(a: seq<Mx>, b: seq<Mx>) {
    forall p {:trigger HostsOf(a, p)} {:trigger HostsOf(b, p)} :: HostsOf(a, p) == HostsOf(b, p)
  }

  /** There is only one such order. */
  lemma {:induction false} StableSortUnique(a: seq<Mx>, b: seq<Mx>)
    requires Ordered(a) && Ordered(b) && SameHosts(a, b)
    ensures a == b
    decreases |a|
  {
    if a != [] {
      LastPreference(a, b);
      var fa, fb, x, y := a[..|a| - 1], b[..|b| - 1], a[|a| - 1], b[|b| - 1];
      assert HostsOf(a, x.preference) == HostsOf(b, x.preference);
      assert HostsOf(a, x.preference) == HostsOf(fa, x.preference) + [x.host];
      assert HostsOf(b, y.preference) == HostsOf(fb, y.preference) + [y.host];
      SameLast(HostsOf(fa, x.preference), x.host, HostsOf(fb, y.preference), y.host);
      forall q
        ensures HostsOf(fa, q) == HostsOf(fb, q)
      {
        assert HostsOf(a, q) == HostsOf(b, q);
      }
      StableSortUnique(fa, fb);
      assert a == fa + [x] && b == fb + [y];
    } else {
      NoHosts(b);
    }
  }

  lemma NoHosts(b: seq<Mx>)
    requires SameHosts([], b)
    ensures b == []
  {
    if b != [] {
      HostsOfSome(b, 0);
    }
  }

  lemma SameLast(s: seq<Host>, x: Host, t: seq<Host>, y: Host)
    requires s + [x] == t + [y]
    ensures s == t && x == y
  {
    assert s == (s + [x])[..|s|] && t == (t + [y])[..|t|];
    assert x == (s + [x])[|s|] && y == (t + [y])[|t|];
  }

  lemma LastPreference(a: seq<Mx>, b: seq<Mx>)
    requires Ordered(a) && Ordered(b) && a != [] && SameHosts(a, b)
    ensures b != [] && b[|b| - 1].preference == a[|a| - 1].preference
  {
    var p := a[|a| - 1].preference;
    HostsOfSome(a, |a| - 1);
    assert HostsOf(a, p) == HostsOf(b, p);
    var i := FindPreference(b, p);
    var q := b[|b| - 1].preference;
    HostsOfSome(b, |b| - 1);
    assert HostsOf(a, q) == HostsOf(b, q);
    var j := FindPreference(a, q);
    hide HostsOf, SameHosts;
    assert b[i].preference <= q && a[j].preference <= p;
  }

  // ---- The index -----------------------------------------------------------------------------

  /** The records of one preference. */
  function Listed(p: int, hosts: seq<Host>): (r: seq<Mx>)
    ensures |r| == |hosts|
  {
    seq(|hosts|, i requires 0 <= i < |hosts| => Mx(p, hosts[i]))
  }

  /** All records, preference by preference, as get_i walks them. */
  function Listing(ps: seq<int>, hosts: map<int, seq<Host>>): seq<Mx>
    requires forall p :: p in ps ==> p in hosts
  {
    if ps == [] then [] else Listing(ps[..|ps| - 1], hosts) + Listed(ps[|ps| - 1], hosts[ps[|ps| - 1]])
  }

  ghost predicate Increasing(ps: seq<int>) {
    forall i, j :: 0 <= i < j < |ps| ==> ps[i] < ps[j]
  }

  lemma {:induction false} ListedHosts(p: int, hosts: seq<Host>, q: int)
    ensures HostsOf(Listed(p, hosts), q) == if q == p then hosts else []
    decreases |hosts|
  {
    if hosts != [] {
      var front := hosts[..|hosts| - 1];
      ListedHosts(p, front, q);
      assert Listed(p, hosts)[..|hosts| - 1] == Listed(p, front);
      assert hosts == front + [hosts[|hosts| - 1]];
    }
  }

  lemma {:induction false} ListingHosts(ps: seq<int>, hosts: map<int, seq<Host>>, q: int)
    requires Increasing(ps) && forall p :: p in ps ==> p in hosts
    ensures HostsOf(Listing(ps, hosts), q) == if q in ps then hosts[q] else []
    decreases |ps|
  {
    if ps != [] {
      var front, p := ps[..|ps| - 1], ps[|ps| - 1];
      ListingHosts(front, hosts, q);
      ListedHosts(p, hosts[p], q);
      HostsOfConcat(Listing(front, hosts), Listed(p, hosts[p]), q);
      assert q in ps <==> q in front || q == p;
    }
  }

  lemma {:induction false} ListingOrdered(ps: seq<int>, hosts: map<int, seq<Host>>)
    requires Increasing(ps) && forall p :: p in ps ==> p in hosts
    ensures Ordered(Listing(ps, hosts))
    ensures forall i :: 0 <= i < |Listing(ps, hosts)| ==> Listing(ps, hosts)[i].preference <= ps[|ps| - 1]
    decreases |ps|
  {
    if ps != [] {
      var front, p := ps[..|ps| - 1], ps[|ps| - 1];
      var a, b := Listing(front, hosts), Listed(p, hosts[p]);
      ListingOrdered(front, hosts);
      assert forall i :: 0 <= i < |a| ==> a[i].preference <= p;
      assert forall i :: 0 <= i < |b| ==> b[i].preference == p;
    }
  }

  /** The number of records is the sum over their preferences. */
  lemma {:induction false} SameCount(a: seq<Mx>, b: seq<Mx>)
    requires SameHosts(a, b)
    ensures |a| == |b|
    decreases |a|
  {
    if a == [] {
      NoHosts(b);
    } else {
      var fa, x := a[..|a| - 1], a[|a| - 1];
      HostsOfSome(a, |a| - 1);
      var i := LastOf(b, x.preference);
      var c := b[..i] + b[i + 1..];
      forall q
        ensures HostsOf(fa, q) == HostsOf(c, q)
      {
        assert HostsOf(a, q) == HostsOf(b, q);
        Removed(b, i, q);
        if q == x.preference {
          SameLast(HostsOf(fa, q), x.host, HostsOf(c, q), b[i].host);
        } else {
          assert HostsOf(c, q) + [] == HostsOf(c, q);
        }
      }
      SameCount(fa, c);
    }
  }

  /** The last record with a preference. */
  lemma {:induction false} LastOf(rs: seq<Mx>, p: int) returns (i: nat)
    requires HostsOf(rs, p) != []
    ensures i < |rs| && rs[i].preference == p && forall j :: i < j < |rs| ==> rs[j].preference != p
  {
    if rs[|rs| - 1].preference == p {
      i := |rs| - 1;
    } else {
      i := LastOf(rs[..|rs| - 1], p);
    }
  }

  /** Taking out the last record of a preference takes the last host off its list. */
  lemma Removed(rs: seq<Mx>, i: nat, q: int)
    requires i < |rs| && forall j :: i < j < |rs| ==> rs[j].preference != rs[i].preference
    ensures var c := rs[..i] + rs[i + 1..];
      HostsOf(rs, q) == HostsOf(c, q) + if q == rs[i].preference then [rs[i].host] else []
  {
    var a, b, x := rs[..i], rs[i + 1..], rs[i];
    assert rs == a + [x] + b;
    HostsOfConcat(a + [x], b, q);
    HostsOfConcat(a, [x], q);
    HostsOfConcat(a, b, q);
    assert [x][..0] == [];
    if q == x.preference {
      HostsOfNone(b, q);
    }
  }

  /** The `k`th host, counting from 1. */
  function Nth(rs: seq<Mx>, k: int): Option<Host> {
    if 1 <= k <= |rs| then Some(rs[k - 1].host) else None
  }

  /** The listing of the first priorities is where the whole listing starts. */
  lemma {:induction false} ListingPart(ps: seq<int>, hosts: map<int, seq<Host>>, i: nat)
    requires i < |ps| && forall p :: p in ps ==> p in hosts
    ensures Listing(ps[..i], hosts) + Listed(ps[i], hosts[ps[i]]) <= Listing(ps, hosts)
    decreases |ps|
  {
    var front := ps[..|ps| - 1];
    if i < |ps| - 1 {
      assert front[..i] == ps[..i];
      ListingPart(front, hosts, i);
    }
  }

  /** The MX result table; `records` lists what was parsed into it. */
  class Index {
    var priorities: seq<int>
    var hosts: map<int, seq<Host>>
    var n: nat
    ghost var records: seq<Mx>

    ghost predicate Valid()
      reads this
    {
      && n == |records| && Increasing(priorities)
      && (forall p :: p in priorities <==> p in hosts)
      && (forall p {:trigger HostsOf(records, p)} :: HostsOf(records, p) == if p in hosts then hosts[p] else [])
    }

    constructor ()
      ensures Valid() && records == []
    {
      priorities, hosts, n, records := [], map[], 0, [];
    }

    /** insert_mx_priority_sorted: shifts the larger priorities up by one, unless the priority is there. */
    method InsertPriority(p: int)
      requires Increasing(priorities)
      modifies this`priorities
      ensures Increasing(priorities) && forall q :: q in priorities <==> q in old(priorities) || q == p
    {
      var i := 0;
      while true
        invariant i <= |priorities| && priorities == old(priorities)
        invariant forall k :: 0 <= k < i ==> priorities[k] < p
        decreases |priorities| - i
      {
        if i == |priorities| {
          priorities := priorities + [p];
          return;
        }
        if priorities[i] == p {
          return;
        }
        if priorities[i] > p {
          break;
        }
        i := i + 1;
      }
      ghost var ps := priorities;
      Shift(i);
      priorities := priorities[i := p];
      assert priorities == ps[..i] + [p] + ps[i..];
    }

    /** The inner loop of it: everything from `i` on moves up by one, and `i` keeps its value. */
    method Shift(i: nat)
      requires i < |priorities|
      modifies this`priorities
      ensures priorities == old(priorities)[..i + 1] + old(priorities)[i..]
    {
      ghost var ps := priorities;
      var carried, j := priorities[i], i + 1;
      while j < |priorities|
        invariant i < j <= |ps| == |priorities| && carried == ps[j - 1]
        invariant forall k :: 0 <= k <= i ==> priorities[k] == ps[k]
        invariant forall k :: i < k < j ==> priorities[k] == ps[k - 1]
        invariant forall k :: j <= k < |ps| ==> priorities[k] == ps[k]
      {
        var next := priorities[j];
        priorities := priorities[j := carried];
        carried, j := next, j + 1;
      }
      priorities := priorities + [carried];
      ghost var r := ps[..i + 1] + ps[i..];
      assert forall k :: 0 <= k < |r| ==> r[k] == if k <= i then ps[k] else ps[k - 1];
    }

    /** parse_rr_mx, for a record that parses. */
    method Add(r: Mx)
      requires Valid()
      modifies this
      ensures Valid() && records == old(records) + [r]
    {
      InsertPriority(r.preference);
      if r.preference !in hosts {
        hosts := hosts[r.preference := [r.host]];
      } else {
        hosts := hosts[r.preference := hosts[r.preference] + [r.host]];
      }
      n := n + 1;
      records := records + [r];
      assert records[..|records| - 1] == old(records);
    }

    /** mydns_mx_get_i, on an index with at least one record. */
    method Get(k: int) returns (host: Option<Host>)
      requires Valid() && n > 0
      ensures host == Nth(Order(), if k > n then k % n else k)
    {
      if k <= 0 {
        return None;
      }
      var want := if k > n then k % n else k;
      var i, seen := 0, 0;
      assert priorities[..0] == [];
      while i < |priorities|
        invariant i <= |priorities| && seen == |Listing(priorities[..i], hosts)| && (want <= 0 || seen < want)
      {
        var list, j := hosts[priorities[i]], 0;
        while j < |list|
          invariant j <= |list| && seen == |Listing(priorities[..i], hosts)| + j && (want <= 0 || seen < want)
        {
          seen := seen + 1;
          if seen == want {
            ListingPart(priorities, hosts, i);
            assert priorities[..i + 1][..i] == priorities[..i];
            return Some(list[j]);
          }
          j := j + 1;
        }
        assert priorities[..i + 1][..i] == priorities[..i];
        i := i + 1;
      }
      assert priorities[..i] == priorities;
      host := None;
    }

    /** What get_i walks: the records in stable order of preference. */
    ghost function Order(): seq<Mx>
      reads this
      requires Valid()
    {
      Listing(priorities, hosts)
    }
  }

  /** The index walks its records in the one stable order by preference. */
  lemma OrderIsStableSort(x: Index)
    requires x.Valid()
    ensures StableSort(x.Order(), x.records) && Increasing(x.priorities)
  {
    ListingOrdered(x.priorities, x.hosts);
    forall q
      ensures HostsOf(x.Order(), q) == HostsOf(x.records, q)
    {
      ListingHosts(x.priorities, x.hosts, q);
    }
    SameCount(x.Order(), x.records);
  }
}
