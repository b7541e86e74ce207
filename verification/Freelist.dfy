/** `sched/internal/task_freelist.cc`: the list of idle task objects kept for reuse. */
module Freelist {
  import opened Options

  /** A task object is its address; the list cares only about its stack size and TLS. */
  type Tid = nat

  datatype Spare = Spare(id: Tid, size: nat, tls: bool)

  datatype Attr = Attr(size: nat, tls: bool)

  predicate Fits(a: Attr, e: Spare) {
    a.size == e.size && a.tls == e.tls
  }

  /** At least as big a stack, and TLS whenever the other has it. */
  predicate Covers(a: Spare, b: Spare) {
    a.size >= b.size && (a.tls || !b.tls)
  }

  predicate Dominates(a: Spare, b: Spare) {
    Covers(a, b) && !Covers(b, a)
  }

  /** No later entry strictly dominates an earlier one. */
  ghost predicate Ordered(l: seq<Spare>) {
    forall i, j :: 0 <= i < j < |l| ==> !Dominates(l[j], l[i])
  }

  ghost predicate Distinct(l: seq<Spare>) {
    forall i, j :: 0 <= i < j < |l| ==> l[i].id != l[j].id
  }

  ghost function Ids(l: seq<Spare>): set<Tid> {
    set i | 0 <= i < |l| :: l[i].id
  }

  /** The first position satisfying the loop test of `find_task`, or the end. */
  function FindFrom(l: seq<Spare>, a: Attr, i: nat): (k: nat)
    requires i <= |l|
    ensures i <= k <= |l|
    ensures k < |l| ==> l[k].size == a.size && l[k].tls == a.tls
    ensures forall j :: i <= j < k ==> l[j].size != a.size || l[j].tls != a.tls
    decreases |l| - i
  {
    if i == |l| || Fits(a, l[i]) then i else FindFrom(l, a, i + 1)
  }

  /** The first position satisfying the loop test of `insert_task`, or the end. */
  function InsertFrom(l: seq<Spare>, t: Spare, i: nat): (k: nat)
    requires i <= |l|
    ensures i <= k <= |l|
    ensures k < |l| ==> Covers(t, l[k])
    ensures forall j :: i <= j < k ==> !Covers(t, l[j])
    decreases |l| - i
  {
    if i == |l| || Covers(t, l[i]) then i else InsertFrom(l, t, i + 1)
  }

  function Without(l: seq<Spare>, k: nat): seq<Spare>
    requires k < |l|
  {
    l[..k] + l[k + 1..]
  }

  function Inserted(l: seq<Spare>, t: Spare): seq<Spare> {
    var k := InsertFrom(l, t, 0);
    l[..k] + [t] + l[k..]
  }

  /** `return_task` on a list below its limit keeps the object; otherwise it is destroyed. */
  function Given(l: seq<Spare>, maxSize: nat, t: Spare): seq<Spare> {
    if |l| < maxSize then Inserted(l, t) else l
  }

  // ---------------------------------------------------------------- order and contents

  lemma InsertKeepsOrder(l: seq<Spare>, t: Spare)
    requires Ordered(l)
    ensures Ordered(Inserted(l, t))
    ensures
      var m := Inserted(l, t);
      forall i, j :: 0 <= i < j < |m| && m[i].size <= m[j].size && (m[i].tls ==> m[j].tls) ==>
        m[i].size == m[j].size && m[i].tls == m[j].tls
  {
    var k := InsertFrom(l, t, 0);
    var m := Inserted(l, t);
    forall i, j | 0 <= i < j < |m|
      ensures !Dominates(m[j], m[i])
    {
      if j < k {
        assert m[i] == l[i] && m[j] == l[j];
      } else if i == k && j > k {
        // a later entry that dominated t would dominate the entry t was put in front of
        assert m[j] == l[j - 1] && Covers(t, l[k]);
        if j - 1 > k { assert !Dominates(l[j - 1], l[k]); }
      } else if i < k && j > k {
        assert m[i] == l[i] && m[j] == l[j - 1];
      } else if i > k {
        assert m[i] == l[i - 1] && m[j] == l[j - 1];
      }
    }
  }

  lemma RemoveKeepsOrder(l: seq<Spare>, k: nat)
    requires Ordered(l) && k < |l|
    ensures Ordered(Without(l, k))
  {
    var m := Without(l, k);
    forall i, j | 0 <= i < j < |m|
      ensures !Dominates(m[j], m[i])
    {
      var i', j' := if i < k then i else i + 1, if j < k then j else j + 1;
      assert m[i] == l[i'] && m[j] == l[j'];
    }
  }

  lemma IdsConcat(a: seq<Spare>, b: seq<Spare>)
    ensures Ids(a + b) == Ids(a) + Ids(b)
  {
    forall i | 0 <= i < |a| ensures a[i].id in Ids(a + b) { assert (a + b)[i] == a[i]; }
    forall i | 0 <= i < |b| ensures b[i].id in Ids(a + b) { assert (a + b)[|a| + i] == b[i]; }
  }

  /** Putting one object somewhere into a list. */
  lemma InsertedAt(l: seq<Spare>, t: Spare, k: nat)
    requires k <= |l|
    ensures Ids(l[..k] + [t] + l[k..]) == Ids(l) + {t.id}
    ensures forall e :: e in l[..k] + [t] + l[k..] <==> e in l || e == t
  {
    assert l == l[..k] + l[k..];
    IdsConcat(l[..k], l[k..]);
    IdsConcat(l[..k], [t]);
    IdsConcat(l[..k] + [t], l[k..]);
    assert Ids([t]) == {t.id} by { assert [t][0] == t; }
  }

  lemma InsertedDistinct(l: seq<Spare>, t: Spare, k: nat)
    requires k <= |l| && Distinct(l) && t.id !in Ids(l)
    ensures Distinct(l[..k] + [t] + l[k..])
  {
    var m := l[..k] + [t] + l[k..];
    forall i | 0 <= i < |m| && i != k ensures m[i].id != t.id && m[i] == l[if i < k then i else i - 1] {
      assert l[if i < k then i else i - 1].id in Ids(l);
    }
  }

  lemma InsertContents(l: seq<Spare>, t: Spare)
    ensures Ids(Inserted(l, t)) == Ids(l) + {t.id}
    ensures Distinct(l) && t.id !in Ids(l) ==> Distinct(Inserted(l, t))
    ensures forall e :: e in Inserted(l, t) <==> e in l || e == t
  {
    var k := InsertFrom(l, t, 0);
    InsertedAt(l, t, k);
    if Distinct(l) && t.id !in Ids(l) { InsertedDistinct(l, t, k); }
  }

  lemma RemoveContents(l: seq<Spare>, k: nat)
    requires k < |l| && Distinct(l)
    ensures Ids(Without(l, k)) == Ids(l) - {l[k].id}
    ensures Distinct(Without(l, k))
    ensures forall e :: e in Without(l, k) ==> e in l
  {
    var m := Without(l, k);
    forall i | 0 <= i < |l| && i != k
      ensures l[i].id in Ids(m)
    {
      assert l[i] == m[if i < k then i else i - 1];
    }
    forall i | 0 <= i < |m|
      ensures m[i] in l && m[i].id in Ids(l) - {l[k].id}
    {
      assert m[i] == l[if i < k then i else i + 1];
    }
  }

  // ---------------------------------------------------------------- the object itself

  /** `task_freelist`.  The last three fields are histories kept for the conservation law. */
  class TaskFreelist {
    const maxSize: nat
    var l: seq<Spare>
    ghost var created: set<Tid>
    ghost var outstanding: set<Tid>
    ghost var destroyed: set<Tid>

    /** Bounded, duplicate free, ordered, and no object is lost or in two places. */
    ghost predicate Valid()
      reads this
    {
      && |l| <= maxSize && Distinct(l) && Ordered(l)
      && created == outstanding + Ids(l) + destroyed
      && outstanding !! Ids(l) && outstanding !! destroyed && Ids(l) !! destroyed
    }

    constructor (maxSize: nat)
      ensures Valid() && l == [] && this.maxSize == maxSize && created == {}
    {
      this.maxSize := maxSize;
      l, created, outstanding, destroyed := [], {}, {}, {};
    }

    /** The search loop of `find_task`, with its `erase`. */
    method FindTask(a: Attr) returns (found: Option<Spare>)
      modifies this`l
      ensures found.None? <==> forall e :: e in old(l) ==> e.size != a.size || e.tls != a.tls
      ensures found.None? ==> l == old(l)
      ensures found.Some? ==>
                var k := FindFrom(old(l), a, 0);
                k < |old(l)| && found.value == old(l)[k] && l == old(l)[..k] + old(l)[k + 1..]
    {
      var i := 0;
      while i < |l|
        invariant 0 <= i <= |l| && l == old(l)
        invariant FindFrom(l, a, 0) == FindFrom(l, a, i)
        invariant forall j :: 0 <= j < i ==> !Fits(a, l[j])
      {
        if Fits(a, l[i]) {
          found := Some(l[i]);
          l := l[..i] + l[i + 1..];
          return;
        }
        i := i + 1;
      }
      found := None;
    }

    /** The search loop of `insert_task`. */
    method InsertTask(t: Spare)
      modifies this`l
      ensures l == Inserted(old(l), t)
      ensures
        var k := InsertFrom(old(l), t, 0);
        && l == old(l)[..k] + [t] + old(l)[k..]
        && (k < |old(l)| ==> old(l)[k].size <= t.size && (old(l)[k].tls ==> t.tls))
        && (forall j :: 0 <= j < k ==> t.size < old(l)[j].size || (old(l)[j].tls && !t.tls))
    {
      var i := 0;
      while i < |l|
        invariant 0 <= i <= |l| && l == old(l)
        invariant InsertFrom(l, t, 0) == InsertFrom(l, t, i)
      {
        if Covers(t, l[i]) {
          break;
        }
        i := i + 1;
      }
      l := l[..i] + [t] + l[i..];
    }

    /** `addr` and `total` are the address and the stack size, guard included, of what `task::create` would make. */
    method MakeTask(a: Attr, addr: Tid, total: nat) returns (t: Spare, reused: bool)
      requires Valid() && addr !in created
      modifies this
      ensures Valid() && outstanding == old(outstanding) + {t.id} && t.id !in old(outstanding)
      ensures destroyed == old(destroyed)
      ensures reused <==> exists e :: e in old(l) && e.size == a.size && e.tls == a.tls
      ensures reused ==> t.size == a.size && t.tls == a.tls && t in old(l)
      ensures reused ==> created == old(created) && Ids(l) == old(Ids(l)) - {t.id}
      ensures !reused ==> t == Spare(addr, total, a.tls) && created == old(created) + {addr} && l == old(l)
    {
      var found := None;
      if |l| > 0 {
        found := FindTask(a);
      }
      reused := found.Some?;
      if reused {
        ghost var k := FindFrom(old(l), a, 0);
        RemoveKeepsOrder(old(l), k);
        RemoveContents(old(l), k);
        t := found.value;
        assert t.id in Ids(old(l));
        outstanding := outstanding + {t.id};
      } else {
        t := Spare(addr, total, a.tls);
        created := created + {addr};
        outstanding := outstanding + {addr};
      }
    }

    /** The caller hands back an object it was given; it is kept if there is room, else destroyed. */
    method ReturnTask(t: Spare)
      requires Valid() && t.id in outstanding
      modifies this
      ensures Valid() && outstanding == old(outstanding) - {t.id} && created == old(created)
      ensures l == Given(old(l), maxSize, t)
      ensures if |old(l)| < maxSize then Ids(l) == old(Ids(l)) + {t.id} && destroyed == old(destroyed)
              else l == old(l) && destroyed == old(destroyed) + {t.id}
    {
      outstanding := outstanding - {t.id};
      if |l| < maxSize {
        InsertKeepsOrder(l, t);
        InsertContents(l, t);
        InsertTask(t);
      } else {
        destroyed := destroyed + {t.id};
      }
    }
  }
}
