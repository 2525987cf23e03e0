/**
 * Pipeline listeners and the per-component timing records a bucket keeps
 * for them. The component record's own statistics are kept abstract: a
 * record is its key, the name of the listener it was created for, and the
 * processing times recorded since its last reset, from which each of its
 * statistics is derived.
 */
module Components {

  /** A message listener, identified to the bucket only by its hash code. */
  datatype Listener = Listener(name: string, hashCode: int)

  datatype ComponentTime = ComponentTime(compId: int, compName: string, samples: seq<int>)

  /** The record created for a listener: keyed by the listener's hash, nothing recorded. */
  function NewComponent(l: Listener): ComponentTime
  {
    ComponentTime(l.hashCode, l.name, [])
  }

  /** No listener after position `j` and before `n` shares the hash code of listener `j`. */
  ghost predicate LastWithHash(listeners: seq<Listener>, j: nat, n: nat)
    requires j < n <= |listeners|
  {
    forall j' :: j < j' < n ==> listeners[j'].hashCode != listeners[j].hashCode
  }

  /**
   * Records stored each under its own key are pairwise distinct, so there
   * are exactly as many records as keys.
   */
  lemma {:induction false} RecordsCountedOnce(m: map<int, ComponentTime>)
    requires forall k :: k in m ==> m[k].compId == k
    ensures |m.Values| == |m|
    decreases |m|
  {
    if m != map[] {
      HasMember(m.Keys);
      var k :| k in m;
      var rest := m - {k};
      RecordsCountedOnce(rest);
      forall v | v in m.Values ensures v in rest.Values || v == m[k] {
        if forall k' :: k' in m ==> m[k'] != v {
          assert false;
        }
        var k' :| k' in m && m[k'] == v;
        if k' != k { assert rest[k'] == v; }
      }
      forall v | v in rest.Values ensures v in m.Values {
        var k' :| k' in rest && rest[k'] == v;
        assert m[k'] == v;
      }
      assert m.Values == rest.Values + {m[k]};
      assert m[k] !in rest.Values;
      assert m.Keys == rest.Keys + {k};
    }
  }

  /**
   * A non-empty set of keys has a member to pick. A verifier aid for `:|`
   * over a set; it states nothing about the monitor.
   */
  lemma HasMember(s: set<int>)
    requires s != {}
    ensures exists k :: k in s
  {
    if forall k :: k !in s {
      assert false;
    }
  }

  /** Clears everything the record has accumulated; its key stays. */
  function ResetComponent(c: ComponentTime): ComponentTime
  {
    c.(samples := [])
  }

  /** Records one processing time in the component. */
  function UpdateComponent(c: ComponentTime, procTimeNs: int): ComponentTime
  {
    c.(samples := c.samples + [procTimeNs])
  }

  /** The map keys a list of listeners produces: one per distinct hash code. */
  function KeysOf(listeners: seq<Listener>): set<int>
  {
    set l | l in listeners :: l.hashCode
  }

  /** Appending a listener adds its hash code to the keys. */
  lemma KeysOfSnoc(listeners: seq<Listener>, l: Listener)
    ensures KeysOf(listeners + [l]) == KeysOf(listeners) + {l.hashCode}
  {
    assert forall x :: x in listeners + [l] <==> x in listeners || x == l;
  }

  /** Listeners with equal hash codes share one key, so there are never more keys than listeners. */
  lemma {:induction false} KeysAtMostListeners(listeners: seq<Listener>)
    ensures |KeysOf(listeners)| <= |listeners|
    decreases |listeners|
  {
    if listeners != [] {
      var rest := listeners[1..];
      KeysAtMostListeners(rest);
      assert KeysOf(listeners) == KeysOf(rest) + {listeners[0].hashCode} by {
        assert listeners == [listeners[0]] + rest;
      }
    }
  }

  /** Distinct hash codes give exactly one key per listener. */
  lemma {:induction false} KeysOfDistinct(listeners: seq<Listener>)
    requires forall i, j :: 0 <= i < j < |listeners| ==> listeners[i].hashCode != listeners[j].hashCode
    ensures |KeysOf(listeners)| == |listeners|
    decreases |listeners|
  {
    if listeners != [] {
      var rest := listeners[1..];
      KeysOfDistinct(rest);
      assert KeysOf(listeners) == KeysOf(rest) + {listeners[0].hashCode} by {
        assert listeners == [listeners[0]] + rest;
      }
      assert listeners[0].hashCode !in KeysOf(rest);
    }
  }
}
