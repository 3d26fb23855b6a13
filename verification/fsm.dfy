/** The generic transaction state-machine engine: a transition table is an
    ordered list of (state, event kind, handler) entries, looked up by a
    linear scan in which the first matching entry wins. A missing entry
    means the event is ignored in that state. */
module Fsm {
  import opened Wrappers

  /** transition_t: one binding of an event kind in a state to a handler. */
  datatype Transition<S, K, H> = Transition(state: S, kind: K, handler: H)

  /** The entry binds event kind `k` in state `s`. */
  predicate Binds<S(==), K(==), H>(t: Transition<S, K, H>, s: S, k: K)
  {
    t.state == s && t.kind == k
  }

  /** Entry `i`, at or after `from`, is the first from there on that binds
      `k` in `s`. */
  ghost predicate IsFirstFrom<S, K, H>(table: seq<Transition<S, K, H>>, s: S, k: K, from: int, i: int)
  {
    && 0 <= from <= i < |table|
    && Binds(table[i], s, k)
    && forall j :: from <= j < i ==> !Binds(table[j], s, k)
  }

  /** Entry `i` is the first one that binds `k` in `s`. */
  ghost predicate IsFirstBinding<S, K, H>(table: seq<Transition<S, K, H>>, s: S, k: K, i: int)
  {
    IsFirstFrom(table, s, k, 0, i)
  }

  /** No two entries bind the same (state, event kind) pair. */
  ghost predicate KeysUnique<S, K, H>(table: seq<Transition<S, K, H>>)
  {
    forall i, j :: 0 <= i < j < |table| ==> !Binds(table[j], table[i].state, table[i].kind)
  }

  /** The scan from position `from` on. */
  function LookupFrom<S(==), K(==), H>(table: seq<Transition<S, K, H>>, s: S, k: K, from: nat): Option<H>
    requires from <= |table|
    decreases |table| - from
  {
    if from == |table| then None
    else if Binds(table[from], s, k) then Some(table[from].handler)
    else LookupFrom(table, s, k, from + 1)
  }

  /** The scan from `from` finds nothing exactly when no later entry binds
      the pair, and otherwise finds the handler of the first one that does. */
  lemma {:induction false} LookupFromFindsFirst<S, K, H>(table: seq<Transition<S, K, H>>, s: S, k: K, from: nat)
    requires from <= |table|
    ensures LookupFrom(table, s, k, from).None? <==> forall i :: from <= i < |table| ==> !Binds(table[i], s, k)
    ensures LookupFrom(table, s, k, from).Some? ==>
              exists i :: IsFirstFrom(table, s, k, from, i) && table[i].handler == LookupFrom(table, s, k, from).value
    decreases |table| - from
  {
    if from < |table| {
      if Binds(table[from], s, k) {
        assert IsFirstFrom(table, s, k, from, from);
      } else {
        LookupFromFindsFirst(table, s, k, from + 1);
        if LookupFrom(table, s, k, from + 1).Some? {
          var i :| IsFirstFrom(table, s, k, from + 1, i) && table[i].handler == LookupFrom(table, s, k, from + 1).value;
          assert IsFirstFrom(table, s, k, from, i);
        }
      }
    }
  }

  /** The engine's lookup: the handler of the first entry binding `k` in
      `s`, or nothing when no entry does. */
  function Lookup<S(==), K(==), H>(table: seq<Transition<S, K, H>>, s: S, k: K): (r: Option<H>)
    ensures r.None? <==> forall i :: 0 <= i < |table| ==> !Binds(table[i], s, k)
    ensures r.Some? ==> exists i :: IsFirstBinding(table, s, k, i) && table[i].handler == r.value
  {
    LookupFromFindsFirst(table, s, k, 0);
    LookupFrom(table, s, k, 0)
  }

  /** With unique keys the order of the table does not matter: the lookup
      finds a handler exactly when the table holds that binding, so a map
      keyed by (state, event kind) is an equivalent realisation. */
  lemma LookupAsMap<S, K, H>(table: seq<Transition<S, K, H>>, s: S, k: K, h: H)
    requires KeysUnique(table)
    ensures Lookup(table, s, k) == Some(h) <==> exists i :: 0 <= i < |table| && table[i] == Transition(s, k, h)
  {
    if Lookup(table, s, k) == Some(h) {
      var i :| IsFirstBinding(table, s, k, i) && table[i].handler == h;
      assert table[i] == Transition(s, k, h);
    }
    if i :| 0 <= i < |table| && table[i] == Transition(s, k, h) {
      assert Binds(table[i], s, k);
      var r := Lookup(table, s, k);
      var i' :| IsFirstBinding(table, s, k, i') && table[i'].handler == r.value;
      assert i' == i;
    }
  }
}
