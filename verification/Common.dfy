/** Identities and result codes shared by every component of the scheduler. */
module Common {
  /** Identity of a remote object pointer; NULL is the null pointer. */
  type Remote = nat
  const NULL: Remote := 0

  /** A network id. The empty string stands for "unknown". */
  type DeviceId = string

  datatype Option<+T> = None | Some(value: T)

  /** The next element of an iteration in unspecified order. */
  method Pick<T(==)>(s: set<T>) returns (x: T)
    requires s != {}
    ensures x in s
  {
    x :| x in s;
  }

  const ERR_OK := 0
  const INVALID_PARAMETERS_ERR := 29360128
  const NO_CONNECT_CALLBACK_ERR := 29360130
  const INVALID_REMOTE_PARAMETERS_ERR := 29360131
  const REMOTE_DEVICE_BIND_ABILITY_ERR := 29360132
  const DEVICE_OFFLINE_ERR := 29360142
  const GET_LOCAL_DEVICE_ERR := 29360144
  const BIND_ABILITY_UID_INVALID_ERR := 29360159
  const BIND_ABILITY_LEAK_ERR := 29360160
  const GET_REMOTE_DMS_FAIL := 29360174
  const REGISTER_EXCEED_MAX_TIMES := 29360207
  const TOKEN_HAS_NOT_REGISTERED := 29360208
  const CALLBACK_HAS_REGISTERED := 29360209
  const CALLBACK_HAS_NOT_REGISTERED := 29360210
  const UNKNOWN_CALLBACK_TYPE := 29360214
  const INVALID_CONTINUATION_MODE := 29360216
}

/** Counting the entries of a map that carry a given key. */
module Tallies {
  function Tally<C, V, K(==)>(m: map<C, V>, key: V -> K, k: K): nat
  {
    |set c | c in m && key(m[c]) == k|
  }

  lemma TallyIs<C, V, K>(m: map<C, V>, key: V -> K, k: K, matching: set<C>)
    requires forall c :: c in matching <==> c in m && key(m[c]) == k
    ensures Tally(m, key, k) == |matching|
  {
    assert matching == set c | c in m && key(m[c]) == k;
  }

  lemma TallyInsert<C, V, K>(m: map<C, V>, key: V -> K, c: C, v: V, k: K)
    requires c !in m
    ensures Tally(m[c := v], key, k) == Tally(m, key, k) + if key(v) == k then 1 else 0
  {
    var m' := m[c := v];
    var before := set x | x in m && key(m[x]) == k;
    assert (set x | x in m' && key(m'[x]) == k) == if key(v) == k then before + {c} else before;
  }

  lemma TallyRemove<C, V, K>(m: map<C, V>, key: V -> K, c: C, k: K)
    requires c in m
    ensures Tally(m - {c}, key, k) == Tally(m, key, k) - if key(m[c]) == k then 1 else 0
  {
    var m' := m - {c};
    TallyInsert(m', key, c, m[c], k);
    assert m'[c := m[c]] == m;
  }

  lemma TallyReplace<C, V, K>(m: map<C, V>, key: V -> K, c: C, v: V, k: K)
    requires c in m && key(m[c]) == key(v)
    ensures Tally(m[c := v], key, k) == Tally(m, key, k)
  {
    var m' := m[c := v];
    assert (set x | x in m' && key(m'[x]) == k) == (set x | x in m && key(m[x]) == k);
  }

  lemma TallyMonotone<C, V, K>(small: map<C, V>, large: map<C, V>, key: V -> K, k: K)
    requires forall c <- small :: c in large && key(small[c]) == key(large[c])
    ensures Tally(small, key, k) <= Tally(large, key, k)
  {
    SubsetSize(set c | c in small && key(small[c]) == k, set c | c in large && key(large[c]) == k);
  }

  lemma SubsetSize<C>(a: set<C>, b: set<C>)
    requires a <= b
    ensures |a| <= |b|
  {
    assert b == a + (b - a);
  }
}
