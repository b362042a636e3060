/** Shared vocabulary: optional values, the Python exceptions the modelled code can raise,
    and a result type that carries either a value or the exception. */
module Common {

  datatype Option<T> = None | Some(value: T)

  /** The exception classes raised (or triggered) by the modelled code. */
  datatype PyError =
    | ValueError
    | AttributeError
    | TypeError
    | KeyError
    | IndexError
    | AssertionError

  datatype Result<T> = Ok(value: T) | Err(error: PyError)

  /** True when no element of `s` occurs twice. */
  predicate Distinct<T(==)>(s: seq<T>) {
    forall i, j :: 0 <= i < j < |s| ==> s[i] != s[j]
  }

  /** The first components of a list of pairs, in order: the players of a list of writes,
      or the keys of a dictionary built in that order. */
  function Firsts<A, B>(pairs: seq<(A, B)>): (r: seq<A>)
    ensures |r| == |pairs| && forall i :: 0 <= i < |r| ==> r[i] == pairs[i].0
  {
    seq(|pairs|, i requires 0 <= i < |pairs| => pairs[i].0)
  }

  /** The value the most recent write of `log` stored under `k`, if any: what a Python dict
      holds under `k` after the writes of `log`, in order, starting from an empty dict. */
  function LastValue<K(==), V>(log: seq<(K, V)>, k: K): (r: Option<V>)
    ensures r.None? <==> forall i :: 0 <= i < |log| ==> log[i].0 != k
    ensures r.Some? ==> exists i :: 0 <= i < |log| && log[i] == (k, r.value) &&
                                    forall j :: i < j < |log| ==> log[j].0 != k
  {
    if |log| == 0 then None
    else if log[|log| - 1].0 == k then Some(log[|log| - 1].1)
    else LastValue(log[..|log| - 1], k)
  }

  /** `m` is the dict the writes of `log` produce. */
  ghost predicate Tracks<K(!new), V>(m: map<K, V>, log: seq<(K, V)>) {
    forall k :: (if k in m then Some(m[k]) else None) == LastValue(log, k)
  }

  /** If the last write naming `k` sits at position i, the value there is the latest. */
  lemma {:induction false} LastIsAt<K, V>(log: seq<(K, V)>, k: K, i: nat)
    requires i < |log| && log[i].0 == k
    requires forall j :: i < j < |log| ==> log[j].0 != k
    ensures LastValue(log, k) == Some(log[i].1)
  {
    if i < |log| - 1 {
      LastIsAt(log[..|log| - 1], k, i);
    }
  }

  lemma LastValueAppend<K, V>(log: seq<(K, V)>, k: K, v: V, q: K)
    ensures LastValue(log + [(k, v)], q) == if q == k then Some(v) else LastValue(log, q)
  {
    assert (log + [(k, v)])[..|log|] == log;
  }

  /** Writes to other keys leave a key's latest value alone. */
  lemma {:induction false} LastValueSkip<K, V>(log: seq<(K, V)>, extra: seq<(K, V)>, k: K)
    requires forall i :: 0 <= i < |extra| ==> extra[i].0 != k
    ensures LastValue(log + extra, k) == LastValue(log, k)
  {
    if |extra| == 0 {
      assert log + extra == log;
    } else {
      var init := extra[..|extra| - 1];
      assert (log + extra)[|log + extra| - 1] == extra[|extra| - 1];
      assert (log + extra)[..|log + extra| - 1] == log + init;
      LastValueSkip(log, init, k);
    }
  }

  /** A dict write `m[k] = v` keeps `m` in step with its log. */
  lemma TracksWrite<K(!new), V>(m: map<K, V>, log: seq<(K, V)>, k: K, v: V)
    requires Tracks(m, log)
    ensures Tracks(m[k := v], log + [(k, v)])
  {
    forall q ensures (if q in m[k := v] then Some(m[k := v][q]) else None) == LastValue(log + [(k, v)], q) {
      LastValueAppend(log, k, v, q);
    }
  }
}
