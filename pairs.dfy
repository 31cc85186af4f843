/** Scans over key/value pairs: the tool reads option lists, certificate
    subjects and stack outputs this way, stopping at the first match or
    letting a later match overwrite an earlier one. */
module Pairs {
  import opened Common

  /** The value of the first pair whose key is `key` (a loop that breaks at the first match). */
  function FirstValue<K(==), V>(pairs: seq<(K, V)>, key: K): Option<V>
  {
    if pairs == [] then None
    else if pairs[0].0 == key then Some(pairs[0].1)
    else FirstValue(pairs[1..], key)
  }

  /** The value of the last pair whose key is `key`, or `default` when none
      has it (a loop that assigns on every match). */
  function LastValue<K(==), V>(pairs: seq<(K, V)>, key: K, default: Option<V>): Option<V>
  {
    if pairs == [] then default
    else if pairs[|pairs| - 1].0 == key then Some(pairs[|pairs| - 1].1)
    else LastValue(pairs[..|pairs| - 1], key, default)
  }

  lemma {:induction false} FirstValueIsFirst<K, V>(pairs: seq<(K, V)>, key: K, i: nat)
    requires i < |pairs| && pairs[i].0 == key
    requires forall j :: 0 <= j < i ==> pairs[j].0 != key
    ensures FirstValue(pairs, key) == Some(pairs[i].1)
  {
    if i > 0 {
      FirstValueIsFirst(pairs[1..], key, i - 1);
    }
  }

  lemma {:induction false} FirstValueAbsent<K, V>(pairs: seq<(K, V)>, key: K)
    requires forall j :: 0 <= j < |pairs| ==> pairs[j].0 != key
    ensures FirstValue(pairs, key) == None
  {
    if pairs != [] {
      FirstValueAbsent(pairs[1..], key);
    }
  }

  lemma {:induction false} LastValueIsLast<K, V>(pairs: seq<(K, V)>, key: K, default: Option<V>, i: nat)
    requires i < |pairs| && pairs[i].0 == key
    requires forall j :: i < j < |pairs| ==> pairs[j].0 != key
    ensures LastValue(pairs, key, default) == Some(pairs[i].1)
  {
    if i < |pairs| - 1 {
      LastValueIsLast(pairs[..|pairs| - 1], key, default, i);
    }
  }

  lemma {:induction false} LastValueAbsent<K, V>(pairs: seq<(K, V)>, key: K, default: Option<V>)
    requires forall j :: 0 <= j < |pairs| ==> pairs[j].0 != key
    ensures LastValue(pairs, key, default) == default
  {
    if pairs != [] {
      LastValueAbsent(pairs[..|pairs| - 1], key, default);
    }
  }

  /** A pair appended at the end decides the value of its key. */
  lemma LastValueAppend<K, V>(pairs: seq<(K, V)>, p: (K, V), key: K, default: Option<V>)
    ensures LastValue(pairs + [p], key, default)
            == if p.0 == key then Some(p.1) else LastValue(pairs, key, default)
  {
    assert (pairs + [p])[..|pairs|] == pairs;
  }
}
