/**
 A keyed table built by inserting a list of entries one after the other, as the
 chat manager does when it clears a dictionary and refills it from a snapshot
 list. `key` extracts the dictionary key of an entry (a group id, a user id).
 */
module Tables {

  /** The keys of `entries`, in list order. */
  function KeysOf<V>(entries: seq<V>, key: V -> string): seq<string>
  {
    seq(|entries|, i requires 0 <= i < |entries| => key(entries[i]))
  }

  /** Position by position, the key list holds the entries' keys. */
  lemma KeysOfAt<V>(entries: seq<V>, key: V -> string)
    ensures |KeysOf(entries, key)| == |entries|
    ensures forall i :: 0 <= i < |entries| ==> KeysOf(entries, key)[i] == key(entries[i])
  {
  }

  /** No key occurs twice. */
  ghost predicate Distinct(ks: seq<string>)
  {
    forall i, j :: 0 <= i < j < |ks| ==> ks[i] != ks[j]
  }

  /** No two entries share a key. */
  ghost predicate DistinctKeys<V>(entries: seq<V>, key: V -> string)
  {
    forall i, j :: 0 <= i < j < |entries| ==> key(entries[i]) != key(entries[j])
  }

  /** The entries have distinct keys exactly when their key list does. */
  lemma DistinctKeysOf<V>(entries: seq<V>, key: V -> string)
    ensures Distinct(KeysOf(entries, key)) <==> DistinctKeys(entries, key)
  {
    KeysOfAt(entries, key);
  }

  /** The table obtained by writing the entries in list order into an empty
      map; a later entry overwrites an earlier one with the same key. */
  function Table<V>(entries: seq<V>, key: V -> string): (m: map<string, V>)
    ensures forall k :: k in m <==> k in KeysOf(entries, key)
    decreases |entries|
  {
    KeysOfAt(entries, key);
    if entries == [] then map[]
    else
      var last := entries[|entries| - 1];
      KeysOfAt(entries[..|entries| - 1], key);
      assert KeysOf(entries, key) == KeysOf(entries[..|entries| - 1], key) + [key(last)];
      Table(entries[..|entries| - 1], key)[key(last) := last]
  }

  /** The position at which inserting the keys one by one into an empty table
      first meets a key that is already there, or `|ks|` when every key is new. */
  function FirstRepeat(ks: seq<string>): (k: nat)
    ensures k <= |ks|
    ensures Distinct(ks[..k])
    ensures k < |ks| ==> ks[k] in ks[..k]
    ensures k == |ks| <==> Distinct(ks)
    decreases |ks|
  {
    if ks == [] then 0
    else
      var n := |ks| - 1;
      var k := FirstRepeat(ks[..n]);
      assert ks[..n][..k] == ks[..k];
      if k < n then k
      else if ks[n] in ks[..n] then n
      else
        assert ks[..n + 1] == ks;
        |ks|
  }

  /** A prefix of the key list is the key list of the prefix. */
  lemma KeysOfPrefix<V>(entries: seq<V>, key: V -> string, i: nat)
    requires i <= |entries|
    ensures KeysOf(entries, key)[..i] == KeysOf(entries[..i], key)
  {
  }

  /** Appending a key that is new keeps the keys distinct. */
  lemma DistinctSnoc(ks: seq<string>, i: nat)
    requires i < |ks|
    requires Distinct(ks[..i])
    requires ks[i] !in ks[..i]
    ensures Distinct(ks[..i + 1])
  {
  }

  /** One more insertion extends the table by the next entry. */
  lemma TableStep<V>(entries: seq<V>, key: V -> string, i: nat)
    requires i < |entries|
    ensures Table(entries[..i + 1], key) == Table(entries[..i], key)[key(entries[i]) := entries[i]]
  {
    assert entries[..i + 1][..i] == entries[..i];
  }

  /** An entry that no later entry overwrites is what the table holds for its key. */
  lemma {:induction false} TableLastWriteWins<V>(entries: seq<V>, key: V -> string, i: nat)
    requires i < |entries|
    requires forall j :: i < j < |entries| ==> key(entries[j]) != key(entries[i])
    ensures key(entries[i]) in Table(entries, key)
    ensures Table(entries, key)[key(entries[i])] == entries[i]
    decreases |entries|
  {
    var n := |entries| - 1;
    var prefix := entries[..n];
    assert Table(entries, key) == Table(prefix, key)[key(entries[n]) := entries[n]];
    if i < n {
      assert prefix[i] == entries[i];
      forall j | i < j < |prefix|
        ensures key(prefix[j]) != key(prefix[i])
      {
        assert prefix[j] == entries[j];
      }
      TableLastWriteWins(prefix, key, i);
    }
  }

  /** With distinct keys, the table maps each entry's key to that entry
      (Table's own contract says it holds no other key). */
  lemma {:induction false} TableOfDistinct<V>(entries: seq<V>, key: V -> string)
    requires DistinctKeys(entries, key)
    ensures forall i :: 0 <= i < |entries| ==>
      key(entries[i]) in Table(entries, key) && Table(entries, key)[key(entries[i])] == entries[i]
  {
    forall i | 0 <= i < |entries|
      ensures key(entries[i]) in Table(entries, key) && Table(entries, key)[key(entries[i])] == entries[i]
    {
      TableLastWriteWins(entries, key, i);
    }
  }

  /** A refill from entries with distinct keys runs to the end of the list,
      and the table then holds exactly the listed keys, each mapped to its own
      entry, whatever the table held before it was cleared. */
  lemma RefillOfDistinct<V>(entries: seq<V>, key: V -> string)
    requires DistinctKeys(entries, key)
    ensures FirstRepeat(KeysOf(entries, key)) == |entries|
    ensures forall i :: 0 <= i < |entries| ==>
      key(entries[i]) in Table(entries, key) && Table(entries, key)[key(entries[i])] == entries[i]
  {
    DistinctKeysOf(entries, key);
    TableOfDistinct(entries, key);
  }

  /** The only position that satisfies FirstRepeat's contract is FirstRepeat:
      a loop that stops at the first key already present stops there. */
  lemma FirstRepeatUnique(ks: seq<string>, k: nat)
    requires k <= |ks|
    requires Distinct(ks[..k])
    requires k < |ks| ==> ks[k] in ks[..k]
    ensures FirstRepeat(ks) == k
  {
    var f := FirstRepeat(ks);
    if f < k {
      RepeatBreaksDistinct(ks, f, k);
      assert false;
    } else if k < f {
      RepeatBreaksDistinct(ks, k, f);
      assert false;
    }
  }

  /** A prefix that reaches past a repeated key does not have distinct keys. */
  lemma RepeatBreaksDistinct(ks: seq<string>, r: nat, k: nat)
    requires r < k <= |ks|
    requires ks[r] in ks[..r]
    ensures !Distinct(ks[..k])
  {
  }
}
