/** The digest of a ConfigMap's data and its place in the pod template. A string stands for its bytes. */
module ConfigDigest {
  import opened Strings
  import opened Sorting

  const NUL := '\0'
  const CONFIG_HASH := "database.serenedb.com/config-hash"

  /** What is fed to the digest, for `keys` in this order. */
  function Fed(data: map<string, string>, keys: seq<string>): string
    requires Elements(keys) <= data.Keys
  {
    if keys == [] then ""
    else
      assert keys[0] in Elements(keys);
      assert Elements(keys[1..]) <= Elements(keys);
      keys[0] + [NUL] + data[keys[0]] + [NUL] + Fed(data, keys[1..])
  }

  /** `keys` are those of `data` in ascending order. */
  predicate Ascending(data: map<string, string>, keys: seq<string>)
  {
    Sorted(keys, Less) && Elements(keys) == data.Keys
  }

  method ConfigHash(data: map<string, string>, digest: string -> string) returns (hash: string)
    ensures forall keys | Ascending(data, keys) :: hash == digest(Fed(data, keys))
  {
    var keys: seq<string> := [];
    var rest := data.Keys;
    while rest != {}
      invariant rest <= data.Keys && Distinct(keys)
      invariant forall k :: k in keys <==> k in data && k !in rest
    {
      var k :| k in rest;
      keys := keys + [k];
      rest := rest - {k};
    }
    LessIsStrictTotal();
    SortSorts(keys, Less);
    keys := Sort(keys, Less);
    var fed := Feed(data, keys);
    hash := digest(fed);
    forall other | Ascending(data, other) ensures other == keys {
      SortedUnique(other, keys, Less);
    }
  }

  method Feed(data: map<string, string>, keys: seq<string>) returns (fed: string)
    requires Elements(keys) == data.Keys
    ensures fed == Fed(data, keys)
  {
    fed := "";
    for i := 0 to |keys|
      invariant Elements(keys[i..]) <= data.Keys && fed + Fed(data, keys[i..]) == Fed(data, keys)
    {
      NextRecord(data, keys, i);
      ghost var before := fed;
      fed := fed + keys[i];
      fed := fed + [NUL];
      fed := fed + data[keys[i]];
      fed := fed + [NUL];
      RecordAppends(before, keys[i], data[keys[i]], Fed(data, keys[i + 1..]));
    }
  }

  lemma RecordAppends(before: string, key: string, value: string, after: string)
    ensures before + key + [NUL] + value + [NUL] + after == before + (key + [NUL] + value + [NUL] + after)
  {
  }

  lemma NextRecord(data: map<string, string>, keys: seq<string>, i: nat)
    requires i < |keys| && Elements(keys[i..]) <= data.Keys
    ensures keys[i] in data && Elements(keys[i + 1..]) <= data.Keys
    ensures Fed(data, keys[i..]) == keys[i] + [NUL] + data[keys[i]] + [NUL] + Fed(data, keys[i + 1..])
  {
    assert keys[i..][0] in Elements(keys[i..]) && keys[i..][1..] == keys[i + 1..];
    assert Elements(keys[i + 1..]) <= Elements(keys[i..]);
  }

  predicate NulFree(data: map<string, string>)
  {
    forall k | k in data :: NUL !in k && NUL !in data[k]
  }

  /** Reads keys and values in turn, each up to its NUL. */
  function ReadFed(s: string): map<string, string>
    decreases |s|
  {
    var n := Until(s, NUL);
    if n == |s| then map[]
    else
      var rest := s[n + 1..];
      var m := Until(rest, NUL);
      if m == |rest| then map[] else ReadFed(rest[m + 1..])[s[..n] := rest[..m]]
  }

  lemma {:induction false} FedReads(data: map<string, string>, keys: seq<string>)
    requires NulFree(data) && Elements(keys) <= data.Keys
    ensures ReadFed(Fed(data, keys)) == map k | k in Elements(keys) :: data[k]
  {
    if keys != [] {
      var k := keys[0];
      assert k in Elements(keys);
      assert Elements(keys) == {k} + Elements(keys[1..]);
      var rest := Fed(data, keys[1..]);
      FedReads(data, keys[1..]);
      FirstReads(k, data[k], rest);
    }
  }

  lemma FirstReads(k: string, v: string, rest: string)
    requires NUL !in k && NUL !in v
    ensures ReadFed(k + [NUL] + v + [NUL] + rest) == ReadFed(rest)[k := v]
  {
    var all := k + [NUL] + v + [NUL] + rest;
    assert all == k + ([NUL] + v + [NUL] + rest);
    UntilOf(k, NUL, [NUL] + v + [NUL] + rest);
    assert all[|k| + 1..] == v + ([NUL] + rest);
    UntilOf(v, NUL, [NUL] + rest);
    assert all[|k| + 1..][|v| + 1..] == rest;
  }

  lemma DataReads(data: map<string, string>, keys: seq<string>)
    requires NulFree(data) && Ascending(data, keys)
    ensures ReadFed(Fed(data, keys)) == data
  {
    FedReads(data, keys);
    assert data == map k | k in Elements(keys) :: data[k];
  }

  /** Different data is fed differently, whatever the iteration order was. */
  lemma FedDetermines(a: map<string, string>, aKeys: seq<string>, b: map<string, string>, bKeys: seq<string>)
    requires NulFree(a) && NulFree(b) && Ascending(a, aKeys) && Ascending(b, bKeys)
    ensures Fed(a, aKeys) == Fed(b, bKeys) <==> a == b
  {
    DataReads(a, aKeys);
    DataReads(b, bKeys);
    if a == b {
      LessIsStrictTotal();
      SortedUnique(aKeys, bKeys, Less);
    }
  }

  /** With a NUL in a value the bytes can collide, with the very keys the operator uses: the same bytes are read once
      as a long HBA file before a short flagfile, once as a short one before a long flagfile. */
  lemma NulsCollide(x: string, y: string, z: string) returns (a: map<string, string>, b: map<string, string>)
    ensures a == map[HBA_KEY := x, FLAGFILE_KEY := y + [NUL] + FLAGFILE_KEY + [NUL] + z]
    ensures b == map[HBA_KEY := x + [NUL] + FLAGFILE_KEY + [NUL] + y, FLAGFILE_KEY := z]
    ensures a != b && Ascending(a, [HBA_KEY, FLAGFILE_KEY]) && Ascending(b, [HBA_KEY, FLAGFILE_KEY])
    ensures Fed(a, [HBA_KEY, FLAGFILE_KEY]) == Fed(b, [HBA_KEY, FLAGFILE_KEY])
  {
    KeysAscend();
    a := map[HBA_KEY := x, FLAGFILE_KEY := y + [NUL] + FLAGFILE_KEY + [NUL] + z];
    b := map[HBA_KEY := x + [NUL] + FLAGFILE_KEY + [NUL] + y, FLAGFILE_KEY := z];
    assert |a[HBA_KEY]| < |b[HBA_KEY]|;
    FedTwo(a, HBA_KEY, FLAGFILE_KEY);
    FedTwo(b, HBA_KEY, FLAGFILE_KEY);
    SameBytes(HBA_KEY, FLAGFILE_KEY, x, y, z);
  }

  const FLAGFILE_KEY := "serened.conf"
  const HBA_KEY := "pg_hba.conf"

  lemma KeysAscend()
    ensures HBA_KEY != FLAGFILE_KEY && Less(HBA_KEY, FLAGFILE_KEY)
    ensures Sorted([HBA_KEY, FLAGFILE_KEY], Less) && Elements([HBA_KEY, FLAGFILE_KEY]) == {HBA_KEY, FLAGFILE_KEY}
  {
    assert HBA_KEY[0] == 'p' && FLAGFILE_KEY[0] == 's';
  }

  lemma FedTwo(data: map<string, string>, k: string, l: string)
    requires data.Keys == {k, l}
    ensures Elements([k, l]) <= data.Keys
    ensures Fed(data, [k, l]) == k + [NUL] + data[k] + [NUL] + (l + [NUL] + data[l] + [NUL])
  {
    assert [k, l][1..] == [l] && [l][1..] == [];
    assert Fed(data, []) == "";
    assert Fed(data, [l]) == l + [NUL] + data[l] + [NUL];
  }

  lemma SameBytes(k: string, l: string, x: string, y: string, z: string)
    ensures k + [NUL] + x + [NUL] + (l + [NUL] + (y + [NUL] + l + [NUL] + z) + [NUL])
         == k + [NUL] + (x + [NUL] + l + [NUL] + y) + [NUL] + (l + [NUL] + z + [NUL])
  {
  }

  /** The user's annotations are copied over the operator's. */
  method PodAnnotations(hash: string, podAnnotations: map<string, string>) returns (annotations: map<string, string>)
    ensures annotations == Annotations(hash, podAnnotations)
    ensures annotations.Keys == podAnnotations.Keys + {"database.serenedb.com/config-hash"}
    ensures forall k | k in podAnnotations :: annotations[k] == podAnnotations[k]
    ensures "database.serenedb.com/config-hash" !in podAnnotations ==>
              annotations["database.serenedb.com/config-hash"] == hash
  {
    annotations := map[CONFIG_HASH := hash];
    var rest := podAnnotations.Keys;
    while rest != {}
      invariant rest <= podAnnotations.Keys
      invariant annotations == Annotations(hash, podAnnotations - rest)
    {
      var k :| k in rest;
      annotations := annotations[k := podAnnotations[k]];
      rest := rest - {k};
    }
    assert podAnnotations - {} == podAnnotations;
  }

  function Annotations(hash: string, podAnnotations: map<string, string>): map<string, string>
  {
    map[CONFIG_HASH := hash] + podAnnotations
  }

  /** Taking the digest as injective: the pod template differs exactly when the data does, unless the user's annotations
      set the hash themselves. */
  lemma TemplateFollowsData(
      a: map<string, string>, aKeys: seq<string>, b: map<string, string>, bKeys: seq<string>,
      digest: string -> string, podAnnotations: map<string, string>)
    requires forall x, y | digest(x) == digest(y) :: x == y
    requires NulFree(a) && NulFree(b) && Ascending(a, aKeys) && Ascending(b, bKeys)
    ensures Annotations(digest(Fed(a, aKeys)), podAnnotations) == Annotations(digest(Fed(b, bKeys)), podAnnotations)
            <==> a == b || CONFIG_HASH in podAnnotations
  {
    FedDetermines(a, aKeys, b, bKeys);
    var before, after := Annotations(digest(Fed(a, aKeys)), podAnnotations),
        Annotations(digest(Fed(b, bKeys)), podAnnotations);
    if CONFIG_HASH in podAnnotations {
      assert before == after;
    } else {
      assert before[CONFIG_HASH] == digest(Fed(a, aKeys)) && after[CONFIG_HASH] == digest(Fed(b, bKeys));
    }
  }
}
