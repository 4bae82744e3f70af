/** purgePersistedLevels of logger.ts: it removes storage keys while it walks them by index, from
    the last to the first, although every removal shifts the keys behind it. */
module StoragePurge {

  const LEVEL := "loglevel"
  const LEVEL_PREFIX := "loglevel:"

  predicate IsLevel(key: string) {
    key == LEVEL || LEVEL_PREFIX <= key
  }

  ghost predicate Distinct(keys: seq<string>) {
    forall i, j | 0 <= i < j < |keys| :: keys[i] != keys[j]
  }

  /** The keys that are not persisted levels, in order. */
  function Kept(keys: seq<string>): seq<string> {
    if keys == [] then []
    else (if IsLevel(keys[0]) then [] else [keys[0]]) + Kept(keys[1..])
  }

  /** Removing a key leaves the order of the others. */
  function Without(keys: seq<string>, key: string): seq<string> {
    if keys == [] then []
    else (if keys[0] == key then [] else [keys[0]]) + Without(keys[1..], key)
  }

  /** localStorage: its keys, each once, in the order key(i) gives them. */
  class Storage {
    var keys: seq<string>

    method RemoveItem(key: string)
      modifies this
      ensures keys == Without(old(keys), key)
    {
      keys := Without(keys, key);
    }
  }

  lemma {:induction false} WithoutAbsent(keys: seq<string>, key: string)
    requires key !in keys
    ensures Without(keys, key) == keys
  {
    if keys != [] { WithoutAbsent(keys[1..], key); }
  }

  lemma {:induction false} WithoutMiddle(a: seq<string>, key: string, b: seq<string>)
    requires key !in a && key !in b
    ensures Without(a + [key] + b, key) == a + b
  {
    var all := a + [key] + b;
    if a == [] {
      assert all[1..] == b;
      WithoutAbsent(b, key);
      assert a + b == b;
    } else {
      WithoutMiddle(a[1..], key, b);
      assert all[1..] == a[1..] + [key] + b;
      assert [a[0]] + (a[1..] + b) == a + b;
    }
  }

  lemma {:induction false} KeptMembers(keys: seq<string>, key: string)
    ensures key in Kept(keys) <==> key in keys && key != "loglevel" && !("loglevel:" <= key)
  {
    if keys != [] { KeptMembers(keys[1..], key); }
  }

  /** Each key is kept or dropped where it stands. */
  lemma {:induction false} KeptInPlace(a: seq<string>, b: seq<string>)
    ensures Kept(a + b) == Kept(a) + Kept(b)
  {
    if a == [] {
      assert a + b == b;
    } else {
      KeptInPlace(a[1..], b);
      assert (a + b)[1..] == a[1..] + b;
      var head := if IsLevel(a[0]) then [] else [a[0]];
      assert head + (Kept(a[1..]) + Kept(b)) == (head + Kept(a[1..])) + Kept(b);
    }
  }

  /** One turn: the key at i is still the i-th, and removing it does not touch those before it. */
  lemma PurgeOne(keys: seq<string>, i: nat)
    requires Distinct(keys) && i < |keys|
    ensures var now := keys[..i + 1] + Kept(keys[i + 1..]);
            now[i] == keys[i] &&
            keys[..i] + Kept(keys[i..]) == if IsLevel(keys[i]) then Without(now, keys[i]) else now
  {
    var key, rest := keys[i], Kept(keys[i + 1..]);
    assert keys[i..][1..] == keys[i + 1..];
    assert keys[..i + 1] + rest == keys[..i] + [key] + rest;
    if IsLevel(key) {
      KeptMembers(keys[i + 1..], key);
      WithoutMiddle(keys[..i], key, rest);
    } else {
      assert keys[..i] + [key] + rest == keys[..i] + ([key] + rest);
    }
  }

  /** Exactly the persisted levels are gone; the other keys keep their order. */
  method PurgePersistedLevels(storage: Storage)
    requires Distinct(storage.keys)
    modifies storage
    ensures storage.keys == Kept(old(storage.keys))
  {
    ghost var keys := storage.keys;
    var i := |storage.keys| - 1;
    while i >= 0
      invariant -1 <= i < |keys|
      invariant storage.keys == keys[..i + 1] + Kept(keys[i + 1..])
    {
      PurgeOne(keys, i);
      var key := storage.keys[i];
      if key == LEVEL || LEVEL_PREFIX <= key {
        storage.RemoveItem(key);
      }
      i := i - 1;
    }
  }
}
