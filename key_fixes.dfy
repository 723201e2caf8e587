// The KeyFix protocol of ImportMapping.import_row: the errors a row has
// recorded, and how a KeyFix removes the ones about its key.

module KeyFixes {
  /** An InvalidMappingComponent as import_row records it: message, rank and key. */
  datatype MappingError<K> = MappingError(msg: string, rank: nat, key: K)

  /** The errors left once a KeyFix(key) has removed every error about key. */
  function Without<K(==)>(errors: seq<MappingError<K>>, key: K): (r: seq<MappingError<K>>)
    ensures |r| <= |errors|
  {
    if errors == [] then []
    else if errors[0].key == key then Without(errors[1..], key)
    else [errors[0]] + Without(errors[1..], key)
  }

  /** A KeyFix removes exactly the errors about its key and keeps the rest. */
  lemma {:induction false} WithoutMembers<K>(errors: seq<MappingError<K>>, key: K, e: MappingError<K>)
    ensures e in Without(errors, key) <==> e in errors && e.key != key
    decreases |errors|
  {
    if errors != [] {
      WithoutMembers(errors[1..], key, e);
      assert errors == [errors[0]] + errors[1..];
    }
  }

  /** Keeping the errors in order: what Without leaves is a subsequence of what it got, split anywhere. */
  lemma {:induction false} WithoutAppend<K>(a: seq<MappingError<K>>, b: seq<MappingError<K>>, key: K)
    ensures Without(a + b, key) == Without(a, key) + Without(b, key)
    decreases |a|
  {
    if a != [] {
      assert (a + b)[1..] == a[1..] + b;
      WithoutAppend(a[1..], b, key);
    } else {
      assert a + b == b;
    }
  }

  /** A second KeyFix for the same key changes nothing. */
  lemma {:induction false} WithoutIdempotent<K>(errors: seq<MappingError<K>>, key: K)
    ensures Without(Without(errors, key), key) == Without(errors, key)
    decreases |errors|
  {
    if errors != [] {
      WithoutIdempotent(errors[1..], key);
      if errors[0].key != key {
        assert ([errors[0]] + Without(errors[1..], key))[1..] == Without(errors[1..], key);
      }
    }
  }

  /** Popping error k, when it is about key, extends Without by one place. */
  lemma WithoutAt<K>(errors: seq<MappingError<K>>, k: nat, key: K)
    requires k < |errors|
    ensures errors[..k + 1] + Without(errors[k + 1..], key) == errors[..k] + [errors[k]] + Without(errors[k + 1..], key)
    ensures errors[..k] + Without(errors[k..], key)
      == errors[..k] + (if errors[k].key == key then [] else [errors[k]]) + Without(errors[k + 1..], key)
  {
    assert errors[..k + 1] == errors[..k] + [errors[k]];
    assert errors[k..][1..] == errors[k + 1..];
  }

  /** The errors with every error about key popped, from the last index down. */
  method PopFixed<K(==)>(errors: seq<MappingError<K>>, key: K) returns (kept: seq<MappingError<K>>)
    ensures kept == Without(errors, key)
  {
    kept := errors;
    var k := |kept|;
    while k > 0
      invariant 0 <= k <= |errors|
      invariant kept == errors[..k] + Without(errors[k..], key)
    {
      k := k - 1;
      WithoutAt(errors, k, key);
      if kept[k].key == key {
        kept := kept[..k] + kept[k + 1..];
      }
    }
    assert errors[0..] == errors;
  }
}
