/**
 * The key-name filter that `KMSClient.getKeyList` applies to the names a
 * provider returns with status 200 (lines 221-235).
 */
module KmsKeys {
  import opened Wrappers
  import opened JavaLang

  /**
   * A name is kept when it is not in the exclusion list (if there is one) and
   * it starts with the prefix, unless the prefix is null or empty.
   */
  predicate Keeps(key: string, keyNameMatching: Option<string>, existingKeyList: Option<seq<string>>) {
    && !(existingKeyList.Some? && key in existingKeyList.value)
    && (keyNameMatching.None? || keyNameMatching.value == "" || StartsWith(key, keyNameMatching.value))
  }

  /** The kept names, in the order of the body; a name listed twice is kept twice. */
  function FilterKeys(keys: seq<string>, keyNameMatching: Option<string>, existingKeyList: Option<seq<string>>)
    : (r: seq<string>)
    ensures |r| <= |keys|
    ensures forall k :: k in r ==> k in keys && Keeps(k, keyNameMatching, existingKeyList)
  {
    if keys == [] then []
    else
      var last := keys[|keys| - 1];
      FilterKeys(keys[..|keys| - 1], keyNameMatching, existingKeyList)
        + (if Keeps(last, keyNameMatching, existingKeyList) then [last] else [])
  }

  /** `r` is `s` with some elements left out, the rest in their order. */
  ghost predicate IsSubsequence(r: seq<string>, s: seq<string>)
    decreases |s|
  {
    if r == [] then true
    else if s == [] then false
    else (r[|r| - 1] == s[|s| - 1] && IsSubsequence(r[..|r| - 1], s[..|s| - 1]))
         || IsSubsequence(r, s[..|s| - 1])
  }

  /** A name is in the result exactly when it is in the body and passes the filter. */
  lemma {:induction false} FilterMembership(keys: seq<string>, keyNameMatching: Option<string>,
                                            existingKeyList: Option<seq<string>>, x: string)
    ensures x in FilterKeys(keys, keyNameMatching, existingKeyList)
        <==> x in keys && Keeps(x, keyNameMatching, existingKeyList)
  {
    if keys != [] {
      var init := keys[..|keys| - 1];
      FilterMembership(init, keyNameMatching, existingKeyList, x);
      assert keys == init + [keys[|keys| - 1]];
    }
  }

  /** Every kept name occurs in the result as often as in the body; the others not at all. */
  lemma {:induction false} FilterMultiplicity(keys: seq<string>, keyNameMatching: Option<string>,
                                              existingKeyList: Option<seq<string>>, x: string)
    ensures multiset(FilterKeys(keys, keyNameMatching, existingKeyList))[x]
         == if Keeps(x, keyNameMatching, existingKeyList) then multiset(keys)[x] else 0
  {
    if keys != [] {
      var init := keys[..|keys| - 1];
      FilterMultiplicity(init, keyNameMatching, existingKeyList, x);
      assert keys == init + [keys[|keys| - 1]];
    }
  }

  /** The result keeps the body's order. */
  lemma {:induction false} FilterIsSubsequence(keys: seq<string>, keyNameMatching: Option<string>,
                                               existingKeyList: Option<seq<string>>)
    ensures IsSubsequence(FilterKeys(keys, keyNameMatching, existingKeyList), keys)
  {
    if keys != [] {
      var init := keys[..|keys| - 1];
      var r := FilterKeys(keys, keyNameMatching, existingKeyList);
      FilterIsSubsequence(init, keyNameMatching, existingKeyList);
      if Keeps(keys[|keys| - 1], keyNameMatching, existingKeyList) {
        assert r[..|r| - 1] == FilterKeys(init, keyNameMatching, existingKeyList);
      } else {
        assert r == FilterKeys(init, keyNameMatching, existingKeyList);
      }
    }
  }

  /** Without a prefix and without an exclusion list every name is kept (the call `testConnection` makes). */
  lemma {:induction false} NoCriteriaKeepsAll(keys: seq<string>, keyNameMatching: Option<string>)
    requires keyNameMatching.None? || keyNameMatching == Some("")
    ensures FilterKeys(keys, keyNameMatching, None) == keys
  {
    if keys != [] {
      NoCriteriaKeepsAll(keys[..|keys| - 1], keyNameMatching);
    }
  }

  /** Prefix "k" and exclusion list ["key1"] applied to ["key1", "key2", "k9"]. */
  lemma FilterExample()
    ensures FilterKeys(["key1", "key2", "k9"], Some("k"), Some(["key1"])) == ["key2", "k9"]
  {
    var keys := ["key1", "key2", "k9"];
    assert keys[..2] == ["key1", "key2"] && keys[..2][..1] == ["key1"];
    assert StartsWith("key2", "k") && StartsWith("k9", "k");
  }

  /** The `for (String key : keys)` loop that appends the kept names to `lret`. */
  method CollectKeys(keys: seq<string>, keyNameMatching: Option<string>, existingKeyList: Option<seq<string>>)
    returns (lret: seq<string>)
    ensures lret == FilterKeys(keys, keyNameMatching, existingKeyList)
  {
    lret := [];
    for j := 0 to |keys|
      invariant lret == FilterKeys(keys[..j], keyNameMatching, existingKeyList)
    {
      assert keys[..j + 1][..j] == keys[..j];
      var key := keys[j];
      if existingKeyList.Some? && key in existingKeyList.value {
        continue;
      }
      if keyNameMatching.None? || keyNameMatching.value == "" || StartsWith(key, keyNameMatching.value) {
        lret := lret + [key];
      }
    }
    assert keys[..|keys|] == keys;
  }
}
