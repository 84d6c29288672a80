/** Browser storage housekeeping: the cleanup run once when the dashboard
    mounts (drop temporary and cache keys from local storage, empty session
    storage when it holds more than fifty entries) and the quota probe that
    writes and deletes a test key, wiping both stores when the write fails.
    A store is modelled as its list of entries in key order; a write that
    exceeds the quota is announced by the caller through a `fits` flag. */
module Storage {
  import opened Common

  datatype Entry = Entry(key: string, value: string)

  /** `getItem`: the value stored under `k`, looked up from the front. */
  function Get(es: seq<Entry>, k: string): Option<string>
  {
    if es == [] then None
    else if es[0].key == k then Some(es[0].value)
    else Get(es[1..], k)
  }

  /** No key is stored twice, as in every Web Storage area. */
  predicate DistinctKeys(es: seq<Entry>)
  {
    es == [] || (Get(es[1..], es[0].key).None? && DistinctKeys(es[1..]))
  }

  /** The keys in storage order: what `key(0)`, `key(1)`, ... return. */
  function KeysOf(es: seq<Entry>): (ks: seq<string>)
    ensures |ks| == |es|
    ensures forall i :: 0 <= i < |es| ==> ks[i] == es[i].key
  {
    seq(|es|, i requires 0 <= i < |es| => es[i].key)
  }

  /** `setItem(k, v)`: an existing key keeps its place and takes the new
      value; a new key goes to the end. */
  function Put(es: seq<Entry>, k: string, v: string): (r: seq<Entry>)
    ensures Get(r, k) == Some(v)
    ensures forall k' :: k' != k ==> Get(r, k') == Get(es, k')
    ensures DistinctKeys(es) ==> DistinctKeys(r)
  {
    if es == [] then [Entry(k, v)]
    else if es[0].key == k then [Entry(k, v)] + es[1..]
    else [es[0]] + Put(es[1..], k, v)
  }

  /** `removeItem(k)`: the entry under `k` is gone, every other one stays. */
  function RemoveKey(es: seq<Entry>, k: string): (r: seq<Entry>)
    ensures Get(r, k).None?
    ensures forall k' :: k' != k ==> Get(r, k') == Get(es, k')
    ensures DistinctKeys(es) ==> DistinctKeys(r)
  {
    if es == [] then []
    else if es[0].key == k then RemoveKey(es[1..], k)
    else [es[0]] + RemoveKey(es[1..], k)
  }

  /** Writing a key and deleting it again is the same as deleting it: the
      quota probe leaves nothing behind but the absence of its own key. */
  lemma {:induction false} RemoveAfterPut(es: seq<Entry>, k: string, v: string)
    ensures RemoveKey(Put(es, k, v), k) == RemoveKey(es, k)
  {
    if es != [] && es[0].key != k {
      RemoveAfterPut(es[1..], k, v);
    }
  }

  /** Deleting a key that is not stored changes nothing. */
  lemma {:induction false} RemoveAbsent(es: seq<Entry>, k: string)
    requires Get(es, k).None?
    ensures RemoveKey(es, k) == es
  {
    if es != [] {
      RemoveAbsent(es[1..], k);
    }
  }

  // ---------------------------------------------------------------- selection

  /** The cleanup's test: a non-empty key that starts with `tmp_` or `cache_`,
      or holds `old` or `temp` anywhere. */
  predicate Selected(key: string): (sel: bool)
    ensures sel ==> |key| >= 3
    ensures key != [] && (StartsWith(key, "tmp_") || StartsWith(key, "cache_")) ==> sel
  {
    ContainsFits(key, "old");
    ContainsFits(key, "temp");
    key != []
    && (StartsWith(key, "tmp_") || StartsWith(key, "cache_") || Contains(key, "old") || Contains(key, "temp"))
  }

  lemma ContainsFits(s: string, t: string)
    ensures Contains(s, t) ==> |t| <= |s|
  {
    if Contains(s, t) { assert IndexOf(s, t).Some?; }
  }

  /** The substring tests are broad: a key that merely spells `old` inside a
      word is selected, and a key without any of the four marks is not. */
  lemma SelectionExamples()
    ensures Selected("tmp_upload") && Selected("cache_campaigns")
    ensures Selected("gold_tier")
    ensures !Selected("theme")
  {
    SelectsPrefixes();
    SelectsOldInsideWord();
    KeepsPlainKey();
  }

  lemma SelectsPrefixes()
    ensures Selected("tmp_upload") && Selected("cache_campaigns")
  {
    assert "tmp_upload"[..4] == "tmp_";
    assert "cache_campaigns"[..6] == "cache_";
  }

  lemma SelectsOldInsideWord()
    ensures Selected("gold_tier")
  {
    assert "old_tier"[..3] == "old";
    assert Contains("gold_tier", "old") by { assert "gold_tier"[1..] == "old_tier"; }
  }

  lemma KeepsPlainKey()
    ensures !Selected("theme")
  {
    assert 'o' in "old" && 'o' !in "theme";
    MissingLetter("theme", "old", 'o');
    assert 'p' in "temp" && 'p' !in "theme";
    MissingLetter("theme", "temp", 'p');
    assert "theme"[..4] != "tmp_" by { assert "theme"[1] == 'h'; }
    assert "theme"[..5] != "cache_"[..5] by { assert "theme"[0] == 't'; }
  }

  /** A text lacking one of the letters of `t` does not contain `t`. */
  lemma {:induction false} MissingLetter(s: string, t: string, c: char)
    requires c in t && c !in s
    ensures !Contains(s, t)
  {
    var j :| 0 <= j < |t| && t[j] == c;
    if |t| <= |s| {
      assert s[..|t|][j] == s[j] != c;
    }
    if s != [] { MissingLetter(s[1..], t, c); }
  }

  /** The keys the scan collects, in storage order. */
  function SelectedKeys(keys: seq<string>): (r: seq<string>)
    ensures forall k :: k in r <==> k in keys && Selected(k)
  {
    if keys == [] then []
    else SelectedKeys(keys[..|keys| - 1])
         + (if Selected(keys[|keys| - 1]) then [keys[|keys| - 1]] else [])
  }

  /** The store after the cleanup: the entries with unselected keys. */
  function Clean(es: seq<Entry>): (r: seq<Entry>)
    ensures forall k :: Get(r, k) == (if Selected(k) then None else Get(es, k))
    ensures DistinctKeys(es) ==> DistinctKeys(r)
  {
    if es == [] then []
    else if Selected(es[0].key) then Clean(es[1..])
    else [es[0]] + Clean(es[1..])
  }

  /** The entries whose keys are not in `ks`. */
  function Without(es: seq<Entry>, ks: seq<string>): (r: seq<Entry>)
    ensures forall k :: Get(r, k) == (if k in ks then None else Get(es, k))
  {
    if es == [] then []
    else if es[0].key in ks then Without(es[1..], ks)
    else [es[0]] + Without(es[1..], ks)
  }

  lemma {:induction false} WithoutNothing(es: seq<Entry>)
    ensures Without(es, []) == es
  {
    if es != [] { WithoutNothing(es[1..]); }
  }

  lemma {:induction false} RemoveKeyWithout(es: seq<Entry>, ks: seq<string>, k: string)
    ensures RemoveKey(Without(es, ks), k) == Without(es, ks + [k])
  {
    if es != [] {
      RemoveKeyWithout(es[1..], ks, k);
    }
  }

  /** Deleting the collected keys one by one is the cleanup. */
  lemma {:induction false} WithoutSelected(es: seq<Entry>, ks: seq<string>)
    requires forall i :: 0 <= i < |es| ==> (es[i].key in ks <==> Selected(es[i].key))
    ensures Without(es, ks) == Clean(es)
  {
    if es != [] {
      assert forall i :: 1 <= i < |es| ==> es[1..][i - 1] == es[i];
      WithoutSelected(es[1..], ks);
    }
  }

  /** Every entry stays in place relative to the others: the cleanup only
      deletes. */
  lemma {:induction false} CleanIsSubsequence(es: seq<Entry>)
    ensures IsSubsequence(Clean(es), es)
  {
    if es != [] {
      CleanIsSubsequence(es[1..]);
      if Selected(es[0].key) {
        if Clean(es[1..]) != [] {
          SubsequenceSkip(Clean(es[1..]), es[1..], es[0]);
        }
      }
      assert es == [es[0]] + es[1..];
    }
  }

  // ------------------------------------------------------------------- stores

  /** `localStorage` or `sessionStorage`. */
  class WebStorage {
    var entries: seq<Entry>

    ghost predicate Valid()
      reads this
    {
      DistinctKeys(entries)
    }

    constructor (entries: seq<Entry>)
      requires DistinctKeys(entries)
      ensures Valid() && this.entries == entries
    {
      this.entries := entries;
    }

    function Length(): nat
      reads this
    {
      |entries|
    }

    /** `key(i)`: null past the end. */
    function Key(i: nat): Option<string>
      reads this
    {
      if i < |entries| then Some(entries[i].key) else None
    }

    /** `setItem`; when the value does not fit the quota it throws and the
        store is unchanged. */
    method SetItem(k: string, v: string, fits: bool) returns (stored: bool)
      requires Valid()
      modifies this
      ensures Valid()
      ensures stored == fits
      ensures entries == if fits then Put(old(entries), k, v) else old(entries)
    {
      stored := fits;
      if fits {
        entries := Put(entries, k, v);
      }
    }

    method RemoveItem(k: string)
      requires Valid()
      modifies this
      ensures Valid()
      ensures entries == RemoveKey(old(entries), k)
    {
      entries := RemoveKey(entries, k);
    }

    method Clear()
      modifies this
      ensures Valid() && entries == []
    {
      entries := [];
    }
  }

  // ------------------------------------------------------------------ cleanup

  /** The first loop: walks the keys by index and collects the selected
      ones without touching the store. */
  method CollectKeys(store: WebStorage) returns (keysToRemove: seq<string>)
    ensures keysToRemove == SelectedKeys(KeysOf(store.entries))
  {
    keysToRemove := [];
    var i := 0;
    while i < store.Length()
      invariant 0 <= i <= |store.entries|
      invariant keysToRemove == SelectedKeys(KeysOf(store.entries)[..i])
    {
      var key := store.Key(i);
      if key.Some? && Selected(key.value) {
        keysToRemove := keysToRemove + [key.value];
      }
      assert KeysOf(store.entries)[..i + 1][..i] == KeysOf(store.entries)[..i];
      i := i + 1;
    }
    assert KeysOf(store.entries)[..i] == KeysOf(store.entries);
  }

  /** The second loop: `keysToRemove.forEach(key => removeItem(key))`. */
  method RemoveKeys(store: WebStorage, keys: seq<string>)
    requires store.Valid()
    modifies store
    ensures store.Valid()
    ensures store.entries == Without(old(store.entries), keys)
  {
    WithoutNothing(store.entries);
    var i := 0;
    while i < |keys|
      invariant 0 <= i <= |keys|
      invariant store.Valid()
      invariant store.entries == Without(old(store.entries), keys[..i])
    {
      RemoveKeyWithout(old(store.entries), keys[..i], keys[i]);
      assert keys[..i + 1] == keys[..i] + [keys[i]];
      store.RemoveItem(keys[i]);
      i := i + 1;
    }
    assert keys[..i] == keys;
  }

  /** `useStorageCleanup`'s effect. */
  method StorageCleanup(local: WebStorage, session: WebStorage)
    requires local != session
    requires local.Valid() && session.Valid()
    modifies local, session
    ensures local.Valid() && session.Valid()
    ensures local.entries == Clean(old(local.entries))
    ensures session.entries == if |old(session.entries)| > 50 then [] else old(session.entries)
  {
    var keysToRemove := CollectKeys(local);
    forall i | 0 <= i < |local.entries|
      ensures local.entries[i].key in keysToRemove <==> Selected(local.entries[i].key)
    {
      assert KeysOf(local.entries)[i] == local.entries[i].key;
    }
    WithoutSelected(local.entries, keysToRemove);
    RemoveKeys(local, keysToRemove);
    if session.Length() > 50 {
      session.Clear();
    }
  }

  const TestKey: string := "__storage_test__"
  const TestValue: string := "test"

  /** `checkStorageQuota`: `fits` says whether the probe's write stays within
      the quota. */
  method CheckStorageQuota(local: WebStorage, session: WebStorage, fits: bool) returns (ok: bool)
    requires local != session
    requires local.Valid() && session.Valid()
    modifies local, session
    ensures local.Valid() && session.Valid()
    ensures ok == fits
    ensures ok ==> local.entries == RemoveKey(old(local.entries), TestKey)
    ensures ok ==> session.entries == old(session.entries)
    ensures !ok ==> local.entries == [] && session.entries == []
  {
    var stored := local.SetItem(TestKey, TestValue, fits);
    if stored {
      local.RemoveItem(TestKey);
      RemoveAfterPut(old(local.entries), TestKey, TestValue);
      return true;
    }
    local.Clear();
    session.Clear();
    return false;
  }

  /** A successful probe on a store that did not hold the test key leaves it
      exactly as it was. */
  lemma ProbeLeavesStore(es: seq<Entry>)
    requires Get(es, TestKey).None?
    ensures RemoveKey(Put(es, TestKey, TestValue), TestKey) == es
  {
    RemoveAfterPut(es, TestKey, TestValue);
    RemoveAbsent(es, TestKey);
  }
}
