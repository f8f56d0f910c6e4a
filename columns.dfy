/**
 * `pr_add_product_column`: the product list's columns are a PHP array, an
 * ordered map from column key to label. The filter copies it entry by entry
 * and, right after the `name` column, adds the `pr_redirect` column.
 */
module Columns {

  type Columns = seq<(string, string)>

  const NameKey: string := "name"
  const RedirectKey: string := "pr_redirect"
  /** The column label (translation is not modelled). */
  const RedirectLabel: string := "Product Redirect"

  /** A PHP array never holds a key twice. */
  predicate UniqueKeys(cs: Columns) {
    forall i, j :: 0 <= i < j < |cs| ==> cs[i].0 != cs[j].0
  }

  predicate HasKey(cs: Columns, k: string) {
    exists i :: 0 <= i < |cs| && cs[i].0 == k
  }

  /** `$array[$key] = $value`: overwrite in place when the key is there, append otherwise. */
  function Put(cs: Columns, key: string, value: string): (r: Columns)
    ensures HasKey(cs, key) ==> |r| == |cs|
    ensures !HasKey(cs, key) ==> r == cs + [(key, value)]
    decreases |cs|
  {
    if cs == [] then [(key, value)]
    else if cs[0].0 == key then [(key, value)] + cs[1..]
    else
      assert HasKey(cs[1..], key) ==> HasKey(cs, key) by {
        if HasKey(cs[1..], key) {
          var i :| 0 <= i < |cs[1..]| && cs[1..][i].0 == key;
          assert cs[i + 1].0 == key;
        }
      }
      [cs[0]] + Put(cs[1..], key, value)
  }

  /** With unique keys, assigning to a key the array holds replaces that entry's value in place
      and leaves every other entry as it was. */
  lemma {:induction false} PutOverwritesInPlace(cs: Columns, key: string, value: string, i: nat)
    requires UniqueKeys(cs)
    requires i < |cs| && cs[i].0 == key
    ensures Put(cs, key, value) == cs[i := (key, value)]
    decreases |cs|
  {
    if i == 0 {
      assert [(key, value)] + cs[1..] == cs[0 := (key, value)];
    } else {
      assert cs[0].0 != cs[i].0;
      var tail := cs[1..];
      assert UniqueKeys(tail) by {
        forall a, b | 0 <= a < b < |tail| ensures tail[a].0 != tail[b].0 {
          assert tail[a] == cs[a + 1] && tail[b] == cs[b + 1];
        }
      }
      assert tail[i - 1] == cs[i];
      PutOverwritesInPlace(tail, key, value, i - 1);
      assert [cs[0]] + tail[i - 1 := (key, value)] == cs[i := (key, value)];
    }
  }

  /** Assigning to a PHP array keeps its keys unique. */
  lemma PutKeepsKeysUnique(cs: Columns, key: string, value: string)
    requires UniqueKeys(cs)
    ensures UniqueKeys(Put(cs, key, value))
  {
    var r := Put(cs, key, value);
    if HasKey(cs, key) {
      var k :| 0 <= k < |cs| && cs[k].0 == key;
      PutOverwritesInPlace(cs, key, value, k);
      forall i, j | 0 <= i < j < |r| ensures r[i].0 != r[j].0 {
        assert r[i].0 == cs[i].0 && r[j].0 == cs[j].0;
      }
    } else {
      forall i, j | 0 <= i < j < |r| ensures r[i].0 != r[j].0 {
        if j == |cs| {
          assert r[i] == cs[i];
        } else {
          assert r[i] == cs[i] && r[j] == cs[j];
        }
      }
    }
  }

  /** What the loop has built after copying `cs`. */
  function WithRedirectColumn(cs: Columns): Columns
    decreases |cs|
  {
    if cs == [] then []
    else
      var last := cs[|cs| - 1];
      var copied := Put(WithRedirectColumn(cs[..|cs| - 1]), last.0, last.1);
      if last.0 == NameKey then Put(copied, RedirectKey, RedirectLabel) else copied
  }

  /** The `foreach` over `$columns`, filling `$new_columns`. */
  method AddProductColumn(columns: Columns) returns (newColumns: Columns)
    ensures newColumns == WithRedirectColumn(columns)
  {
    newColumns := [];
    for i := 0 to |columns|
      invariant newColumns == WithRedirectColumn(columns[..i])
    {
      var (key, value) := columns[i];
      newColumns := Put(newColumns, key, value);
      if key == NameKey {
        newColumns := Put(newColumns, RedirectKey, RedirectLabel);
      }
      assert columns[..i + 1][..i] == columns[..i];
    }
    assert columns[..|columns|] == columns;
  }

  lemma KeysOfPrefix(cs: Columns, n: nat, k: string)
    requires n <= |cs|
    requires HasKey(cs[..n], k)
    ensures HasKey(cs, k)
  {
    var i :| 0 <= i < n && cs[..n][i].0 == k;
    assert cs[i].0 == k;
  }

  /** Without a `name` column, the columns come back exactly as they were. */
  lemma {:induction false} NoNameColumnUnchanged(cs: Columns)
    requires UniqueKeys(cs)
    requires !HasKey(cs, NameKey)
    ensures WithRedirectColumn(cs) == cs
    decreases |cs|
  {
    if cs != [] {
      var init, last := cs[..|cs| - 1], cs[|cs| - 1];
      assert UniqueKeys(init);
      assert !HasKey(init, NameKey) by {
        if HasKey(init, NameKey) { KeysOfPrefix(cs, |cs| - 1, NameKey); }
      }
      NoNameColumnUnchanged(init);
      assert !HasKey(init, last.0);
      assert last.0 != NameKey;
      assert init + [last] == cs;
    }
  }

  /** With a `name` column at position `k` and no `pr_redirect` column yet, every column keeps its
      place and label and `pr_redirect` is inserted immediately after `name`. */
  lemma InsertedAfterName(cs: Columns, k: nat)
    requires UniqueKeys(cs)
    requires k < |cs| && cs[k].0 == NameKey
    requires !HasKey(cs, RedirectKey)
    ensures WithRedirectColumn(cs) == cs[..k + 1] + [(RedirectKey, RedirectLabel)] + cs[k + 1..]
  {
    InsertedAfterNamePrefix(cs, k, |cs|);
    assert cs[..|cs|] == cs;
  }

  /** The result of the copying loop after its first `n` columns. */
  lemma {:induction false} InsertedAfterNamePrefix(cs: Columns, k: nat, n: nat)
    requires UniqueKeys(cs)
    requires k < |cs| && cs[k].0 == NameKey
    requires !HasKey(cs, RedirectKey)
    requires n <= |cs|
    ensures n <= k ==> WithRedirectColumn(cs[..n]) == cs[..n]
    ensures n > k ==> WithRedirectColumn(cs[..n]) == cs[..k + 1] + [(RedirectKey, RedirectLabel)] + cs[k + 1..n]
    decreases n
  {
    if n > 0 {
      InsertedAfterNamePrefix(cs, k, n - 1);
      LastKeyIsNew(cs, n);
      if n <= k {
        assert cs[n - 1].0 != NameKey;
        CopiedBeforeName(cs, n);
      } else if n == k + 1 {
        AbsentFromPrefix(cs, k + 1, RedirectKey);
        CopiedName(cs, k);
      } else {
        assert cs[n - 1].0 != NameKey && cs[n - 1].0 != RedirectKey;
        CopiedAfterName(cs, k, n);
      }
    }
  }

  /** `cs[..n]` as `WithRedirectColumn` splits it. */
  lemma LastStep(cs: Columns, n: nat)
    requires 0 < n <= |cs|
    ensures WithRedirectColumn(cs[..n]) ==
            var copied := Put(WithRedirectColumn(cs[..n - 1]), cs[n - 1].0, cs[n - 1].1);
            if cs[n - 1].0 == NameKey then Put(copied, RedirectKey, RedirectLabel) else copied
  {
    var prefix := cs[..n];
    assert prefix[..|prefix| - 1] == cs[..n - 1];
    assert prefix[|prefix| - 1] == cs[n - 1];
  }

  /** With unique keys, the key of column `n - 1` is not among the columns before it. */
  lemma LastKeyIsNew(cs: Columns, n: nat)
    requires UniqueKeys(cs)
    requires 0 < n <= |cs|
    ensures !HasKey(cs[..n - 1], cs[n - 1].0)
  {
    var init := cs[..n - 1];
    forall i | 0 <= i < n - 1 ensures init[i].0 != cs[n - 1].0 {
      assert init[i] == cs[i];
    }
  }

  /** A key that is absent is absent from every prefix. */
  lemma AbsentFromPrefix(cs: Columns, n: nat, key: string)
    requires n <= |cs| && !HasKey(cs, key)
    ensures !HasKey(cs[..n], key)
  {
    var prefix := cs[..n];
    forall i | 0 <= i < n ensures prefix[i].0 != key {
      assert prefix[i] == cs[i];
    }
  }

  lemma CopiedBeforeName(cs: Columns, n: nat)
    requires 0 < n <= |cs|
    requires !HasKey(cs[..n - 1], cs[n - 1].0) && cs[n - 1].0 != NameKey
    requires WithRedirectColumn(cs[..n - 1]) == cs[..n - 1]
    ensures WithRedirectColumn(cs[..n]) == cs[..n]
  {
    LastStep(cs, n);
    assert cs[..n - 1] + [cs[n - 1]] == cs[..n];
  }

  lemma CopiedName(cs: Columns, k: nat)
    requires k < |cs| && cs[k].0 == NameKey
    requires !HasKey(cs[..k], NameKey) && !HasKey(cs[..k + 1], RedirectKey)
    requires WithRedirectColumn(cs[..k]) == cs[..k]
    ensures WithRedirectColumn(cs[..k + 1]) == cs[..k + 1] + [(RedirectKey, RedirectLabel)] + cs[k + 1..k + 1]
  {
    LastStep(cs, k + 1);
    assert cs[..k] + [cs[k]] == cs[..k + 1];
    assert cs[k + 1..k + 1] == [];
  }

  lemma CopiedAfterName(cs: Columns, k: nat, n: nat)
    requires k + 1 < n <= |cs| && cs[k].0 == NameKey
    requires !HasKey(cs[..n - 1], cs[n - 1].0)
    requires cs[n - 1].0 != NameKey && cs[n - 1].0 != RedirectKey
    requires WithRedirectColumn(cs[..n - 1]) == cs[..k + 1] + [(RedirectKey, RedirectLabel)] + cs[k + 1..n - 1]
    ensures WithRedirectColumn(cs[..n]) == cs[..k + 1] + [(RedirectKey, RedirectLabel)] + cs[k + 1..n]
  {
    LastStep(cs, n);
    var last := cs[n - 1];
    var init := cs[..n - 1];
    var mid := cs[..k + 1] + [(RedirectKey, RedirectLabel)] + cs[k + 1..n - 1];
    forall i | 0 <= i < |mid| ensures mid[i].0 != last.0 {
      if i <= k {
        assert mid[i] == init[i];
      } else if i > k + 1 {
        assert mid[i] == init[i - 1];
      }
    }
    SliceSnoc(cs, k + 1, n);
    Regroup(cs[..k + 1] + [(RedirectKey, RedirectLabel)], cs[k + 1..n - 1], last);
  }

  lemma SliceSnoc(cs: Columns, lo: nat, hi: nat)
    requires lo < hi <= |cs|
    ensures cs[lo..hi] == cs[lo..hi - 1] + [cs[hi - 1]]
  {
  }

  lemma Regroup(a: Columns, b: Columns, c: (string, string))
    ensures a + b + [c] == a + (b + [c])
  {
  }
}
