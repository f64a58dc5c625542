/**
 * A dispatch table: switch names in a fixed order, each with the kind of switch
 * it introduces. A token is dispatched to the first entry whose name it starts with.
 */
module SwitchTables {
  import opened Wrappers
  import opened Text

  /** The `if … else if …` chain over the table: the kind of the first entry `s` starts with. */
  function Lookup<K>(s: string, table: seq<(string, K)>): Option<K> {
    if table == [] then None
    else if StartsWith(s, table[0].0) then Some(table[0].1)
    else Lookup(s, table[1..])
  }

  /** The position of the first entry that `s` starts with, or -1 when there is none. */
  function FirstMatchIndex<K>(s: string, table: seq<(string, K)>): (r: int)
    ensures -1 <= r < |table|
    ensures r == -1 ==> forall i :: 0 <= i < |table| ==> !StartsWith(s, table[i].0)
    ensures r >= 0 ==> StartsWith(s, table[r].0)
    ensures r >= 0 ==> forall j :: 0 <= j < r ==> !StartsWith(s, table[j].0)
  {
    if table == [] then -1
    else if StartsWith(s, table[0].0) then 0
    else
      var k := FirstMatchIndex(s, table[1..]);
      if k == -1 then -1 else k + 1
  }

  /** The chain finds exactly the first matching entry, and nothing when no entry matches. */
  lemma {:induction false} LookupIsFirstMatch<K>(s: string, table: seq<(string, K)>)
    ensures var i := FirstMatchIndex(s, table);
      Lookup(s, table) == if i < 0 then None else Some(table[i].1)
    decreases |table|
  {
    if table != [] && !StartsWith(s, table[0].0) {
      LookupIsFirstMatch(s, table[1..]);
    }
  }

  /** `a` and `b` differ at position `k`, which both have. */
  predicate DifferAt(a: string, b: string, k: nat) {
    k < |a| && k < |b| && a[k] != b[k]
  }

  /** Neither of `a` and `b` is a prefix of the other. */
  ghost predicate Diverge(a: string, b: string) {
    exists k: nat :: DifferAt(a, b, k)
  }

  /** No name in the table begins a later name, nor is begun by one. */
  ghost predicate Unshadowed<K>(table: seq<(string, K)>) {
    forall j, i :: 0 <= j < i < |table| ==> Diverge(table[j].0, table[i].0)
  }

  /** A string beginning with `b` does not begin with a name that diverges from `b`. */
  lemma DivergeNotPrefix(a: string, b: string, y: string)
    requires Diverge(a, b)
    ensures !StartsWith(b + y, a)
  {
    var k: nat :| DifferAt(a, b, k);
    assert |a| <= |b + y| ==> (b + y)[..|a|][k] == b[k];
  }

  /**
   * In an unshadowed table, a string beginning with the name of entry `i` is
   * looked up to that entry: no earlier entry catches it first.
   */
  lemma {:induction false} LookupOwnName<K>(table: seq<(string, K)>, i: nat, y: string)
    requires i < |table| && Unshadowed(table)
    ensures Lookup(table[i].0 + y, table) == Some(table[i].1)
    decreases i
  {
    var s := table[i].0 + y;
    if i == 0 {
      assert s[..|table[0].0|] == table[0].0;
    } else {
      DivergeNotPrefix(table[0].0, table[i].0, y);
      var tail := table[1..];
      assert Unshadowed(tail) by {
        forall j, k | 0 <= j < k < |tail|
          ensures Diverge(tail[j].0, tail[k].0)
        {
          assert tail[j] == table[j + 1] && tail[k] == table[k + 1];
        }
      }
      assert tail[i - 1] == table[i];
      LookupOwnName(tail, i - 1, y);
    }
  }
}
