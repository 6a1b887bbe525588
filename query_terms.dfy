/** The query-terms mapping that `_request_query` receives: a Python dict from
    predicate key to value, kept in insertion order, and its serialisation as
    space-separated `key=value` tokens. Values are held in their rendered form. */
module QueryTerms {
  import opened Wrappers
  import Seqs

  type Entry = (string, string)

  /** Python dict keys are unique. */
  ghost predicate DistinctKeys(e: seq<Entry>)
  {
    forall i, j :: 0 <= i < j < |e| ==> e[i].0 != e[j].0
  }

  predicate HasKey(e: seq<Entry>, k: string)
  {
    exists i :: 0 <= i < |e| && e[i].0 == k
  }

  /** Position of key `k` in insertion order. */
  function KeyIndex(e: seq<Entry>, k: string): (i: nat)
    requires HasKey(e, k)
    ensures i < |e| && e[i].0 == k && forall j :: 0 <= j < i ==> e[j].0 != k
  {
    if e[0].0 == k then 0
    else
      assert HasKey(e[1..], k) by { var m :| 0 <= m < |e| && e[m].0 == k; assert e[1..][m - 1].0 == k; }
      1 + KeyIndex(e[1..], k)
  }

  /** The dict as a Dafny map, forgetting the order. */
  function ToMap(e: seq<Entry>): map<string, string>
  {
    if e == [] then map[] else ToMap(e[..|e| - 1])[e[|e| - 1].0 := e[|e| - 1].1]
  }

  /** `d.update({k: v})`: an existing key keeps its position and takes the new value,
      a new key goes last. */
  function Upsert(e: seq<Entry>, k: string, v: string): (r: seq<Entry>)
    requires DistinctKeys(e)
    ensures DistinctKeys(r)
    ensures HasKey(e, k) ==> |r| == |e| && r[KeyIndex(e, k)] == (k, v)
    ensures HasKey(e, k) ==> forall i :: 0 <= i < |e| && i != KeyIndex(e, k) ==> r[i] == e[i]
    ensures !HasKey(e, k) ==> r == e + [(k, v)]
  {
    if HasKey(e, k) then e[KeyIndex(e, k) := (k, v)]
    else
      assert forall i :: 0 <= i < |e| ==> e[i].0 != k;
      e + [(k, v)]
  }

  /** Looking a key up in the ordered entries agrees with the map view. */
  lemma {:induction false} ToMapLookup(e: seq<Entry>, k: string)
    requires DistinctKeys(e)
    ensures k in ToMap(e) <==> HasKey(e, k)
    ensures HasKey(e, k) ==> ToMap(e)[k] == e[KeyIndex(e, k)].1
  {
    if e != [] {
      var init := e[..|e| - 1];
      ToMapLookup(init, k);
      if HasKey(e, k) && e[|e| - 1].0 != k {
        var i := KeyIndex(e, k);
        assert i < |e| - 1;
        assert init[i].0 == k;
        assert HasKey(init, k);
        assert e[KeyIndex(init, k)].0 == k;
      }
      if HasKey(init, k) { var m := KeyIndex(init, k); assert e[m].0 == k; }
      if HasKey(e, k) && e[|e| - 1].0 == k {
        var i := KeyIndex(e, k);
        assert i == |e| - 1;
      }
    }
  }

  /** After `update`, the updated key holds the new value. */
  lemma UpsertSameKey(e: seq<Entry>, k: string, v: string)
    requires DistinctKeys(e)
    ensures k in ToMap(Upsert(e, k, v)) && ToMap(Upsert(e, k, v))[k] == v
  {
    var r := Upsert(e, k, v);
    ToMapLookup(r, k);
    if HasKey(e, k) { assert r[KeyIndex(e, k)].0 == k; } else { assert r[|e|].0 == k; }
    assert HasKey(r, k);
    var i := KeyIndex(r, k);
    if HasKey(e, k) { assert i == KeyIndex(e, k); } else { assert i == |e|; }
  }

  /** After `update`, a key other than the updated one is looked up as before. */
  lemma UpsertOtherKey(e: seq<Entry>, k: string, v: string, x: string)
    requires DistinctKeys(e) && x != k
    ensures x in ToMap(Upsert(e, k, v)) <==> x in ToMap(e)
    ensures x in ToMap(e) ==> ToMap(Upsert(e, k, v))[x] == ToMap(e)[x]
  {
    var r := Upsert(e, k, v);
    ToMapLookup(r, x);
    ToMapLookup(e, x);
    if HasKey(r, x) {
      var i := KeyIndex(r, x);
      if HasKey(e, k) {
        assert i != KeyIndex(e, k) && r[i] == e[i];
      } else {
        assert i < |e| && e[i].0 == x;
      }
      assert HasKey(e, x);
    }
    if HasKey(e, x) {
      var j := KeyIndex(e, x);
      if HasKey(e, k) { assert j != KeyIndex(e, k) && r[j] == e[j]; } else { assert r[j] == e[j]; }
      assert HasKey(r, x);
      assert KeyIndex(r, x) == j;
    }
  }

  /** `update` is a map update: the key now holds the value and every other key is unchanged. */
  lemma UpsertIsMapUpdate(e: seq<Entry>, k: string, v: string)
    requires DistinctKeys(e)
    ensures ToMap(Upsert(e, k, v)) == ToMap(e)[k := v]
  {
    UpsertSameKey(e, k, v);
    forall x | x != k
      ensures (x in ToMap(Upsert(e, k, v)) <==> x in ToMap(e))
      ensures x in ToMap(e) ==> ToMap(Upsert(e, k, v))[x] == ToMap(e)[x]
    {
      UpsertOtherKey(e, k, v, x);
    }
  }

  /** `f'{k}={v}'`. */
  function Token(entry: Entry): string
  {
    entry.0 + "=" + entry.1
  }

  /** `[f'{k}={v}' for k, v in d.items()]`. */
  function Tokens(e: seq<Entry>): (t: seq<string>)
    ensures |t| == |e|
  {
    seq(|e|, i requires 0 <= i < |e| => Token(e[i]))
  }

  /** The query string of a request body: tokens joined by single spaces. */
  function Serialise(e: seq<Entry>): string
  {
    Seqs.Join(' ', Tokens(e))
  }

  /** After merging `type=d` the terms hold exactly one `type` entry, whose token is
      `type=d`: at the key's earlier position when it was there, otherwise last. */
  lemma TypeTermUnique(e: seq<Entry>)
    requires DistinctKeys(e)
    ensures var r := Upsert(e, "type", "d");
      var at := if HasKey(e, "type") then KeyIndex(e, "type") else |e|;
      at < |r| && Tokens(r)[at] == "type=d" && "type" in ToMap(r) && ToMap(r)["type"] == "d" &&
      forall j :: 0 <= j < |r| && j != at ==> r[j].0 != "type"
  {
    var r := Upsert(e, "type", "d");
    var at := if HasKey(e, "type") then KeyIndex(e, "type") else |e|;
    assert r[at] == ("type", "d");
    assert Tokens(r)[at] == Token(r[at]);
    UpsertIsMapUpdate(e, "type", "d");
    forall j | 0 <= j < |r| && j != at ensures r[j].0 != "type" {
      assert r[at].0 == "type";
    }
  }

  /** A `d.update(...)` applied to a Python dict object owned by the caller. */
  class TermsDict {
    var entries: seq<Entry>

    ghost predicate Valid()
      reads this
    {
      DistinctKeys(entries)
    }

    constructor (init: seq<Entry>)
      requires DistinctKeys(init)
      ensures Valid() && entries == init
    {
      entries := init;
    }

    method Update(k: string, v: string)
      requires Valid()
      modifies this
      ensures Valid()
      ensures entries == Upsert(old(entries), k, v)
    {
      entries := Upsert(entries, k, v);
    }
  }
}
