/** A JavaScript object used as a keyed record (`Record<string, string>`, a
    headers object, a URLSearchParams initialiser), kept as its entries in
    `Object.entries` order. `Put` is `{ ...r, [k]: v }` and `Spread` is
    `{ ...a, ...b }`. */
module Records {
  import opened Wrappers

  type Entries = seq<(string, string)>

  function KeySet(r: Entries): set<string> {
    set i | 0 <= i < |r| :: r[i].0
  }

  /** `Object.keys(r)`. */
  function Keys(r: Entries): (ks: seq<string>)
    ensures |ks| == |r|
  {
    if r == [] then [] else [r[0].0] + Keys(r[1..])
  }

  /** No key occurs twice, as in every JavaScript object. */
  predicate UniqueKeys(r: Entries) {
    forall i, j :: 0 <= i < j < |r| ==> r[i].0 != r[j].0
  }

  /** `r[k]`, with `None` for a missing property. */
  function Get(r: Entries, k: string): (o: Option<string>)
    ensures o.Some? <==> k in KeySet(r)
    ensures o.Some? ==> (k, o.value) in r
  {
    if r == [] then None
    else if r[0].0 == k then Some(r[0].1)
    else
      var o := Get(r[1..], k);
      assert KeySet(r) == {r[0].0} + KeySet(r[1..]) by {
        forall x | x in KeySet(r) ensures x in {r[0].0} + KeySet(r[1..]) {
          var i :| 0 <= i < |r| && r[i].0 == x;
          if i > 0 { assert r[1..][i - 1].0 == x; }
        }
      }
      o
  }

  /** `{ ...r, [k]: v }`: an existing property keeps its place and takes the
      new value; a new one goes last. */
  function Put(r: Entries, k: string, v: string): (r': Entries)
    ensures Get(r', k) == Some(v)
    ensures forall k' :: k' != k ==> Get(r', k') == Get(r, k')
    ensures KeySet(r') == KeySet(r) + {k}
  {
    if r == [] then [(k, v)]
    else if r[0].0 == k then
      var r' := [(k, v)] + r[1..];
      assert r'[1..] == r[1..];
      KeySetSplit(r);
      KeySetSplit(r');
      r'
    else
      var tail := Put(r[1..], k, v);
      var r' := [r[0]] + tail;
      assert r'[1..] == tail;
      KeySetSplit(r);
      KeySetSplit(r');
      r'
  }

  /** `Put` keeps the order of existing properties and appends a new one. */
  lemma {:induction false} PutKeys(r: Entries, k: string, v: string)
    ensures k in KeySet(r) ==> Keys(Put(r, k, v)) == Keys(r)
    ensures k !in KeySet(r) ==> Keys(Put(r, k, v)) == Keys(r) + [k]
  {
    if r != [] && r[0].0 != k {
      var tail := Put(r[1..], k, v);
      var r' := Put(r, k, v);
      assert r'[1..] == tail;
      PutKeys(r[1..], k, v);
      KeySetSplit(r);
    } else if r != [] {
      assert Put(r, k, v)[1..] == r[1..];
    }
  }

  /** `Put` never duplicates a key. */
  lemma {:induction false} PutUnique(r: Entries, k: string, v: string)
    requires UniqueKeys(r)
    ensures UniqueKeys(Put(r, k, v))
  {
    var r' := Put(r, k, v);
    if r != [] && r[0].0 != k {
      var tail := Put(r[1..], k, v);
      assert r'[1..] == tail;
      UniqueTail(r);
      PutUnique(r[1..], k, v);
      forall i, j | 0 <= i < j < |r'| ensures r'[i].0 != r'[j].0 {
        if i == 0 {
          assert tail[j - 1].0 in KeySet(tail);
        } else {
          assert r'[i] == tail[i - 1] && r'[j] == tail[j - 1];
        }
      }
    } else if r != [] {
      assert forall i :: 0 <= i < |r| ==> r'[i].0 == r[i].0;
    }
  }

  /** A second `Put` of the same key overwrites the first in place. */
  lemma {:induction false} PutPut(r: Entries, k: string, v1: string, v2: string)
    ensures Put(Put(r, k, v1), k, v2) == Put(r, k, v2)
  {
    if r != [] && r[0].0 != k {
      PutPut(r[1..], k, v1, v2);
      assert Put(r, k, v1)[1..] == Put(r[1..], k, v1);
    }
  }

  /** `{ ...a, ...b }`: the properties of `b` are put into `a` one by one, in
      order. */
  function Spread(a: Entries, b: Entries): (r: Entries)
    ensures KeySet(r) == KeySet(a) + KeySet(b)
    decreases |b|
  {
    if b == [] then a
    else Spread(Put(a, b[0].0, b[0].1), b[1..])
  }

  lemma {:induction false} UniqueTail(b: Entries)
    requires UniqueKeys(b) && b != []
    ensures UniqueKeys(b[1..])
    ensures b[0].0 !in KeySet(b[1..])
  {
    forall i, j | 0 <= i < j < |b[1..]| ensures b[1..][i].0 != b[1..][j].0 {
      assert b[1..][i] == b[i + 1] && b[1..][j] == b[j + 1];
    }
  }

  lemma KeySetSplit(b: Entries)
    requires b != []
    ensures KeySet(b) == {b[0].0} + KeySet(b[1..])
  {
    forall x | x in KeySet(b) ensures x in {b[0].0} + KeySet(b[1..]) {
      var i :| 0 <= i < |b| && b[i].0 == x;
      if i > 0 { assert b[1..][i - 1].0 == x; }
    }
    forall x | x in KeySet(b[1..]) ensures x in KeySet(b) {
      var i :| 0 <= i < |b[1..]| && b[1..][i].0 == x;
      assert b[i + 1].0 == x;
    }
  }

  /** After `{ ...a, ...b }` every key of `b` reads `b`'s value and every other
      key reads `a`'s: the later object wins on a collision. */
  lemma {:induction false} SpreadGet(a: Entries, b: Entries, k: string)
    requires UniqueKeys(b)
    ensures Get(Spread(a, b), k) == if k in KeySet(b) then Get(b, k) else Get(a, k)
    decreases |b|
  {
    if b != [] {
      UniqueTail(b);
      KeySetSplit(b);
      SpreadGet(Put(a, b[0].0, b[0].1), b[1..], k);
    }
  }

  /** `SpreadGet` for every key at once. */
  lemma SpreadGetAll(a: Entries, b: Entries)
    requires UniqueKeys(b)
    ensures forall k :: Get(Spread(a, b), k) == if k in KeySet(b) then Get(b, k) else Get(a, k)
  {
    forall k ensures Get(Spread(a, b), k) == if k in KeySet(b) then Get(b, k) else Get(a, k) {
      SpreadGet(a, b, k);
    }
  }

  /** Spreading into an object yields an object: no key is duplicated, and the
      keys are those of both sides. */
  lemma {:induction false} SpreadKeys(a: Entries, b: Entries)
    ensures UniqueKeys(a) ==> UniqueKeys(Spread(a, b))
    ensures KeySet(Spread(a, b)) == KeySet(a) + KeySet(b)
    decreases |b|
  {
    if b != [] {
      KeySetSplit(b);
      if UniqueKeys(a) { PutUnique(a, b[0].0, b[0].1); }
      SpreadKeys(Put(a, b[0].0, b[0].1), b[1..]);
    }
  }

  /** Keys already present keep their position; keys new to `a` follow. */
  lemma {:induction false} SpreadKeepsPrefix(a: Entries, b: Entries)
    ensures |Spread(a, b)| >= |a|
    ensures Keys(Spread(a, b))[..|a|] == Keys(a)
    decreases |b|
  {
    if b != [] {
      var a' := Put(a, b[0].0, b[0].1);
      PutKeys(a, b[0].0, b[0].1);
      SpreadKeepsPrefix(a', b[1..]);
      assert Keys(a')[..|a|] == Keys(a);
      assert Keys(Spread(a, b))[..|a|] == Keys(Spread(a', b[1..]))[..|a'|][..|a|];
    }
  }
}
