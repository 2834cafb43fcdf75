/**
 * The weight dictionaries of the optimiser: a plain JavaScript object `{ [key: string]: number }`.
 * Its string keys enumerate in insertion order (`Object.keys`, `Object.values`, `Object.entries`),
 * so it is modelled as a sequence of entries with distinct keys, oldest first.
 */
module WeightMap {
  import opened Collections

  datatype Entry = Entry(key: string, value: real)

  type Dict = seq<Entry>

  /** `Object.keys(d)`. */
  function Keys(d: Dict): (ks: seq<string>)
    ensures |ks| == |d| && forall i :: 0 <= i < |d| ==> ks[i] == d[i].key
  {
    seq(|d|, i requires 0 <= i < |d| => d[i].key)
  }

  /** `Object.values(d)`. */
  function Values(d: Dict): (vs: seq<real>)
    ensures |vs| == |d| && forall i :: 0 <= i < |d| ==> vs[i] == d[i].value
  {
    seq(|d|, i requires 0 <= i < |d| => d[i].value)
  }

  /** The dictionary whose keys are `ks` and whose values are `vs`, position by position. */
  predicate Pairs(d: Dict, ks: seq<string>, vs: seq<real>) {
    Keys(d) == ks && Values(d) == vs
  }

  /**
   * `d[k] = v`: a key already present keeps its place and takes the new value; a new key is
   * added last.
   */
  function Put(d: Dict, k: string, v: real): (r: Dict)
    ensures Entry(k, v) in r
    ensures |d| <= |r| <= |d| + 1
  {
    if d == [] then [Entry(k, v)]
    else if d[0].key == k then [Entry(k, v)] + d[1..]
    else [d[0]] + Put(d[1..], k, v)
  }

  lemma {:induction false} PutKeys(d: Dict, k: string, v: real)
    ensures Keys(Put(d, k, v)) == if k in Keys(d) then Keys(d) else Keys(d) + [k]
  {
    if d == [] {
      assert Keys([Entry(k, v)]) == [k];
    } else {
      var rest := d[1..];
      assert d == [d[0]] + rest;
      KeysCons(d[0], rest);
      if d[0].key == k {
        KeysCons(Entry(k, v), rest);
      } else {
        PutKeys(rest, k, v);
        KeysCons(d[0], Put(rest, k, v));
        assert k in Keys(d) <==> k in Keys(rest);
      }
    }
  }

  /** Assigning `d[k]` keeps every entry under another key. */
  lemma {:induction false} PutKeepsOthers(d: Dict, k: string, v: real, e: Entry)
    requires e in d && e.key != k
    ensures e in Put(d, k, v)
  {
    if d[0] != e {
      assert e in d[1..];
      PutKeepsOthers(d[1..], k, v, e);
    }
  }

  lemma KeysCons(e: Entry, d: Dict)
    ensures Keys([e] + d) == [e.key] + Keys(d)
  {
  }

  /** A key not yet present is appended after every existing entry. */
  lemma {:induction false} PutFresh(d: Dict, k: string, v: real)
    requires k !in Keys(d)
    ensures Put(d, k, v) == d + [Entry(k, v)]
  {
    if d != [] {
      var rest := d[1..];
      assert d == [d[0]] + rest;
      KeysCons(d[0], rest);
      PutFresh(rest, k, v);
      assert [d[0]] + (rest + [Entry(k, v)]) == d + [Entry(k, v)];
    }
  }

  /** Assigning into a dictionary never creates a second entry for a key. */
  lemma PutKeepsKeysDistinct(d: Dict, k: string, v: real)
    requires Distinct(Keys(d))
    ensures Distinct(Keys(Put(d, k, v)))
  {
    PutKeys(d, k, v);
  }

  /**
   * `ks.forEach((k, i) => { d[k] = vs[i] })` on an empty object: the assignments in order,
   * a later duplicate key overwriting the earlier value in the earlier place.
   */
  function Fill(ks: seq<string>, vs: seq<real>): (d: Dict)
    requires |ks| == |vs|
    ensures |d| <= |ks|
    ensures ks != [] ==> Entry(ks[|ks| - 1], vs[|vs| - 1]) in d
  {
    if ks == [] then [] else Put(Fill(ks[..|ks| - 1], vs[..|vs| - 1]), ks[|ks| - 1], vs[|vs| - 1])
  }

  /** One more assignment at the end of the walk. */
  lemma FillAppend(ks: seq<string>, vs: seq<real>, k: string, v: real)
    requires |ks| == |vs|
    ensures Fill(ks + [k], vs + [v]) == Put(Fill(ks, vs), k, v)
  {
    assert (ks + [k])[..|ks|] == ks;
    assert (vs + [v])[..|vs|] == vs;
  }

  lemma AppendEntry(d: Dict, e: Entry)
    ensures Keys(d + [e]) == Keys(d) + [e.key] && Values(d + [e]) == Values(d) + [e.value]
  {
  }

  /** The walk after `i + 1` assignments is the walk after `i` followed by assignment `i`. */
  lemma FillPrefix(ks: seq<string>, vs: seq<real>, i: nat)
    requires |ks| == |vs| && i < |ks|
    ensures Fill(ks[..i + 1], vs[..i + 1]) == Put(Fill(ks[..i], vs[..i]), ks[i], vs[i])
  {
    assert ks[..i + 1][..i] == ks[..i];
    assert vs[..i + 1][..i] == vs[..i];
  }

  /** The keys of a filled dictionary are exactly the keys assigned, each once. */
  lemma {:induction false} FillKeys(ks: seq<string>, vs: seq<real>, k: string)
    requires |ks| == |vs|
    ensures Distinct(Keys(Fill(ks, vs)))
    ensures k in Keys(Fill(ks, vs)) <==> k in ks
  {
    if ks != [] {
      var ks', vs' := ks[..|ks| - 1], vs[..|vs| - 1];
      FillKeys(ks', vs', k);
      PutKeys(Fill(ks', vs'), ks[|ks| - 1], vs[|vs| - 1]);
      InInitOrLast(ks, k);
    }
  }

  lemma InInitOrLast(ks: seq<string>, k: string)
    requires ks != []
    ensures k in ks <==> k in ks[..|ks| - 1] || k == ks[|ks| - 1]
  {
    assert ks == ks[..|ks| - 1] + [ks[|ks| - 1]];
  }

  /** The filled dictionary has one key per distinct assigned key, and no other. */
  lemma FillKeySet(ks: seq<string>, vs: seq<real>)
    requires |ks| == |vs|
    ensures Distinct(Keys(Fill(ks, vs)))
    ensures forall k :: k in Keys(Fill(ks, vs)) <==> k in ks
  {
    FillKeys(ks, vs, "");
    forall k ensures k in Keys(Fill(ks, vs)) <==> k in ks {
      FillKeys(ks, vs, k);
    }
  }

  /** With no repeated key, every assignment lands in its own entry, in order. */
  lemma {:induction false} FillDistinct(ks: seq<string>, vs: seq<real>)
    requires |ks| == |vs| && Distinct(ks)
    ensures Pairs(Fill(ks, vs), ks, vs)
  {
    if ks != [] {
      var ks', vs', k, v := ks[..|ks| - 1], vs[..|vs| - 1], ks[|ks| - 1], vs[|vs| - 1];
      DistinctInit(ks);
      FillDistinct(ks', vs');
      var d' := Fill(ks', vs');
      PutFresh(d', k, v);
      PairsAppend(d', ks', vs', Entry(k, v));
      assert ks == ks' + [k] && vs == vs' + [v];
    }
  }

  lemma DistinctInit(ks: seq<string>)
    requires Distinct(ks) && ks != []
    ensures Distinct(ks[..|ks| - 1]) && ks[|ks| - 1] !in ks[..|ks| - 1]
  {
    var ks' := ks[..|ks| - 1];
    forall j | 0 <= j < |ks'| ensures ks'[j] != ks[|ks| - 1] {
      assert ks'[j] == ks[j];
    }
  }

  lemma PairsAppend(d: Dict, ks: seq<string>, vs: seq<real>, e: Entry)
    requires Pairs(d, ks, vs)
    ensures Pairs(d + [e], ks + [e.key], vs + [e.value])
  {
    AppendEntry(d, e);
  }

  /** Every value divided by `t`, in place: `Object.keys(d).forEach(k => { d[k] = d[k] / t })`. */
  function Scale(d: Dict, t: real): (r: Dict)
    requires t != 0.0
    ensures Keys(r) == Keys(d)
    ensures Values(r) == DivideAll(Values(d), t)
  {
    seq(|d|, i requires 0 <= i < |d| => Entry(d[i].key, d[i].value / t))
  }
}
