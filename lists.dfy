/** The array operations the designer and the storage service use: findIndex, splice and index assignment. */
module Lists {

  /** `ids.findIndex(x => x === id)`: the first index holding `id`, or -1. */
  function FirstIndex(ids: seq<string>, id: string): (r: int)
    ensures -1 <= r < |ids|
    ensures r == -1 <==> id !in ids
    ensures r >= 0 ==> ids[r] == id && id !in ids[..r]
  {
    if |ids| == 0 then -1
    else if ids[0] == id then 0
    else
      var r := FirstIndex(ids[1..], id);
      assert r >= 0 ==> ids[1..][..r] == ids[1..r + 1];
      if r == -1 then -1 else r + 1
  }

  /** `s.splice(i, 1)` */
  function RemoveAt<T>(s: seq<T>, i: nat): (r: seq<T>)
    requires i < |s|
    ensures |r| == |s| - 1
    ensures forall k :: 0 <= k < i ==> r[k] == s[k]
    ensures forall k :: i <= k < |r| ==> r[k] == s[k + 1]
  {
    s[..i] + s[i + 1..]
  }

  /** No id occurs twice. */
  predicate Unique(ids: seq<string>) {
    forall i, j :: 0 <= i < j < |ids| ==> ids[i] != ids[j]
  }

  /** Removing an entry keeps the remaining ids unique, and the removed id is then gone. */
  lemma RemoveKeepsUnique(ids: seq<string>, i: nat)
    requires i < |ids| && Unique(ids)
    ensures Unique(RemoveAt(ids, i))
    ensures ids[i] !in RemoveAt(ids, i)
  {
    var r := RemoveAt(ids, i);
    forall a, b | 0 <= a < b < |r| ensures r[a] != r[b] {
      var a' := if a < i then a else a + 1;
      var b' := if b < i then b else b + 1;
      assert r[a] == ids[a'] && r[b] == ids[b'];
    }
  }

  /** Appending an id not present keeps the ids unique. */
  lemma AppendKeepsUnique(ids: seq<string>, id: string)
    requires Unique(ids) && id !in ids
    ensures Unique(ids + [id])
  {
    var r := ids + [id];
    forall a, b | 0 <= a < b < |r| ensures r[a] != r[b] {
      if b == |ids| {
        assert r[a] == ids[a];
      }
    }
  }
}
