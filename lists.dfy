/**
 * The two array operations the mobile screens apply to device lists:
 * `list.find(d => d.id === id)` and `list.filter(d => d.id !== id)`.
 */
module DeviceLists {
  import opened Wrappers
  import opened Protocol

  /** No two listed devices share an id. */
  ghost predicate UniqueIds(list: seq<Device>) {
    forall i, j :: 0 <= i < j < |list| ==> list[i].id != list[j].id
  }

  /** `find`: the first listed device with the id, if any. */
  function Find(list: seq<Device>, id: string): (r: Option<Device>)
    ensures r.Some? <==> exists i :: 0 <= i < |list| && list[i].id == id
    ensures r.Some? ==> exists i :: 0 <= i < |list| && list[i] == r.value && r.value.id == id
                                    && forall j :: 0 <= j < i ==> list[j].id != id
    decreases |list|
  {
    if list == [] then None
    else if list[0].id == id then Some(list[0])
    else
      var r := Find(list[1..], id);
      assert forall i :: 1 <= i < |list| ==> list[i] == list[1..][i - 1];
      r
  }

  /** `filter(d => d.id !== id)`: the listed devices with another id, in order. */
  function Without(list: seq<Device>, id: string): (r: seq<Device>)
    ensures |r| <= |list|
    decreases |list|
  {
    if list == [] then []
    else if list[0].id == id then Without(list[1..], id)
    else [list[0]] + Without(list[1..], id)
  }

  /** The filter keeps exactly the listed devices with another id. */
  lemma {:induction false} WithoutMembers(list: seq<Device>, id: string)
    ensures forall d :: d in Without(list, id) <==> d in list && d.id != id
    decreases |list|
  {
    if list != [] {
      WithoutMembers(list[1..], id);
      assert list == [list[0]] + list[1..];
    }
  }

  /** Filtering out an id no device has changes nothing. */
  lemma {:induction false} WithoutAbsent(list: seq<Device>, id: string)
    requires Find(list, id).None?
    ensures Without(list, id) == list
    decreases |list|
  {
    if list != [] {
      assert list[0].id != id;
      assert Find(list[1..], id).None? by {
        forall i | 0 <= i < |list[1..]| ensures list[1..][i].id != id {
          assert list[1..][i] == list[i + 1];
        }
      }
      WithoutAbsent(list[1..], id);
      assert list == [list[0]] + list[1..];
    }
  }

  /** With unique ids, the tail has unique ids and none of them is the head's. */
  lemma TailUnique(list: seq<Device>)
    requires UniqueIds(list) && list != []
    ensures UniqueIds(list[1..])
    ensures Find(list[1..], list[0].id).None?
  {
    var tail := list[1..];
    forall i, j | 0 <= i < j < |tail| ensures tail[i].id != tail[j].id {
      assert tail[i] == list[i + 1] && tail[j] == list[j + 1];
    }
    forall i | 0 <= i < |tail| ensures tail[i].id != list[0].id {
      assert tail[i] == list[i + 1];
    }
  }

  /** With unique ids, filtering out the head's id removes just the head. */
  lemma WithoutHead(list: seq<Device>)
    requires UniqueIds(list) && list != []
    ensures Without(list, list[0].id) == list[1..]
  {
    TailUnique(list);
    WithoutAbsent(list[1..], list[0].id);
  }

  /** A head with another id is kept in front of the filtered tail. */
  lemma WithoutCons(h: Device, tail: seq<Device>, id: string)
    requires h.id != id
    ensures Without([h] + tail, id) == [h] + Without(tail, id)
  {
    assert ([h] + tail)[1..] == tail;
  }

  lemma SpliceTail(list: seq<Device>, k: nat)
    requires 0 < k < |list|
    ensures list[..k] + list[k + 1..] == [list[0]] + (list[1..][..k - 1] + list[1..][k..])
  {
    assert list[..k] == [list[0]] + list[1..][..k - 1];
    assert list[k + 1..] == list[1..][k..];
  }

  /** With unique ids, filtering out a listed id removes exactly that one device and keeps the order of the rest. */
  lemma {:induction false} WithoutRemovesOne(list: seq<Device>, k: nat)
    requires UniqueIds(list) && k < |list|
    ensures Without(list, list[k].id) == list[..k] + list[k + 1..]
    decreases k
  {
    if k == 0 {
      WithoutHead(list);
      assert list[..0] + list[1..] == list[1..];
    } else {
      TailUnique(list);
      assert list[1..][k - 1] == list[k];
      WithoutRemovesOne(list[1..], k - 1);
      assert list[0].id != list[k].id;
      assert list == [list[0]] + list[1..];
      WithoutCons(list[0], list[1..], list[k].id);
      SpliceTail(list, k);
    }
  }

  /** Appending a device whose id is not listed keeps the ids unique. */
  lemma AppendKeepsUnique(list: seq<Device>, d: Device)
    requires UniqueIds(list) && Find(list, d.id).None?
    ensures UniqueIds(list + [d])
  {
  }

  /** Filtering keeps the ids unique. */
  lemma {:induction false} WithoutKeepsUnique(list: seq<Device>, id: string)
    requires UniqueIds(list)
    ensures UniqueIds(Without(list, id))
    decreases |list|
  {
    if list != [] {
      var tail := list[1..];
      TailUnique(list);
      WithoutKeepsUnique(tail, id);
      if list[0].id != id {
        var r := Without(list, id);
        assert r == [list[0]] + Without(tail, id);
        WithoutMembers(tail, id);
        forall j | 0 < j < |r| ensures r[0].id != r[j].id {
          assert r[j] in Without(tail, id);
          assert r[j] in tail;
          var m :| 0 <= m < |tail| && tail[m] == r[j];
          assert list[m + 1] == r[j];
        }
      }
    }
  }
}
