/** The storage service behind both block layers: blocks are staged under an id
    and a later commit names, in order, the ids that make up the blob. */
module Storage {
  import opened Bytes

  /** Block ids are drawn at random in the program; here a counter hands out
      ids that were never used before. */
  type Id = nat

  datatype Stored = Stored(id: Id, data: bytes)

  /** Storage takes no longer list. */
  const MAX_BLOCKS: nat := 50000

  datatype Lookup = Missing | Found(data: bytes)

  /** `flat` is the content of a blob that was uploaded in one request and so
      has no block list. */
  datatype Store = Store(committed: seq<Stored>, flat: bytes, staged: map<Id, bytes>, nextId: Id)

  /** The layout opening for writing accepts: all blocks full but the last, which
      may be shorter. */
  predicate ValidList(l: seq<Stored>, bs: nat) {
    forall k | 0 <= k < |l| :: if k < |l| - 1 then |l[k].data| == bs else |l[k].data| <= bs
  }

  function Concat(blocks: seq<Stored>): bytes {
    if blocks == [] then [] else Concat(blocks[..|blocks| - 1]) + blocks[|blocks| - 1].data
  }

  function Content(st: Store): bytes {
    if st.committed == [] then st.flat else Concat(st.committed)
  }

  function FindBlock(blocks: seq<Stored>, id: Id): Lookup {
    if blocks == [] then Missing
    else if blocks[0].id == id then Found(blocks[0].data)
    else FindBlock(blocks[1..], id)
  }

  /** Block lookup at commit time: an uncommitted block wins over a committed one. */
  function Find(st: Store, id: Id): Lookup {
    if id in st.staged then Found(st.staged[id]) else FindBlock(st.committed, id)
  }

  function Stage(st: Store, id: Id, data: bytes): Store {
    st.(staged := st.staged[id := data])
  }

  predicate Known(st: Store, ids: seq<Id>) {
    forall i | 0 <= i < |ids| :: Find(st, ids[i]).Found?
  }

  function Pick(st: Store, ids: seq<Id>): (r: seq<Stored>)
    requires Known(st, ids)
    ensures |r| == |ids|
    ensures forall i | 0 <= i < |ids| :: r[i].id == ids[i] && Find(st, ids[i]) == Found(r[i].data)
  {
    seq(|ids|, i requires 0 <= i < |ids| => Stored(ids[i], Find(st, ids[i]).data))
  }

  /** Committing a list drops every staged block; an empty list leaves an empty blob. */
  function Commit(st: Store, ids: seq<Id>): Store
    requires Known(st, ids)
  {
    Store(Pick(st, ids), [], map[], st.nextId)
  }

  /** All ids seen so far are below the counter, so the next id is fresh. */
  ghost predicate IdsBelow(st: Store) {
    && (forall id | id in st.staged :: id < st.nextId)
    && (forall i | 0 <= i < |st.committed| :: st.committed[i].id < st.nextId)
  }

  lemma {:induction false} FindBlockAt(blocks: seq<Stored>, id: Id)
    ensures FindBlock(blocks, id).Found? <==> exists i | 0 <= i < |blocks| :: blocks[i].id == id
    ensures FindBlock(blocks, id).Found? ==>
              exists i | 0 <= i < |blocks| :: blocks[i] == Stored(id, FindBlock(blocks, id).data)
  {
    if blocks != [] && blocks[0].id != id {
      FindBlockAt(blocks[1..], id);
      assert forall i | 0 <= i < |blocks| - 1 :: blocks[1..][i] == blocks[i + 1];
      if FindBlock(blocks[1..], id).Found? {
        var i :| 0 <= i < |blocks| - 1 && blocks[1..][i] == Stored(id, FindBlock(blocks, id).data);
        assert blocks[i + 1] == Stored(id, FindBlock(blocks, id).data);
      }
      if j :| 0 <= j < |blocks| && blocks[j].id == id {
        assert blocks[1..][j - 1].id == id;
      }
    } else if blocks != [] {
      assert blocks[0] == Stored(id, FindBlock(blocks, id).data);
    }
  }

  lemma FreshIsMissing(st: Store, id: Id)
    requires IdsBelow(st) && st.nextId <= id
    ensures Find(st, id).Missing?
  {
    FindBlockAt(st.committed, id);
  }

  /** After a commit every listed id resolves to what it resolved to before. */
  lemma CommitFinds(st: Store, ids: seq<Id>, id: Id)
    requires Known(st, ids) && id in ids
    ensures Find(Commit(st, ids), id) == Find(st, id)
  {
    var blocks := Pick(st, ids);
    FindBlockAt(blocks, id);
    var i :| 0 <= i < |ids| && ids[i] == id;
    assert blocks[i].id == id;
  }

  /** Bytes of a list of ids, in list order. */
  function ConcatIds(st: Store, ids: seq<Id>): bytes
    requires Known(st, ids)
  {
    Concat(Pick(st, ids))
  }

  lemma ConcatIdsSnoc(st: Store, ids: seq<Id>, id: Id)
    requires Known(st, ids) && Find(st, id).Found?
    ensures Known(st, ids + [id])
    ensures ConcatIds(st, ids + [id]) == ConcatIds(st, ids) + Find(st, id).data
  {
    var l := ids + [id];
    assert Known(st, l);
    assert Pick(st, l)[..|l| - 1] == Pick(st, ids);
  }

  /** Staging more blocks under fresh ids leaves the bytes of a known list alone. */
  lemma ConcatIdsFrame(st: Store, st': Store, ids: seq<Id>)
    requires Known(st, ids)
    requires forall i | 0 <= i < |ids| :: Find(st', ids[i]) == Find(st, ids[i])
    ensures Known(st', ids) && ConcatIds(st', ids) == ConcatIds(st, ids)
  {
    assert Pick(st', ids) == Pick(st, ids);
  }

  lemma CommitContent(st: Store, ids: seq<Id>)
    requires Known(st, ids)
    ensures Content(Commit(st, ids)) == ConcatIds(st, ids)
  {
  }
}
