/**
 * The favourites store of `useFavorites`: an ordered list of coin ids with an idempotent add
 * at the end and a remove that filters the id out.
 */
module FavoritesStore {
  import opened Seqs

  /** No id occurs twice. */
  predicate NoDuplicates(ids: seq<string>) {
    DistinctBy(ids, Self)
  }

  function Self(id: string): string {
    id
  }

  /** The list after `addFavorite(coinId)`. */
  function WithFavorite(ids: seq<string>, coinId: string): seq<string> {
    if coinId in ids then ids else ids + [coinId]
  }

  /** The list after `removeFavorite(coinId)`. */
  function WithoutFavorite(ids: seq<string>, coinId: string): seq<string> {
    Filter(ids, id => id != coinId)
  }

  class Favorites {
    var favorites: seq<string>

    /** `useState<string[]>([])`. */
    constructor ()
      ensures favorites == []
    {
      favorites := [];
    }

    /** `addFavorite`: an id already present leaves the list as it is. */
    method AddFavorite(coinId: string)
      modifies this
      ensures favorites == WithFavorite(old(favorites), coinId)
    {
      if coinId in favorites {
        return;
      }
      favorites := favorites + [coinId];
    }

    /** `removeFavorite`. */
    method RemoveFavorite(coinId: string)
      modifies this
      ensures favorites == WithoutFavorite(old(favorites), coinId)
    {
      favorites := Filter(favorites, id => id != coinId);
    }
  }

  /**
   * Adding an id already present changes nothing; adding a new one appends it at the end and
   * keeps the earlier ids in order. Either way the id is present and adding it again is a no-op.
   */
  lemma AddFavoriteSpec(ids: seq<string>, coinId: string)
    ensures coinId in ids ==> WithFavorite(ids, coinId) == ids
    ensures coinId !in ids ==>
      |WithFavorite(ids, coinId)| == |ids| + 1
      && WithFavorite(ids, coinId)[..|ids|] == ids
      && WithFavorite(ids, coinId)[|ids|] == coinId
    ensures coinId in WithFavorite(ids, coinId)
    ensures forall id :: id in WithFavorite(ids, coinId) <==> id in ids || id == coinId
    ensures WithFavorite(WithFavorite(ids, coinId), coinId) == WithFavorite(ids, coinId)
  {
  }

  /**
   * Removing makes the id absent and keeps every other id, in its relative order; removing
   * an absent id changes nothing, and removing twice is removing once.
   */
  lemma RemoveFavoriteSpec(ids: seq<string>, coinId: string)
    ensures coinId !in WithoutFavorite(ids, coinId)
    ensures forall id :: id in WithoutFavorite(ids, coinId) <==> id in ids && id != coinId
    ensures coinId !in ids ==> WithoutFavorite(ids, coinId) == ids
    ensures WithoutFavorite(WithoutFavorite(ids, coinId), coinId) == WithoutFavorite(ids, coinId)
  {
    FilterMultiset(ids, id => id != coinId);
    FilterIdempotent(ids, id => id != coinId);
    if coinId !in ids {
      FilterAll(ids, id => id != coinId);
    }
  }

  /** Removing keeps the relative order of the remaining ids. */
  lemma RemoveKeepsOrder(ids: seq<string>, coinId: string, i: nat, j: nat)
    requires i < j < |ids| && ids[i] != coinId && ids[j] != coinId
    ensures var r := WithoutFavorite(ids, coinId);
      exists i', j' :: 0 <= i' < j' < |r| && r[i'] == ids[i] && r[j'] == ids[j]
  {
    var r := WithoutFavorite(ids, coinId);
    FilterKeepsOrder(ids, id => id != coinId, i, j);
    var i', j' :| 0 <= i' < j' < |Filter(ids, id => id != coinId)|
      && Filter(ids, id => id != coinId)[i'] == ids[i] && Filter(ids, id => id != coinId)[j'] == ids[j];
    assert r[i'] == ids[i] && r[j'] == ids[j];
  }

  /** Both operations keep a duplicate-free list duplicate-free. */
  lemma FavoritesStayDistinct(ids: seq<string>, coinId: string)
    requires NoDuplicates(ids)
    ensures NoDuplicates(WithFavorite(ids, coinId))
    ensures NoDuplicates(WithoutFavorite(ids, coinId))
  {
    FilterKeepsDistinctBy(ids, id => id != coinId, Self);
  }
}
