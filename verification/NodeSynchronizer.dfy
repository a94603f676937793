/** The refresh operation of internal/resource/node_synchronizer.go, over the
    cache and the registry it publishes to. */
module NodeSynchronizer {
  import opened Wrappers
  import opened Node
  import opened NodeCache
  import opened NodeStreamClient
  import opened NodeRegistry

  datatype RefreshError = ListFailed | ContextDone | InvalidSnapshot(reason: SnapshotError)

  class Synchronizer {
    const cache: Cache
    const publisher: NodeStreamRegistry

    constructor (cache: Cache, publisher: NodeStreamRegistry)
      ensures this.cache == cache && this.publisher == publisher
    {
      this.cache, this.publisher := cache, publisher;
    }

    /** `listed` is what the adapter returned and `contextDone` whether the
        context ended meanwhile. A failed refresh changes nothing. */
    method Refresh(listed: Option<seq<Node>>, contextDone: bool, racing: set<nat>) returns (e: Option<RefreshError>)
      requires cache.Valid() && publisher.Valid()
      modifies cache, publisher
      ensures cache.Valid() && publisher.Valid()
      ensures e.None? <==> listed.Some? && !contextDone && ValidSnapshot(listed.value)
      ensures e.Some? || !Differs(old(cache.nodes), Index(listed.value)) ==>
                && cache.generation == old(cache.generation) && cache.nodes == old(cache.nodes)
                && publisher.streams == old(publisher.streams) && publisher.connections == old(publisher.connections)
      ensures e.None? && Differs(old(cache.nodes), Index(listed.value)) ==>
                && cache.generation == (old(cache.generation) + 1) % GENERATIONS
                && cache.nodes == Committed(old(cache.nodes), Index(listed.value), cache.generation)
                && (cache.generation != 0 ==>
                      exists changes ::
                        && IsDiff(old(cache.nodes), Index(listed.value), cache.generation, changes)
                        && SentToAll(old(publisher.streams), old(publisher.connections), publisher.streams,
                                     publisher.connections, ChangesMessage(cache.generation, changes), racing))
      ensures e.None? ==>
                && Mirrors(cache.nodes, listed.value)
                && (cache.generation == old(cache.generation) <==> Mirrors(old(cache.nodes), listed.value))
                && (cache.generation != old(cache.generation) ==>
                      TakenOver(old(cache.nodes), cache.nodes, listed.value, cache.generation))
      ensures listed.None? ==> e == Some(ListFailed)
      ensures listed.Some? && contextDone ==> e == Some(ContextDone)
    {
      hide Mirrors, TakenOver, Committed, Index, IsDiff, Differs, SentToAll, Keyed;
      if listed.None? {
        return Some(ListFailed);
      }
      if contextDone {
        return Some(ContextDone);
      }
      var invalid := ValidateNodeSnapshot(listed.value);
      if invalid.Some? {
        return Some(InvalidSnapshot(invalid.value));
      }
      var batch := cache.ReplaceSnapshot(listed.value);
      if batch.Some? {
        publisher.Publish(batch.value, racing);
      }
      return None;
    }
  }
}
