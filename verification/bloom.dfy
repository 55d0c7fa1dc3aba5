/** The Bloom filter object of bloom.go, with its snapshots in a store. */
module BloomFilters {
  import opened BloomSpec
  import opened BloomPacking
  import opened BloomRuns

  const MAX_ATTEMPTS: nat := 3
  const CANCEL_CHECK_EVERY: nat := 100

  /** How a snapshot has its packed bytes in JSON: as a string, which is how encoding/json writes them, or as an array
      of numbers, which is what deserializeState accepts. */
  datatype Form = Text | Numbers

  /** A saved state. */
  datatype Snapshot = Snapshot(itemCount: nat, size: nat, hashCount: nat, bytes: seq<bv8>, form: Form)

  /** The fate of one store command: whether it was carried out, and whether the caller was told so. */
  datatype Fate = Fate(took: bool, heard: bool)

  /** Some of the attempts that saveToStoreWithRetry or loadFromStoreWithRetry may make is answered. */
  ghost predicate GetsThrough(fates: nat -> Fate) {
    exists i: nat :: i < MAX_ATTEMPTS && fates(i).took && fates(i).heard
  }

  /** Some of them is carried out, whether or not that is heard of. */
  ghost predicate Reaches(fates: nat -> Fate) {
    exists i: nat :: i < MAX_ATTEMPTS && fates(i).took
  }

  datatype Outcome = Done | Closed | Invalid | Cancelled | Full | StoreFailed

  predicate ValidItem(item: string) {
    1 <= |item| <= MAX_ITEM_LENGTH
  }

  predicate ValidBatch(batch: seq<string>) {
    |batch| > 0 && forall i :: 0 <= i < |batch| ==> ValidItem(batch[i])
  }

  function Min(a: nat, b: nat): nat {
    if a <= b then a else b
  }

  class Store {
    var snapshot: Option<Snapshot>
    ghost var items: seq<string>      // what had been added when the snapshot was taken

    constructor ()
      ensures snapshot.None?
    {
      snapshot, items := None, [];
    }
  }

  class BloomFilter {
    const shape: Shape
    const maxItems: nat
    const store: Store
    var bitset: array<bool>
    var itemCount: nat
    var closed: bool
    ghost var items: seq<string>      // added since the filter was empty

    /** validateBloomFilterState. */
    predicate Fits(snap: Snapshot) {
      snap.size == shape.size && snap.hashCount == shape.hashCount
    }

    /** deserializeState, then validateBloomFilterState. */
    predicate Accepts(snap: Snapshot) {
      snap.form.Numbers? && Fits(snap)
    }

    /** A snapshot in the store that fits this filter was taken after the additions `store.items`. */
    ghost predicate SnapshotExact()
      reads this, store
      requires shape.Valid()
    {
      store.snapshot.Some? && Fits(store.snapshot.value) ==>
        && store.snapshot.value.itemCount == |store.items| <= maxItems
        && Exact(shape, Unpacked(store.snapshot.value.bytes, shape.size), store.items)
    }

    /** The store holds what is live now, in the form in which saveToStore writes it. */
    ghost predicate HoldsLive()
      reads this, store, bitset
    {
      && store.snapshot.Some? && Fits(store.snapshot.value) && store.items == items
      && Unpacked(store.snapshot.value.bytes, shape.size) == bitset[..] && store.snapshot.value.form.Text?
    }

    ghost predicate Valid()
      reads this, store, bitset
    {
      && shape.Valid() && bitset.Length == shape.size
      && Exact(shape, bitset[..], items)
      && itemCount == |items| <= maxItems
      && SnapshotExact()
    }

    /** The filter and its snapshot, as runs see them. */
    ghost function View(): Disk
      reads this, store
    {
      Disk(items, if store.snapshot.Some? && Fits(store.snapshot.value)
                  then Some(Saved(store.items, store.snapshot.value.form.Numbers?)) else None)
    }

    /** NewBloomFilter: what a readable, fitting snapshot holds if a load gets through, and else an empty filter; a
        snapshot that is not loaded stays where it is. */
    constructor (shape: Shape, maxItems: nat, store: Store, fates: nat -> Fate)
      requires shape.Valid()
      requires store.snapshot.Some? && store.snapshot.value.size == shape.size
               && store.snapshot.value.hashCount == shape.hashCount ==>
                 && store.snapshot.value.itemCount == |store.items| <= maxItems
                 && Exact(shape, Unpacked(store.snapshot.value.bytes, shape.size), store.items)
      ensures Valid() && !closed && fresh(bitset)
      ensures this.shape == shape && this.maxItems == maxItems && this.store == store
      ensures View() == After(Disk([], View().saved), Open(GetsThrough(fates)))
    {
      this.shape, this.maxItems, this.store := shape, maxItems, store;
      bitset := new bool[shape.size](_ => false);
      itemCount, closed, items := 0, false, [];
      new;
      var loaded := LoadWithRetry(fates);
    }

    /** getHashPositions: the wrapping 64-bit arithmetic, item by item. */
    method GetHashPositions(item: string) returns (positions: seq<nat>)
      requires shape.Valid()
      ensures |positions| == shape.hashCount
      ensures forall i :: 0 <= i < |positions| ==> positions[i] == Position(shape, item, i) < shape.size
    {
      var digests := shape.digests(item);
      var hash1, hash2, hash3 := digests.fnv, digests.md5, digests.sha256;
      positions := [];
      for i := 0 to shape.hashCount
        invariant |positions| == i
        invariant forall j :: 0 <= j < i ==> positions[j] == Position(shape, item, j)
      {
        var hash := ((hash1 + i * hash2 % TWO_64) % TWO_64 + i * i * hash3 % TWO_64) % TWO_64;
        WrapsOnce(hash1, hash2, hash3, i);
        positions := positions + [hash % shape.size];
      }
    }

    /** The inner loop of Add and AddBatch: one more item's bits. */
    method SetBits(item: string)
      requires shape.Valid() && bitset.Length == shape.size && Exact(shape, bitset[..], items)
      modifies this`items, bitset
      ensures items == old(items) + [item] && Exact(shape, bitset[..], items)
      ensures forall pos :: 0 <= pos < shape.size ==>
                (bitset[pos] <==>
                   || old(bitset[pos])
                   || exists i :: 0 <= i < shape.hashCount && Position(shape, item, i) == pos)
    {
      var positions := GetHashPositions(item);
      for i := 0 to |positions|
        invariant items == old(items)
        invariant forall pos :: 0 <= pos < shape.size ==>
                    (bitset[pos] <==> Covered(shape, items, pos) || exists j :: 0 <= j < i && positions[j] == pos)
      {
        bitset[positions[i]] := true;
      }
      forall pos | 0 <= pos < shape.size ensures bitset[pos] <==> Covered(shape, items + [item], pos) {
        CoveredAppend(shape, items, item, pos);
        assert old(bitset[pos]) <==> Covered(shape, items, pos);
        if Hits(shape, item, pos) {
          var i :| 0 <= i < shape.hashCount && Position(shape, item, i) == pos;
          assert positions[i] == pos;
        }
        if j :| 0 <= j < |positions| && positions[j] == pos {
          assert Position(shape, item, j) == pos;
        }
      }
      items := items + [item];
    }

    /** saveToStore. */
    method SaveToStore(fate: Fate) returns (ok: bool)
      requires Valid()
      modifies store
      ensures Valid() && (ok <==> fate.took && fate.heard)
      ensures if fate.took then HoldsLive()
              else store.snapshot == old(store.snapshot) && store.items == old(store.items)
    {
      if fate.took {
        var bytes := BitsetToBytes(bitset);
        UnpackUndoesPack(bytes[..], bitset[..]);
        store.snapshot := Some(Snapshot(itemCount, shape.size, shape.hashCount, bytes[..], Text));
        store.items := items;
      }
      ok := fate.took && fate.heard;
    }

    /** saveToStoreWithRetry: it succeeds if some attempt is both carried out and heard of; the store holds exactly what
        is live if any attempt was carried out, and else what it held before. */
    method SaveWithRetry(fates: nat -> Fate) returns (ok: bool)
      requires Valid()
      modifies store
      ensures Valid() && (ok <==> GetsThrough(fates))
      ensures if Reaches(fates) then HoldsLive()
              else store.snapshot == old(store.snapshot) && store.items == old(store.items)
    {
      ok := false;
      var attempt := 0;
      while attempt < MAX_ATTEMPTS && !ok
        invariant Valid() && 0 <= attempt <= MAX_ATTEMPTS
        invariant !ok ==> forall i: nat :: i < attempt ==> !(fates(i).took && fates(i).heard)
        invariant ok ==> attempt > 0 && fates(attempt - 1).took && fates(attempt - 1).heard
        invariant if exists i: nat :: i < attempt && fates(i).took then HoldsLive()
                  else store.snapshot == old(store.snapshot) && store.items == old(store.items)
      {
        ok := SaveToStore(fates(attempt));
        attempt := attempt + 1;
      }
    }

    /** Add: one more item, unless the filter is full.  A failed save does not fail it. */
    method Add(item: string, cancelled: bool, fates: nat -> Fate) returns (r: Outcome)
      requires Valid()
      modifies this`itemCount, this`items, bitset, store
      ensures Valid()
      ensures r == if closed then Closed else if !ValidItem(item) then Invalid else if cancelled then Cancelled
                   else if old(itemCount) >= maxItems then Full else Done
      ensures View() == if r.Done? then After(old(View()), Put([item], Reaches(fates))) else old(View())
      ensures forall pos :: 0 <= pos < shape.size ==>
                (bitset[pos] <==>
                   || old(bitset[pos])
                   || (r.Done? && exists i :: 0 <= i < shape.hashCount && Position(shape, item, i) == pos))
    {
      if closed {
        return Closed;
      } else if !ValidItem(item) {
        return Invalid;
      } else if cancelled {
        return Cancelled;
      } else if itemCount >= maxItems {
        return Full;
      }
      SetBits(item);
      itemCount := itemCount + 1;
      var saved := SaveWithRetry(fates);
      r := Done;
    }

    /** AddBatch: single Adds of the items for which there is room.  Every hundredth item it looks whether it has been
        cancelled, and then keeps what it added but does not save it. */
    method AddBatch(batch: seq<string>, cancelled: int -> bool, fates: nat -> Fate) returns (r: Outcome, added: nat)
      requires Valid()
      modifies this`itemCount, this`items, bitset, store
      ensures Valid() && added <= Min(|batch|, maxItems - old(itemCount))
      ensures View() == After(old(View()), Put(batch[..added], r.Done? && added > 0 && Reaches(fates)))
      ensures r.Done? || r.Closed? || r.Invalid? || r.Cancelled?
      ensures r.Closed? <==> closed
      ensures r.Invalid? <==> !closed && !ValidBatch(batch)
      ensures r.Done? ==> added == Min(|batch|, maxItems - old(itemCount))
      ensures r.Cancelled? ==> (cancelled(-1) && added == 0)
                               || (added % CANCEL_CHECK_EVERY == 0 && added < |batch| && cancelled(added))
      ensures (forall i :: !cancelled(i)) ==> !r.Cancelled?
      ensures !r.Done? ==> added == 0 || r.Cancelled?
    {
      added := 0;
      if closed {
        return Closed, 0;
      } else if !ValidBatch(batch) {
        return Invalid, 0;
      } else if cancelled(-1) {
        return Cancelled, 0;
      }
      while added < |batch|
        invariant 0 <= added <= Min(|batch|, maxItems - old(itemCount))
        invariant Valid() && items == old(items) + batch[..added]
        invariant store.snapshot == old(store.snapshot) && store.items == old(store.items)
      {
        if added % CANCEL_CHECK_EVERY == 0 && cancelled(added) {
          return Cancelled, added;
        }
        if itemCount >= maxItems {
          break;
        }
        SetBits(batch[added]);
        itemCount := itemCount + 1;
        added := added + 1;
      }
      if added > 0 {
        var saved := SaveWithRetry(fates);
      }
      r := Done;
    }

    /** The answer for one item; Contains and ContainsBatch share it. */
    method Lookup(item: string) returns (found: bool)
      requires Valid()
      ensures found <==> MightContain(shape, bitset[..], item)
      ensures item in items ==> found
    {
      var positions := GetHashPositions(item);
      found := true;
      var i := 0;
      while i < |positions| && found
        invariant 0 <= i <= |positions|
        invariant found ==> forall j :: 0 <= j < i ==> bitset[positions[j]]
        invariant !found ==> exists j :: 0 <= j < |positions| && !bitset[positions[j]]
      {
        found := bitset[positions[i]];
        i := i + 1;
      }
      if item in items {
        NoFalseNegatives(shape, bitset[..], items, item);
      }
    }

    method Contains(item: string, cancelled: bool) returns (r: Outcome, found: bool)
      requires Valid()
      ensures r == if closed then Closed else if !ValidItem(item) then Invalid else if cancelled then Cancelled
              else Done
      ensures r.Done? ==> (found <==> forall i :: 0 <= i < shape.hashCount ==> bitset[Position(shape, item, i)])
      ensures r.Done? && item in items ==> found
    {
      if closed {
        return Closed, false;
      } else if !ValidItem(item) {
        return Invalid, false;
      } else if cancelled {
        return Cancelled, false;
      }
      found := Lookup(item);
      r := Done;
    }

    /** ContainsBatch agrees with Contains on every item. */
    method ContainsBatch(batch: seq<string>, cancelled: int -> bool) returns (r: Outcome, results: map<string, bool>)
      requires Valid()
      ensures r.Done? || r.Closed? || r.Invalid? || r.Cancelled?
      ensures r.Closed? <==> closed
      ensures r.Invalid? <==> !closed && !ValidBatch(batch)
      ensures (forall i :: !cancelled(i)) ==> !r.Cancelled?
      ensures r.Done? ==>
                && (forall item :: item in results <==> item in batch)
                && (forall item :: item in results ==>
                      (results[item] <==> MightContain(shape, bitset[..], item)) && (item in items ==> results[item]))
    {
      results := map[];
      if closed {
        return Closed, map[];
      } else if !ValidBatch(batch) {
        return Invalid, map[];
      } else if cancelled(-1) {
        return Cancelled, map[];
      }
      for i := 0 to |batch|
        invariant forall item :: item in results <==> item in batch[..i]
        invariant forall item :: item in results ==>
                    (results[item] <==> MightContain(shape, bitset[..], item)) && (item in items ==> results[item])
      {
        if i % CANCEL_CHECK_EVERY == 0 && cancelled(i) {
          return Cancelled, map[];
        }
        var found := Lookup(batch[i]);
        results := results[batch[i] := found];
      }
      assert batch[..|batch|] == batch;
      r := Done;
    }

    /** Clear empties the filter, and only then deletes the snapshot, which may fail. */
    method Clear(cancelled: bool, fate: Fate) returns (r: Outcome)
      requires Valid()
      modifies this`itemCount, this`items, bitset, store
      ensures Valid()
      ensures r == if closed then Closed else if cancelled then Cancelled
                   else if fate.took && fate.heard then Done else StoreFailed
      ensures View() == if r.Closed? || r.Cancelled? then old(View()) else After(old(View()), Command.Clear(fate.took))
      ensures !r.Closed? && !r.Cancelled? ==> itemCount == 0 && forall pos :: 0 <= pos < shape.size ==> !bitset[pos]
    {
      if closed {
        return Closed;
      } else if cancelled {
        return Cancelled;
      }
      for i := 0 to bitset.Length
        invariant itemCount == old(itemCount) && items == old(items)
        invariant store.snapshot == old(store.snapshot) && store.items == old(store.items)
        invariant forall j :: 0 <= j < i ==> !bitset[j]
      {
        bitset[i] := false;
      }
      itemCount, items := 0, [];
      if fate.took {
        store.snapshot := None;
      }
      r := if fate.took && fate.heard then Done else StoreFailed;
    }

    /** loadFromStore: if a snapshot is got, is readable and fits, the filter answers exactly as it did when that was
        taken.  A snapshot that saveToStore wrote is not readable. */
    method LoadFromStore(fate: Fate) returns (ok: bool)
      requires Valid()
      modifies this`itemCount, this`items, bitset
      ensures Valid()
      ensures ok == (fate.took && fate.heard && store.snapshot.Some? && Accepts(store.snapshot.value))
      ensures ok ==> items == store.items && bitset[..] == Unpacked(store.snapshot.value.bytes, shape.size)
      ensures !ok ==> items == old(items) && bitset[..] == old(bitset[..])
    {
      if !fate.took || !fate.heard || store.snapshot.None? {
        return false;
      }
      var snap := store.snapshot.value;
      if snap.form.Text? || !Fits(snap) {
        return false;
      }
      var bits := BytesToBitset(snap.bytes, snap.size);
      for i := 0 to shape.size
        invariant forall j :: 0 <= j < i ==> bitset[j] == bits[j]
        invariant bits[..] == Unpacked(snap.bytes, snap.size)
      {
        bitset[i] := bits[i];
      }
      assert bitset[..] == bits[..];
      itemCount, items := snap.itemCount, store.items;
      ok := true;
    }

    /** loadFromStoreWithRetry. */
    method LoadWithRetry(fates: nat -> Fate) returns (ok: bool)
      requires Valid()
      modifies this`itemCount, this`items, bitset
      ensures Valid()
      ensures ok <==> GetsThrough(fates) && store.snapshot.Some? && Accepts(store.snapshot.value)
      ensures ok ==> items == store.items && bitset[..] == Unpacked(store.snapshot.value.bytes, shape.size)
      ensures !ok ==> items == old(items) && bitset[..] == old(bitset[..])
    {
      ok := false;
      var attempt := 0;
      while attempt < MAX_ATTEMPTS && !ok
        invariant Valid() && 0 <= attempt <= MAX_ATTEMPTS
        invariant ok ==> GetsThrough(fates) && store.snapshot.Some? && Accepts(store.snapshot.value)
        invariant ok ==> items == store.items && bitset[..] == Unpacked(store.snapshot.value.bytes, shape.size)
        invariant !ok ==> items == old(items) && bitset[..] == old(bitset[..])
        invariant !ok && store.snapshot.Some? && Accepts(store.snapshot.value) ==>
                    forall i: nat :: i < attempt ==> !(fates(i).took && fates(i).heard)
      {
        ok := LoadFromStore(fates(attempt));
        attempt := attempt + 1;
      }
    }

    /** countSetBits, and how full the filter can be. */
    method CountSetBits() returns (count: nat)
      requires Valid()
      ensures count == Ones(bitset[..]) <= shape.size
      ensures count <= shape.hashCount * itemCount
    {
      count := 0;
      for i := 0 to bitset.Length
        invariant count == Ones(bitset[..i])
      {
        assert bitset[..i + 1][..i] == bitset[..i];
        if bitset[i] {
          count := count + 1;
        }
      }
      assert bitset[..bitset.Length] == bitset[..];
      FillBound(shape, bitset[..], items);
    }

    /** What runs say of items, said of the bits themselves. */
    lemma StoredBits()
      requires Valid()
      ensures StoredWithin(shape, View())
              <==> (store.snapshot.Some? && Fits(store.snapshot.value) ==>
                      Within(Unpacked(store.snapshot.value.bytes, shape.size), bitset[..]))
    {
      if store.snapshot.Some? && Fits(store.snapshot.value) {
        var stored := Unpacked(store.snapshot.value.bytes, shape.size);
        if StoredWithin(shape, View()) {
          forall pos | 0 <= pos < |stored| && stored[pos] ensures bitset[pos] {
            assert Covered(shape, store.items, pos);
          }
        }
        if Within(stored, bitset[..]) {
          forall pos: nat | Covered(shape, store.items, pos) ensures Covered(shape, items, pos) {
            assert pos < shape.size;
            assert stored[pos];
          }
        }
      }
    }

    method Close() returns (ok: bool)
      modifies this`closed
      ensures closed && ok == !old(closed)
    {
      ok, closed := !closed, true;
    }
  }
}
