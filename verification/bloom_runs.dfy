/**
  A Bloom filter and its snapshot over whole runs: processes that open it, add to it and clear it, with store commands
  that fail.  Only the items matter: those added to the live filter, and those a fitting snapshot was taken of.
 */
module BloomRuns {
  import opened BloomSpec

  datatype Option<+T> = None | Some(value: T)

  /** A snapshot that fits the filter: what it was taken of, and whether deserializeState accepts it.  That
      asks for the bits as an array of numbers; what the filter writes itself has them as a string, which is
      how encoding/json writes bytes. */
  datatype Saved = Saved(items: seq<string>, readable: bool)

  /** `saved`: the snapshot in the store, if there is one that fits. */
  datatype Disk = Disk(live: seq<string>, saved: Option<Saved>)

  /** `loaded`, `saved` and `deleted` say whether the store did its part. */
  datatype Command =
    | Open(loaded: bool)                      // NewBloomFilter: on a failed load it starts fresh
    | Put(items: seq<string>, saved: bool)    // Add and AddBatch
    | Clear(deleted: bool)
    | Expire                                  // the snapshot's TTL runs out

  function After(d: Disk, e: Command): Disk {
    match e
    case Open(loaded) =>
      d.(live := if loaded && d.saved.Some? && d.saved.value.readable then d.saved.value.items else [])
    case Put(items, saved) => Disk(d.live + items, if saved then Some(Saved(d.live + items, false)) else d.saved)
    case Clear(deleted) => Disk([], if deleted then None else d.saved)
    case Expire => d.(saved := None)
  }

  function Run(d: Disk, commands: seq<Command>): Disk {
    if commands == [] then d else After(Run(d, commands[..|commands| - 1]), commands[|commands| - 1])
  }

  /** Every stored bit is also live: a reload can then lose additions, but not invent any. */
  ghost predicate StoredWithin(sh: Shape, d: Disk)
    requires sh.size > 0
  {
    d.saved.Some? ==> forall pos: nat :: Covered(sh, d.saved.value.items, pos) ==> Covered(sh, d.live, pos)
  }

  /** The snapshot is got, and accepted if there is one. */
  predicate Loads(d: Disk, e: Command) {
    e.Open? && e.loaded && (d.saved.Some? ==> d.saved.value.readable)
  }

  /** The live filter is emptied under a snapshot of something: by an opening that does not load it, or by a
      delete that fails. */
  predicate Orphans(d: Disk, e: Command) {
    d.saved.Some? && d.saved.value.items != [] && ((e.Open? && !Loads(d, e)) || (e.Clear? && !e.deleted))
  }

  /** A completed save, load or delete, or an expiry, puts the snapshot right. */
  predicate Heals(d: Disk, e: Command) {
    Loads(d, e) || (e.Put? && e.saved) || (e.Clear? && e.deleted) || e.Expire?
  }

  predicate SavedIsPrefix(d: Disk) {
    d.saved.Some? ==> d.saved.value.items <= d.live
  }

  lemma PrefixIsWithin(sh: Shape, d: Disk)
    requires sh.Valid() && SavedIsPrefix(d)
    ensures StoredWithin(sh, d)
  {
    if d.saved.Some? {
      forall pos: nat | Covered(sh, d.saved.value.items, pos) ensures Covered(sh, d.live, pos) {
        var k :| 0 <= k < |d.saved.value.items| && Hits(sh, d.saved.value.items[k], pos);
        assert Hits(sh, d.live[k], pos);
      }
    }
  }

  /** At the moment the live filter is emptied under a snapshot of something, stored bits are not live. */
  lemma OrphanBreaks(sh: Shape, d: Disk, e: Command)
    requires sh.Valid() && Orphans(d, e)
    ensures !StoredWithin(sh, After(d, e))
  {
    var d' := After(d, e);
    assert Hits(sh, d'.saved.value.items[0], Position(sh, d'.saved.value.items[0], 0));
    assert Covered(sh, d'.saved.value.items, Position(sh, d'.saved.value.items[0], 0));
  }

  lemma PrefixStep(d: Disk, e: Command)
    requires Heals(d, e) || (SavedIsPrefix(d) && !Orphans(d, e))
    ensures SavedIsPrefix(After(d, e))
  {
  }

  ghost predicate AlwaysWithin(sh: Shape, d: Disk, commands: seq<Command>)
    requires sh.size > 0
  {
    forall n :: 0 <= n <= |commands| ==> StoredWithin(sh, Run(d, commands[..n]))
  }

  predicate OrphansAt(d: Disk, commands: seq<Command>, k: nat)
    requires k < |commands|
  {
    Orphans(Run(d, commands[..k]), commands[k])
  }

  lemma OrphanAtBreaks(sh: Shape, d: Disk, commands: seq<Command>, k: nat)
    requires sh.Valid() && k < |commands| && OrphansAt(d, commands, k)
    ensures !AlwaysWithin(sh, d, commands)
  {
    OrphanBreaks(sh, Run(d, commands[..k]), commands[k]);
    assert commands[..k + 1][..k] == commands[..k];
    assert !StoredWithin(sh, Run(d, commands[..k + 1]));
  }

  lemma NoOrphanIsWithin(sh: Shape, d: Disk, commands: seq<Command>)
    requires sh.Valid() && SavedIsPrefix(d)
    requires forall k :: 0 <= k < |commands| ==> !OrphansAt(d, commands, k)
    ensures AlwaysWithin(sh, d, commands)
  {
    forall n | 0 <= n <= |commands| ensures StoredWithin(sh, Run(d, commands[..n])) {
      assert forall k :: 0 <= k < n ==> commands[..n][..k] == commands[..k];
      assert forall k :: 0 <= k < n ==> OrphansAt(d, commands[..n], k) == OrphansAt(d, commands, k);
      PrefixRun(d, commands[..n]);
      PrefixIsWithin(sh, Run(d, commands[..n]));
    }
  }

  /** From any moment at which the snapshot is right, the stored bits stay within the live ones through a run if and
      only if no opening and no Clear leaves a snapshot of something behind.  Before the first opening there is no live
      filter; what is stored then counts as live. */
  lemma StaysWithinExactly(sh: Shape, d: Disk, commands: seq<Command>)
    requires sh.Valid() && SavedIsPrefix(d)
    ensures AlwaysWithin(sh, d, commands)
            <==> forall k :: 0 <= k < |commands| ==> !OrphansAt(d, commands, k)
  {
    if k :| 0 <= k < |commands| && OrphansAt(d, commands, k) {
      OrphanAtBreaks(sh, d, commands, k);
    } else {
      NoOrphanIsWithin(sh, d, commands);
    }
  }

  lemma {:induction false} PrefixRun(d: Disk, commands: seq<Command>)
    requires SavedIsPrefix(d)
    requires forall k :: 0 <= k < |commands| ==> !OrphansAt(d, commands, k)
    ensures SavedIsPrefix(Run(d, commands))
  {
    if commands != [] {
      var n := |commands| - 1;
      assert forall k :: 0 <= k < n ==> commands[..n][..k] == commands[..k];
      assert forall k :: 0 <= k < n ==> OrphansAt(d, commands[..n], k) == OrphansAt(d, commands, k);
      PrefixRun(d, commands[..n]);
      assert !OrphansAt(d, commands, n);
      PrefixStep(Run(d, commands[..n]), commands[n]);
    }
  }

  // ---- the state after a run --------------------------------------------------------------------

  /** Some load or delete failed on a snapshot of something, and nothing has put the snapshot right since. */
  predicate Stale(d: Disk, commands: seq<Command>) {
    commands != [] &&
    var n := |commands| - 1;
    Orphans(Run(d, commands[..n]), commands[n])
    || (Stale(d, commands[..n]) && !Heals(Run(d, commands[..n]), commands[n]))
  }

  /** Every item of the snapshot is reported present by the live filter. */
  ghost predicate EveryStoredItemAnswered(sh: Shape, d: Disk)
    requires sh.size > 0
  {
    d.saved.Some? ==> forall item :: item in d.saved.value.items ==>
      forall i :: 0 <= i < sh.hashCount ==> Covered(sh, d.live, Position(sh, item, i))
  }

  /** In any state: stored bits are within the live ones exactly if whatever reopening could bring back is
      reported present now. */
  lemma AnsweredIsWithin(sh: Shape, d: Disk)
    requires sh.Valid()
    ensures StoredWithin(sh, d) <==> EveryStoredItemAnswered(sh, d)
  {
    if d.saved.Some? {
      if StoredWithin(sh, d) {
        forall item, i | item in d.saved.value.items && 0 <= i < sh.hashCount
          ensures Covered(sh, d.live, Position(sh, item, i))
        {
          var k :| 0 <= k < |d.saved.value.items| && d.saved.value.items[k] == item;
          assert Hits(sh, d.saved.value.items[k], Position(sh, item, i));
        }
      }
      if EveryStoredItemAnswered(sh, d) {
        forall pos: nat | Covered(sh, d.saved.value.items, pos) ensures Covered(sh, d.live, pos) {
          var k :| 0 <= k < |d.saved.value.items| && Hits(sh, d.saved.value.items[k], pos);
          assert d.saved.value.items[k] in d.saved.value.items;
        }
      }
    }
  }

  lemma {:induction false} FreshIsPrefix(d: Disk, commands: seq<Command>)
    requires SavedIsPrefix(d) && !Stale(d, commands)
    ensures SavedIsPrefix(Run(d, commands))
  {
    if commands != [] {
      var n := |commands| - 1;
      var before := Run(d, commands[..n]);
      if !Heals(before, commands[n]) {
        FreshIsPrefix(d, commands[..n]);
      }
      PrefixStep(before, commands[n]);
    }
  }

  /** A stale snapshot is the one that some opening or Clear left behind. */
  lemma {:induction false} StaleSince(d: Disk, commands: seq<Command>) returns (k: nat)
    requires Stale(d, commands)
    ensures k < |commands| && OrphansAt(d, commands, k) && Run(d, commands).saved == Run(d, commands[..k]).saved
  {
    var n := |commands| - 1;
    if OrphansAt(d, commands, n) {
      k := n;
    } else {
      k := StaleSince(d, commands[..n]);
      assert commands[..n][..k] == commands[..k];
    }
  }

  /** After any run: if the snapshot is not stale the stored bits are within the live ones, and reopening gives a filter
      of the first so many items of the live one; if it is stale, what is stored is what some opening or Clear left
      behind, and that is what reopening brings back, if it is readable. */
  lemma ReopeningExactly(sh: Shape, d: Disk, commands: seq<Command>)
    requires sh.Valid() && SavedIsPrefix(d)
    ensures var s := Run(d, commands);
            && (!Stale(d, commands) ==> StoredWithin(sh, s) && After(s, Open(true)).live <= s.live)
            && (Stale(d, commands) ==>
                  && s.saved.Some? && s.saved.value.items != []
                  && After(s, Open(true)).live == (if s.saved.value.readable then s.saved.value.items else [])
                  && exists k :: 0 <= k < |commands| && OrphansAt(d, commands, k)
                                 && s.saved == Run(d, commands[..k]).saved)
  {
    if Stale(d, commands) {
      var k := StaleSince(d, commands);
    } else {
      FreshIsPrefix(d, commands);
      PrefixIsWithin(sh, Run(d, commands));
    }
  }

  // ---- what the filter has written itself -------------------------------------------------------

  /** Unless somebody else has put a readable snapshot there, no opening ever loads anything: after any run, reopening
      gives an empty filter, and stored bits that are not live if anything was saved. */
  lemma {:induction false} NothingComesBack(sh: Shape, d: Disk, commands: seq<Command>, loaded: bool)
    requires sh.Valid() && (d.saved.Some? ==> !d.saved.value.readable)
    ensures var s := Run(d, commands);
            && (s.saved.Some? ==> !s.saved.value.readable) && After(s, Open(loaded)).live == []
            && (s.saved.Some? && s.saved.value.items != [] ==> !StoredWithin(sh, After(s, Open(loaded))))
  {
    if commands != [] {
      NothingComesBack(sh, d, commands[..|commands| - 1], loaded);
    }
    var s := Run(d, commands);
    if s.saved.Some? && s.saved.value.items != [] {
      OrphanBreaks(sh, s, Open(loaded));
    }
  }

  lemma RunMore(d: Disk, commands: seq<Command>, e: Command)
    ensures Run(d, commands + [e]) == After(Run(d, commands), e)
  {
    assert (commands + [e])[..|commands|] == commands;
  }

  function SavingOnce(item: string): seq<Command> {
    [Open(true)] + [Put([item], true)]
  }

  lemma SavedOnce(item: string)
    ensures Run(Disk([], None), SavingOnce(item)) == Disk([item], Some(Saved([item], false)))
  {
    var first := After(Disk([], None), Open(true));
    RunMore(Disk([], None), [], Open(true));
    assert [] + [Open(true)] == [Open(true)] && first == Disk([], None);
    RunMore(Disk([], None), [Open(true)], Put([item], true));
    assert first.live + [item] == [item];
  }

  /** An item is added and saved; then the filter is opened again, whether or not the store answers the loads. */
  lemma ReopeningBreaks(sh: Shape, item: string, loaded: bool)
    requires sh.Valid()
    ensures var s := Run(Disk([], None), SavingOnce(item) + [Open(loaded)]); s.live == [] && !StoredWithin(sh, s)
  {
    SavedOnce(item);
    RunMore(Disk([], None), SavingOnce(item), Open(loaded));
    OrphanBreaks(sh, Disk([item], Some(Saved([item], false))), Open(loaded));
  }

  /** Somebody else's readable snapshot; the loads of an opening fail. */
  lemma FailedLoadBreaks(sh: Shape, item: string)
    requires sh.Valid()
    ensures !StoredWithin(sh, After(Disk([item], Some(Saved([item], true))), Open(false)))
  {
    OrphanBreaks(sh, Disk([item], Some(Saved([item], true))), Open(false));
  }

  /** An item is added and saved; then the delete of a Clear fails. */
  lemma FailedDeleteBreaks(sh: Shape, item: string)
    requires sh.Valid()
    ensures !StoredWithin(sh, Run(Disk([], None), SavingOnce(item) + [Clear(false)]))
  {
    SavedOnce(item);
    RunMore(Disk([], None), SavingOnce(item), Clear(false));
    OrphanBreaks(sh, Disk([item], Some(Saved([item], false))), Clear(false));
  }
}
