/** The change tracker and dispatcher (`monitorApartments` in main.go): the set
    of listing ids already seen, the bootstrap pass that seeds it and announces
    every fetched listing as existing, and the steady-state cycle that announces
    only listings not seen before. Sending to the chat channel is modelled as the
    sequence of notifications a step emits; the pacing sleep is left out. */
module Monitor {
  import opened Outcomes
  import opened Listings

  /** One call of `sendNotification`: the listing and whether it is framed as new. */
  datatype Notification = Notification(listing: Listing, isNew: bool)

  /** What one call of `getListings` hands the tracker. */
  type Batch = Fetch<seq<Listing>>

  /** The ids carried by a sequence of listings. */
  function Ids(ls: seq<Listing>): (ids: set<string>)
    ensures forall i :: 0 <= i < |ls| ==> ls[i].id in ids
  {
    if ls == [] then {} else Ids(ls[..|ls| - 1]) + {ls[|ls| - 1].id}
  }

  lemma {:induction false} IdsAppend(a: seq<Listing>, b: seq<Listing>)
    ensures Ids(a + b) == Ids(a) + Ids(b)
    decreases |b|
  {
    if b != [] {
      assert (a + b)[..|a + b| - 1] == a + b[..|b| - 1];
      IdsAppend(a, b[..|b| - 1]);
    } else {
      assert a + b == a;
    }
  }

  /** No two listings of `ls` share an id. */
  ghost predicate DistinctIds(ls: seq<Listing>) {
    forall i, j :: 0 <= i < j < |ls| ==> ls[i].id != ls[j].id
  }

  /** `xs` is `ys` with some elements left out and the rest in their order. */
  ghost predicate IsSubsequence<T>(xs: seq<T>, ys: seq<T>)
    decreases |ys|
  {
    || xs == []
    || (&& ys != []
        && (|| (xs[|xs| - 1] == ys[|ys| - 1] && IsSubsequence(xs[..|xs| - 1], ys[..|ys| - 1]))
            || IsSubsequence(xs, ys[..|ys| - 1])))
  }

  /** The listings a steady-state scan of `batch` announces when it starts from
      `seen`: each listing whose id is neither in `seen` nor carried by an earlier
      listing of the batch, in batch order. */
  function NewListings(seen: set<string>, batch: seq<Listing>): (unseen: seq<Listing>)
    ensures |unseen| <= |batch|
    ensures forall i :: 0 <= i < |unseen| ==> unseen[i].id !in seen
  {
    if batch == [] then []
    else
      var earlier := batch[..|batch| - 1];
      var l := batch[|batch| - 1];
      NewListings(seen, earlier) + (if l.id in seen + Ids(earlier) then [] else [l])
  }

  /** Every announced listing comes from the batch and was not seen before. */
  lemma {:induction false} NewListingsAreUnseen(seen: set<string>, batch: seq<Listing>)
    ensures forall l :: l in NewListings(seen, batch) ==> l in batch && l.id !in seen
    decreases |batch|
  {
    if batch != [] {
      var earlier := batch[..|batch| - 1];
      NewListingsAreUnseen(seen, earlier);
      forall l | l in earlier ensures l in batch {
        var i :| 0 <= i < |earlier| && earlier[i] == l;
        assert batch[i] == l;
      }
    }
  }

  /** The ids announced are exactly the batch's ids that were not seen. */
  lemma {:induction false} NewListingsIds(seen: set<string>, batch: seq<Listing>)
    ensures Ids(NewListings(seen, batch)) == Ids(batch) - seen
    decreases |batch|
  {
    if batch != [] {
      var earlier := batch[..|batch| - 1];
      var l := batch[|batch| - 1];
      var before := NewListings(seen, earlier);
      NewListingsIds(seen, earlier);
      assert Ids(batch) == Ids(earlier) + {l.id};
      if l.id in seen + Ids(earlier) {
        assert NewListings(seen, batch) == before + [] == before;
      } else {
        assert (before + [l])[..|before|] == before;
        assert Ids(before + [l]) == Ids(before) + {l.id};
      }
    }
  }

  /** No id is announced twice within one cycle, even when the batch repeats it. */
  lemma {:induction false} NewListingsDistinct(seen: set<string>, batch: seq<Listing>)
    ensures DistinctIds(NewListings(seen, batch))
    decreases |batch|
  {
    if batch != [] {
      var earlier := batch[..|batch| - 1];
      var l := batch[|batch| - 1];
      var before := NewListings(seen, earlier);
      NewListingsDistinct(seen, earlier);
      NewListingsIds(seen, earlier);
      if l.id !in seen + Ids(earlier) {
        var r := before + [l];
        forall i, j | 0 <= i < j < |r| ensures r[i].id != r[j].id {
          if j == |before| {
            assert before[i].id in Ids(before);
          }
        }
      }
    }
  }

  /** The announcements keep batch order. */
  lemma {:induction false} NewListingsInBatchOrder(seen: set<string>, batch: seq<Listing>)
    ensures IsSubsequence(NewListings(seen, batch), batch)
    decreases |batch|
  {
    if batch != [] {
      var earlier := batch[..|batch| - 1];
      var l := batch[|batch| - 1];
      var before := NewListings(seen, earlier);
      NewListingsInBatchOrder(seen, earlier);
      if l.id !in seen + Ids(earlier) {
        assert (before + [l])[..|before|] == before;
      } else {
        assert NewListings(seen, batch) == before + [] == before;
      }
    }
  }

  /** A batch whose ids have all been seen announces nothing. */
  lemma {:induction false} NewListingsOfSeenBatch(seen: set<string>, batch: seq<Listing>)
    requires Ids(batch) <= seen
    ensures NewListings(seen, batch) == []
    decreases |batch|
  {
    if batch != [] {
      NewListingsOfSeenBatch(seen, batch[..|batch| - 1]);
    }
  }

  /** Scanning `a + b` once announces what scanning `a` and then `b` does. */
  lemma {:induction false} NewListingsAppend(seen: set<string>, a: seq<Listing>, b: seq<Listing>)
    ensures NewListings(seen, a + b) == NewListings(seen, a) + NewListings(seen + Ids(a), b)
    decreases |b|
  {
    if b == [] {
      assert a + b == a;
    } else {
      var bs := b[..|b| - 1];
      assert (a + b)[..|a + b| - 1] == a + bs;
      assert (a + b)[|a + b| - 1] == b[|b| - 1];
      NewListingsAppend(seen, a, bs);
      IdsAppend(a, bs);
    }
  }

  /** One notification per listing, in order, all with the same framing. */
  function Announce(ls: seq<Listing>, isNew: bool): (ns: seq<Notification>)
    ensures |ns| == |ls|
    ensures forall i :: 0 <= i < |ls| ==> ns[i] == Notification(ls[i], isNew)
  {
    if ls == [] then [] else Announce(ls[..|ls| - 1], isNew) + [Notification(ls[|ls| - 1], isNew)]
  }

  /** The seen-set after a fetch: a failed fetch leaves it as it was. */
  function AfterFetch(seen: set<string>, batch: Batch): (after: set<string>)
    ensures seen <= after
    ensures batch.Err? ==> after == seen
    ensures batch.Ok? ==> Ids(batch.value) <= after && after <= seen + Ids(batch.value)
  {
    match batch
    case Err => seen
    case Ok(ls) => seen + Ids(ls)
  }

  /** What the bootstrap pass sends: every fetched listing, duplicates included,
      as an existing listing; nothing without a channel or after a failed fetch. */
  function BootstrapSends(channelID: string, batch: Batch): (sends: seq<Notification>)
    ensures |sends| == (if channelID != "" && batch.Ok? then |batch.value| else 0)
    ensures forall i :: 0 <= i < |sends| ==> !sends[i].isNew && sends[i].listing == batch.value[i]
  {
    if channelID == "" then []
    else
      match batch
      case Err => []
      case Ok(ls) => Announce(ls, false)
  }

  /** What one steady-state cycle sends: the new listings framed as new. */
  function CycleSends(channelID: string, seen: set<string>, batch: Batch): (sends: seq<Notification>)
    ensures channelID == "" || batch.Err? ==> sends == []
    ensures forall i :: 0 <= i < |sends| ==> sends[i].isNew && sends[i].listing.id !in seen
    ensures batch.Ok? ==> |sends| <= |batch.value|
  {
    if channelID == "" then []
    else
      match batch
      case Err => []
      case Ok(ls) => Announce(NewListings(seen, ls), true)
  }

  /** Feeding a cycle the batch just absorbed sends nothing and changes nothing. */
  lemma CycleReplayIsSilent(channelID: string, seen: set<string>, batch: Batch)
    ensures var after := AfterFetch(seen, batch);
      && CycleSends(channelID, after, batch) == []
      && AfterFetch(after, batch) == after
  {
    if batch.Ok? {
      NewListingsOfSeenBatch(seen + Ids(batch.value), batch.value);
    }
  }

  /** The tracker's state: the configured channel and the ids seen so far
      (`ChannelID` and `seenAds` in the source). */
  class Tracker {
    const channelID: string
    var seen: set<string>

    constructor (channelID: string)
      ensures this.channelID == channelID && seen == {}
    {
      this.channelID := channelID;
      seen := {};
    }

    /** The initial pass: mark every fetched id seen and announce every listing
        as existing; a failed fetch changes nothing. */
    method Bootstrap(batch: Batch) returns (sent: seq<Notification>)
      modifies this
      ensures seen == AfterFetch(old(seen), batch)
      ensures sent == BootstrapSends(channelID, batch)
    {
      sent := [];
      if batch.Ok? {
        var listings := batch.value;
        for i := 0 to |listings|
          invariant seen == old(seen) + Ids(listings[..i])
          invariant sent == if channelID == "" then [] else Announce(listings[..i], false)
        {
          assert listings[..i + 1][..i] == listings[..i];
          seen := seen + {listings[i].id};
          if channelID != "" {
            sent := sent + [Notification(listings[i], false)];
          }
        }
        assert listings[..|listings|] == listings;
      }
    }

    /** One ticker cycle: announce, in batch order, each listing whose id is not
        yet seen and mark it seen; a failed fetch skips the cycle. */
    method Cycle(batch: Batch) returns (sent: seq<Notification>)
      modifies this
      ensures seen == AfterFetch(old(seen), batch)
      ensures sent == CycleSends(channelID, old(seen), batch)
    {
      sent := [];
      if batch.Ok? {
        var listings := batch.value;
        for i := 0 to |listings|
          invariant seen == old(seen) + Ids(listings[..i])
          invariant sent == if channelID == "" then [] else Announce(NewListings(old(seen), listings[..i]), true)
        {
          assert listings[..i + 1][..i] == listings[..i];
          ghost var before := NewListings(old(seen), listings[..i]);
          if listings[i].id !in seen {
            seen := seen + {listings[i].id};
            if channelID != "" {
              assert (before + [listings[i]])[..|before|] == before;
              sent := sent + [Notification(listings[i], true)];
            }
          }
        }
        assert listings[..|listings|] == listings;
      }
    }
  }
}
