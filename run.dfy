/** The whole life of the polling loop in `monitorApartments`: one bootstrap
    fetch, then one cycle per ticker tick. The ticker is replaced by the sequence
    of fetch outcomes the ticks produce. */
module Run {
  import opened Outcomes
  import opened Listings
  import opened Monitor

  /** The seen-set after the cycles of `ticks`, starting from `seen`. */
  function SeenAfterTicks(seen: set<string>, ticks: seq<Batch>): set<string> {
    if ticks == [] then seen
    else AfterFetch(SeenAfterTicks(seen, ticks[..|ticks| - 1]), ticks[|ticks| - 1])
  }

  /** Everything the cycles of `ticks` send, in order, starting from `seen`. */
  function TickSends(channelID: string, seen: set<string>, ticks: seq<Batch>): seq<Notification> {
    if ticks == [] then []
    else
      var earlier := ticks[..|ticks| - 1];
      TickSends(channelID, seen, earlier)
        + CycleSends(channelID, SeenAfterTicks(seen, earlier), ticks[|ticks| - 1])
  }

  /** The seen-set after the bootstrap fetch `initial` and the cycles of `ticks`. */
  function RunSeen(initial: Batch, ticks: seq<Batch>): set<string> {
    SeenAfterTicks(AfterFetch({}, initial), ticks)
  }

  /** Everything sent by the bootstrap pass and the cycles of `ticks`. */
  function RunSends(channelID: string, initial: Batch, ticks: seq<Batch>): seq<Notification> {
    BootstrapSends(channelID, initial) + TickSends(channelID, AfterFetch({}, initial), ticks)
  }

  /** One more tick extends the seen-set and the sends by one cycle. */
  lemma TickStep(channelID: string, seen: set<string>, ticks: seq<Batch>, i: nat)
    requires i < |ticks|
    ensures SeenAfterTicks(seen, ticks[..i + 1]) == AfterFetch(SeenAfterTicks(seen, ticks[..i]), ticks[i])
    ensures TickSends(channelID, seen, ticks[..i + 1])
      == TickSends(channelID, seen, ticks[..i]) + CycleSends(channelID, SeenAfterTicks(seen, ticks[..i]), ticks[i])
  {
    assert ticks[..i + 1][..i] == ticks[..i];
  }

  /** `monitorApartments` with the ticker replaced by `ticks`: returns what was
      sent and the final seen-set. */
  method MonitorApartments(channelID: string, initial: Batch, ticks: seq<Batch>)
    returns (sent: seq<Notification>, seen: set<string>)
    ensures seen == RunSeen(initial, ticks)
    ensures sent == RunSends(channelID, initial, ticks)
  {
    var tracker := new Tracker(channelID);
    var bootSent := tracker.Bootstrap(initial);
    ghost var start := tracker.seen;
    var tickSent := [];
    for i := 0 to |ticks|
      invariant tracker.channelID == channelID
      invariant tracker.seen == SeenAfterTicks(start, ticks[..i])
      invariant tickSent == TickSends(channelID, start, ticks[..i])
    {
      TickStep(channelID, start, ticks, i);
      var cycleSent := tracker.Cycle(ticks[i]);
      tickSent := tickSent + cycleSent;
    }
    assert ticks[..|ticks|] == ticks;
    sent := bootSent + tickSent;
    seen := tracker.seen;
  }

  /** The seen-set never shrinks: a longer run of ticks ends with a superset. */
  lemma {:induction false} SeenNeverShrinks(seen: set<string>, ticks: seq<Batch>, i: nat, j: nat)
    requires i <= j <= |ticks|
    ensures seen <= SeenAfterTicks(seen, ticks[..i]) <= SeenAfterTicks(seen, ticks[..j])
    decreases j
  {
    if j == 0 {
      assert ticks[..0] == [];
    } else {
      assert ticks[..j][..j - 1] == ticks[..j - 1];
      SeenNeverShrinks(seen, ticks, if i < j then i else j - 1, j - 1);
    }
  }

  /** An id is seen after the ticks iff it was seen before or some successful
      fetch among them carried it; failed fetches contribute nothing. */
  lemma {:induction false} SeenIsFetchedIds(seen: set<string>, ticks: seq<Batch>, id: string)
    ensures id in SeenAfterTicks(seen, ticks) <==>
      id in seen || exists k :: 0 <= k < |ticks| && ticks[k].Ok? && id in Ids(ticks[k].value)
    decreases |ticks|
  {
    if ticks != [] {
      var earlier := ticks[..|ticks| - 1];
      SeenIsFetchedIds(seen, earlier, id);
      var last := |ticks| - 1;
      if id in SeenAfterTicks(seen, ticks) && id !in seen {
        if id in SeenAfterTicks(seen, earlier) {
          var k :| 0 <= k < |earlier| && earlier[k].Ok? && id in Ids(earlier[k].value);
          assert ticks[k] == earlier[k];
        } else {
          assert ticks[last].Ok? && id in Ids(ticks[last].value);
        }
      }
      if exists k :: 0 <= k < |ticks| && ticks[k].Ok? && id in Ids(ticks[k].value) {
        var k :| 0 <= k < |ticks| && ticks[k].Ok? && id in Ids(ticks[k].value);
        if k < last {
          assert earlier[k] == ticks[k];
        }
      }
    }
  }

  /** Without a channel no cycle sends anything. */
  lemma {:induction false} NoChannelTicksSendNothing(seen: set<string>, ticks: seq<Batch>)
    ensures TickSends("", seen, ticks) == []
    decreases |ticks|
  {
    if ticks != [] {
      NoChannelTicksSendNothing(seen, ticks[..|ticks| - 1]);
    }
  }

  /** Without a channel the whole run sends nothing, while the seen-set, which
      does not depend on the channel, grows as it would with one. */
  lemma NoChannelRunSendsNothing(initial: Batch, ticks: seq<Batch>)
    ensures RunSends("", initial, ticks) == []
  {
    NoChannelTicksSendNothing(AfterFetch({}, initial), ticks);
  }

  /** Every notification of `ns` is framed as new and is for an id outside
      `before` and inside `after`. */
  ghost predicate NewBetween(ns: seq<Notification>, before: set<string>, after: set<string>) {
    forall i :: 0 <= i < |ns| ==>
      ns[i].isNew && ns[i].listing.id !in before && ns[i].listing.id in after
  }

  /** No id is notified twice in `ns`. */
  ghost predicate NoRepeatedIds(ns: seq<Notification>) {
    forall i, j :: 0 <= i < j < |ns| ==> ns[i].listing.id != ns[j].listing.id
  }

  /** One cycle's notifications are framed as new, are for ids unseen before
      the cycle and seen after it, and never repeat an id. */
  lemma CycleSendsAreNew(channelID: string, seen: set<string>, batch: Batch)
    ensures NewBetween(CycleSends(channelID, seen, batch), seen, AfterFetch(seen, batch))
    ensures NoRepeatedIds(CycleSends(channelID, seen, batch))
  {
    if channelID != "" && batch.Ok? {
      NewListingsIds(seen, batch.value);
      NewListingsDistinct(seen, batch.value);
    }
  }

  /** Concatenating the sends of consecutive stretches keeps them new. */
  lemma NewBetweenConcat(xs: seq<Notification>, ys: seq<Notification>, s0: set<string>, s1: set<string>, s2: set<string>)
    requires NewBetween(xs, s0, s1) && NewBetween(ys, s1, s2)
    requires s0 <= s1 <= s2
    ensures NewBetween(xs + ys, s0, s2)
  {
  }

  /** Sends of a later stretch, all outside `s1`, cannot repeat an id of an
      earlier stretch, all inside it. */
  lemma NoRepeatedIdsConcat(xs: seq<Notification>, ys: seq<Notification>, s0: set<string>, s1: set<string>, s2: set<string>)
    requires NoRepeatedIds(xs) && NoRepeatedIds(ys)
    requires NewBetween(xs, s0, s1) && NewBetween(ys, s1, s2)
    ensures NoRepeatedIds(xs + ys)
  {
  }

  /** Across all steady-state cycles every notification is framed as new and
      is for an id not seen when the cycles began but seen at their end. */
  lemma {:induction false} TicksSendOnlyNew(channelID: string, seen: set<string>, ticks: seq<Batch>)
    ensures NewBetween(TickSends(channelID, seen, ticks), seen, SeenAfterTicks(seen, ticks))
    decreases |ticks|
  {
    if ticks != [] {
      var earlier := ticks[..|ticks| - 1];
      var mid := SeenAfterTicks(seen, earlier);
      TicksSendOnlyNew(channelID, seen, earlier);
      CycleSendsAreNew(channelID, mid, ticks[|ticks| - 1]);
      SeenNeverShrinks(seen, ticks, 0, |ticks| - 1);
      assert ticks[..|ticks| - 1] == earlier && ticks[..0] == [];
      NewBetweenConcat(TickSends(channelID, seen, earlier), CycleSends(channelID, mid, ticks[|ticks| - 1]),
        seen, mid, SeenAfterTicks(seen, ticks));
    }
  }

  /** No id is notified twice across all steady-state cycles. */
  lemma {:induction false} TicksNeverRepeat(channelID: string, seen: set<string>, ticks: seq<Batch>)
    ensures NoRepeatedIds(TickSends(channelID, seen, ticks))
    decreases |ticks|
  {
    if ticks != [] {
      var earlier := ticks[..|ticks| - 1];
      var mid := SeenAfterTicks(seen, earlier);
      var last := ticks[|ticks| - 1];
      TicksNeverRepeat(channelID, seen, earlier);
      TicksSendOnlyNew(channelID, seen, earlier);
      CycleSendsAreNew(channelID, mid, last);
      NoRepeatedIdsConcat(TickSends(channelID, seen, earlier), CycleSends(channelID, mid, last),
        seen, mid, AfterFetch(mid, last));
    }
  }

  /** A tick that fetches exactly the batch the previous tick absorbed sends nothing. */
  lemma ReplayedTickIsSilent(channelID: string, seen: set<string>, ticks: seq<Batch>, batch: Batch)
    ensures TickSends(channelID, seen, ticks + [batch, batch]) == TickSends(channelID, seen, ticks + [batch])
    ensures SeenAfterTicks(seen, ticks + [batch, batch]) == SeenAfterTicks(seen, ticks + [batch])
  {
    var once, twice := ticks + [batch], ticks + [batch, batch];
    assert twice[..|twice| - 1] == once && twice[|twice| - 1] == batch;
    assert once[..|once| - 1] == ticks && once[|once| - 1] == batch;
    CycleReplayIsSilent(channelID, SeenAfterTicks(seen, ticks), batch);
  }

  lemma IdsOfThree(a: Listing, b: Listing, c: Listing)
    ensures Ids([a, b, c]) == {a.id, b.id, c.id}
  {
    assert [a][..0] == [];
    assert Ids([a]) == {a.id};
    assert [a, b][..1] == [a];
    assert Ids([a, b]) == {a.id, b.id};
    assert [a, b, c][..2] == [a, b];
  }

  lemma IdsOfFour(a: Listing, b: Listing, c: Listing, d: Listing)
    ensures Ids([a, b, c, d]) == {a.id, b.id, c.id, d.id}
  {
    assert [a, b, c, d][..3] == [a, b, c];
    IdsOfThree(a, b, c);
  }

  /** A two-step run, first step: a bootstrap fetch with
      ids A, B and C seeds three ids and announces all three as existing. */
  lemma ScenarioBootstrap(channelID: string, a: Listing, b: Listing, c: Listing)
    requires channelID != ""
    requires a.id != b.id && a.id != c.id && b.id != c.id
    ensures |AfterFetch({}, Ok([a, b, c]))| == 3
    ensures BootstrapSends(channelID, Ok([a, b, c]))
              == [Notification(a, false), Notification(b, false), Notification(c, false)]
  {
    IdsOfThree(a, b, c);
  }

  /** Second step: the next tick fetches A, B, C and D; only D is announced,
      framed as new, and four ids are tracked. */
  lemma ScenarioOneNew(channelID: string, a: Listing, b: Listing, c: Listing, d: Listing)
    requires channelID != ""
    requires a.id != b.id && a.id != c.id && b.id != c.id
    requires d.id != a.id && d.id != b.id && d.id != c.id
    ensures TickSends(channelID, AfterFetch({}, Ok([a, b, c])), [Ok([a, b, c, d])]) == [Notification(d, true)]
    ensures |RunSeen(Ok([a, b, c]), [Ok([a, b, c, d])])| == 4
  {
    var abc, abcd := [a, b, c], [a, b, c, d];
    var seen := AfterFetch({}, Ok(abc));
    IdsOfThree(a, b, c);
    assert seen == {a.id, b.id, c.id} && |seen| == 3;
    assert abcd[..3] == abc && abcd[3] == d;
    NewListingsOfSeenBatch(seen, abc);
    assert d.id !in seen + Ids(abc);
    assert NewListings(seen, abcd) == [] + [d] == [d];
    assert CycleSends(channelID, seen, Ok(abcd)) == [Notification(d, true)];
    var ticks: seq<Batch> := [Ok(abcd)];
    assert ticks[..0] == [] && ticks[0] == Ok(abcd);
    assert TickSends(channelID, seen, ticks) == [] + CycleSends(channelID, seen, Ok(abcd));
    IdsOfFour(a, b, c, d);
    assert SeenAfterTicks(seen, ticks) == seen + {d.id};
  }
}
