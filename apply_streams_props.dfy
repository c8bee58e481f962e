/** Properties of the apply display loop, stated about `RunOf`, the function
    the loop `ApplyStreams.ProcessApplyStreams` is proved to compute. */
module ApplyStreamsProperties {
  import opened Wrappers
  import opened PushModel
  import opened ApplyStreams

  /** `i` is the position of the last event received in `seen`. */
  predicate LastEventAt(seen: seq<Item>, i: nat)
  {
    && i < |seen|
    && seen[i].EventReceived?
    && forall j :: i < j < |seen| ==> !seen[j].EventReceived?
  }

  /** The latest event is the one at the last position holding an event. */
  lemma {:induction false} LatestEventIsLastEvent(seen: seq<Item>, e: Event)
    ensures LatestEvent(seen) == Some(e) <==> exists i: nat :: LastEventAt(seen, i) && seen[i].event == e
  {
    if seen == [] {
    } else {
      var n := |seen| - 1;
      if seen[n].EventReceived? {
        if LatestEvent(seen) != Some(e) {
          forall i: nat | LastEventAt(seen, i) ensures seen[i].event != e {
            assert i == n;
          }
        }
      } else {
        var front := seen[..n];
        LatestEventIsLastEvent(front, e);
        if LatestEvent(seen) == Some(e) {
          var i: nat :| LastEventAt(front, i) && front[i].event == e;
          assert LastEventAt(seen, i);
        } else {
          forall i: nat | LastEventAt(seen, i) ensures seen[i].event != e {
            assert LastEventAt(front, i);
          }
        }
      }
    }
  }

  /** A non-terminal event clears `complete`; any other item leaves it as it was. */
  lemma {:induction false} CompleteIsLatestEventOnly(seen: seq<Item>, item: Item)
    ensures item.EventReceived? ==> (CompleteAfter(seen + [item]) <==> item.event == Complete)
    ensures !item.EventReceived? ==> CompleteAfter(seen + [item]) == CompleteAfter(seen)
  {
    assert (seen + [item])[..|seen|] == seen;
  }

  /** The display of two traces one after the other is the two displays in order. */
  lemma {:induction false} RenderedConcat(config: Config, app: AppConfig, a: seq<Item>, b: seq<Item>)
    ensures Rendered(config, app, a + b) == Rendered(config, app, a) + Rendered(config, app, b)
    decreases |b|
  {
    if b == [] {
      assert a + b == a;
    } else {
      var n := |b| - 1;
      assert (a + b)[..|a + b| - 1] == a + b[..n];
      RenderedConcat(config, app, a, b[..n]);
    }
  }

  /** Every item the loop received before returning shows its UI calls as one
      contiguous block, right after those of the items before it; in
      particular a warnings batch is shown whole, and a closed warnings
      channel shows the empty batch. */
  lemma {:induction false} ItemShownInPlace(config: Config, app: AppConfig, trace: seq<Item>, k: nat)
    requires k < |trace| && k < RunOf(config, app, trace).consumed
    ensures var lines := RunOf(config, app, trace).lines;
      var at := |Rendered(config, app, trace[..k])|;
      var shown := ItemDisplay(config, app, trace[k]);
      && at + |shown| <= |lines|
      && lines[at..at + |shown|] == shown
  {
    RunOfMeaning(config, app, trace);
    var c := RunOf(config, app, trace).consumed;
    var rest := trace[k + 1..c];
    assert trace[..c] == trace[..k] + [trace[k]] + rest;
    RenderedConcat(config, app, trace[..k] + [trace[k]], rest);
    RenderedConcat(config, app, trace[..k], [trace[k]]);
    assert [trace[k]][..0] == [];
  }

  /** Corollary for warnings: a received batch is shown unchanged, in place. */
  lemma WarningsShownWhole(config: Config, app: AppConfig, trace: seq<Item>, k: nat, ws: seq<string>)
    requires k < |trace| && k < RunOf(config, app, trace).consumed && trace[k] == WarningsReceived(ws)
    ensures var at := |Rendered(config, app, trace[..k])|;
      at < |RunOf(config, app, trace).lines| && RunOf(config, app, trace).lines[at] == DisplayWarnings(ws)
  {
    ItemShownInPlace(config, app, trace, k);
  }

  /** The loop returns nil through the normal path only when, after the item
      it returned on, the events and warnings channels are closed and the
      latest event was `Complete`. */
  lemma {:induction false} NormalSuccessNeedsAllFlags(config: Config, app: AppConfig, trace: seq<Item>)
    requires RunOf(config, app, trace).outcome == Succeeded
    requires 0 < RunOf(config, app, trace).consumed <= |trace|
    requires trace[RunOf(config, app, trace).consumed - 1] != ErrorsClosed
    ensures var seen := trace[..RunOf(config, app, trace).consumed];
      && EventsClosed in seen
      && WarningsClosed in seen
      && exists i: nat :: LastEventAt(seen, i) && seen[i] == EventReceived(Complete)
  {
    RunOfMeaning(config, app, trace);
    var c := RunOf(config, app, trace).consumed;
    var seen := trace[..c];
    assert AllDone(seen);
    if WarningsClosed !in seen {
      var j :| 0 <= j < c && seen[j] == ErrorsClosed;
      assert ReturnsAt(config, app, trace, j);
    }
    LatestEventIsLastEvent(seen, Complete);
  }

  /** Any receive from the error channel ends the run at once: with the
      received error, or with success if the channel was closed, whatever the
      other flags say.  Nothing received after it is looked at. */
  lemma {:induction false} ErrorChannelEndsRun(config: Config, app: AppConfig, trace: seq<Item>, k: nat)
    requires k < |trace| && (trace[k].ErrorReceived? || trace[k] == ErrorsClosed)
    ensures RunOf(config, app, trace).outcome != Running
    ensures RunOf(config, app, trace).consumed <= k + 1
    ensures RunOf(config, app, trace).consumed == k + 1 ==>
      RunOf(config, app, trace).outcome == if trace[k] == ErrorsClosed then Succeeded else Failed(trace[k].err)
  {
    RunOfMeaning(config, app, trace);
    assert ReturnsAt(config, app, trace, k);
  }

  /** A failed user lookup on an app event ends the run at once with the
      lookup's error, and that event shows nothing. */
  lemma {:induction false} LookupFailureEndsRun(config: Config, app: AppConfig, trace: seq<Item>, k: nat)
    requires k < |trace| && trace[k].EventReceived?
    requires trace[k].event == ApplicationCreated || trace[k].event == ApplicationUpdated
    requires config.currentUser.Failure?
    ensures RunOf(config, app, trace).outcome != Running
    ensures RunOf(config, app, trace).consumed <= k + 1
    ensures RunOf(config, app, trace).consumed == k + 1 ==>
      && RunOf(config, app, trace).outcome == Failed(config.currentUser.error)
      && RunOf(config, app, trace).lines == Rendered(config, app, trace[..k])
  {
    RunOfMeaning(config, app, trace);
    ReceiveOne(config, app, trace, k);
    assert ReturnsAt(config, app, trace, k);
  }

  /** A received warnings batch never makes the loop return: if the loop
      was still going before it, it is still going after it. */
  lemma {:induction false} WarningsNeverFirstReturn(config: Config, app: AppConfig, trace: seq<Item>, k: nat)
    requires k < |trace| && trace[k].WarningsReceived?
    requires forall j :: 0 <= j < k ==> !ReturnsAt(config, app, trace, j)
    ensures !ReturnsAt(config, app, trace, k)
    ensures RunOf(config, app, trace).outcome != Running ==> RunOf(config, app, trace).consumed != k + 1
  {
    ReceiveOne(config, app, trace, k);
    if k > 0 {
      assert !ReturnsAt(config, app, trace, k - 1);
      assert trace[..(k - 1) + 1] == trace[..k];
    }
    assert !AllDone(trace[..k]);
    RunOfMeaning(config, app, trace);
  }

  /** Once the loop has returned, what comes later in the trace changes
      nothing: no further item is received and no further line is shown. */
  lemma {:induction false} RunDeterminedByConsumedPrefix(config: Config, app: AppConfig, t1: seq<Item>, t2: seq<Item>)
    requires RunOf(config, app, t1).outcome != Running
    requires RunOf(config, app, t1).consumed <= |t1| && RunOf(config, app, t1).consumed <= |t2|
    requires t1[..RunOf(config, app, t1).consumed] == t2[..RunOf(config, app, t1).consumed]
    ensures RunOf(config, app, t2) == RunOf(config, app, t1)
  {
    RunOfMeaning(config, app, t1);
    var c := RunOf(config, app, t1).consumed;
    forall j | 0 <= j < c
      ensures t1[j] == t2[j] && t1[..j + 1] == t2[..j + 1]
      ensures ReturnsAt(config, app, t1, j) == ReturnsAt(config, app, t2, j)
    {
      assert t1[..c][j] == t2[..c][j];
      assert t1[..c][..j + 1] == t2[..c][..j + 1];
    }
    RunStopsAt(config, app, t2, c - 1);
    assert t1[..c] == t2[..c];
  }

  /** The run succeeds when the producer keeps its side of the contract: no
      error is sent, the user lookup works, the last event is `Complete`, and
      both the events and the warnings channels get closed. */
  lemma {:induction false} HonestProducerSucceeds(config: Config, app: AppConfig, trace: seq<Item>, c: nat)
    requires config.currentUser.Success?
    requires forall j :: 0 <= j < |trace| ==> !trace[j].ErrorReceived?
    requires LastEventAt(trace, c) && trace[c].event == Complete
    requires EventsClosed in trace && WarningsClosed in trace
    ensures RunOf(config, app, trace).outcome == Succeeded
  {
    var e :| 0 <= e < |trace| && trace[e] == EventsClosed;
    var w :| 0 <= w < |trace| && trace[w] == WarningsClosed;
    var m := if c >= e && c >= w then c else if e >= w then e else w;
    var seen := trace[..m + 1];
    assert seen[e] == EventsClosed && seen[w] == WarningsClosed;
    assert LastEventAt(seen, c);
    LatestEventIsLastEvent(seen, Complete);
    assert AllDone(seen);
    assert ReturnsAt(config, app, trace, m);
    RunOfMeaning(config, app, trace);
    var r := RunOf(config, app, trace);
    var k := r.consumed - 1;
    assert !trace[k].ErrorReceived?;
  }
}
