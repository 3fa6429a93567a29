/** The cost watcher: pumps spend events from a stream and posts an alert to Slack for every
    event at or above the threshold, stopping at the end of the stream or at the first error. */
module CostWatching {
  import opened Common

  datatype SpendEvent = SpendEvent(service: string, cost: real)

  /** One result of `stream.Next`: an event, `io.EOF` (possibly wrapped), or another error. */
  datatype StreamItem = Event(event: SpendEvent) | EndOfStream | StreamFailure(reason: string)

  /** A posted alert: its channel and the service and cost its message reports. */
  datatype Alert = Alert(channel: string, service: string, cost: real)

  /** The error `StreamAlerts` returns: the stream's own, or the one a failed post gave. */
  datatype WatchError = StreamError(reason: string) | PostFailed(attempt: nat)

  datatype CostWatcher = CostWatcher(channel: string, threshold: real)

  /** A Slack client that records what it accepted. Post attempts are numbered from 0, and
      those numbered in `failing` are rejected with an error and leave no record. */
  class SlackRecorder {
    var posted: seq<Alert>
    var attempts: nat
    const failing: set<nat>

    constructor(failing: set<nat>)
      ensures posted == [] && attempts == 0 && this.failing == failing
    {
      posted := [];
      attempts := 0;
      this.failing := failing;
    }

    method PostMessage(channel: string, service: string, cost: real) returns (err: Option<WatchError>)
      modifies this
      ensures attempts == old(attempts) + 1
      ensures err.Some? <==> old(attempts) in failing
      ensures err.Some? ==> err.value == PostFailed(old(attempts)) && posted == old(posted)
      ensures err.None? ==> posted == old(posted) + [Alert(channel, service, cost)]
    {
      if attempts in failing {
        err := Some(PostFailed(attempts));
      } else {
        posted := posted + [Alert(channel, service, cost)];
        err := None;
      }
      attempts := attempts + 1;
    }
  }

  /** What a run of the pump returns and posts, and the post-attempt counter it leaves. */
  datatype Outcome = Outcome(err: Option<WatchError>, alerts: seq<Alert>, attempts: nat)

  /** The pump over the stream's results from the front; past the given results the stream
      reports end of stream, like a drained stream does. */
  function Pump(cw: CostWatcher, stream: seq<StreamItem>, failing: set<nat>, attempts: nat): Outcome
    decreases |stream|
  {
    if stream == [] then Outcome(None, [], attempts)
    else
      match stream[0]
      case EndOfStream => Outcome(None, [], attempts)
      case StreamFailure(reason) => Outcome(Some(StreamError(reason)), [], attempts)
      case Event(e) =>
        if e.cost >= cw.threshold then
          if attempts in failing then Outcome(Some(PostFailed(attempts)), [], attempts + 1)
          else
            var rest := Pump(cw, stream[1..], failing, attempts + 1);
            Outcome(rest.err, [Alert(cw.channel, e.service, e.cost)] + rest.alerts, rest.attempts)
        else Pump(cw, stream[1..], failing, attempts)
  }

  /** `StreamAlerts` (without the context check): runs the pump against `slack`. */
  method StreamAlerts(cw: CostWatcher, stream: seq<StreamItem>, slack: SlackRecorder) returns (err: Option<WatchError>)
    modifies slack
    ensures var o := Pump(cw, stream, slack.failing, old(slack.attempts));
            err == o.err && slack.posted == old(slack.posted) + o.alerts && slack.attempts == o.attempts
  {
    var i := 0;
    ghost var sent: seq<Alert> := [];
    while true
      invariant i <= |stream|
      invariant slack.posted == old(slack.posted) + sent
      invariant var o, rest := Pump(cw, stream, slack.failing, old(slack.attempts)), Pump(cw, stream[i..], slack.failing, slack.attempts);
                o == Outcome(rest.err, sent + rest.alerts, rest.attempts)
      decreases |stream| - i
    {
      var item := if i < |stream| then stream[i] else EndOfStream;
      match item {
        case EndOfStream =>
          return None;
        case StreamFailure(reason) =>
          return Some(StreamError(reason));
        case Event(e) =>
          assert stream[i..][1..] == stream[i + 1..];
          i := i + 1;
          if e.cost >= cw.threshold {
            var postErr := slack.PostMessage(cw.channel, e.service, e.cost);
            if postErr.Some? {
              return postErr;
            }
            sent := sent + [Alert(cw.channel, e.service, e.cost)];
          }
      }
    }
  }

  /** The index of the first end-of-stream or error result, or the length if there is none. */
  function FirstStop(stream: seq<StreamItem>): (k: nat)
    ensures k <= |stream|
    ensures forall i :: 0 <= i < k ==> stream[i].Event?
    ensures k < |stream| ==> !stream[k].Event?
    decreases |stream|
  {
    if stream == [] || !stream[0].Event? then 0 else 1 + FirstStop(stream[1..])
  }

  /** The error the stream itself ends with, if it ends with one. */
  function StreamOutcome(stream: seq<StreamItem>): Option<WatchError>
  {
    var k := FirstStop(stream);
    if k < |stream| && stream[k].StreamFailure? then Some(StreamError(stream[k].reason)) else None
  }

  /** The alerts owed for a run of events, in order: one per event at or above threshold. */
  function Qualifying(cw: CostWatcher, events: seq<StreamItem>): seq<Alert>
  {
    if events == [] then []
    else
      (if events[0].Event? && events[0].event.cost >= cw.threshold
       then [Alert(cw.channel, events[0].event.service, events[0].event.cost)] else [])
      + Qualifying(cw, events[1..])
  }

  /** With no post failing, the pump posts exactly the alerts owed for the events before the
      first end-of-stream or error, in stream order, and returns the stream's own error. */
  lemma {:induction false} CleanRunPostsAllQualifying(cw: CostWatcher, stream: seq<StreamItem>, failing: set<nat>, attempts: nat)
    requires forall n :: attempts <= n < attempts + |stream| ==> n !in failing
    ensures Pump(cw, stream, failing, attempts).alerts == Qualifying(cw, stream[..FirstStop(stream)])
    ensures Pump(cw, stream, failing, attempts).err == StreamOutcome(stream)
    ensures Pump(cw, stream, failing, attempts).attempts == attempts + |Qualifying(cw, stream[..FirstStop(stream)])|
    decreases |stream|
  {
    if stream != [] && stream[0].Event? {
      var e := stream[0].event;
      var next := if e.cost >= cw.threshold then attempts + 1 else attempts;
      CleanRunPostsAllQualifying(cw, stream[1..], failing, next);
      var k := FirstStop(stream[1..]);
      assert stream[..k + 1] == [stream[0]] + stream[1..][..k];
      assert ([stream[0]] + stream[1..][..k])[1..] == stream[1..][..k];
    } else if stream != [] {
      assert stream[..0] == [];
    }
  }

  /** Whatever fails, the alerts posted are an initial run of those owed: never one for an
      event below threshold, never one out of order, none after the run stopped. */
  lemma {:induction false} PostsArePrefixOfQualifying(cw: CostWatcher, stream: seq<StreamItem>, failing: set<nat>, attempts: nat)
    ensures Pump(cw, stream, failing, attempts).alerts <= Qualifying(cw, stream[..FirstStop(stream)])
    decreases |stream|
  {
    if stream != [] && stream[0].Event? {
      var e := stream[0].event;
      var next := if e.cost >= cw.threshold then attempts + 1 else attempts;
      PostsArePrefixOfQualifying(cw, stream[1..], failing, next);
      var k := FirstStop(stream[1..]);
      assert stream[..k + 1] == [stream[0]] + stream[1..][..k];
      assert ([stream[0]] + stream[1..][..k])[1..] == stream[1..][..k];
    } else if stream != [] {
      assert stream[..0] == [];
    }
  }

  /** End of stream or an error ends the run: nothing after the first one is looked at. */
  lemma {:induction false} NothingAfterStop(cw: CostWatcher, stream: seq<StreamItem>, failing: set<nat>, attempts: nat)
    requires FirstStop(stream) < |stream|
    ensures Pump(cw, stream, failing, attempts) == Pump(cw, stream[..FirstStop(stream) + 1], failing, attempts)
    decreases |stream|
  {
    if stream[0].Event? {
      var e := stream[0].event;
      var next := if e.cost >= cw.threshold then attempts + 1 else attempts;
      NothingAfterStop(cw, stream[1..], failing, next);
      var k := FirstStop(stream[1..]);
      assert stream[..k + 2][1..] == stream[1..][..k + 1];
    }
  }

  /** A rejected post ends the run with that post's error, after every earlier post went
      through: the alerts are exactly the posts that preceded it. */
  lemma {:induction false} FailedPostEndsRun(cw: CostWatcher, stream: seq<StreamItem>, failing: set<nat>, attempts: nat)
    ensures var o := Pump(cw, stream, failing, attempts);
            o.err.Some? && o.err.value.PostFailed? ==>
              && o.err.value.attempt in failing
              && o.attempts == o.err.value.attempt + 1
              && |o.alerts| == o.err.value.attempt - attempts
              && (forall n :: attempts <= n < o.err.value.attempt ==> n !in failing)
    ensures attempts <= Pump(cw, stream, failing, attempts).attempts
    decreases |stream|
  {
    if stream != [] && stream[0].Event? {
      var e := stream[0].event;
      if e.cost >= cw.threshold {
        if attempts !in failing {
          FailedPostEndsRun(cw, stream[1..], failing, attempts + 1);
        }
      } else {
        FailedPostEndsRun(cw, stream[1..], failing, attempts);
      }
    }
  }

  /** The threshold is inclusive: an event costing exactly the threshold is alerted, one
      costing less is not, and a drained stream ends without error. */
  lemma ThresholdIsInclusive(cw: CostWatcher, service: string, below: real)
    requires below < cw.threshold
    ensures Pump(cw, [Event(SpendEvent(service, cw.threshold))], {}, 0)
              == Outcome(None, [Alert(cw.channel, service, cw.threshold)], 1)
    ensures Pump(cw, [Event(SpendEvent(service, below))], {}, 0) == Outcome(None, [], 0)
  {
    assert [Event(SpendEvent(service, cw.threshold))][1..] == [];
    assert [Event(SpendEvent(service, below))][1..] == [];
  }
}
