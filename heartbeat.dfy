/** The job step poller (changes_lxc_wrapper/heartbeat.py). The other thread
    and the condition variable are replaced by a schedule of ticks: each tick
    is what one `get_jobstep` call answers and whether `close` is called
    during the `cv.wait` that follows it. */
module Heartbeat {
  import opened Wrappers

  const DefaultInterval := 5
  const FinishedStatus := "finished"

  /** What one `get_jobstep` call gives: the job step's `status.id`, or an
      exception from the API client, which ends `wait` with it. */
  datatype Poll = Status(id: string) | Failed

  /** One round of the loop: the poll, and whether `close` runs during the
      wait after it. */
  datatype Tick = Tick(poll: Poll, closeDuringWait: bool)

  /** How `wait` ends on a schedule: the status was `finished`, `close` ran
      during a wait, the poll raised, or the schedule ran out while the loop
      would still be waiting. */
  datatype Ending = SawFinished | WasClosed | PollRaised | StillWaiting

  /** The poll ends the loop at once. */
  predicate Terminal(p: Poll)
  {
    p.Failed? || p.id == FinishedStatus
  }

  /** The tick is the last round of the loop. */
  predicate Stops(t: Tick)
  {
    Terminal(t.poll) || t.closeDuringWait
  }

  /** The polls, the waits and the ending of `wait` over `ticks`. */
  datatype Trace = Trace(polls: nat, waits: nat, ending: Ending)

  function Run(ticks: seq<Tick>): Trace
  {
    if ticks == [] then Trace(0, 0, StillWaiting)
    else
      var t := ticks[0];
      if t.poll.Failed? then Trace(1, 0, PollRaised)
      else if t.poll.id == FinishedStatus then Trace(1, 0, SawFinished)
      else if t.closeDuringWait then Trace(1, 1, WasClosed)
      else
        var rest := Run(ticks[1..]);
        Trace(rest.polls + 1, rest.waits + 1, rest.ending)
  }

  /** The index of the round that ends the loop, or `|ticks|` if none does. */
  function FirstStop(ticks: seq<Tick>): (k: nat)
    ensures k <= |ticks|
    ensures forall j :: 0 <= j < k ==> !Stops(ticks[j])
    ensures k < |ticks| ==> Stops(ticks[k])
  {
    if ticks == [] || Stops(ticks[0]) then 0 else FirstStop(ticks[1..]) + 1
  }

  /** One poll per round up to and including the first that stops; a wait
      of `interval` after each of those rounds whose poll was not terminal;
      the ending is decided by that round alone. */
  lemma {:induction false} RunMeaning(ticks: seq<Tick>)
    ensures var k := FirstStop(ticks); var r := Run(ticks);
      if k == |ticks| then r == Trace(k, k, StillWaiting)
      else
        && r.polls == k + 1
        && r.waits == (if Terminal(ticks[k].poll) then k else k + 1)
        && r.ending == (if ticks[k].poll.Failed? then PollRaised
                        else if ticks[k].poll.id == FinishedStatus then SawFinished
                        else WasClosed)
  {
    if ticks != [] && !Stops(ticks[0]) {
      RunMeaning(ticks[1..]);
    }
  }

  /** Only `finished` ends the loop by itself: with no close and no failure,
      every other status leads to a wait and another poll. */
  lemma OnlyFinishedIsTerminal(ticks: seq<Tick>)
    requires forall j :: 0 <= j < |ticks| ==>
      ticks[j].poll.Status? && ticks[j].poll.id != FinishedStatus && !ticks[j].closeDuringWait
    ensures Run(ticks) == Trace(|ticks|, |ticks|, StillWaiting)
  {
    RunMeaning(ticks);
  }

  /** A round that does not stop: one more poll and one more wait. */
  lemma RunStep(ticks: seq<Tick>, i: nat)
    requires i < |ticks| && !Stops(ticks[i])
    ensures var r := Run(ticks[i + 1..]);
      Run(ticks[i..]) == Trace(r.polls + 1, r.waits + 1, r.ending)
  {
    assert ticks[i..][1..] == ticks[i + 1..];
  }

  /** An `in_progress` answer and then a `finished` one: exactly two polls. */
  lemma TwoPolls(other: string)
    requires other != FinishedStatus
    ensures Run([Tick(Status(other), false), Tick(Status(FinishedStatus), false)]) == Trace(2, 1, SawFinished)
  {
    var ticks := [Tick(Status(other), false), Tick(Status(FinishedStatus), false)];
    assert ticks[1..] == [Tick(Status(FinishedStatus), false)];
  }

  class Heartbeater {
    const jobstepId: string
    const interval: int
    /** The `finished` event. */
    var finished: bool
    /** The job step ids passed to `get_jobstep`, in order. */
    var polled: seq<string>
    /** The timeouts passed to `cv.wait`, in order. */
    var waited: seq<int>

    /** `Heartbeater(api, jobstep_id, interval)`: the class attribute
        `interval = 5` unless an interval is given. */
    constructor (jobstepId: string, interval: Option<int>)
      ensures this.jobstepId == jobstepId
      ensures this.interval == (if interval.Some? then interval.value else DefaultInterval)
      ensures !finished && polled == [] && waited == []
    {
      this.jobstepId := jobstepId;
      this.interval := if interval.Some? then interval.value else DefaultInterval;
      finished := false;
      polled := [];
      waited := [];
    }

    /** `close`: sets `finished`; calling it again changes nothing more. */
    method Close()
      modifies this
      ensures finished && polled == old(polled) && waited == old(waited)
    {
      finished := true;
    }

    /** `wait` over a schedule. `finished` is cleared on entry, so a `close`
        before the call does not save the first poll; then one poll per
        round, for this job step, and a wait of `interval` after each
        non-terminal poll, until a `finished` status, a `close` during a
        wait or a failing poll. `raised` tells whether `get_jobstep` raised;
        `finished` is set on every other return, and stays clear only when
        the schedule runs out first. */
    method Wait(ticks: seq<Tick>) returns (raised: bool)
      modifies this
      ensures var r := Run(ticks);
        && polled == old(polled) + seq(r.polls, _ => jobstepId)
        && waited == old(waited) + seq(r.waits, _ => interval)
        && raised == (r.ending == PollRaised)
        && finished == (r.ending == SawFinished || r.ending == WasClosed)
      ensures |ticks| > 0 ==> |polled| > |old(polled)|
    {
      finished := false;
      raised := false;
      var i := 0;
      while !finished && i < |ticks|
        invariant 0 <= i <= |ticks|
        invariant polled == old(polled) + seq(i, _ => jobstepId)
        invariant waited == old(waited) + seq(i, _ => interval)
        invariant !finished ==> Run(ticks) == Trace(Run(ticks[i..]).polls + i, Run(ticks[i..]).waits + i, Run(ticks[i..]).ending)
        invariant finished ==> 0 < i && Run(ticks) == Trace(i, i, WasClosed)
        invariant !raised
        decreases |ticks| - i, if finished then 0 else 1
      {
        var poll := ticks[i].poll;
        polled := polled + [jobstepId];
        assert seq(i + 1, _ => jobstepId) == seq(i, _ => jobstepId) + [jobstepId];
        if poll.Failed? {
          raised := true;
          return;
        }
        if poll.id == FinishedStatus {
          finished := true;
          return;
        }
        waited := waited + [interval];
        assert seq(i + 1, _ => interval) == seq(i, _ => interval) + [interval];
        if ticks[i].closeDuringWait {
          Close();
        } else {
          RunStep(ticks, i);
        }
        i := i + 1;
      }
    }
  }
}
