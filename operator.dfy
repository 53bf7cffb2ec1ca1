/**
  The operator's part of detection checking: the key loop that keeps or skips
  an image (`show_detection` and `adjust_detection`), the click loop that moves
  the threshold (`adjust_detection`), and the transition-zone mask drawn for
  the operator.

  matplotlib is replaced by the sequence of events the operator produces:
  `plt.waitforbuttonpress()` consumes one event (a key or a mouse click) and
  `ginput(n=1)` one click or the Enter that ends input. When the events run out
  before the loop ends, the program would wait forever; the model reports that
  as `Waiting`.
*/
module Operator {
  import opened Wrappers

  /** One event consumed by `plt.waitforbuttonpress()`. */
  datatype Press = Key(name: string) | MouseClick

  /** How the key loop ends. `Cancel` is the StopIteration raised on escape. */
  datatype Decision = Keep | Skip | Cancel | Waiting

  /** The `press` handler stores the name of every key pressed; mouse clicks leave it as it was. */
  function Update(last: Option<string>, e: Press): Option<string>
  {
    match e
    case Key(name) => Some(name)
    case MouseClick => last
  }

  /**
    The key loop from event i on, with `last` the key recorded so far: wait
    for one event, then decide on the recorded key; on any other key (or none)
    wait for one more event and go round again.
  */
  function Decide(events: seq<Press>, i: nat, last: Option<string>): Decision
    decreases |events| - i
  {
    if i >= |events| then Waiting
    else
      var seen := Update(last, events[i]);
      if seen == Some("right") then Keep
      else if seen == Some("left") then Skip
      else if seen == Some("escape") then Cancel
      else if i + 1 >= |events| then Waiting
      else Decide(events, i + 2, Update(seen, events[i + 1]))
  }

  /** The `while True` key loop, with the dictionary `key_event` as `last`. */
  method AwaitKeyDecision(events: seq<Press>) returns (d: Decision)
    ensures d == Decide(events, 0, None)
  {
    var i := 0;
    var last: Option<string> := None;
    while i < |events|
      invariant Decide(events, 0, None) == Decide(events, i, last)
      decreases |events| - i
    {
      last := Update(last, events[i]);
      if last == Some("right") {
        return Keep;
      } else if last == Some("left") {
        return Skip;
      } else if last == Some("escape") {
        return Cancel;
      }
      if i + 1 >= |events| {
        return Waiting;
      }
      last := Update(last, events[i + 1]);
      i := i + 2;
    }
    d := Waiting;
  }

  /** The first event decides when it is one of the three keys the loop acts on. */
  lemma FirstKeyDecides(events: seq<Press>)
    requires |events| > 0
    ensures events[0] == Key("right") ==> Decide(events, 0, None) == Keep
    ensures events[0] == Key("left") ==> Decide(events, 0, None) == Skip
    ensures events[0] == Key("escape") ==> Decide(events, 0, None) == Cancel
  {
  }

  /** Mouse clicks alone never end the key loop. */
  lemma {:induction false} ClicksNeverDecide(events: seq<Press>, i: nat)
    requires forall j :: 0 <= j < |events| ==> events[j] == MouseClick
    ensures Decide(events, i, None) == Waiting
    decreases |events| - i
  {
    if i + 1 < |events| {
      ClicksNeverDecide(events, i + 2);
    }
  }

  /**
    The loop only keeps after the operator pressed 'right', only skips after
    'left', and only cancels after 'escape'.
  */
  lemma {:induction false} DecisionNeedsKey(events: seq<Press>, i: nat, last: Option<string>)
    requires i <= |events|
    requires last.Some? ==> Key(last.value) in events[..i]
    ensures Decide(events, i, last) == Keep ==> Key("right") in events
    ensures Decide(events, i, last) == Skip ==> Key("left") in events
    ensures Decide(events, i, last) == Cancel ==> Key("escape") in events
    decreases |events| - i
  {
    if i < |events| {
      var seen := Update(last, events[i]);
      assert events[..i + 1] == events[..i] + [events[i]];
      assert seen.Some? ==> Key(seen.value) in events[..i + 1];
      if seen.Some? && seen.value in {"right", "left", "escape"} {
        assert Key(seen.value) in events by {
          assert events[..i + 1] <= events;
        }
      } else if i + 1 < |events| {
        var next := Update(seen, events[i + 1]);
        assert events[..i + 2] == events[..i + 1] + [events[i + 1]];
        DecisionNeedsKey(events, i + 2, next);
      }
    }
  }

  /**
    A key pressed during the second wait is overwritten by the next key
    pressed at the top of the loop: after an unrecognised key, 'right' then
    'left' skips the image.
  */
  lemma SecondWaitKeyOverwritten()
    ensures Decide([Key("a"), Key("right"), Key("left")], 0, None) == Skip
  {
  }

  /** ... but survives when the next event at the top of the loop is a mouse click. */
  lemma SecondWaitKeyKeptAfterClick()
    ensures Decide([Key("a"), Key("right"), MouseClick], 0, None) == Keep
  {
    assert Decide([Key("a"), Key("right"), MouseClick], 2, Some("right")) == Keep;
  }

  // ---------------------------------------------------------------------------
  // The threshold-adjustment click loop.

  /** One return of `ginput(n=1, timeout=-1)`: a clicked point, or nothing (Enter). */
  datatype ClickEvent = Clicked(x: real, y: real) | Finished

  function Abs(x: real): real
  {
    if x < 0.0 then -x else x
  }

  /** A click is used as the new threshold only when its x coordinate lies strictly between -1 and 1. */
  predicate Accepted(e: ClickEvent)
  {
    e.Clicked? && Abs(e.x) < 1.0
  }

  /** Index of the first Finished event, or |clicks| when there is none. */
  function FinishIndex(clicks: seq<ClickEvent>): (n: nat)
    ensures n <= |clicks|
    ensures n < |clicks| ==> clicks[n] == Finished
    ensures forall j :: 0 <= j < n ==> clicks[j].Clicked?
  {
    if clicks == [] then 0
    else if clicks[0] == Finished then 0
    else 1 + FinishIndex(clicks[1..])
  }

  /** The threshold after the clicks: the x of the last accepted click, or the detected threshold when none was accepted. */
  function ThresholdAfter(clicks: seq<ClickEvent>, t0: real): (t: real)
    ensures t == t0 || exists j :: 0 <= j < |clicks| && Accepted(clicks[j]) && t == clicks[j].x
    ensures (forall j :: 0 <= j < |clicks| ==> !Accepted(clicks[j])) ==> t == t0
  {
    if clicks == [] then t0
    else
      var last := clicks[|clicks| - 1];
      if Accepted(last) then last.x else ThresholdAfter(clicks[..|clicks| - 1], t0)
  }

  function AnyAccepted(clicks: seq<ClickEvent>): bool
  {
    exists j :: 0 <= j < |clicks| && Accepted(clicks[j])
  }

  /** An accepted threshold always lies in (-1, 1). */
  lemma {:induction false} ThresholdAfterInRange(clicks: seq<ClickEvent>, t0: real)
    requires AnyAccepted(clicks)
    ensures -1.0 < ThresholdAfter(clicks, t0) < 1.0
  {
    var n := |clicks|;
    if !Accepted(clicks[n - 1]) {
      var j :| 0 <= j < n && Accepted(clicks[j]);
      assert clicks[..n - 1][j] == clicks[j];
      ThresholdAfterInRange(clicks[..n - 1], t0);
    }
  }

  /**
    The click loop. `detect(t)` is the detection at threshold t (contours at t,
    NaN removal, line cleaning); the initial detection at t0 is `line0`. When
    the loop ends (`finished`), `t` is the threshold from the last accepted
    click before Enter (or t0), and the detection is the one at `t` whenever a
    click was accepted.
  */
  method AdjustThreshold<R>(clicks: seq<ClickEvent>, t0: real, line0: R, detect: real -> R)
    returns (finished: bool, t: real, line: R)
    ensures finished <==> Finished in clicks
    ensures var used := clicks[..FinishIndex(clicks)];
      && t == ThresholdAfter(used, t0)
      && line == (if AnyAccepted(used) then detect(t) else line0)
  {
    t, line := t0, line0;
    var i := 0;
    finished := false;
    while i < |clicks| && !finished
      invariant i <= FinishIndex(clicks)
      invariant finished ==> i == FinishIndex(clicks) < |clicks|
      invariant !finished ==> forall j :: 0 <= j < i ==> clicks[j].Clicked?
      invariant t == ThresholdAfter(clicks[..i], t0)
      invariant line == (if AnyAccepted(clicks[..i]) then detect(t) else line0)
      decreases |clicks| - i, if finished then 0 else 1
    {
      var pt := clicks[i];
      if pt == Finished {
        finished := true;
      } else {
        assert clicks[..i + 1] == clicks[..i] + [pt];
        assert clicks[..i + 1][..i] == clicks[..i];
        if Abs(pt.x) >= 1.0 {
          i := i + 1;
          continue;
        }
        t := pt.x;
        line := detect(t);
        i := i + 1;
      }
    }
    if !finished {
      assert i == |clicks|;
      assert Finished !in clicks;
    } else {
      assert Finished in clicks;
    }
  }

  // ---------------------------------------------------------------------------
  // The transition-zone mask.

  /** A cell of the mask: 1.0 when the index value lies strictly inside the zone, NaN otherwise (also for a NaN value). */
  function ZoneValue(v: Option<real>, lo: real, hi: real): (r: Option<real>)
    ensures r.Some? <==> v.Some? && lo < v.value < hi
    ensures r.Some? ==> r.value == 1.0
  {
    if v.Some? && v.value > lo && v.value < hi then Some(1.0) else None
  }

  /** A zone whose lower bound is not below its upper bound marks no cell. */
  lemma EmptyZone(v: Option<real>, lo: real, hi: real)
    requires hi <= lo
    ensures ZoneValue(v, lo, hi) == None
  {
  }

  /**
    The nested loops that fill `im_TZ` (a copy of the index image) cell by
    cell: 1.0 inside the transition zone, NaN elsewhere.
  */
  method TransitionZone(ndvi: array2<Option<real>>, lo: real, hi: real) returns (tz: array2<Option<real>>)
    ensures fresh(tz) && tz.Length0 == ndvi.Length0 && tz.Length1 == ndvi.Length1
    ensures forall i, j :: 0 <= i < ndvi.Length0 && 0 <= j < ndvi.Length1 ==>
      tz[i, j] == ZoneValue(ndvi[i, j], lo, hi)
  {
    tz := new Option<real>[ndvi.Length0, ndvi.Length1]((i, j) requires 0 <= i < ndvi.Length0 && 0 <= j < ndvi.Length1 reads ndvi => ndvi[i, j]);
    for i := 0 to ndvi.Length0
      invariant forall r, c :: 0 <= r < i && 0 <= c < ndvi.Length1 ==> tz[r, c] == ZoneValue(ndvi[r, c], lo, hi)
    {
      for j := 0 to ndvi.Length1
        invariant forall r, c :: 0 <= r < i && 0 <= c < ndvi.Length1 ==> tz[r, c] == ZoneValue(ndvi[r, c], lo, hi)
        invariant forall c :: 0 <= c < j ==> tz[i, c] == ZoneValue(ndvi[i, c], lo, hi)
      {
        if ndvi[i, j].Some? && ndvi[i, j].value > lo && ndvi[i, j].value < hi {
          tz[i, j] := Some(1.0);
        } else {
          tz[i, j] := None;
        }
      }
    }
  }
}
