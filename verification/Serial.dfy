/** The specification a strand has to meet: an executor that holds jobs in submission order and
    runs them one at a time. */
module Serial {
  import opened Sequences
  import opened Totals

  datatype Executor<J> = Executor(waiting: seq<J>, active: Option<J>, done: seq<J>)

  datatype Event<J> = Submit(job: J) | Start | Finish | Stutter

  predicate Allowed<J>(x: Executor<J>, e: Event<J>)
  {
    match e
    case Submit(_) => true
    case Start => x.active.None? && x.waiting != []
    case Finish => x.active.Some?
    case Stutter => true
  }

  function After<J>(x: Executor<J>, e: Event<J>): Executor<J>
    requires Allowed(x, e)
  {
    match e
    case Submit(j) => x.(waiting := x.waiting + [j])
    case Start => x.(waiting := x.waiting[1..], active := Some(x.waiting[0]))
    case Finish => x.(active := None, done := x.done + [x.active.value])
    case Stutter => x
  }

  predicate CanDo<J>(x: Executor<J>, events: seq<Event<J>>)
    decreases |events|
  {
    events == [] || (Allowed(x, events[0]) && CanDo(After(x, events[0]), events[1..]))
  }

  function Outcome<J>(x: Executor<J>, events: seq<Event<J>>): Executor<J>
    requires CanDo(x, events)
    decreases |events|
  {
    if events == [] then x else Outcome(After(x, events[0]), events[1..])
  }

  /** The jobs in the order they were submitted, whatever has happened to them since. */
  function History<J>(x: Executor<J>): seq<J>
  {
    Begun(x) + x.waiting
  }

  /** The jobs that have been started, oldest first. */
  function Begun<J>(x: Executor<J>): seq<J>
  {
    x.done + if x.active.Some? then [x.active.value] else []
  }

  /** No event reorders, drops or repeats a job: the history only grows at its end, by the job
      submitted, and jobs start in history order. */
  lemma {:induction false} HistoryOnlyGrows<J>(x: Executor<J>, e: Event<J>)
    requires Allowed(x, e)
    ensures History(After(x, e)) == History(x) + if e.Submit? then [e.job] else []
    ensures Begun(After(x, e)) == Begun(x) + if e.Start? then [History(x)[|Begun(x)|]] else []
    ensures Begun(After(x, e)) <= History(After(x, e))
  {
    if e.Start? {
      assert x.waiting == [x.waiting[0]] + x.waiting[1..];
    }
  }

  /** The jobs a run submits, in order. */
  function Submissions<J>(events: seq<Event<J>>): seq<J>
    decreases |events|
  {
    if events == [] then []
    else (if events[0].Submit? then [events[0].job] else []) + Submissions(events[1..])
  }

  /** Over a whole run the history is what was there and what the run submits, in that order, and the
      jobs begun are a prefix of it that never shrinks. */
  lemma {:induction false} RunsInOrder<J>(x: Executor<J>, events: seq<Event<J>>)
    requires CanDo(x, events)
    ensures var y := Outcome(x, events);
      History(y) == History(x) + Submissions(events) && Begun(x) <= Begun(y) <= History(y)
    decreases |events|
  {
    Empty(History(x));
    if events != [] {
      var next := After(x, events[0]);
      HistoryOnlyGrows(x, events[0]);
      RunsInOrder(next, events[1..]);
      BegunGrows(Begun(x), Begun(next), Begun(Outcome(next, events[1..])));
      Regroup(History(x), if events[0].Submit? then [events[0].job] else [], Submissions(events[1..]));
    }
  }

  lemma {:induction false} BegunGrows<J>(a: seq<J>, b: seq<J>, c: seq<J>)
    requires a <= b <= c
    ensures a <= c
  {
  }
}
