/** The archive-URL resolver: on every tick it asks the provider for the export's
    download URL, treats any error as "not ready yet" and retries, and gives up when
    its timeout context finishes. Time is discrete: a run is the sequence of events
    the `select` statement receives, each a tick (with the provider's answer to the
    call made on it) or the end of the timeout context (with that context's error). */
module ArchiveUrl {
  import opened Common

  /** Durations are Go `time.Duration` values: integers counting nanoseconds. */
  const Second := 1_000_000_000
  const DefaultTimeoutDuration := 30 * Second
  const DefaultTickerDuration := 5 * Second

  const TimeoutMessage := "context timed out while getting migration archive URL"

  datatype Event =
    | Tick(answer: Result<string>) // the ticker fired; the provider answered `answer`
    | Done(cause: Error)           // the timeout context finished with `cause`

  /** An event on which the resolver returns. */
  predicate Exits(e: Event) {
    e.Done? || e.answer.Ok?
  }

  /** The run contains an event on which the resolver returns. */
  predicate Ends(events: seq<Event>) {
    exists i :: 0 <= i < |events| && Exits(events[i])
  }

  /** The resolver's result and the number of provider calls it made, for a run. */
  function Resolve(events: seq<Event>): (r: (Result<string>, nat))
    requires Ends(events)
    ensures r.1 <= |events| && forall i :: 0 <= i < r.1 ==> events[i].Tick?
    ensures r.0.Ok? ==> r.1 > 0 && events[r.1 - 1] == Tick(Ok(r.0.value))
  {
    var k := FirstIndex(events, Exits);
    match events[k]
    case Tick(answer) => (Ok(answer.value), k + 1)
    case Done(cause) => (Err(Wrap(TimeoutMessage, cause)), k)
  }

  class ArchiveUrlResolver {
    var timeoutDuration: int
    var tickerDuration: int

    /** NewGetOrganizationArchiveUrlUseCase: 30 s timeout, 5 s tick. */
    constructor ()
      ensures timeoutDuration == DefaultTimeoutDuration && tickerDuration == DefaultTickerDuration
    {
      timeoutDuration := DefaultTimeoutDuration;
      tickerDuration := DefaultTickerDuration;
    }

    /** Sets both durations and returns the same resolver. */
    method WithDurationOptions(timeout: int, ticker: int) returns (uc: ArchiveUrlResolver)
      modifies this
      ensures uc == this
      ensures timeoutDuration == timeout && tickerDuration == ticker
    {
      timeoutDuration := timeout;
      tickerDuration := ticker;
      uc := this;
    }

    /** getOrganizationArchiveUrlUseCase.Do over one run of events. A ticker with a
        non-positive period panics (time.NewTicker), so the period must be positive. */
    method Do(organization: string, migrationId: int, events: seq<Event>) returns (url: Result<string>, calls: nat)
      requires tickerDuration > 0
      requires Ends(events)
      ensures (url, calls) == Resolve(events)
    {
      ghost var k := FirstIndex(events, Exits);
      var i := 0;
      calls := 0;
      while true
        invariant 0 <= i <= k
        invariant calls == i
        decreases k - i
      {
        match events[i]
        case Done(cause) =>
          url := Err(Wrap(TimeoutMessage, cause));
          return;
        case Tick(answer) =>
          calls := calls + 1;
          if answer.Ok? {
            url := Ok(answer.value);
            return;
          }
        i := i + 1;
      }
    }

    /** A resolver run with this resolver's durations and an uncancelled parent
        context: the provider is asked on each tick before the deadline. */
    method DoOnTimeline(organization: string, migrationId: int, answer: nat -> Result<string>)
      returns (url: Result<string>, calls: nat)
      requires tickerDuration > 0
      ensures (url, calls) == Resolve(Timeline(timeoutDuration, tickerDuration, answer))
    {
      url, calls := Do(organization, migrationId, Timeline(timeoutDuration, tickerDuration, answer));
    }
  }

  /** The returned URL is one the provider produced; the resolver never makes one up. */
  lemma NeverFabricates(events: seq<Event>)
    requires Ends(events)
    ensures Resolve(events).0.Ok? ==> exists i :: 0 <= i < |events| && events[i] == Tick(Ok(Resolve(events).0.value))
  {
  }

  /** A provider error on a tick is swallowed: the run goes on as if that tick had
      not happened, with one more provider call. */
  lemma ErrorIsRetried(e: Error, events: seq<Event>)
    requires Ends(events)
    ensures Ends([Tick(Err(e))] + events)
    ensures Resolve([Tick(Err(e))] + events) == (Resolve(events).0, Resolve(events).1 + 1)
  {
    var run := [Tick(Err(e))] + events;
    var k := FirstIndex(events, Exits);
    assert run[k + 1] == events[k];
    assert run[1..] == events;
  }

  /** The first successful answer is returned as is, after exactly one call. */
  lemma FirstSuccessReturns(url: string, events: seq<Event>)
    ensures Ends([Tick(Ok(url))] + events)
    ensures Resolve([Tick(Ok(url))] + events) == (Ok(url), 1)
  {
    assert ([Tick(Ok(url))] + events)[0] == Tick(Ok(url));
  }

  /** When the run ends before any success, the result is an error that wraps the
      timeout context's error, and every tick before it cost one provider call. */
  lemma DeadlineWraps(events: seq<Event>)
    requires Ends(events)
    requires events[FirstIndex(events, Exits)].Done?
    ensures Resolve(events).0.Err?
    ensures Resolve(events).0.error.Is(events[FirstIndex(events, Exits)].cause)
    ensures Resolve(events).1 == FirstIndex(events, Exits)
  {
  }

  /** A cancelled parent context is reported through the timeout context: the
      message is the timeout message followed by "context canceled". */
  lemma CancelledParentMessage(events: seq<Event>)
    requires Ends(events)
    requires events[FirstIndex(events, Exits)] == Done(Canceled)
    ensures Resolve(events).0.Err?
    ensures Resolve(events).0.error.Text() == "context timed out while getting migration archive URL: context canceled"
  {
  }

  /** The number of ticks that fire strictly before a deadline `timeout` from now,
      for a ticker of period `ticker` (ticks come at ticker, 2 ticker, ...). */
  function TicksBefore(timeout: int, ticker: int): (n: nat)
    requires ticker > 0
    ensures n * ticker < timeout || n == 0
    ensures (n + 1) * ticker >= timeout
  {
    if timeout <= 0 then 0 else (timeout - 1) / ticker
  }

  /** The run of a resolver with the given durations whose parent context is never
      cancelled: a tick for every tick time before the deadline, the provider
      answering `answer(j)` to the j-th call, then the deadline. At a tick time equal
      to the deadline the deadline is taken to win the race. */
  function Timeline(timeout: int, ticker: int, answer: nat -> Result<string>): (events: seq<Event>)
    requires ticker > 0
    ensures Ends(events)
  {
    var n := TicksBefore(timeout, ticker);
    var events := seq(n, j requires 0 <= j => Tick(answer(j))) + [Done(DeadlineExceeded)];
    assert Exits(events[n]);
    events
  }

  /** On a timeline the resolver makes at most one call per tick before the deadline;
      if none of those calls succeeds it fails with an error wrapping DeadlineExceeded
      after calling on every tick. */
  lemma {:induction false} TimelineBound(timeout: int, ticker: int, answer: nat -> Result<string>)
    requires ticker > 0
    ensures Resolve(Timeline(timeout, ticker, answer)).1 <= TicksBefore(timeout, ticker)
    ensures (forall j :: 0 <= j < TicksBefore(timeout, ticker) ==> answer(j).Err?) ==>
              Resolve(Timeline(timeout, ticker, answer)).0.error.Is(DeadlineExceeded) &&
              Resolve(Timeline(timeout, ticker, answer)).1 == TicksBefore(timeout, ticker)
  {
    var n := TicksBefore(timeout, ticker);
    var events := Timeline(timeout, ticker, answer);
    var k := FirstIndex(events, Exits);
    assert forall j :: 0 <= j < n ==> events[j] == Tick(answer(j));
    assert Exits(events[n]);
    if forall j :: 0 <= j < n ==> answer(j).Err? {
      assert forall j :: 0 <= j < n ==> !Exits(events[j]);
    }
  }

  /** With the default durations (30 s, 5 s) the provider is called at most five times. */
  lemma DefaultsCallAtMostFive(answer: nat -> Result<string>)
    ensures Resolve(Timeline(DefaultTimeoutDuration, DefaultTickerDuration, answer)).1 <= 5
  {
    TimelineBound(DefaultTimeoutDuration, DefaultTickerDuration, answer);
  }

  /** The timeout test: a 1 ns timeout with a 5 ms ticker gives a DeadlineExceeded
      error and no provider call. */
  lemma TinyTimeoutFailsUnasked(answer: nat -> Result<string>)
    ensures Resolve(Timeline(1, 5_000_000, answer)).0.Err?
    ensures Resolve(Timeline(1, 5_000_000, answer)).0.error.Is(DeadlineExceeded)
    ensures Resolve(Timeline(1, 5_000_000, answer)).1 == 0
  {
    TimelineBound(1, 5_000_000, answer);
  }
}
