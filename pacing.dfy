/** The pacing engine of src/components/Reader.tsx: the interval rule and the
    `useEffect` that either signals the end or arms one timer whose callback
    moves to the next word, with a cleanup that clears that timer.

    React runs the cleanup of the previous effect before the effect runs
    again, whenever a dependency changes (src/components/Reader.tsx:31). The
    pure functions below describe one such change each; class `Reader` holds
    the same state in fields and its methods are specified by them. */
module Pacing {
  import opened Wrappers

  /** Numerator of the interval after a word ending a clause or sentence. */
  const ClauseNumerator: nat := 170000
  /** Numerator of the interval after any other word. */
  const WordNumerator: nat := 60000

  /** The last character is `.` or `,`. An empty word has no last character
      (JavaScript reads `undefined`), so it does not end a clause. */
  predicate EndsClause(word: string) {
    |word| > 0 && (word[|word| - 1] == '.' || word[|word| - 1] == ',')
  }

  /** The numerator of the interval the reader waits on `word`. */
  function IntervalNumerator(word: string): (n: nat)
    ensures n == ClauseNumerator <==> EndsClause(word)
    ensures n == WordNumerator <==> !EndsClause(word)
  {
    if EndsClause(word) then ClauseNumerator else WordNumerator
  }

  /** A delay of `numerator / speed` milliseconds, kept as a fraction. */
  datatype Interval = Interval(numerator: nat, speed: nat)

  /** `a` lasts strictly longer than `b`, compared by cross-multiplication. */
  predicate Longer(a: Interval, b: Interval) {
    a.numerator * b.speed > b.numerator * a.speed
  }

  /** The timeout `170000 / speed` or `60000 / speed` armed on `word`. */
  function IntervalFor(word: string, speed: nat): Interval {
    Interval(IntervalNumerator(word), speed)
  }

  /** At any positive speed a word ending in `.` or `,` is shown strictly
      longer than one that does not, and never shorter. */
  lemma ClauseWaitsLonger(clause: string, word: string, speed: nat)
    requires speed > 0 && EndsClause(clause) && !EndsClause(word)
    ensures Longer(IntervalFor(clause, speed), IntervalFor(word, speed))
    ensures !Longer(IntervalFor(word, speed), IntervalFor(clause, speed))
  {
  }

  /** Only the last character decides the interval: whatever comes before
      it, two words ending alike wait alike, and no last character other
      than `.` and `,` lengthens the wait. */
  lemma OnlyLastCharacterCounts(u: string, v: string, c: char)
    ensures IntervalNumerator(u + [c]) == IntervalNumerator(v + [c])
    ensures c != '.' && c != ',' ==> IntervalNumerator(u + [c]) == WordNumerator
  {
  }

  /** At 300 words per minute `cat` waits exactly 200 ms and `cat,` waits
      170000/300 ms, between 566 and 567 ms. */
  lemma IntervalExamples()
    ensures IntervalFor("cat", 300) == Interval(60000, 300)
    ensures IntervalFor("cat", 300).numerator == 200 * 300
    ensures IntervalFor("cat,", 300) == Interval(170000, 300)
    ensures 566 * 300 < IntervalFor("cat,", 300).numerator < 567 * 300
  {
  }

  /** A timer armed by `setTimeout`, holding the delay it was armed with. */
  datatype Timer = Timer(interval: Interval)

  /** The engine's state: the word shown, the `running` flag, the `ended`
      flag it reports through `setEnded`, and the one timer slot. */
  datatype Engine = Engine(index: nat, running: bool, ended: bool, pending: Option<Timer>)

  /** The state the reader is mounted in: first word, nothing armed. */
  function Mounted(running: bool): Engine {
    Engine(0, running, false, None)
  }

  /** What the engine keeps true: the index is in bounds, the end is only
      reported on the last word, and an outstanding timer is the one for the
      word now shown at the current speed, armed only while running and
      before the last word. */
  predicate Consistent(tokens: seq<string>, speed: nat, e: Engine) {
    && |tokens| >= 1 && speed > 0
    && e.index < |tokens|
    && (e.ended ==> e.index == |tokens| - 1)
    && (e.pending.Some? ==>
          e.running && e.index < |tokens| - 1
          && e.pending.value == Timer(IntervalFor(tokens[e.index], speed)))
  }

  /** The effect body (src/components/Reader.tsx:16-26), run with no timer
      outstanding. It never moves the index; on the last word it reports the
      end and arms nothing; before it, it arms exactly the timer for the
      word shown; when not running it does nothing. */
  function Effect(tokens: seq<string>, speed: nat, e: Engine): (r: Engine)
    requires e.index < |tokens| && e.pending.None?
    ensures r.index == e.index && r.running == e.running
    ensures r.ended <==> e.ended || (e.running && e.index == |tokens| - 1)
    ensures r.pending.Some? <==> e.running && e.index < |tokens| - 1
    ensures r.pending.Some? ==> r.pending.value == Timer(IntervalFor(tokens[e.index], speed))
    ensures Consistent(tokens, speed, e) ==> Consistent(tokens, speed, r)
  {
    if !e.running then e
    else if e.index == |tokens| - 1 then e.(ended := true)
    else e.(pending := Some(Timer(IntervalFor(tokens[e.index], speed))))
  }

  /** The effect's cleanup (src/components/Reader.tsx:27-29): the pending
      timer is cleared and will never fire. */
  function Cleanup(e: Engine): Engine {
    e.(pending := None)
  }

  /** The timer callback (src/components/Reader.tsx:24-26): the slot empties
      and the index moves by one. */
  function Fire(e: Engine): Engine
    requires e.pending.Some?
  {
    e.(index := e.index + 1, pending := None)
  }

  /** One dependency change: cleanup of the old effect, then the new one. */
  function Rerun(tokens: seq<string>, speed: nat, e: Engine): Engine
    requires e.index < |tokens|
  {
    Effect(tokens, speed, Cleanup(e))
  }

  /** Cleanup removes the timer and touches nothing else, and an engine
      without a timer stays consistent. */
  lemma CleanupKeepsConsistent(tokens: seq<string>, speed: nat, e: Engine)
    requires Consistent(tokens, speed, e)
    ensures Consistent(tokens, speed, Cleanup(e))
    ensures Cleanup(e).pending.None?
    ensures Cleanup(e).(pending := e.pending) == e
  {
  }

  /** A timer only fires before the last word, so the advance by exactly one
      keeps `0 <= index < text.length` and reports no end. */
  lemma FireKeepsBounds(tokens: seq<string>, speed: nat, e: Engine)
    requires Consistent(tokens, speed, e) && e.pending.Some?
    ensures Consistent(tokens, speed, Fire(e))
    ensures Fire(e).index == e.index + 1 < |tokens|
    ensures Fire(e).ended == e.ended == false
  {
  }

  /** On the last word the effect reports the end, arms nothing and leaves
      the index where it is. */
  lemma EndsOnLastWord(tokens: seq<string>, speed: nat, e: Engine)
    requires Consistent(tokens, speed, e) && e.running && e.index == |tokens| - 1
    ensures Rerun(tokens, speed, e) == e.(ended := true, pending := None)
  {
  }

  /** While not running no timer is armed and neither the index nor the
      end flag changes, whatever was outstanding before. */
  lemma StoppedStaysPut(tokens: seq<string>, speed: nat, e: Engine)
    requires Consistent(tokens, speed, e) && !e.running
    ensures Rerun(tokens, speed, e) == e.(pending := None)
  {
  }

  /** Re-running the effect without a change of index arms the same single
      timer again: repeated re-renders neither stack timers nor move on. */
  lemma RerunIdempotent(tokens: seq<string>, speed: nat, e: Engine)
    requires Consistent(tokens, speed, e)
    ensures Rerun(tokens, speed, Rerun(tokens, speed, e)) == Rerun(tokens, speed, e)
  {
  }

  /** What a stretch of reading shows: the final state, the index of each
      word shown, and the interval armed on each word that was left. */
  datatype Trace = Trace(final: Engine, shown: seq<nat>, waits: seq<Interval>)

  /** Reading driven by the timer alone for at most `rounds` words: the
      effect runs; if it armed a timer, the timer fires and the next word
      is shown (the cleanup that precedes the next effect then finds the slot
      already empty), otherwise nothing is left that could change the state. */
  function Play(tokens: seq<string>, speed: nat, e: Engine, rounds: nat): Trace
    requires Consistent(tokens, speed, e) && e.pending.None?
    decreases rounds
  {
    if rounds == 0 then Trace(e, [], [])
    else
      var r := Effect(tokens, speed, e);
      if r.pending.None? then Trace(r, [e.index], [])
      else
        FireKeepsBounds(tokens, speed, r);
        var t := Play(tokens, speed, Fire(r), rounds - 1);
        Trace(t.final, [e.index] + t.shown, [r.pending.value.interval] + t.waits)
  }

  /** Reading from any word onwards while running shows every later word
      once, in increasing order, waits on each word but the last for that
      word's interval, and then reports the end with no timer left. Extra
      rounds change nothing. */
  lemma {:induction false} PlayShowsEveryWordOnce(tokens: seq<string>, speed: nat, e: Engine, rounds: nat)
    requires Consistent(tokens, speed, e) && e.pending.None? && e.running
    requires rounds >= |tokens| - e.index
    ensures Play(tokens, speed, e, rounds).final == Engine(|tokens| - 1, true, true, None)
    ensures Play(tokens, speed, e, rounds).shown == seq(|tokens| - e.index, k => e.index + k)
    ensures Play(tokens, speed, e, rounds).waits
         == seq(|tokens| - 1 - e.index, k requires 0 <= k < |tokens| - 1 - e.index => IntervalFor(tokens[e.index + k], speed))
    decreases rounds
  {
    var r := Effect(tokens, speed, e);
    if r.pending.Some? {
      FireKeepsBounds(tokens, speed, r);
      var f := Fire(r);
      PlayShowsEveryWordOnce(tokens, speed, f, rounds - 1);
      var t := Play(tokens, speed, f, rounds - 1);
      assert Play(tokens, speed, e, rounds) == Trace(t.final, [e.index] + t.shown, [r.pending.value.interval] + t.waits);
      assert [e.index] + t.shown == seq(|tokens| - e.index, k => e.index + k);
      assert [r.pending.value.interval] + t.waits
          == seq(|tokens| - 1 - e.index, k requires 0 <= k < |tokens| - 1 - e.index => IntervalFor(tokens[e.index + k], speed));
    }
  }

  /** The pacing loop of src/components/Reader.tsx:15-31 over one token list.
      The component's `index`/`setIndex` and `running` props are held here
      as fields; `ended` is the cell the component writes through
      `setEnded`. */
  class Reader {
    const tokens: seq<string>
    var speed: nat
    var running: bool
    var index: nat
    var ended: bool
    var pending: Option<Timer>

    /** The fields as one engine state. */
    function State(): Engine
      reads this
    {
      Engine(index, running, ended, pending)
    }

    ghost predicate Valid()
      reads this
    {
      Consistent(tokens, speed, State())
    }

    /** Mounted on the first word with nothing armed; the effect has not
        run yet. */
    constructor (tokens: seq<string>, speed: nat, running: bool)
      requires |tokens| >= 1 && speed > 0
      ensures Valid()
      ensures this.tokens == tokens && this.speed == speed
      ensures State() == Mounted(running)
    {
      this.tokens := tokens;
      this.speed := speed;
      this.running := running;
      index := 0;
      ended := false;
      pending := None;
    }

    /** The cleanup: `clearTimeout` on the outstanding timer, if any. */
    method Cancel()
      requires Valid()
      modifies this`pending
      ensures Valid()
      ensures State() == Cleanup(old(State()))
    {
      pending := None;
    }

    /** The effect body, run after the previous effect's cleanup. */
    method Step()
      requires Valid() && pending.None?
      modifies this`ended, this`pending
      ensures Valid()
      ensures State() == Effect(tokens, speed, old(State()))
    {
      if running {
        if index == |tokens| - 1 {
          ended := true;
          return;
        }
        var word := tokens[index];
        var numerator := if |word| > 0 && (word[|word| - 1] == '.' || word[|word| - 1] == ',')
                         then ClauseNumerator else WordNumerator;
        pending := Some(Timer(Interval(numerator, speed)));
      }
    }

    /** The armed timer fires: `setIndex(prev => prev + 1)`. */
    method Tick()
      requires Valid() && pending.Some?
      modifies this`index, this`pending
      ensures Valid()
      ensures State() == Fire(old(State()))
    {
      FireKeepsBounds(tokens, speed, State());
      index := index + 1;
      pending := None;
    }

    /** A dependency changed: the old effect is cleaned up, the new one runs. */
    method Rerender()
      requires Valid()
      modifies this`ended, this`pending
      ensures Valid()
      ensures State() == Rerun(tokens, speed, old(State()))
    {
      Cancel();
      Step();
    }

    /** A new `speed` prop; `speed` is a dependency, so the effect re-runs and
        any timer is re-armed at the new speed. */
    method SetSpeed(speed': nat)
      requires Valid() && speed' > 0
      modifies this
      ensures Valid()
      ensures speed == speed'
      ensures State() == Rerun(tokens, speed', old(State()))
    {
      pending := None;
      speed := speed';
      Step();
    }

    /** A new `running` prop; `running` is a dependency, so the effect re-runs. */
    method SetRunning(running': bool)
      requires Valid()
      modifies this
      ensures Valid() && speed == old(speed)
      ensures State() == Rerun(tokens, speed, old(State()).(running := running'))
    {
      pending := None;
      running := running';
      Step();
    }
  }
}
