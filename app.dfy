/** The page of src/App.tsx: the `text`, `speed`, `reading` and `ended`
    state cells, the editor that is replaced by the reader once reading
    starts, and the one button whose handler only ever starts reading. */
module Speadr {
  import opened Wrappers
  import Tokenizer
  import Pivot
  import Pacing

  /** `useState<number>(500)`. */
  const InitialSpeed: nat := 500

  datatype Icon = PauseIcon | PlayIcon

  /** What the button shows: an icon and a caption. */
  datatype Face = Face(icon: Icon, caption: string)

  /** src/App.tsx:57-58: "Pause" with the pause icon exactly while reading
      and not ended, "Start" with the play icon otherwise. */
  function ButtonFace(reading: bool, ended: bool): (f: Face)
    ensures f.caption == "Pause" <==> reading && !ended
    ensures f.caption == "Start" <==> !(reading && !ended)
    ensures f.icon == PauseIcon <==> f.caption == "Pause"
  {
    if reading && !ended then Face(PauseIcon, "Pause") else Face(PlayIcon, "Start")
  }

  /** What fills the middle of the page. */
  datatype Screen = ReaderScreen(tokens: seq<string>, speed: nat) | EditorScreen(text: string)

  /** src/App.tsx:44-53: the reader over the tokens of the text while
      reading, the editor holding the text otherwise. */
  function ScreenFor(reading: bool, text: string, speed: nat): (s: Screen)
    ensures s.ReaderScreen? <==> reading
    ensures s.ReaderScreen? ==> s.tokens == Tokenizer.Tokens(text) && s.speed == speed
    ensures s.ReaderScreen? ==> |s.tokens| >= 1
    ensures s.EditorScreen? ==> s.text == text
  {
    if reading then ReaderScreen(Tokenizer.Tokens(text), speed) else EditorScreen(text)
  }

  /** Whatever the text, starting shows its first token: a one-token text
      (the empty text among them) reports the end at once and the button
      goes straight back to "Start"; any longer text arms the first timer
      and the button reads "Pause". */
  lemma FaceAfterStart(text: string, speed: nat)
    requires speed > 0
    ensures var tokens := Tokenizer.Tokens(text);
            var e := Pacing.Effect(tokens, speed, Pacing.Mounted(true));
            && e.index == 0
            && ButtonFace(true, e.ended).caption == (if |tokens| == 1 then "Start" else "Pause")
            && (e.pending.Some? <==> |tokens| > 1)
  {
  }

  /** Reading a whole text from the start at any positive speed shows each
      token once, left to right, waits on every token but the last, and
      ends on the last token. */
  lemma ReadsWholeText(text: string, speed: nat)
    requires speed > 0
    ensures var tokens := Tokenizer.Tokens(text);
            var t := Pacing.Play(tokens, speed, Pacing.Mounted(true), |tokens|);
            && t.final == Pacing.Engine(|tokens| - 1, true, true, None)
            && t.shown == seq(|tokens|, k => k)
            && |t.waits| == |tokens| - 1
            && (forall k :: 0 <= k < |t.waits| ==> t.waits[k] == Pacing.IntervalFor(tokens[k], speed))
  {
    var tokens := Tokenizer.Tokens(text);
    Pacing.PlayShowsEveryWordOnce(tokens, speed, Pacing.Mounted(true), |tokens|);
  }

  /** "The quick, brown fox." at 300 words per minute: four words shown in
      order, three waits of which the one on "quick," is the long one, and
      the end reported on "fox.", which gets no timer. */
  lemma SentenceScenario()
    ensures var t := Pacing.Play(Tokenizer.Tokens("The quick, brown fox."), 300, Pacing.Mounted(true), 4);
            && t.final == Pacing.Engine(3, true, true, None)
            && t.shown == [0, 1, 2, 3]
            && t.waits == [Pacing.Interval(60000, 300), Pacing.Interval(170000, 300), Pacing.Interval(60000, 300)]
            && Pacing.Longer(t.waits[1], t.waits[0]) && Pacing.Longer(t.waits[1], t.waits[2])
  {
    Tokenizer.TokensOfSentence();
    SentenceWords();
  }

  /** The reading of the four words of the sentence. */
  lemma SentenceWords()
    ensures var t := Pacing.Play(["The", "quick,", "brown", "fox."], 300, Pacing.Mounted(true), 4);
            && t.final == Pacing.Engine(3, true, true, None)
            && t.shown == [0, 1, 2, 3]
            && t.waits == [Pacing.Interval(60000, 300), Pacing.Interval(170000, 300), Pacing.Interval(60000, 300)]
  {
    var tokens := ["The", "quick,", "brown", "fox."];
    Pacing.PlayShowsEveryWordOnce(tokens, 300, Pacing.Mounted(true), 4);
    var t := Pacing.Play(tokens, 300, Pacing.Mounted(true), 4);
    assert t.shown == seq(4, k => k);
    assert |t.waits| == 3;
    assert t.waits[0] == Pacing.IntervalFor(tokens[0], 300);
    assert t.waits[1] == Pacing.IntervalFor(tokens[1], 300);
    assert t.waits[2] == Pacing.IntervalFor(tokens[2], 300);
    assert Pacing.EndsClause(tokens[1]) && !Pacing.EndsClause(tokens[0]) && !Pacing.EndsClause(tokens[2]);
  }

  /** The page's state. `Reader` is mounted with `text`, `speed` and
      `setEnded` only; the `index`, `setIndex` and `running` props it also
      declares are held by the reader object, which is mounted running. The
      `ended` cell is written by nobody but the reader, through `setEnded`,
      and never reset, so it is read from the reader. */
  class App {
    var text: string
    var speed: nat
    var reading: bool
    var reader: Pacing.Reader?

    ghost predicate Valid()
      reads this, reader
    {
      && speed > 0
      && (reading <==> reader != null)
      && (reader != null ==>
            && reader.Valid()
            && reader.tokens == Tokenizer.Tokens(text)
            && reader.speed == speed
            && reader.running)
    }

    /** The `ended` cell. */
    function Ended(): bool
      reads this, reader
    {
      reader != null && reader.ended
    }

    function Button(): Face
      reads this, reader
    {
      ButtonFace(reading, Ended())
    }

    function Page(): Screen
      reads this
    {
      ScreenFor(reading, text, speed)
    }

    /** The word the reader draws, split around its pivot; nothing while
        the editor is shown. */
    function Display(): Option<Pivot.Parts>
      reads this, reader
      requires Valid()
    {
      if reader == null then None
      else Some(Pivot.SplitAtCenter(reader.tokens[reader.index]))
    }

    /** src/App.tsx:11-14: empty text, 500 words per minute, not reading,
        not ended. */
    constructor ()
      ensures Valid()
      ensures text == "" && speed == InitialSpeed && !reading && !Ended()
      ensures Page() == EditorScreen("") && Button() == Face(PlayIcon, "Start")
    {
      text := "";
      speed := InitialSpeed;
      reading := false;
      reader := null;
    }

    /** The textarea's `onChange`; the textarea exists only while not
        reading. */
    method EditText(text': string)
      requires Valid() && !reading
      modifies this`text
      ensures Valid() && text == text'
    {
      text := text';
    }

    /** The speed input's `onChange`, for a positive number. A mounted
        reader gets the new `speed` prop and re-runs its effect. */
    method SetSpeed(speed': nat)
      requires Valid() && speed' > 0
      modifies this`speed, reader
      ensures Valid() && speed == speed'
      ensures text == old(text) && reading == old(reading) && reader == old(reader)
      ensures reader != null ==> reader.State() == Pacing.Rerun(reader.tokens, speed', old(reader.State()))
    {
      speed := speed';
      if reader != null {
        reader.SetSpeed(speed');
      }
    }

    /** The button's `onClick`, `setReading(true)`. The first click mounts
        the reader on the tokens of the text and runs its effect; once
        reading, a click sets the same value and changes nothing, so the
        "Pause" caption does not pause. */
    method Start()
      requires Valid()
      modifies this
      ensures Valid() && reading
      ensures text == old(text) && speed == old(speed)
      ensures old(reading) ==> reader == old(reader) && reader.State() == old(reader.State())
      ensures !old(reading) ==> fresh(reader)
      ensures !old(reading) ==> reader.State() == Pacing.Effect(Tokenizer.Tokens(text), speed, Pacing.Mounted(true))
    {
      if !reading {
        reading := true;
        var r := new Pacing.Reader(Tokenizer.Tokens(text), speed, true);
        r.Step();
        reader := r;
      }
    }

    /** The reader's timer fires: the index moves on and, the index being a
        dependency, the effect re-runs on the new word. */
    method TimerFires()
      requires Valid() && reader != null && reader.pending.Some?
      modifies reader
      ensures Valid()
      ensures reader.State() == Pacing.Rerun(reader.tokens, speed, Pacing.Fire(old(reader.State())))
    {
      reader.Tick();
      reader.Rerender();
    }
  }
}
