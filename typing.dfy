/**
 * The typing game: a quote is split into words, the player types them one at
 * a time into an input box, and the time from start to the last word is
 * compared with the best time kept in storage. `Classify` decides what one
 * `input` event does; `TypingGame` holds the page state that `startGame`,
 * `handleInput` and `finishGame` update.
 */
module Typing {
  import opened Common
  import opened Text

  /** What one `input` event does: finish the game, go to the next word, or stay (with or without the error style). */
  datatype Step = Finish | Advance | Progress(error: bool)

  /** `words[wordIndex]`, which is `undefined` past the end. */
  function CurrentWord(words: seq<string>, index: nat): Option<string> {
    if index < |words| then Some(words[index]) else None
  }

  /** `currentWord && currentWord.startsWith(typedValue)`: an empty word is falsy in JavaScript. */
  predicate OnTrack(current: Option<string>, typed: string) {
    current.Some? && current.value != [] && StartsWith(current.value, typed)
  }

  /** A string with no white space at either end, as `trim()` leaves it. */
  predicate Unpadded(s: string) {
    s == [] || (!IsSpace(s[0]) && !IsSpace(s[|s| - 1]))
  }

  // ----- handleInput, as written and corrected -----

  /**
   * `handleInput` as written: finish only on an exact match of the last word;
   * a word followed by a space advances even when it is the last one.
   */
  function ClassifyAsWritten(words: seq<string>, index: nat, typed: string): Step {
    var current := CurrentWord(words, index);
    if current == Some(typed) && index + 1 == |words| then Finish
    else if EndsWith(typed, ' ') && current == Some(Trim(typed)) then Advance
    else Progress(!OnTrack(current, typed))
  }

  /**
   * On a quote whose last word has no white space at its ends, typing that word
   * followed by a space moves the index past the end; from there no input
   * finishes or advances, and every input shows the error style.
   */
  lemma AsWrittenOverrun(words: seq<string>, typed: string)
    requires |words| >= 1 && Unpadded(words[|words| - 1])
    ensures ClassifyAsWritten(words, |words| - 1, words[|words| - 1] + " ") == Advance
    ensures ClassifyAsWritten(words, |words|, typed) == Progress(true)
  {
    var last := words[|words| - 1];
    TrimDropsTrailingSpace(last);
    assert last + " " != last by {
      assert |last + " "| == |last| + 1;
    }
  }

  /**
   * `handleInput` with the last word finishing also when it is followed by a
   * space, so the index never leaves the quote.
   */
  function Classify(words: seq<string>, index: nat, typed: string): Step {
    var current := CurrentWord(words, index);
    if current == Some(typed) && index + 1 == |words| then Finish
    else if EndsWith(typed, ' ') && current == Some(Trim(typed)) then
      if index + 1 == |words| then Finish else Advance
    else Progress(!OnTrack(current, typed))
  }

  /** Advancing needs a following word and the current word typed with a trailing space. */
  lemma AdvanceStaysInQuote(words: seq<string>, index: nat, typed: string)
    requires Classify(words, index, typed) == Advance
    ensures index + 1 < |words|
    ensures EndsWith(typed, ' ') && Trim(typed) == words[index]
  {
  }

  /** Finishing happens only on the last word, typed exactly or followed by a space. */
  lemma FinishOnlyAtLastWord(words: seq<string>, index: nat, typed: string)
    requires Classify(words, index, typed) == Finish
    ensures index + 1 == |words|
    ensures typed == words[index] || (EndsWith(typed, ' ') && Trim(typed) == words[index])
  {
  }

  /** The corrected handler differs from the written one only where that one overruns. */
  lemma ClassifyAgreesBeforeLastWord(words: seq<string>, index: nat, typed: string)
    requires index + 1 != |words|
    ensures Classify(words, index, typed) == ClassifyAsWritten(words, index, typed)
  {
  }

  /** A word followed by one space moves to the next word, and the last word followed by a space finishes. */
  lemma WordThenSpace(words: seq<string>, index: nat)
    requires index < |words| && Unpadded(words[index])
    ensures Classify(words, index, words[index] + " ") == if index + 1 < |words| then Advance else Finish
  {
    TrimDropsTrailingSpace(words[index]);
  }

  /** A proper prefix of the current word is on track: no error, no move. */
  lemma PrefixShowsNoError(words: seq<string>, index: nat, typed: string)
    requires index < |words| && typed < words[index]
    ensures Classify(words, index, typed) == Progress(false)
  {
    var w := words[index];
    assert |typed| < |w|;
    var t := Trim(typed);
    assert |t| <= |typed|;
    assert t != w && typed != w;
    assert OnTrack(Some(w), typed);
  }

  /**
   * Input that is no prefix of the current word, and is not the word with a
   * trailing space, shows the error style and keeps the index.
   */
  lemma StrayInputShowsError(words: seq<string>, index: nat, typed: string)
    requires index < |words| && !StartsWith(words[index], typed)
    requires !(EndsWith(typed, ' ') && Trim(typed) == words[index])
    ensures Classify(words, index, typed) == Progress(true)
  {
  }

  /** Past the end of the quote every input is an error: there is no current word. */
  lemma NoWordIsError(words: seq<string>, index: nat, typed: string)
    requires index >= |words|
    ensures Classify(words, index, typed) == Progress(true)
  {
  }

  /**
   * Typing a quote word by word, each word but the last followed by a space,
   * walks through every index and finishes on the last word.
   */
  lemma {:induction false} QuoteTypedWordByWord(words: seq<string>)
    requires |words| >= 1
    requires forall k :: 0 <= k < |words| ==> Unpadded(words[k])
    ensures forall k :: 0 <= k < |words| - 1 ==> Classify(words, k, words[k] + " ") == Advance
    ensures Classify(words, |words| - 1, words[|words| - 1]) == Finish
  {
    forall k | 0 <= k < |words| - 1
      ensures Classify(words, k, words[k] + " ") == Advance
    {
      WordThenSpace(words, k);
    }
  }

  // ----- finishGame: time and best time -----

  /**
   * `Number(formatSeconds(ms))` in hundredths of a second: the elapsed
   * milliseconds rounded to the nearest 10, halves away from zero.
   */
  function Centis(ms: int): (r: int)
    ensures -5 <= 10 * r - ms <= 5
    ensures ms >= 0 ==> r >= 0 && 10 * r - ms > -5
    ensures ms < 0 ==> r <= 0 && 10 * r - ms < 5
  {
    if ms >= 0 then (ms + 5) / 10 else -((-ms + 5) / 10)
  }

  /** A longer game never shows a shorter time. */
  lemma CentisMonotone(a: int, b: int)
    requires a <= b
    ensures Centis(a) <= Centis(b)
  {
  }

  /**
   * The best-time rule: the stored time is replaced only when there is none or
   * the new time is strictly smaller; the result is the smaller of the two.
   */
  function NewBest(best: Option<int>, seconds: int): (r: Option<int>)
    ensures r.Some?
    ensures r.value <= seconds
    ensures best.Some? ==> r.value <= best.value
    ensures r.value == seconds || r == best
    ensures r != best ==> best.None? || seconds < best.value
  {
    if best.None? || seconds < best.value then Some(seconds) else best
  }

  /** The stored best never grows, however many games are played. */
  lemma BestNeverIncreases(best: int, seconds: int)
    ensures NewBest(Some(best), seconds).value <= best
    ensures NewBest(Some(best), seconds).value == best <==> best <= seconds
  {
  }

  // ----- the page as a value -----

  /** Everything on the page the game reads or writes, as one value. */
  datatype Page = Page(
    words: seq<string>, wordIndex: nat, startTime: int,
    inputHandlerActive: bool, inputListeners: nat,
    inputValue: string, inputDisabled: bool, startDisabled: bool, errorShown: bool,
    highlight: Option<nat>, message: Option<int>, best: Option<int>,
    modalShown: bool, modalSeconds: int, modalBest: int, clickRestartArmed: bool)

  /** The highlighted word span: the current word, unless the index has left the quote. */
  function HighlightAt(words: seq<string>, index: nat): Option<nat> {
    if index < |words| then Some(index) else None
  }

  /**
   * One `input` listener exactly while the handler is active; while it is,
   * the index is inside the quote or just past it, the current word (if any)
   * is highlighted, the text box is enabled and the start button is disabled.
   */
  predicate PageValid(p: Page) {
    && p.inputListeners == (if p.inputHandlerActive then 1 else 0)
    && p.highlight == (if p.inputHandlerActive then HighlightAt(p.words, p.wordIndex) else None)
    && (p.inputHandlerActive ==> p.wordIndex <= |p.words| && !p.inputDisabled && p.startDisabled)
  }

  /** The page after `startGame` with the chosen quote at time now. */
  function Started(p: Page, quote: string, now: int): (r: Page)
    ensures PageValid(r)
  {
    var ws := Split(quote, ' ');
    p.(words := ws, wordIndex := 0, highlight := HighlightAt(ws, 0), message := None,
       inputValue := "", errorShown := false, inputDisabled := false, startDisabled := true,
       inputListeners := 1, inputHandlerActive := true, startTime := now)
  }

  /**
   * A started game shows the quote's words with the first one highlighted, an
   * empty message, a cleared and enabled text box, the start button disabled
   * and one `input` listener; the best time, the result window and the
   * restart listener are as they were.
   */
  lemma StartedPage(p: Page, quote: string, now: int)
    ensures var r := Started(p, quote, now);
      && r.words == Split(quote, ' ') && r.wordIndex == 0 && r.startTime == now && r.highlight == Some(0)
      && r.inputHandlerActive && r.inputListeners == 1
      && r.inputValue == "" && !r.inputDisabled && r.startDisabled && !r.errorShown && r.message == None
      && r.best == p.best && r.modalShown == p.modalShown && r.modalSeconds == p.modalSeconds
      && r.modalBest == p.modalBest && r.clickRestartArmed == p.clickRestartArmed
  {
  }

  /** Starting twice with the same quote and clock is the same as starting once. */
  lemma StartIdempotent(p: Page, quote: string, now: int)
    ensures Started(Started(p, quote, now), quote, now) == Started(p, quote, now)
  {
  }

  /** The page after `finishGame` at time now. */
  function Finished(p: Page, now: int): (r: Page)
    ensures PageValid(r)
  {
    var seconds := Centis(now - p.startTime);
    var best := NewBest(p.best, seconds);
    p.(highlight := None, errorShown := false, inputDisabled := true,
       inputListeners := 0, inputHandlerActive := false, startDisabled := false,
       message := Some(seconds), best := best,
       modalShown := true, modalSeconds := seconds, modalBest := best.value,
       clickRestartArmed := true)
  }

  /**
   * A finished game shows the elapsed time in hundredths and the best time by
   * the best-time rule in the result window, disables the text box and
   * removes its `input` listener, enables the start button and arms the
   * one-shot restart listener; the quote, the index and the typed text are as
   * they were.
   */
  lemma FinishedPage(p: Page, now: int)
    ensures var r := Finished(p, now);
      var seconds := Centis(now - p.startTime);
      && !r.inputHandlerActive && r.inputListeners == 0 && r.highlight == None
      && r.inputDisabled && !r.startDisabled && !r.errorShown && r.clickRestartArmed
      && r.message == Some(seconds) && r.best == NewBest(p.best, seconds)
      && r.modalShown && r.modalSeconds == seconds && r.modalBest == r.best.value
      && r.words == p.words && r.wordIndex == p.wordIndex && r.inputValue == p.inputValue
      && r.startTime == p.startTime
  {
  }

  /** The page after `handleInput` reads the text box at time now, as the handler is written. */
  function AfterInput(p: Page, now: int): (r: Page)
    requires PageValid(p) && p.inputHandlerActive
    ensures PageValid(r)
    ensures r.words == p.words && r.startTime == p.startTime
  {
    match ClassifyAsWritten(p.words, p.wordIndex, p.inputValue)
    case Finish => Finished(p, now)
    case Advance =>
      p.(inputValue := "", wordIndex := p.wordIndex + 1,
         highlight := HighlightAt(p.words, p.wordIndex + 1), errorShown := false)
    case Progress(error) => p.(errorShown := error)
  }

  /**
   * What one input does to the page: finishing records the time and the best
   * time; advancing clears the box and moves the index by one; anything else
   * sets or clears only the error style. Only finishing touches the best time
   * or the message.
   */
  lemma {:induction false} InputEffects(p: Page, now: int)
    requires PageValid(p) && p.inputHandlerActive
    ensures var step := ClassifyAsWritten(p.words, p.wordIndex, p.inputValue);
      var r := AfterInput(p, now);
      && (step == Finish ==>
            && !r.inputHandlerActive && r.inputDisabled && !r.startDisabled && r.wordIndex == p.wordIndex
            && r.message == Some(Centis(now - p.startTime)) && r.best == NewBest(p.best, Centis(now - p.startTime))
            && r.clickRestartArmed && r.modalShown)
      && (step == Advance ==>
            r == p.(inputValue := "", wordIndex := p.wordIndex + 1,
                    highlight := HighlightAt(p.words, p.wordIndex + 1), errorShown := false))
      && (step.Progress? ==> r == p.(errorShown := step.error))
  {
  }

  /**
   * While the handler is active the index never passes the end of the quote,
   * and the game finishes exactly when the last word is typed as it stands.
   */
  lemma InputStaysWithinQuote(p: Page, now: int)
    requires PageValid(p) && p.inputHandlerActive
    ensures AfterInput(p, now).wordIndex <= |p.words|
    ensures !AfterInput(p, now).inputHandlerActive <==>
      p.wordIndex + 1 == |p.words| && p.inputValue == p.words[p.wordIndex]
  {
  }

  /**
   * Once the last word followed by a space has moved the index past the
   * quote, no input finishes the game: every value only shows the error style.
   */
  lemma {:induction false} OverrunIsStuck(p: Page, typed: string, now: int)
    requires PageValid(p) && p.inputHandlerActive && p.wordIndex == |p.words|
    ensures AfterInput(p.(inputValue := typed), now) == p.(inputValue := typed, errorShown := true)
  {
    assert ClassifyAsWritten(p.words, p.wordIndex, typed) == Progress(true);
  }

  /**
   * As written, typing the last word with a trailing space leaves the game
   * running with the index past the quote and no word highlighted, instead of
   * finishing it.
   */
  lemma {:induction false} LastWordWithSpaceOverruns(p: Page, now: int)
    requires PageValid(p) && p.inputHandlerActive && |p.words| >= 1 && p.wordIndex + 1 == |p.words|
    requires Unpadded(p.words[p.wordIndex])
    ensures var q := AfterInput(p.(inputValue := p.words[p.wordIndex] + " "), now);
      q.inputHandlerActive && q.wordIndex == |p.words| && q.highlight == None
  {
    AsWrittenOverrun(p.words, "");
  }

  /** The page state of the typing game. */
  class TypingGame {
    var words: seq<string>
    var wordIndex: nat
    var startTime: int
    var inputHandlerActive: bool
    /** The `input` listeners attached to the text box. */
    var inputListeners: nat
    /** The text box's value. */
    var inputValue: string
    var inputDisabled: bool
    var startDisabled: bool
    /** The text box carries the `error` class. */
    var errorShown: bool
    /** The word span carrying the `highlight` class. */
    var highlight: Option<nat>
    /** The finishing time the message shows, in hundredths of a second; None for an empty message. */
    var message: Option<int>
    /** The best time in storage, in hundredths of a second. */
    var best: Option<int>
    var modalShown: bool
    var modalSeconds: int
    var modalBest: int
    /** The one-shot `click` listener on the text box that restarts the game. */
    var clickRestartArmed: bool

    /** All the fields as one value. */
    ghost function Snapshot(): Page
      reads this
    {
      Page(words, wordIndex, startTime, inputHandlerActive, inputListeners,
           inputValue, inputDisabled, startDisabled, errorShown,
           highlight, message, best, modalShown, modalSeconds, modalBest, clickRestartArmed)
    }

    ghost predicate Valid()
      reads this
    {
      PageValid(Snapshot())
    }

    /** The page after loading: no game, the best time read from storage. */
    constructor(storedBest: Option<int>)
      ensures Valid()
      ensures words == [] && wordIndex == 0 && startTime == 0 && !inputHandlerActive
      ensures inputValue == "" && !inputDisabled && !startDisabled && !errorShown
      ensures message == None && best == storedBest && !modalShown && !clickRestartArmed
    {
      words, wordIndex, startTime := [], 0, 0;
      inputHandlerActive, inputListeners := false, 0;
      inputValue, inputDisabled, startDisabled := "", false, false;
      errorShown, highlight, message := false, None, None;
      best := storedBest;
      modalShown, modalSeconds, modalBest := false, 0, 0;
      clickRestartArmed := false;
    }

    /** `startGame` with the chosen quote and the clock. */
    method StartGame(quote: string, now: int)
      requires Valid()
      modifies this`words, this`wordIndex, this`highlight, this`message, this`inputValue, this`errorShown
      modifies this`inputDisabled, this`startDisabled, this`inputListeners, this`inputHandlerActive, this`startTime
      ensures Snapshot() == Started(old(Snapshot()), quote, now)
      ensures Valid()
    {
      RenderQuote(quote);
      ResetUi();
      AttachInputHandler();
      startTime := now;
    }

    /** The quote's words, the index at the first one, and its span highlighted. */
    method RenderQuote(quote: string)
      modifies this`words, this`wordIndex, this`highlight
      ensures words == Split(quote, ' ') && wordIndex == 0 && highlight == HighlightAt(words, 0)
    {
      words := Split(quote, ' ');
      wordIndex := 0;
      highlight := if |words| > 0 then Some(0) else None;
    }

    /** An empty message, a cleared and enabled text box without the error style, the start button disabled. */
    method ResetUi()
      modifies this`message, this`inputValue, this`errorShown, this`inputDisabled, this`startDisabled
      ensures message == None && inputValue == "" && !errorShown && !inputDisabled && startDisabled
    {
      message := None;
      inputValue := "";
      errorShown := false;
      inputDisabled := false;
      startDisabled := true;
    }

    /** The `input` listener is attached unless the handler is already active. */
    method AttachInputHandler()
      requires inputListeners == (if inputHandlerActive then 1 else 0)
      modifies this`inputListeners, this`inputHandlerActive
      ensures inputHandlerActive && inputListeners == 1
    {
      if !inputHandlerActive {
        inputListeners := inputListeners + 1;
        inputHandlerActive := true;
      }
    }

    /** The `input` listener is removed if the handler is active. */
    method DetachInputHandler()
      requires inputListeners == (if inputHandlerActive then 1 else 0)
      modifies this`inputListeners, this`inputHandlerActive
      ensures !inputHandlerActive && inputListeners == 0
    {
      if inputHandlerActive {
        inputListeners := inputListeners - 1;
        inputHandlerActive := false;
      }
    }

    /** The best-time rule: the stored time is replaced when there is none or the new one is smaller. */
    method RecordBest(seconds: int)
      modifies this`best
      ensures best == NewBest(old(best), seconds)
    {
      if best.None? || seconds < best.value {
        best := Some(seconds);
      }
    }

    /**
     * `handleInput` as written: the last word typed exactly finishes the game,
     * a word followed by a space moves to the next index (even past the last
     * word), anything else only sets or clears the error style.
     */
    method HandleInput(now: int)
      requires Valid() && inputHandlerActive
      modifies this
      ensures Valid()
      ensures Snapshot() == AfterInput(old(Snapshot()), now)
    {
      var step := ClassifyAsWritten(words, wordIndex, inputValue);
      match step
      case Finish =>
        FinishGame(now);
      case Advance =>
        NextWord();
      case Progress(error) =>
        errorShown := error;
    }

    /**
     * The advance branch of `handleInput`: the box is cleared, the index moves
     * on and the next word is highlighted when there is one.
     */
    method NextWord()
      requires Valid() && inputHandlerActive && wordIndex < |words|
      modifies this`inputValue, this`wordIndex, this`highlight, this`errorShown
      ensures Valid()
      ensures Snapshot() == old(Snapshot()).(inputValue := "", wordIndex := old(wordIndex) + 1,
        highlight := HighlightAt(words, old(wordIndex) + 1), errorShown := false)
    {
      inputValue := "";
      wordIndex := wordIndex + 1;
      highlight := if wordIndex < |words| then Some(wordIndex) else None;
      errorShown := false;
    }

    /** `finishGame` at time now. */
    method FinishGame(now: int)
      requires Valid()
      modifies this`highlight, this`errorShown, this`inputDisabled, this`inputListeners, this`inputHandlerActive
      modifies this`startDisabled, this`message, this`best, this`modalShown, this`modalSeconds, this`modalBest
      modifies this`clickRestartArmed
      ensures Snapshot() == Finished(old(Snapshot()), now)
      ensures Valid()
    {
      var seconds := Centis(now - startTime);
      ClearWordState();
      DetachInputHandler();
      startDisabled, message := false, Some(seconds);
      RecordBest(seconds);
      ShowResultModal(seconds, if best.Some? then best.value else seconds);
      clickRestartArmed := true;
    }

    /** No word highlighted, no error style, the text box disabled. */
    method ClearWordState()
      modifies this`highlight, this`errorShown, this`inputDisabled
      ensures highlight == None && !errorShown && inputDisabled
    {
      highlight := None;
      errorShown := false;
      inputDisabled := true;
    }

    /** `showResultModal`: the result window shows the time and the best time. */
    method ShowResultModal(seconds: int, bestSeconds: int)
      modifies this`modalShown, this`modalSeconds, this`modalBest
      ensures modalShown && modalSeconds == seconds && modalBest == bestSeconds
    {
      modalShown, modalSeconds, modalBest := true, seconds, bestSeconds;
    }

    /**
     * The player changes the text box's value: a disabled box takes no input
     * and nothing changes; otherwise the value changes and, while the listener
     * is attached, `handleInput` runs.
     */
    method Type(typed: string, now: int)
      requires Valid()
      modifies this
      ensures Valid()
      ensures old(inputDisabled) ==> Snapshot() == old(Snapshot())
      ensures !old(inputDisabled) && !old(inputHandlerActive) ==> Snapshot() == old(Snapshot()).(inputValue := typed)
      ensures !old(inputDisabled) && old(inputHandlerActive) ==>
        Snapshot() == AfterInput(old(Snapshot()).(inputValue := typed), now)
    {
      if inputDisabled {
        return;
      }
      inputValue := typed;
      if inputHandlerActive {
        HandleInput(now);
      }
    }

    /**
     * A click on the text box: the armed one-shot listener restarts the game
     * and is removed; a disabled box receives no clicks, and without the
     * listener nothing changes.
     */
    method ClickInput(quote: string, now: int)
      requires Valid()
      modifies this
      ensures Valid()
      ensures old(clickRestartArmed) && !old(inputDisabled) ==>
        Snapshot() == Started(old(Snapshot()).(clickRestartArmed := false), quote, now)
      ensures !(old(clickRestartArmed) && !old(inputDisabled)) ==> Snapshot() == old(Snapshot())
    {
      if clickRestartArmed && !inputDisabled {
        clickRestartArmed := false;
        StartGame(quote, now);
      }
    }

    /**
     * The start button (ignored while disabled) and the play-again button:
     * hide the result, then `startGame`; the best time and the armed restart
     * listener are kept.
     */
    method ClickStart(quote: string, now: int, playAgain: bool)
      requires Valid()
      modifies this
      ensures Valid()
      ensures playAgain || !old(startDisabled) ==>
        Snapshot() == Started(old(Snapshot()).(modalShown := false), quote, now)
      ensures !playAgain && old(startDisabled) ==> Snapshot() == old(Snapshot())
    {
      if playAgain || !startDisabled {
        modalShown := false;
        StartGame(quote, now);
      }
    }

    /** The close button and the Escape key: the result window is hidden and nothing else changes. */
    method HideResultModal()
      modifies this`modalShown
      ensures Snapshot() == old(Snapshot()).(modalShown := false)
    {
      modalShown := false;
    }
  }
}
