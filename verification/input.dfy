/**
 * Keyboard and line input of the interactive mode (src/cli.rs): what the
 * terminal delivers is a sequence of events, and what standard input
 * delivers is a sequence of lines. Reading consumes them from the front.
 * When the terminal has no events left the real program would block for
 * ever; the model reports that the input is exhausted instead. Standard
 * input at its end yields an empty line at once, as `read_line` does.
 */
module Input {

  datatype KeyCode = Char(c: char) | NonChar

  /**
   * One thing the terminal does when the program asks for input: deliver a
   * key event, deliver some other event (a resize, a mouse event), fail the
   * read, or fail to switch into raw mode before the read.
   */
  datatype TermEvent = Key(code: KeyCode) | OtherEvent | ReadError | RawModeError

  /** What `listen_for_key` returns. */
  datatype KeyResult = GotChar(c: char) | KeyError | NoInput

  datatype KeyRead = KeyRead(result: KeyResult, rest: seq<TermEvent>)

  /** The events `listen_for_key` passes over without returning. */
  predicate Skipped(e: TermEvent)
  {
    e.OtherEvent? || e.ReadError? || (e.Key? && e.code.NonChar?)
  }

  /**
   * `listen_for_key`: skip every event that is not a character key, and
   * return the first character, or the error of a failed switch into raw
   * mode; `rest` is what is left unread.
   */
  function NextKey(evs: seq<TermEvent>): (r: KeyRead)
    ensures |r.rest| <= |evs|
    ensures !r.result.NoInput? ==> |r.rest| < |evs|
  {
    if evs == [] then KeyRead(NoInput, [])
    else if evs[0].RawModeError? then KeyRead(KeyError, evs[1..])
    else if evs[0].Key? && evs[0].code.Char? then KeyRead(GotChar(evs[0].code.c), evs[1..])
    else NextKey(evs[1..])
  }

  /**
   * What `listen_for_key` reads: nothing but skipped events before the key
   * it returns (or the failed switch into raw mode), and everything after
   * that key left unread; input runs out only when every event is skipped.
   */
  lemma {:induction false} NextKeyReadsFirstKey(evs: seq<TermEvent>)
    ensures var r := NextKey(evs);
      && r.rest == evs[|evs| - |r.rest|..]
      && (r.result.NoInput? <==> r.rest == [] && forall j :: 0 <= j < |evs| ==> Skipped(evs[j]))
      && (!r.result.NoInput? ==>
            && (forall j :: 0 <= j < |evs| - |r.rest| - 1 ==> Skipped(evs[j]))
            && evs[|evs| - |r.rest| - 1] == (if r.result.GotChar? then Key(Char(r.result.c)) else RawModeError))
  {
    if evs != [] && !evs[0].RawModeError? && !(evs[0].Key? && evs[0].code.Char?) {
      NextKeyReadsFirstKey(evs[1..]);
      var r := NextKey(evs[1..]);
      assert NextKey(evs) == r;
      assert evs[1..][|evs| - 1 - |r.rest|..] == evs[|evs| - |r.rest|..];
      assert forall j :: 1 <= j < |evs| ==> evs[j] == evs[1..][j - 1];
    }
  }

  /** A character key at the front is the key `listen_for_key` returns. */
  lemma NextKeyTakesCharacter(c: char, evs: seq<TermEvent>)
    ensures NextKey([Key(Char(c))] + evs) == KeyRead(GotChar(c), evs)
  {
    assert ([Key(Char(c))] + evs)[1..] == evs;
  }

  /** `listen_for_key` passes over an event that is not a character key. */
  lemma NextKeyPassesOver(e: TermEvent, evs: seq<TermEvent>)
    requires Skipped(e)
    ensures NextKey([e] + evs) == NextKey(evs)
  {
    assert ([e] + evs)[1..] == evs;
  }

  /** Whether `wait_for_any_key` stops after this event. */
  predicate EndsWait(e: TermEvent)
  {
    e.Key? || e.ReadError? || e.RawModeError?
  }

  /**
   * The events left after `wait_for_any_key`: it reads up to and including
   * the first key event of any kind, or stops at the first failure.
   */
  function AfterAnyKey(evs: seq<TermEvent>): (rest: seq<TermEvent>)
    ensures |rest| <= |evs| && rest == evs[|evs| - |rest|..]
    ensures evs != [] ==> |rest| < |evs|
    ensures forall j :: 0 <= j < |evs| - |rest| - 1 ==> !EndsWait(evs[j])
    ensures rest != [] ==> EndsWait(evs[|evs| - |rest| - 1])
  {
    if evs == [] then []
    else if EndsWait(evs[0]) then evs[1..]
    else
      var rest := AfterAnyKey(evs[1..]);
      assert evs[1..][|evs| - 1 - |rest|..] == evs[|evs| - |rest|..];
      assert forall j :: 1 <= j < |evs| ==> evs[j] == evs[1..][j - 1];
      rest
  }

  /** The terminal and standard input, as what is still to be read from them. */
  class Terminal {
    var events: seq<TermEvent>
    var lines: seq<string>

    constructor (events: seq<TermEvent>, lines: seq<string>)
      ensures this.events == events && this.lines == lines
    {
      this.events := events;
      this.lines := lines;
    }

    /** `listen_for_key`. */
    method ListenForKey() returns (r: KeyResult)
      modifies this
      ensures r == NextKey(old(events)).result
      ensures events == NextKey(old(events)).rest && lines == old(lines)
    {
      while true
        invariant NextKey(events) == NextKey(old(events))
        invariant lines == old(lines)
        decreases |events|
      {
        if events == [] {
          return NoInput;
        }
        var event := events[0];
        events := events[1..];
        if event.RawModeError? {
          return KeyError;
        }
        if event.Key? && event.code.Char? {
          return GotChar(event.code.c);
        }
      }
    }

    /** `wait_for_any_key`, whose result its one caller discards. */
    method WaitForAnyKey()
      modifies this
      ensures events == AfterAnyKey(old(events)) && lines == old(lines)
    {
      while events != [] && !EndsWait(events[0])
        invariant AfterAnyKey(events) == AfterAnyKey(old(events))
        invariant lines == old(lines)
        decreases |events|
      {
        events := events[1..];
      }
      if events != [] {
        events := events[1..];
      }
    }

    /**
     * `read_line` into an empty string: the next line as read, terminator
     * included; at the end of input, nothing. Read errors of standard
     * input are not modelled.
     */
    method ReadLine() returns (line: string)
      modifies this
      ensures old(lines) == [] ==> line == "" && lines == []
      ensures old(lines) != [] ==> old(lines) == [line] + lines
      ensures events == old(events)
    {
      if lines == [] {
        line := "";
      } else {
        line := lines[0];
        lines := lines[1..];
      }
    }
  }
}
