/** The song: one verse per count, from a starting count down to an ending
    count, each on a fresh wall, joined with a blank line between verses. */
module Bottles {
  import opened Text
  import opened Inventory
  import opened Actions
  import Lyricist
  import opened Lists

  /** The published verse for a wall that starts with `count` bottles. */
  function VerseText(count: int): string {
    Capitalize(Lyricist.FirstLine(count)) + "\n" + Capitalize(Lyricist.SecondLine(count)) + "\n"
  }

  /** Bottles#verse: the verse for a fresh wall of `count` bottles. A negative
      count makes the drink raise NotEnoughBeerError. */
  method Verse(count: int) returns (r: Result<string>)
    ensures r.Failure? <==> count < 0
    ensures r.Failure? ==> r.error == NotEnoughBeer
    ensures r.Success? ==> r.value == VerseText(count)
  {
    var wall := new Wall(count);
    var lyrics := Lyricist.Verse(wall);
    if lyrics.Failure? {
      return Failure(lyrics.error);
    }
    var lines := lyrics.value.lines;
    r := Success(lyrics.value.Publish());
    JoinPair(lines[0], lines[1], "\n");
    assert lines == [lines[0], lines[1]];
  }

  /** What Bottles#verses produces: nil when the range is empty, the
      exception of the first negative verse, or the verses from `starting`
      down to `ending` joined with line breaks. */
  datatype SongOutcome = Nil | Sung(text: string) | Raised(error: WallError)

  function VersesText(starting: int, ending: int): SongOutcome {
    if starting < ending then Nil
    else if ending < 0 then Raised(NotEnoughBeer)
    else Sung(Join(Countdown(VerseText, starting, ending), "\n"))
  }

  /** Bottles#verses: counts down from `starting` to `ending`, producing each
      verse on its own wall and folding them together with a line break
      between consecutive verses. */
  method Verses(starting: int, ending: int) returns (r: SongOutcome)
    ensures r == VersesText(starting, ending)
  {
    if starting < ending {
      return Nil;
    }
    var n := starting;
    var text := "";
    while n >= ending
      invariant ending - 1 <= n <= starting
      invariant n < starting ==> n >= -1 && text == Join(Countdown(VerseText, starting, n + 1), "\n")
    {
      var verse := Verse(n);
      if verse.Failure? {
        return Raised(verse.error);
      }
      JoinCountdownStep(VerseText, "\n", starting, n);
      if n == starting {
        text := verse.value;
      } else {
        text := text + "\n" + verse.value;
      }
      n := n - 1;
    }
    r := Sung(text);
  }

  /** Bottles#song: the verses from 99 down to 0. */
  method Song() returns (text: string)
    ensures VersesText(99, 0) == Sung(text)
  {
    var r := Verses(99, 0);
    text := r.text;
  }

  /** The song is 100 verses, for the counts 99 down to 0 in that order. */
  lemma SongVerses()
    ensures VersesText(99, 0) == Sung(Join(Countdown(VerseText, 99, 0), "\n"))
    ensures |Countdown(VerseText, 99, 0)| == 100
    ensures forall i :: 0 <= i < 100 ==> Countdown(VerseText, 99, 0)[i] == VerseText(99 - i)
  {
    forall i | 0 <= i < 100
      ensures Countdown(VerseText, 99, 0)[i] == VerseText(99 - i)
    {
      CountdownAt(VerseText, 99, 0, i);
    }
  }

  /** A verse as lines: its two lines, then the empty line its final line
      break leaves once the next verse follows. */
  function VerseBlock(count: int): (block: seq<string>)
    ensures |block| == 3
    ensures forall k :: 0 <= k < 3 ==> '\n' !in block[k]
  {
    Lyricist.VerseLines(count) + [""]
  }

  /** One published verse is its block joined with line breaks. */
  lemma VerseTextLines(count: int)
    ensures VerseText(count) == Join(VerseBlock(count), "\n")
  {
    var lines := Lyricist.VerseLines(count);
    assert VerseBlock(count) == [lines[0], lines[1], ""];
    JoinTriple(lines[0], lines[1], "", "\n");
  }

  /** The lines of the verses from `starting` down to `ending`. */
  function LinesOfVerses(starting: int, ending: int): (lines: seq<string>)
    requires ending <= starting
    ensures |lines| == 3 * (starting - ending + 1)
  {
    FlattenCountdownAt(VerseBlock, 3, starting, ending, 0, 0);
    Flatten(Countdown(VerseBlock, starting, ending))
  }

  /** Line 3i + j of the range is line j of verse i's block: verse i sits
      at lines 3i and 3i+1, followed by an empty line at 3i+2. */
  lemma LineOfVerses(starting: int, ending: int, i: nat, j: nat)
    requires ending <= starting && i <= starting - ending && j < 3
    ensures LinesOfVerses(starting, ending)[3 * i + j] == VerseBlock(starting - i)[j]
  {
    FlattenCountdownAt(VerseBlock, 3, starting, ending, i, j);
  }

  /** Joining the verses is joining all their lines. */
  lemma VersesJoinLines(starting: int, ending: int)
    requires ending <= starting
    ensures Join(Countdown(VerseText, starting, ending), "\n") == Join(LinesOfVerses(starting, ending), "\n")
  {
    forall c
      ensures VerseBlock(c) != [] && VerseText(c) == Join(VerseBlock(c), "\n")
    {
      VerseTextLines(c);
    }
    JoinFlattenCountdown(VerseText, VerseBlock, "\n", starting, ending);
  }

  /** No line of the verses holds a line break. */
  lemma LinesOfVersesUnbroken(starting: int, ending: int)
    requires ending <= starting
    ensures forall k :: 0 <= k < |LinesOfVerses(starting, ending)| ==> '\n' !in LinesOfVerses(starting, ending)[k]
  {
    FlattenCountdownAll(VerseBlock, line => '\n' !in line, starting, ending);
  }

  /** Cutting the verses' text at its line breaks gives three pieces per
      verse: its two lines, then an empty piece. Between two verses that
      empty piece is the blank line; after the last verse it is the empty
      remainder that follows the final line break. */
  lemma VersesLines(starting: int, ending: int)
    requires 0 <= ending <= starting
    ensures VersesText(starting, ending).Sung?
    ensures Split(VersesText(starting, ending).text, '\n') == LinesOfVerses(starting, ending)
  {
    VersesJoinLines(starting, ending);
    LinesOfVersesUnbroken(starting, ending);
    SplitJoin(LinesOfVerses(starting, ending), '\n');
  }

  /** Cut at its line breaks, the song gives 300 pieces: two lines per
      verse, a blank line between verses, and the empty remainder after the
      final break, so 299 lines in all. */
  lemma SongLines()
    ensures VersesText(99, 0).Sung?
    ensures |Split(VersesText(99, 0).text, '\n')| == 300
    ensures Split(VersesText(99, 0).text, '\n')[299] == ""
  {
    VersesLines(99, 0);
    LineOfVerses(99, 0, 99, 2);
  }
}
