/** The verse writer: describes a wall, lets the drinker act on it, and
    writes the two lines of the verse into a line buffer. */
module Lyricist {
  import opened Text
  import opened Inventory
  import opened Actions

  /** The line buffer: lines are stored capitalized, in write order. */
  class Lyrics {
    var lines: seq<string>

    constructor ()
      ensures lines == []
    {
      lines := [];
    }

    /** Lyrics#write. */
    method Write(line: string)
      modifies this
      ensures lines == old(lines) + [Capitalize(line)]
    {
      lines := lines + [Capitalize(line)];
    }

    /** Lyrics#publish: the lines, each ended by a line break. Splitting the
        text before its last break gives the lines back, as long as none of
        them holds a break itself. */
    function Publish(): (text: string)
      reads this
      ensures |text| > 0 && text[|text| - 1] == '\n'
      ensures lines != [] && (forall k :: 0 <= k < |lines| ==> '\n' !in lines[k]) ==>
        Split(text[..|text| - 1], '\n') == lines
    {
      var text := Join(lines, "\n") + "\n";
      if lines != [] && (forall k :: 0 <= k < |lines| ==> '\n' !in lines[k]) then
        SplitJoin(lines, '\n');
        assert text[..|text| - 1] == Join(lines, "\n");
        text
      else
        text
    }
  }

  /** A wall of `count` bottles, as the verse names it. */
  function WallText(count: int): (text: string)
    ensures '\n' !in text && IsLowerText(text)
  {
    ContentsOf(count) + " on the wall"
  }

  /** The first line of the verse for a wall of `count` bottles, written
      before anything happens to the wall. */
  function FirstLine(count: int): (line: string)
    ensures '\n' !in line && IsLowerText(line)
  {
    WallText(count) + ", " + ContentsOf(count) + "."
  }

  /** The second line: what the chosen action did, then the wall as it is
      afterwards. */
  function SecondLine(count: int): (line: string)
    ensures '\n' !in line && IsLowerText(line)
  {
    Phrase(count) + ", " + WallText(NextCount(count)) + "."
  }

  /** The two lines the buffer holds once the verse is written. */
  function VerseLines(count: int): (lines: seq<string>)
    ensures |lines| == 2
    ensures forall k :: 0 <= k < |lines| ==> '\n' !in lines[k]
  {
    CapitalizeKeeps(FirstLine(count), '\n');
    CapitalizeKeeps(SecondLine(count), '\n');
    [Capitalize(FirstLine(count)), Capitalize(SecondLine(count))]
  }

  /** A numeral or a minus sign has no capital, so only "no more" changes
      when the contents are capitalized. */
  lemma CapitalizedContents(count: int)
    requires count != 0
    ensures Capitalize(ContentsOf(count)) == ContentsOf(count)
  {
    var contents := ContentsOf(count);
    CapitalizeLowerText(contents);
    if count != 1 {
      assert contents[0] == IntToDecimal(count)[0];
    }
    assert Upcase(contents[0]) == contents[0];
  }

  /** The fixed text the lines are put together with has no capitals. */
  lemma JoinersLower()
    ensures IsLowerText(" on the wall") && IsLowerText(", ") && IsLowerText(".")
  {
  }

  /** Capitalizing the first line capitalizes the wall's contents and
      leaves the rest of the line as it is. */
  lemma CapitalizedFirstLine(count: int)
    ensures Capitalize(FirstLine(count)) ==
      Capitalize(ContentsOf(count)) + " on the wall" + ", " + ContentsOf(count) + "."
  {
    var contents := ContentsOf(count);
    JoinersLower();
    CapitalizeLowerTail(contents, " on the wall");
    CapitalizeLowerTail(contents + " on the wall", ", ");
    CapitalizeLowerTail(contents + " on the wall" + ", ", contents);
    CapitalizeLowerTail(contents + " on the wall" + ", " + contents, ".");
  }

  /** Capitalizing the second line capitalizes the action's phrase and
      leaves the rest of the line as it is. */
  lemma CapitalizedSecondLine(count: int)
    ensures Capitalize(SecondLine(count)) ==
      Capitalize(Phrase(count)) + ", " + WallText(NextCount(count)) + "."
  {
    var phrase := Phrase(count);
    var wall := WallText(NextCount(count));
    JoinersLower();
    CapitalizeLowerTail(phrase, ", ");
    CapitalizeLowerTail(phrase + ", ", wall);
    CapitalizeLowerTail(phrase + ", " + wall, ".");
  }

  /** Each verse line is capitalized on its first character only. */
  lemma CapitalizedVerseLines(count: int)
    ensures Capitalize(FirstLine(count)) ==
      [Upcase(FirstLine(count)[0])] + FirstLine(count)[1..]
    ensures Capitalize(SecondLine(count)) ==
      [Upcase(SecondLine(count)[0])] + SecondLine(count)[1..]
  {
    CapitalizeLowerText(FirstLine(count));
    CapitalizeLowerText(SecondLine(count));
  }

  /** Lyricist#describe_contents: the wall's description of its count,
      one line without capitals. */
  function DescribeContents(wall: Wall): (text: string)
    reads wall
    ensures text == ContentsOf(wall.bottles)
    ensures text != [] && '\n' !in text && IsLowerText(text)
  {
    wall.Contents()
  }

  /** Lyricist#describe_wall: the wall as the verse names it. */
  function DescribeWall(wall: Wall): (text: string)
    reads wall
    ensures text == WallText(wall.bottles)
  {
    DescribeContents(wall) + " on the wall"
  }

  /** Lyricist#describe_and_take_action: succeeds exactly when the wall is
      not negative; the result is then Phrase(count) and the wall holds
      NextCount(count). A negative wall makes the drink raise and is left
      as it was. */
  method DescribeAndTakeAction(wall: Wall) returns (r: Result<string>)
    modifies wall
    ensures r.Success? <==> old(wall.bottles) >= 0
    ensures r.Success? ==> r.value == Phrase(old(wall.bottles))
    ensures r.Success? ==> wall.bottles == NextCount(old(wall.bottles))
    ensures r.Failure? ==> r.error == NotEnoughBeer && wall.bottles == old(wall.bottles)
  {
    ghost var count := wall.bottles;
    var action := Examine(wall);
    var done := action.Perform();
    assert action.kind == Drink ==> action.tookLastBeer == (count == 1);
    if done.Fail? {
      return Failure(done.error);
    }
    r := Success(action.Description());
  }

  /** Lyricist#verse: a fresh buffer holding exactly the two verse lines for
      the starting count, in order, and the wall moved on to NextCount. */
  method Verse(wall: Wall) returns (r: Result<Lyrics>)
    modifies wall
    ensures r.Success? <==> old(wall.bottles) >= 0
    ensures r.Success? ==> fresh(r.value) && r.value.lines == VerseLines(old(wall.bottles))
    ensures r.Success? ==> wall.bottles == NextCount(old(wall.bottles))
    ensures r.Failure? ==> r.error == NotEnoughBeer && wall.bottles == old(wall.bottles)
  {
    var lyrics := new Lyrics();
    lyrics.Write(DescribeWall(wall) + ", " + DescribeContents(wall) + ".");
    var description := DescribeAndTakeAction(wall);
    if description.Failure? {
      return Failure(description.error);
    }
    lyrics.Write(description.value + ", " + DescribeWall(wall) + ".");
    r := Success(lyrics);
  }
}
