/** The verses the song is known by, worked out from the definitions: the
    first verse, the last drink, and the restock. Each literal fact sits in
    a lemma of its own; the verse lemmas only put them together. */
module Checks {
  import opened Text
  import opened Inventory
  import opened Actions
  import Lyricist
  import opened Bottles

  /** Solver step: the literal cut after its first letter, so that
      capitalizing touches one character only. */
  lemma NoMoreSplit()
    ensures ContentsOf(0) == "n" + "o more bottles of beer"
  {
  }

  /** Solver step: the capital put back in front of the rest. */
  lemma NoMoreCapital()
    ensures "N" + "o more bottles of beer" == "No more bottles of beer"
  {
  }

  /** "no more" is the only contents whose capitalized form differs. */
  lemma CapitalizedNoMore()
    ensures Capitalize(ContentsOf(0)) == "No more bottles of beer"
  {
    var rest := "o more bottles of beer";
    NoMoreSplit();
    assert IsLowerText(ContentsOf(0));
    LowerTextConcat("n", rest);
    CapitalizeLowerTail("n", rest);
    assert Capitalize("n") == "N";
    NoMoreCapital();
  }

  /** Solver step: the literal cut after its first letter, so that
      capitalizing touches one character only. */
  lemma TakeOneSplit()
    ensures TakeOne == "t" + "ake one down and pass it around"
  {
  }

  /** Solver step: the capital put back in front of the rest. */
  lemma TakeOneCapital()
    ensures "T" + "ake one down and pass it around" == "Take one down and pass it around"
  {
  }

  lemma CapitalizedTakeOne()
    ensures Capitalize(TakeOne) == "Take one down and pass it around"
  {
    var rest := "ake one down and pass it around";
    TakeOneSplit();
    assert IsLowerText(Phrase(2));
    LowerTextConcat("t", rest);
    CapitalizeLowerTail("t", rest);
    assert Capitalize("t") == "T";
    TakeOneCapital();
  }

  /** Solver step: the literal cut after its first letter, so that
      capitalizing touches one character only. */
  lemma TakeItSplit()
    ensures TakeIt == "t" + "ake it down and pass it around"
  {
  }

  /** Solver step: the capital put back in front of the rest. */
  lemma TakeItCapital()
    ensures "T" + "ake it down and pass it around" == "Take it down and pass it around"
  {
  }

  lemma CapitalizedTakeIt()
    ensures Capitalize(TakeIt) == "Take it down and pass it around"
  {
    var rest := "ake it down and pass it around";
    TakeItSplit();
    assert IsLowerText(Phrase(1));
    LowerTextConcat("t", rest);
    CapitalizeLowerTail("t", rest);
    assert Capitalize("t") == "T";
    TakeItCapital();
  }

  /** Solver step: the literal cut after its first letter, so that
      capitalizing touches one character only. */
  lemma StoreRunSplit()
    ensures StoreRun == "g" + "o to the store and buy some more"
  {
  }

  /** Solver step: the capital put back in front of the rest. */
  lemma StoreRunCapital()
    ensures "G" + "o to the store and buy some more" == "Go to the store and buy some more"
  {
  }

  lemma CapitalizedStoreRun()
    ensures Capitalize(StoreRun) == "Go to the store and buy some more"
  {
    var rest := "o to the store and buy some more";
    StoreRunSplit();
    assert IsLowerText(Phrase(0));
    LowerTextConcat("g", rest);
    CapitalizeLowerTail("g", rest);
    assert Capitalize("g") == "G";
    StoreRunCapital();
  }

  /** Solver step: the two numerals the first verse uses. */
  lemma Numerals()
    ensures IntToDecimal(99) == "99"
    ensures IntToDecimal(98) == "98"
  {
    assert NatToDecimal(9) == "9";
  }

  lemma Contents99And98()
    ensures ContentsOf(99) == "99 bottles of beer"
    ensures ContentsOf(98) == "98 bottles of beer"
  {
    Numerals();
    assert "99" + " bottles of beer" == "99 bottles of beer";
    assert "98" + " bottles of beer" == "98 bottles of beer";
  }

  /** Solver step: the pieces of the line, grouped as the definitions
      group them, spelled out as one literal. */
  lemma FirstLine99Text()
    ensures "99 bottles of beer" + " on the wall" + ", " + "99 bottles of beer" + "."
      == "99 bottles of beer on the wall, 99 bottles of beer."
  {
  }

  /** Solver step: the pieces of the line, grouped as the definitions
      group them, spelled out as one literal. */
  lemma SecondLine99Text()
    ensures "Take one down and pass it around" + ", " + ("98 bottles of beer" + " on the wall") + "."
      == "Take one down and pass it around, 98 bottles of beer on the wall."
  {
  }

  /** Solver step: the pieces of the line, grouped as the definitions
      group them, spelled out as one literal. */
  lemma FirstLine1Text()
    ensures "1 bottle of beer" + " on the wall" + ", " + "1 bottle of beer" + "."
      == "1 bottle of beer on the wall, 1 bottle of beer."
  {
  }

  /** Solver step: the pieces of the line, grouped as the definitions
      group them, spelled out as one literal. */
  lemma SecondLine1Text()
    ensures "Take it down and pass it around" + ", " + ("no more bottles of beer" + " on the wall") + "."
      == "Take it down and pass it around, no more bottles of beer on the wall."
  {
  }

  /** Solver step: the pieces of the line, grouped as the definitions
      group them, spelled out as one literal. */
  lemma FirstLine0Text()
    ensures "No more bottles of beer" + " on the wall" + ", " + "no more bottles of beer" + "."
      == "No more bottles of beer on the wall, no more bottles of beer."
  {
  }

  /** Solver step: the pieces of the line, grouped as the definitions
      group them, spelled out as one literal. */
  lemma SecondLine0Text()
    ensures "Go to the store and buy some more" + ", " + ("99 bottles of beer" + " on the wall") + "."
      == "Go to the store and buy some more, 99 bottles of beer on the wall."
  {
  }

  lemma FirstLine99()
    ensures Capitalize(Lyricist.FirstLine(99)) == "99 bottles of beer on the wall, 99 bottles of beer."
  {
    Lyricist.CapitalizedFirstLine(99);
    Lyricist.CapitalizedContents(99);
    Contents99And98();
    FirstLine99Text();
  }

  lemma SecondLine99()
    ensures Capitalize(Lyricist.SecondLine(99)) ==
      "Take one down and pass it around, 98 bottles of beer on the wall."
  {
    Lyricist.CapitalizedSecondLine(99);
    CapitalizedTakeOne();
    Contents99And98();
    SecondLine99Text();
  }

  /** The first verse of the song. */
  lemma Verse99()
    ensures VerseText(99) ==
      "99 bottles of beer on the wall, 99 bottles of beer." + "\n" +
      "Take one down and pass it around, 98 bottles of beer on the wall." + "\n"
  {
    FirstLine99();
    SecondLine99();
  }

  lemma FirstLine1()
    ensures Capitalize(Lyricist.FirstLine(1)) == "1 bottle of beer on the wall, 1 bottle of beer."
  {
    Lyricist.CapitalizedFirstLine(1);
    Lyricist.CapitalizedContents(1);
    FirstLine1Text();
  }

  lemma SecondLine1()
    ensures Capitalize(Lyricist.SecondLine(1)) ==
      "Take it down and pass it around, no more bottles of beer on the wall."
  {
    Lyricist.CapitalizedSecondLine(1);
    CapitalizedTakeIt();
    SecondLine1Text();
  }

  /** The last drink: "it", not "one", and no more bottles after it. */
  lemma Verse1()
    ensures VerseText(1) ==
      "1 bottle of beer on the wall, 1 bottle of beer." + "\n" +
      "Take it down and pass it around, no more bottles of beer on the wall." + "\n"
  {
    FirstLine1();
    SecondLine1();
  }

  lemma FirstLine0()
    ensures Capitalize(Lyricist.FirstLine(0)) ==
      "No more bottles of beer on the wall, no more bottles of beer."
  {
    Lyricist.CapitalizedFirstLine(0);
    CapitalizedNoMore();
    FirstLine0Text();
  }

  lemma SecondLine0()
    ensures Capitalize(Lyricist.SecondLine(0)) ==
      "Go to the store and buy some more, 99 bottles of beer on the wall."
  {
    Lyricist.CapitalizedSecondLine(0);
    CapitalizedStoreRun();
    Contents99And98();
    SecondLine0Text();
  }

  /** The restock: the empty wall is filled back up to 99. */
  lemma Verse0()
    ensures VerseText(0) ==
      "No more bottles of beer on the wall, no more bottles of beer." + "\n" +
      "Go to the store and buy some more, 99 bottles of beer on the wall." + "\n"
  {
    FirstLine0();
    SecondLine0();
  }
}
