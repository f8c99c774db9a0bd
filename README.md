# 99 Bottles of Beer, modelled in Dafny

This project models `lib/bottles.rb`, the Ruby program that writes the song
"99 Bottles of Beer". Its classes fall into four modules, with two more for the Ruby library
behaviour and one for worked verses:

- **Inventory** (`inventory.dfy`). The `Wall` class keeps one mutable bottle
  count. `Take` and `Shelf` are checked: a bad call raises
  `OutOfBeerError`, `NotEnoughBeerError` or `ArgumentError` and leaves the
  count alone. `ContentsOf` is the wall's description. Here a raised
  exception is the `Failure` arm of a `Result`.
- **Actions** (`actions.dfy`). `Action` is a class with a kind tag (drink
  or replenish), the wall it acts on, the `performed` flag and the drink's
  `tookLastBeer` flag. `Perform` runs `Act` on every call until an act
  succeeds, and never after that. `Examine` is
  `Drinker#examine`. `Phrase` and `NextCount` say what an action performed
  on a wall of `count` bottles reports, and what count it leaves.
- **Lyricist** (`lyricist.dfy`).
  - `Lyrics` is the line buffer: `Write` appends a capitalized line, and
    `Publish` joins the lines with line breaks and adds one at the end.
  - `Verse` writes the first line before the action, runs the action, then
    writes the second line about the wall afterwards.
  - `FirstLine`, `SecondLine` and `VerseLines` are the pure specification
    of the two lines. `Verse` is proved to produce exactly those lines.
- **Bottles** (`bottles.dfy`).
  - `Verse` builds a fresh wall and publishes its verse. `Verses` counts
    down and joins the verses with line breaks. `Song` is `Verses(99, 0)`.
  - `VerseText` and `VersesText` specify these results, and the methods are
    proved to return them.
  - The lemmas cut the song text at its line breaks and show what each line
    is.
- **Text** and **Lists** (`text.dfy`, `lists.dfy`). These hold the Ruby
  library behaviour the program relies on: `Integer#to_s`, an ASCII
  `String#capitalize`, `Array#join`, and `Integer#downto` with `map`. They
  also hold `Split`, a line splitter. `Split` is not part of the program:
  it is here to state what a joined text contains, as the inverse of
  `Join`.
- **Checks** (`checks.dfy`). Three verses of the song, proved letter for
  letter: the first verse (99), the last drink (1) and the restock (0).

In the Ruby program a failing wall operation raises and unwinds to the
caller of `Bottles#verse`. The model carries this as a `Result`, and as the
`SongOutcome` of `Verses`:

- `Nil`: the range is empty, and `reduce` returns nil.
- `Sung`: the verses.
- `Raised`: the exception of the first verse that failed.

The code accepts any integer as a wall's count; `Wall.new` checks nothing.
So does the model. A negative count therefore reaches `Drink#act`, where
`take(1)` raises `NotEnoughBeerError` because 1 is more than the count.
`Verse`, `Verses` and their specifications carry that error path instead
of requiring a non-negative count. The song itself only uses counts 0 to
99.

## Model

| member | source | states |
|---|---|---|
| Text.DecimalRoundTrip | lib/bottles.rb:83 | reading the numeral of a non-negative count back gives that count |
| Text.IntToDecimalInjective | lib/bottles.rb:83 | different counts get different numerals |
| Text.Capitalize | lib/bottles.rb:56 | `capitalize` keeps the length, upcases the first character and downcases every other one |
| Text.CapitalizeIdempotent | lib/bottles.rb:56 | capitalizing a written line again changes nothing |
| Text.CapitalizeLowerTail | lib/bottles.rb:56 | capitalizing text whose tail has no capitals only changes its head |
| Text.CapitalizeKeeps | lib/bottles.rb:56 | capitalizing neither adds nor removes line breaks or other non-letters |
| Text.JoinConcat | lib/bottles.rb:60 | joining two non-empty lists is joining each with the separator between them |
| Text.SplitJoin | lib/bottles.rb:60 | cutting joined lines at the separator gives the lines back when none contains it |
| Inventory.ContentsCases | lib/bottles.rb:76-85 | "no more bottles of beer" exactly for 0, "1 bottle of beer" exactly for 1, otherwise the numeral followed by " bottles of beer" |
| Inventory.ContentsInjective | lib/bottles.rb:76-85 | different counts are described differently |
| Inventory.ContentsOf | lib/bottles.rb:76-85 | the description is one non-empty line with no capitals |
| Inventory.Wall.Contents | lib/bottles.rb:76-85 | the wall reads "no more bottles of beer" exactly when empty, "1 bottle of beer" exactly with one left, and otherwise its count's numeral followed by " bottles of beer" |
| Inventory.Wall.constructor | lib/bottles.rb:72-74 | the wall holds the given count, unchecked |
| Inventory.Wall.IsEmpty | lib/bottles.rb:101-103 | true exactly when the count is 0, which is exactly when the wall says "no more" |
| Inventory.Wall.OneLeft | lib/bottles.rb:105-107 | true exactly when the count is 1, which is exactly when the wall says "1 bottle" |
| Inventory.Wall.Take | lib/bottles.rb:87-93 | errors in the order out-of-beer (count 0, any quantity), not-enough-beer (quantity above the count), then argument error (negative quantity); success exactly for 0 <= quantity <= count on a non-empty wall, lowering the count by the quantity to a value >= 0 that is returned; a failure changes nothing |
| Inventory.Wall.Shelf | lib/bottles.rb:95-99 | a negative quantity raises and changes nothing; otherwise the count rises by exactly the quantity and is returned |
| Actions.Phrase | lib/bottles.rb:159-163 | every action description is a single non-empty line of lower-case text |
| Actions.Action.Description | lib/bottles.rb:159-163 | a replenish reads as the phrase for an empty wall, a drink that took the last bottle as the phrase for one bottle, any other drink as the phrase for more; `Acted` fixes `tookLastBeer` to whether one bottle was left, so `Lyricist.DescribeAndTakeAction` gets the phrase for the wall's count |
| Actions.Action.constructor | lib/bottles.rb:125-128 | a new action is bound to its wall, not performed, and has not noted a last bottle |
| Actions.Action.Act | lib/bottles.rb:153-157 | a drink notes whether exactly one bottle was left and takes one: from n >= 1 to n - 1, failing with out-of-beer on 0 and not-enough-beer below 0 with the wall unchanged; a replenish adds 99 |
| Actions.Action.Perform | lib/bottles.rb:130-136 | the first call acts and is marked performed exactly when the act succeeded; once performed, a call changes neither the action nor the wall |
| Actions.Examine | lib/bottles.rb:115-121 | a fresh, unperformed replenish exactly when the wall is empty, otherwise a drink, bound to that wall, and the wall is untouched |
| Lyricist.Lyrics.constructor | lib/bottles.rb:51-53 | a new buffer holds no lines |
| Lyricist.Lyrics.Write | lib/bottles.rb:55-57 | exactly one line is appended, capitalized, after the earlier ones |
| Lyricist.Lyrics.Publish | lib/bottles.rb:59-61 | the text always ends in a line break; when at least one line was written and no written line holds a line break, cutting the rest of the text at line breaks gives back exactly the written lines |
| Lyricist.DescribeContents | lib/bottles.rb:37-39 | the wall's description of its count, a single non-empty line with no capitals |
| Lyricist.DescribeWall | lib/bottles.rb:33-35 | the description followed by " on the wall", the wall text the verse lines are specified with |
| Lyricist.DescribeAndTakeAction | lib/bottles.rb:41-47 | for a count >= 0 the description is "go to the store and buy some more" on 0, "take it down and pass it around" on 1 and "take one down and pass it around" otherwise, and the wall moves to 99, 0 or count - 1; a negative wall raises not-enough-beer and is unchanged |
| Lyricist.Verse | lib/bottles.rb:26-31 | a fresh buffer holding exactly the two verse lines, in order: the first from the count before the action, the second from the description and the count after it; a negative wall raises and is unchanged |
| Lyricist.VerseLines | lib/bottles.rb:27-28 | a verse is two lines, neither holding a line break |
| Lyricist.CapitalizedContents | lib/bottles.rb:76-85 | capitalizing any description but "no more" leaves it as it is |
| Lyricist.CapitalizedFirstLine | lib/bottles.rb:27 | the written first line is the capitalized contents, " on the wall, ", the contents again and "." |
| Lyricist.CapitalizedSecondLine | lib/bottles.rb:28 | the written second line is the capitalized description, ", ", the wall after the action and "." |
| Lyricist.CapitalizedVerseLines | lib/bottles.rb:56 | writing changes only the first character of each verse line |
| Bottles.Verse | lib/bottles.rb:17-23 | the published verse for a fresh wall of the count is both lines, each ended by a line break; exactly the negative counts raise not-enough-beer |
| Bottles.Verses | lib/bottles.rb:11-15 | nil when the range is empty; not-enough-beer when it reaches below 0; otherwise the verses from start down to end, joined with line breaks |
| Bottles.Song | lib/bottles.rb:7-9 | the song is the verses from 99 down to 0 |
| Bottles.SongVerses | lib/bottles.rb:7-9 | the song is 100 verses, verse i being the verse for 99 - i |
| Bottles.VerseTextLines | lib/bottles.rb:59-61 | a published verse is its two lines and an empty line, joined with line breaks |
| Bottles.VersesJoinLines | lib/bottles.rb:11-15 | joining the verses with line breaks is joining all their lines with line breaks |
| Bottles.LinesOfVersesUnbroken | lib/bottles.rb:11-15 | no line of the verses holds a line break |
| Bottles.VersesLines | lib/bottles.rb:11-15 | cutting the verses' text at line breaks gives three pieces per verse: its two lines, then an empty piece, which is the blank line between two verses and, after the last verse, the empty remainder after the final line break |
| Bottles.LineOfVerses | lib/bottles.rb:11-15 | line 3i + j of the verses is line j of the block of verse i: its two lines, then the empty line |
| Bottles.SongLines | lib/bottles.rb:7-9 | cutting the song at its line breaks gives 300 pieces, the last of them the empty remainder after the final break: two lines per verse and a blank line between verses, 299 lines in all |
| Lists.CountdownAt | lib/bottles.rb:12-13 | element i of a countdown is the value for the i-th count down from the start |
| Lists.JoinCountdownStep | lib/bottles.rb:14 | the fold of one verse is that verse; each further verse adds a line break and itself at the end |
| Checks.Verse99 | lib/bottles.rb:17-23 | verse 99 reads "99 bottles of beer on the wall, 99 bottles of beer." then "Take one down and pass it around, 98 bottles of beer on the wall.", each followed by a line break |
| Checks.Verse1 | lib/bottles.rb:17-23 | verse 1 reads "1 bottle of beer on the wall, 1 bottle of beer." then "Take it down and pass it around, no more bottles of beer on the wall." |
| Checks.Verse0 | lib/bottles.rb:17-23 | verse 0 reads "No more bottles of beer on the wall, no more bottles of beer." then "Go to the store and buy some more, 99 bottles of beer on the wall." |

## Left out

- Fractional quantities are not modelled. Quantities are integers, so `quantity.ceil` in `Wall#take` (lib/bottles.rb:92) and `quantity.floor` in `Wall#shelf` (lib/bottles.rb:98) are the identity. Float behaviour is out of scope.
- Exception messages and the `RangeError` class hierarchy are not modelled. The three exceptions are the tags of `WallError`. One message is worth noting: the single-quoted string at lib/bottles.rb:89 does not interpolate `#{quantity}`, so it is printed literally. That matters only for message text, which is not modelled.
- Dependency injection is fixed to the concrete classes. The `lyricist:`, `wall_class:`, `drinker:` and `lyrics:` defaults are at lib/bottles.rb:2, 26 and 41. Substituting other objects there is not behaviour of the program.
- `Action#act` in the base class raises `NotImplementedError` (lib/bottles.rb:138-140). It cannot be reached, because the kind tag is closed over drink and replenish.
- The default argument `quantity=1` of `Wall#take` and `Wall#shelf` (lib/bottles.rb:87, 95) is not modelled. `Take` and `Shelf` always take an explicit quantity. The program never relies on the default: both call sites pass a quantity (lib/bottles.rb:156, 168).
- Return values used for effect only are not modelled. `Action#perform` returns nil or true, and `Replenish#act` returns the new count. `Act` and `Perform` report only success or the exception.
- `String#capitalize` is modelled for ASCII only. Its handling of other characters is not.
- `private` and `protected` accessors are not modelled; they restrict who may call, and change no behaviour.
- Ruby first maps every count to its verse and then folds. `Bottles.Verses` builds each verse and folds it in, one count at a time. The two give the same text and the same first exception, because every verse uses its own wall.
- `Actions.Phrase` states only that a description is one lower-case line. Which phrase each action gives is stated by `Lyricist.DescribeAndTakeAction` and the `Checks` verses.
- `Bottles.LineOfVerses` gives each line as a line of `VerseBlock`, which is `VerseLines` followed by an empty line. It does not repeat the capitalized text of each line.
- The verse lemmas in `Checks` cover verses 99, 1 and 0. The text of any other verse from 2 up follows from `Lyricist.CapitalizedFirstLine`, `Lyricist.CapitalizedSecondLine`, `Inventory.ContentsCases`, `Lyricist.CapitalizedContents` and `Checks.CapitalizedTakeOne`, but it is not stated as a lemma of its own.
