/** The actions a drinker can take on a wall (drink one bottle, or restock
    it with 99), each performed at most once, and the drinker's choice
    between them. */
module Actions {
  import opened Text
  import opened Inventory

  datatype Kind = Drink | Replenish

  const TakeIt := "take it down and pass it around"
  const TakeOne := "take one down and pass it around"
  const StoreRun := "go to the store and buy some more"

  /** Each description is lower-case words. */
  lemma PhrasesAreWords()
    ensures IsWords(TakeIt) && IsWords(TakeOne) && IsWords(StoreRun)
  {
  }

  /** The description of the action chosen for a wall of `count` bottles,
      once that action has been performed. */
  function Phrase(count: int): (phrase: string)
    ensures phrase != [] && '\n' !in phrase && IsLowerText(phrase)
  {
    PhrasesAreWords();
    var phrase := if count == 0 then StoreRun else if count == 1 then TakeIt else TakeOne;
    WordsArePlain(phrase);
    phrase
  }

  /** The count left by the action chosen for a wall of `count` bottles. */
  function NextCount(count: int): int {
    if count == 0 then 99 else count - 1
  }

  class Action {
    const kind: Kind
    const wall: Wall
    var performed: bool
    /** Drink's record of whether it took the last bottle; unset (false)
        until it acts. */
    var tookLastBeer: bool

    constructor (kind: Kind, wall: Wall)
      ensures this.kind == kind && this.wall == wall
      ensures !performed && !tookLastBeer
    {
      this.kind := kind;
      this.wall := wall;
      performed := false;
      tookLastBeer := false;
    }

    /** The effect of one `act`: a drink notes whether one bottle was left
        and takes one (failing on an empty or negative wall); a replenish
        shelves 99. */
    twostate predicate Acted(r: Outcome)
      reads this, wall
    {
      match kind
      case Drink =>
        && tookLastBeer == (old(wall.bottles) == 1)
        && (if old(wall.bottles) >= 1
            then r == Pass && wall.bottles == old(wall.bottles) - 1
            else r == Fail(if old(wall.bottles) == 0 then OutOfBeer else NotEnoughBeer)
                 && wall.bottles == old(wall.bottles))
      case Replenish =>
        && tookLastBeer == old(tookLastBeer)
        && r == Pass && wall.bottles == old(wall.bottles) + 99
    }

    /** Drink#act and Replenish#act. */
    method Act() returns (r: Outcome)
      modifies this, wall
      ensures Acted(r)
      ensures performed == old(performed)
    {
      match kind
      case Drink =>
        tookLastBeer := wall.OneLeft();
        var taken := wall.Take(1);
        r := if taken.Success? then Pass else Fail(taken.error);
      case Replenish =>
        // shelving 99 cannot raise: the quantity is not negative
        var _ := wall.Shelf(99);
        r := Pass;
    }

    /** Action#perform: acts on every call until an act succeeds, and never
        after that. An act that raises leaves the action unperformed, so the
        next call acts again; once an act has succeeded every later call
        leaves the wall and the action alone. */
    method Perform() returns (r: Outcome)
      modifies this, wall
      ensures old(performed) ==> r == Pass && unchanged(this) && unchanged(wall)
      ensures !old(performed) ==> Acted(r) && performed == r.Pass?
    {
      if !performed {
        r := Act();
        if r.Fail? {
          return;
        }
        performed := true;
      } else {
        r := Pass;
      }
    }

    /** Drink#description and Replenish#description: a replenish reads as
        the phrase for an empty wall, a drink that took the last bottle as
        the phrase for one bottle, any other drink as the phrase for more. */
    function Description(): (description: string)
      reads this
      ensures description == Phrase(if kind == Replenish then 0 else if tookLastBeer then 1 else 2)
    {
      match kind
      case Drink => if tookLastBeer then TakeIt else TakeOne
      case Replenish => StoreRun
    }
  }

  /** Drinker#examine: a replenish for an empty wall, otherwise a drink,
      both bound to the wall and not yet performed; the wall is untouched. */
  method Examine(wall: Wall) returns (action: Action)
    ensures fresh(action) && action.wall == wall
    ensures !action.performed && !action.tookLastBeer
    ensures action.kind == Replenish <==> wall.IsEmpty()
  {
    if wall.IsEmpty() {
      action := new Action(Replenish, wall);
    } else {
      action := new Action(Drink, wall);
    }
  }
}
