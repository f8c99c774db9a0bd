/** The wall: a bottle inventory held in one mutable integer, with checked
    take and shelf operations that raise instead of going out of range. */
module Inventory {
  import opened Text

  /** The three exceptions a wall can raise: OutOfBeerError,
      NotEnoughBeerError and ArgumentError. */
  datatype WallError = OutOfBeer | NotEnoughBeer | InvalidQuantity

  /** A value, or the exception raised instead of producing it. */
  datatype Result<T> = Success(value: T) | Failure(error: WallError)

  /** Completion of an operation run for its effect only. */
  datatype Outcome = Pass | Fail(error: WallError)

  /** How a wall holding `count` bottles describes its contents. */
  function ContentsOf(count: int): (text: string)
    ensures text != [] && '\n' !in text && IsLowerText(text)
  {
    if count == 0 then "no more bottles of beer"
    else if count == 1 then "1 bottle of beer"
    else IntToDecimal(count) + " bottles of beer"
  }

  /** The three cases of the description, and when each applies. */
  lemma ContentsCases(count: int)
    ensures ContentsOf(count) == "no more bottles of beer" <==> count == 0
    ensures ContentsOf(count) == "1 bottle of beer" <==> count == 1
    ensures count != 0 && count != 1 ==>
      ContentsOf(count) == IntToDecimal(count) + " bottles of beer"
  {
    if count != 0 && count != 1 {
      var d := IntToDecimal(count);
      var text := d + " bottles of beer";
      assert text[0] == d[0];
      assert text[0] != 'n';
      assert |text| > |"1 bottle of beer"|;
    }
  }

  /** Different counts are always described differently. */
  lemma ContentsInjective(a: int, b: int)
    requires ContentsOf(a) == ContentsOf(b)
    ensures a == b
  {
    ContentsCases(a);
    ContentsCases(b);
    if a != 0 && a != 1 {
      var suffix := " bottles of beer";
      var da, db := IntToDecimal(a), IntToDecimal(b);
      assert da + suffix == db + suffix;
      assert |da| == |db|;
      assert da == (da + suffix)[..|da|] == (db + suffix)[..|db|] == db;
      IntToDecimalInjective(a, b);
    }
  }

  class Wall {
    /** The number of bottles on the wall; Wall.new does not check it. */
    var bottles: int

    constructor (bottles: int)
      ensures this.bottles == bottles
    {
      this.bottles := bottles;
    }

    /** Wall#contents: "no more" exactly on an empty wall, "1 bottle" exactly
        with one left, and the count's numeral otherwise. */
    function Contents(): (text: string)
      reads this
      ensures text == "no more bottles of beer" <==> bottles == 0
      ensures text == "1 bottle of beer" <==> bottles == 1
      ensures bottles != 0 && bottles != 1 ==> text == IntToDecimal(bottles) + " bottles of beer"
    {
      ContentsCases(bottles);
      ContentsOf(bottles)
    }

    /** Wall#empty?: the wall is empty exactly when it says "no more". */
    predicate IsEmpty()
      reads this
      ensures IsEmpty() <==> bottles == 0
      ensures IsEmpty() <==> Contents() == "no more bottles of beer"
    {
      ContentsCases(bottles);
      bottles == 0
    }

    /** Wall#one_left?: exactly when the wall says "1 bottle". */
    predicate OneLeft()
      reads this
      ensures OneLeft() <==> bottles == 1
      ensures OneLeft() <==> Contents() == "1 bottle of beer"
    {
      ContentsCases(bottles);
      bottles == 1
    }

    /** Wall#take: the checks run in the order out-of-beer, not-enough-beer,
        negative quantity; a successful take leaves the new count, which is
        never negative, and a failed one changes nothing. */
    method Take(quantity: int) returns (r: Result<int>)
      modifies this
      ensures old(bottles) == 0 ==> r == Failure(OutOfBeer)
      ensures old(bottles) != 0 && quantity > old(bottles) ==> r == Failure(NotEnoughBeer)
      ensures old(bottles) != 0 && quantity <= old(bottles) && quantity < 0 ==>
        r == Failure(InvalidQuantity)
      ensures r.Success? <==> old(bottles) != 0 && 0 <= quantity <= old(bottles)
      ensures r.Success? ==> bottles == old(bottles) - quantity && bottles >= 0 && r.value == bottles
      ensures r.Failure? ==> bottles == old(bottles)
    {
      if bottles == 0 {
        return Failure(OutOfBeer);
      }
      if quantity > bottles {
        return Failure(NotEnoughBeer);
      }
      if quantity < 0 {
        return Failure(InvalidQuantity);
      }
      bottles := bottles - quantity;
      r := Success(bottles);
    }

    /** Wall#shelf: a negative quantity is refused and changes nothing;
        otherwise the count grows by exactly the quantity. */
    method Shelf(quantity: int) returns (r: Result<int>)
      modifies this
      ensures r.Failure? <==> quantity < 0
      ensures r.Failure? ==> r.error == InvalidQuantity && bottles == old(bottles)
      ensures r.Success? ==> bottles == old(bottles) + quantity && r.value == bottles
    {
      if quantity < 0 {
        return Failure(InvalidQuantity);
      }
      bottles := bottles + quantity;
      r := Success(bottles);
    }
  }
}
