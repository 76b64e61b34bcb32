/**
 * A collected measurement (mean, quartiles and sample count) and the builder
 * that assembles one.
 */
module DataPointModel {

  class DataPoint {
    var mean: real
    var first: real
    var second: real
    var third: real
    var count: real

    /** The field initialisers alone: the no-argument constructor the JSON decoder uses. */
    constructor Blank()
      ensures mean == 0.0 && first == 0.0 && second == 0.0 && third == 0.0 && count == 0.0
    {
      mean, first, second, third, count := 0.0, 0.0, 0.0, 0.0, 0.0;
    }

    /** Stores each argument in the field of the same name, through the setters. */
    constructor (first: real, second: real, mean: real, third: real, count: real)
      ensures this.first == first && this.second == second && this.mean == mean
      ensures this.third == third && this.count == count
    {
      this.mean, this.first, this.second, this.third, this.count := 0.0, 0.0, 0.0, 0.0, 0.0;
      new;
      SetFirst(first);
      SetMean(mean);
      SetSecond(second);
      SetThird(third);
      SetCount(count);
    }

    /** The mean of the observations. */
    function Mean(): real reads this { mean }
    /** First quartile. */
    function First(): real reads this { first }
    /** Second quartile, the median. */
    function Second(): real reads this { second }
    /** Third quartile. */
    function Third(): real reads this { third }
    /** Number of observations. */
    function Count(): real reads this { count }

    method SetMean(mean: real)
      modifies this`mean
      ensures Mean() == mean
    {
      this.mean := mean;
    }

    method SetFirst(first: real)
      modifies this`first
      ensures First() == first
    {
      this.first := first;
    }

    method SetSecond(second: real)
      modifies this`second
      ensures Second() == second
    {
      this.second := second;
    }

    method SetThird(third: real)
      modifies this`third
      ensures Third() == third
    {
      this.third := third;
    }

    method SetCount(count: real)
      modifies this`count
      ensures Count() == count
    {
      this.count := count;
    }
  }

  /**
   * Collects the five statistics under its own names (first, mean, median,
   * last, count) and builds a point from them.
   */
  class Builder {
    var first: real
    var mean: real
    var median: real
    var last: real
    var count: real

    constructor ()
      ensures first == 0.0 && mean == 0.0 && median == 0.0 && last == 0.0 && count == 0.0
    {
      first, mean, median, last, count := 0.0, 0.0, 0.0, 0.0, 0.0;
    }

    method WithFirst(first: real) returns (b: Builder)
      modifies this`first
      ensures b == this && this.first == first
    {
      this.first := first;
      b := this;
    }

    method WithMean(mean: real) returns (b: Builder)
      modifies this`mean
      ensures b == this && this.mean == mean
    {
      this.mean := mean;
      b := this;
    }

    method WithMedian(median: real) returns (b: Builder)
      modifies this`median
      ensures b == this && this.median == median
    {
      this.median := median;
      b := this;
    }

    method WithCount(count: real) returns (b: Builder)
      modifies this`count
      ensures b == this && this.count == count
    {
      this.count := count;
      b := this;
    }

    method WithLast(last: real) returns (b: Builder)
      modifies this`last
      ensures b == this && this.last == last
    {
      this.last := last;
      b := this;
    }

    /**
     * Passes (first, mean, median, last, count) positionally to the
     * constructor's (first, second, mean, third, count): the built point's
     * mean is the builder's median, its second quartile the builder's mean,
     * and its third quartile the builder's last value.
     */
    method Build() returns (dp: DataPoint)
      ensures fresh(dp)
      ensures dp.First() == first && dp.Second() == mean && dp.Mean() == median
      ensures dp.Third() == last && dp.Count() == count
    {
      dp := new DataPoint(first, mean, median, last, count);
    }
  }

  /**
   * A full builder chain: the point it yields carries the value given as
   * `median` in its mean, so a caller who sets only `mean` gets a point whose
   * mean is 0.
   */
  method BuildFromMeanOnly(mean: real) returns (dp: DataPoint)
    ensures dp.Mean() == 0.0 && dp.Second() == mean
  {
    var b := new Builder();
    b := b.WithMean(mean);
    dp := b.Build();
  }
}
