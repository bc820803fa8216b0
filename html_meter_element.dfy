/**
 * The value derivation of the <meter> element (Source/core/html/HTMLMeterElement.cpp), which
 * follows section 4.10.14 of the WHATWG HTML Living Standard: the six numeric getters clamp the
 * parsed content attributes into an ordered range, gaugeRegion classifies the value, valueRatio
 * gives the filled fraction of the bar, and the setters refuse non-finite numbers.
 *
 * Numbers are reals. A content attribute is kept as the result of parsing its text: Some(x) for a
 * valid floating-point number x, None when the text is not one; an absent attribute and an
 * unparsable one both fall back to the default.
 */
module HTMLMeter {
  import opened Wrappers

  /** An attribute name. OtherAttr stands for a name that is not one of the six numeric
      attributes: OtherAttr("min") is not a spelling of MinAttr, and no getter reads it. */
  datatype AttrName = MinAttr | MaxAttr | ValueAttr | LowAttr | HighAttr | OptimumAttr | OtherAttr(name: string)

  /** The element's content attributes, each with the number its text parses to. */
  type Attributes = map<AttrName, Option<real>>

  datatype GaugeRegion = GaugeRegionOptimum | GaugeRegionSuboptimal | GaugeRegionEvenLessGood

  /** The double a setter receives: a finite number, or an infinity or NaN. */
  datatype SetterInput = Finite(x: real) | NonFinite

  /** The ExceptionCode out-parameter after a setter: left at zero, or set to NotSupportedError. */
  datatype ExceptionCode = NoException | NotSupportedError

  /** getAttribute followed by parseToDoubleForNumberType's parse. */
  function Parsed(a: Attributes, name: AttrName): Option<real>
  {
    if name in a then a[name] else None
  }

  /** parseToDoubleForNumberType(getAttribute(name), fallback). */
  function ParsedOr(a: Attributes, name: AttrName, fallback: real): real
  {
    Parsed(a, name).GetOr(fallback)
  }

  /** std::max and std::min as the C++ library defines them: on a tie the first argument. */
  function StdMax(x: real, y: real): real
  {
    if x < y then y else x
  }

  function StdMin(x: real, y: real): real
  {
    if y < x then y else x
  }

  // ---------------------------------------------------------------- the getters

  /** HTMLMeterElement::min: the parsed attribute, or 0. */
  function Min(a: Attributes): (r: real)
    ensures Parsed(a, MinAttr) == Some(r) || (Parsed(a, MinAttr) == None && r == 0.0)
  {
    ParsedOr(a, MinAttr, 0.0)
  }

  /** HTMLMeterElement::max: never below min; without a usable attribute, the larger of 1 and min. */
  function Max(a: Attributes): (r: real)
    ensures r >= Min(a)
    ensures r == Min(a) || Parsed(a, MaxAttr) == Some(r) || (Parsed(a, MaxAttr) == None && r == 1.0)
    ensures Parsed(a, MaxAttr) == None ==> r == (if Min(a) > 1.0 then Min(a) else 1.0)
  {
    StdMax(ParsedOr(a, MaxAttr, StdMax(1.0, Min(a))), Min(a))
  }

  /** HTMLMeterElement::value: the parsed attribute (0 when there is none) clamped to [min, max]. */
  function Value(a: Attributes): (r: real)
    ensures Min(a) <= r <= Max(a)
    ensures Parsed(a, ValueAttr).Some? && Min(a) <= Parsed(a, ValueAttr).value <= Max(a) ==>
      r == Parsed(a, ValueAttr).value
    ensures Parsed(a, ValueAttr) == None && Min(a) <= 0.0 <= Max(a) ==> r == 0.0
  {
    var value := ParsedOr(a, ValueAttr, 0.0);
    StdMin(StdMax(value, Min(a)), Max(a))
  }

  /** HTMLMeterElement::low: the parsed attribute (min when there is none) clamped to [min, max]. */
  function Low(a: Attributes): (r: real)
    ensures Min(a) <= r <= Max(a)
    ensures Parsed(a, LowAttr) == None ==> r == Min(a)
  {
    var low := ParsedOr(a, LowAttr, Min(a));
    StdMin(StdMax(low, Min(a)), Max(a))
  }

  /** HTMLMeterElement::high: the parsed attribute (max when there is none) clamped to [low, max]. */
  function High(a: Attributes): (r: real)
    ensures Low(a) <= r <= Max(a)
    ensures Parsed(a, HighAttr) == None ==> r == Max(a)
  {
    var high := ParsedOr(a, HighAttr, Max(a));
    StdMin(StdMax(high, Low(a)), Max(a))
  }

  /** HTMLMeterElement::optimum: the parsed attribute (the midpoint when there is none) clamped to
      [min, max]. */
  function Optimum(a: Attributes): (r: real)
    ensures Min(a) <= r <= Max(a)
    ensures Parsed(a, OptimumAttr) == None ==> r == (Min(a) + Max(a)) / 2.0
  {
    var optimum := ParsedOr(a, OptimumAttr, (Max(a) + Min(a)) / 2.0);
    StdMin(StdMax(optimum, Min(a)), Max(a))
  }

  /** HTMLMeterElement::gaugeRegion. The optimum point always lies in the optimum region, and a
      gauge whose optimum lies in [low, high] is never even-less-good. */
  function GaugeRegionOf(a: Attributes): (r: GaugeRegion)
    ensures Low(a) <= Optimum(a) <= High(a) ==> r != GaugeRegionEvenLessGood
    ensures Value(a) == Optimum(a) ==> r == GaugeRegionOptimum
  {
    var lowValue := Low(a);
    var highValue := High(a);
    var theValue := Value(a);
    var optimumValue := Optimum(a);
    if optimumValue < lowValue then
      if theValue <= lowValue then GaugeRegionOptimum
      else if theValue <= highValue then GaugeRegionSuboptimal
      else GaugeRegionEvenLessGood
    else if highValue < optimumValue then
      if highValue <= theValue then GaugeRegionOptimum
      else if lowValue <= theValue then GaugeRegionSuboptimal
      else GaugeRegionEvenLessGood
    else if lowValue <= theValue && theValue <= highValue then GaugeRegionOptimum
    else GaugeRegionSuboptimal
  }

  /** HTMLMeterElement::valueRatio: how far the value lies from min towards max, in [0, 1];
      0 for a degenerate range. */
  function ValueRatio(a: Attributes): (r: real)
    ensures 0.0 <= r <= 1.0
    ensures Max(a) <= Min(a) ==> r == 0.0
    ensures Max(a) > Min(a) ==> r * (Max(a) - Min(a)) == Value(a) - Min(a)
  {
    var min := Min(a);
    var max := Max(a);
    var value := Value(a);
    if max <= min then 0.0
    else
      FractionBounds(value - min, max - min);
      (value - min) / (max - min)
  }

  /** For 0 <= part <= whole and whole > 0, part / whole is a fraction in [0, 1]. */
  lemma FractionBounds(part: real, whole: real)
    requires 0.0 <= part <= whole && whole > 0.0
    ensures 0.0 <= part / whole <= 1.0 && (part / whole) * whole == part
  {
  }

  // ---------------------------------------------------------------- the standard's algorithm

  /** The standard's clamping step: below `lo` gives `lo`, else above `hi` gives `hi`. */
  function Clamp(x: real, lo: real, hi: real): real
  {
    if x < lo then lo else if x > hi then hi else x
  }

  // The standard's candidate values are the same parse-or-default step as the getters' (ParsedOr);
  // what the definitions below spell out differently is the clamping and the defaults.

  function StandardMinimum(a: Attributes): real
  {
    ParsedOr(a, MinAttr, 0.0)
  }

  /** The candidate maximum defaults to 1.0; a candidate below the minimum gives the minimum. */
  function StandardMaximum(a: Attributes): real
  {
    var candidate := ParsedOr(a, MaxAttr, 1.0);
    if candidate >= StandardMinimum(a) then candidate else StandardMinimum(a)
  }

  function StandardActualValue(a: Attributes): real
  {
    Clamp(ParsedOr(a, ValueAttr, 0.0), StandardMinimum(a), StandardMaximum(a))
  }

  function StandardLow(a: Attributes): real
  {
    Clamp(ParsedOr(a, LowAttr, StandardMinimum(a)), StandardMinimum(a), StandardMaximum(a))
  }

  function StandardHigh(a: Attributes): real
  {
    Clamp(ParsedOr(a, HighAttr, StandardMaximum(a)), StandardLow(a), StandardMaximum(a))
  }

  function StandardOptimum(a: Attributes): real
  {
    Clamp(ParsedOr(a, OptimumAttr, (StandardMinimum(a) + StandardMaximum(a)) / 2.0),
          StandardMinimum(a), StandardMaximum(a))
  }

  /** The standard's regions: with the optimum in [low, high], that interval is optimal and the
      rest suboptimal; with the optimum below low, [min, low] is optimal, (low, high] suboptimal
      and the rest even less good; above high, the mirror image. */
  function StandardRegion(low: real, high: real, value: real, optimum: real): GaugeRegion
  {
    if low <= optimum <= high then
      if low <= value <= high then GaugeRegionOptimum else GaugeRegionSuboptimal
    else if optimum < low then
      if value <= low then GaugeRegionOptimum
      else if value <= high then GaugeRegionSuboptimal
      else GaugeRegionEvenLessGood
    else
      if high <= value then GaugeRegionOptimum
      else if low <= value then GaugeRegionSuboptimal
      else GaugeRegionEvenLessGood
  }

  /** The getters compute the standard's values: in particular max's default of max(1, min) and
      high's clamp to [low, max] agree with the standard's step-by-step definitions. */
  lemma GettersFollowStandard(a: Attributes)
    ensures Min(a) == StandardMinimum(a)
    ensures Max(a) == StandardMaximum(a)
    ensures Value(a) == StandardActualValue(a)
    ensures Low(a) == StandardLow(a)
    ensures High(a) == StandardHigh(a)
    ensures Optimum(a) == StandardOptimum(a)
    ensures GaugeRegionOf(a) == StandardRegion(Low(a), High(a), Value(a), Optimum(a))
  {
  }

  /** The ordering every derived value respects. */
  lemma Ordering(a: Attributes)
    ensures Min(a) <= Low(a) <= High(a) <= Max(a)
    ensures Min(a) <= Value(a) <= Max(a) && Min(a) <= Optimum(a) <= Max(a)
  {
  }

  // ---------------------------------------------------------------- the setters

  /** What the six setters share: a non-finite number raises NotSupportedError and stores nothing;
      a finite one replaces the named attribute and no other. `stored` is the number that the
      text String::number(x) parses back to; the serialisation itself is not modelled, so every
      property below holds whatever that number is. */
  function Assigned(a: Attributes, name: AttrName, input: SetterInput, stored: real): (r: (Attributes, ExceptionCode))
    ensures input.NonFinite? ==> r == (a, NotSupportedError)
    ensures input.Finite? ==> r.1 == NoException && Parsed(r.0, name) == Some(stored)
    ensures forall other :: other != name ==> Parsed(r.0, other) == Parsed(a, other)
    ensures r.0.Keys <= a.Keys + {name}
  {
    match input
    case NonFinite => (a, NotSupportedError)
    case Finite(_) => (a[name := Some(stored)], NoException)
  }

  /** parseAttribute: a change of one of the six numeric attributes runs didElementStateChange;
      any other attribute goes to LabelableElement. */
  predicate IsMeterAttribute(name: AttrName)
  {
    name in {MinAttr, MaxAttr, ValueAttr, LowAttr, HighAttr, OptimumAttr}
  }

  /** Setting value moves nothing but value, which becomes the stored number clamped to [min, max]. */
  lemma SetValueOnlyMovesValue(a: Attributes, x: real, stored: real)
    ensures var b := Assigned(a, ValueAttr, Finite(x), stored).0;
      Min(b) == Min(a) && Max(b) == Max(a) && Low(b) == Low(a) && High(b) == High(a) &&
      Optimum(b) == Optimum(a) && Value(b) == Clamp(stored, Min(a), Max(a))
  {
  }

  /** Setting optimum moves nothing but optimum, which becomes the stored number clamped to [min, max]. */
  lemma SetOptimumOnlyMovesOptimum(a: Attributes, x: real, stored: real)
    ensures var b := Assigned(a, OptimumAttr, Finite(x), stored).0;
      Min(b) == Min(a) && Max(b) == Max(a) && Low(b) == Low(a) && High(b) == High(a) &&
      Value(b) == Value(a) && Optimum(b) == Clamp(stored, Min(a), Max(a))
  {
  }

  /** Setting high leaves min, max, low, value and optimum alone; high becomes the stored
      number clamped to [low, max]. */
  lemma SetHighOnlyMovesHigh(a: Attributes, x: real, stored: real)
    ensures var b := Assigned(a, HighAttr, Finite(x), stored).0;
      Min(b) == Min(a) && Max(b) == Max(a) && Low(b) == Low(a) && Value(b) == Value(a) &&
      Optimum(b) == Optimum(a) && High(b) == Clamp(stored, Low(a), Max(a))
  {
  }

  /** Setting low leaves min, max, value and optimum alone; low becomes the stored number
      clamped to [min, max]. */
  lemma SetLowOnlyMovesLow(a: Attributes, x: real, stored: real)
    ensures var b := Assigned(a, LowAttr, Finite(x), stored).0;
      Min(b) == Min(a) && Max(b) == Max(a) && Value(b) == Value(a) &&
      Optimum(b) == Optimum(a) && Low(b) == Clamp(stored, Min(a), Max(a))
  {
  }

  /** Setting max to a finite number makes max the larger of the stored number and min, and
      leaves min alone. */
  lemma SetMaxEffect(a: Attributes, x: real, stored: real)
    ensures var b := Assigned(a, MaxAttr, Finite(x), stored).0;
      Min(b) == Min(a) && Max(b) == (if stored < Min(a) then Min(a) else stored)
  {
  }

  /** Setting min to a finite number makes min the stored number. */
  lemma SetMinEffect(a: Attributes, x: real, stored: real)
    ensures Min(Assigned(a, MinAttr, Finite(x), stored).0) == stored
  {
  }

  // ---------------------------------------------------------------- the element

  class HTMLMeterElement {
    var attributes: Attributes

    constructor (attributes: Attributes)
      ensures this.attributes == attributes
    {
      this.attributes := attributes;
    }

    /** parseAttribute: whether the change of `name` runs didElementStateChange. */
    method ParseAttribute(name: AttrName) returns (stateChanged: bool)
      ensures stateChanged <==> IsMeterAttribute(name)
      ensures stateChanged <==> !name.OtherAttr?
    {
      stateChanged := name == ValueAttr || name == MinAttr || name == MaxAttr ||
                      name == LowAttr || name == HighAttr || name == OptimumAttr;
    }

    /** `reparsed` is the number the text String::number(min) parses back to. */
    method SetMin(min: SetterInput, reparsed: real) returns (ec: ExceptionCode)
      modifies this
      ensures (attributes, ec) == Assigned(old(attributes), MinAttr, min, reparsed)
    {
      if min.NonFinite? {
        return NotSupportedError;
      }
      attributes := attributes[MinAttr := Some(reparsed)];
      ec := NoException;
    }

    /** `reparsed` is the number the text String::number(max) parses back to. */
    method SetMax(max: SetterInput, reparsed: real) returns (ec: ExceptionCode)
      modifies this
      ensures (attributes, ec) == Assigned(old(attributes), MaxAttr, max, reparsed)
    {
      if max.NonFinite? {
        return NotSupportedError;
      }
      attributes := attributes[MaxAttr := Some(reparsed)];
      ec := NoException;
    }

    /** `reparsed` is the number the text String::number(value) parses back to. */
    method SetValue(value: SetterInput, reparsed: real) returns (ec: ExceptionCode)
      modifies this
      ensures (attributes, ec) == Assigned(old(attributes), ValueAttr, value, reparsed)
    {
      if value.NonFinite? {
        return NotSupportedError;
      }
      attributes := attributes[ValueAttr := Some(reparsed)];
      ec := NoException;
    }

    /** `reparsed` is the number the text String::number(low) parses back to. */
    method SetLow(low: SetterInput, reparsed: real) returns (ec: ExceptionCode)
      modifies this
      ensures (attributes, ec) == Assigned(old(attributes), LowAttr, low, reparsed)
    {
      if low.NonFinite? {
        return NotSupportedError;
      }
      attributes := attributes[LowAttr := Some(reparsed)];
      ec := NoException;
    }

    /** `reparsed` is the number the text String::number(high) parses back to. */
    method SetHigh(high: SetterInput, reparsed: real) returns (ec: ExceptionCode)
      modifies this
      ensures (attributes, ec) == Assigned(old(attributes), HighAttr, high, reparsed)
    {
      if high.NonFinite? {
        return NotSupportedError;
      }
      attributes := attributes[HighAttr := Some(reparsed)];
      ec := NoException;
    }

    /** `reparsed` is the number the text String::number(optimum) parses back to. */
    method SetOptimum(optimum: SetterInput, reparsed: real) returns (ec: ExceptionCode)
      modifies this
      ensures (attributes, ec) == Assigned(old(attributes), OptimumAttr, optimum, reparsed)
    {
      if optimum.NonFinite? {
        return NotSupportedError;
      }
      attributes := attributes[OptimumAttr := Some(reparsed)];
      ec := NoException;
    }
  }
}
