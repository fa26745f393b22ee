/** Prices on the market's grid, whole numbers typed by players, and what fits into 64 bits. */
module Pricing {
  import opened Domain
  import Decimal

  const INT64_MIN: int := -0x8000_0000_0000_0000

  predicate Int64(n: int) { INT64_MIN <= n <= INT64_MAX }

  datatype Limits = Limits(minimum: int, maximum: int, step: int, maxQuantity: int)

  /** The market checks of `Config::validate` that bound prices and quantities. */
  predicate Validated(l: Limits)
  {
    && 0 < l.maxQuantity <= INT32_MAX && 0 < l.minimum <= l.maximum <= INT64_MAX && 0 < l.step <= INT64_MAX
    && l.maximum <= INT64_MAX / l.maxQuantity
    && l.minimum % 100 == 0 && l.maximum % 100 == 0 && l.step % 100 == 0
  }

  // ----- the default price -----

  function Clamp(n: int, low: int, high: int): int
  {
    if n < low then low else if n > high then high else n
  }

  function DefaultTradePrice(minimum: int, maximum: int, step: int, reference: int): Result<int>
  {
    if minimum <= 0 || maximum < minimum || step <= 0 then Err(PriceRange)
    else
      var above := Clamp(reference, minimum, maximum) - minimum;
      var steps, remainder := above / step, above % step;
      if remainder >= step / 2 + step % 2 && minimum + steps * step <= maximum - step then
        Ok(minimum + (steps + 1) * step)
      else Ok(minimum + steps * step)
  }

  /** A price the market accepts. */
  predicate OnGrid(minimum: int, maximum: int, step: int, price: int)
    requires step > 0
  {
    minimum <= price <= maximum && (price - minimum) % step == 0
  }

  function Distance(a: int, b: int): nat { if a < b then b - a else a - b }

  /** `k` steps; a name for the product, so that it is reasoned about by the lemmas below only. */
  function Times(k: int, step: int): int { k * step }

  lemma TimesOrder(j: int, k: int, step: int)
    requires 0 < step
    ensures j < k ==> Times(j, step) + step <= Times(k, step)
    ensures Times(k + 1, step) == Times(k, step) + step && Times(0, step) == 0
  {
    hide Times;
    TimesSplit(k, 1, step);
    if j < k {
      TimesSplit(j + 1, k - j - 1, step);
      TimesSplit(j, 1, step);
      NaturalTimes(k - j - 1, step);
    }
  }

  lemma TimesSplit(j: int, k: int, step: int)
    ensures Times(j + k, step) == Times(j, step) + Times(k, step) && Times(1, step) == step && Times(0, step) == 0
  {
  }

  lemma NaturalTimes(k: nat, step: nat)
    ensures 0 <= Times(k, step)
  {
  }

  lemma DivMod(n: int, step: int)
    requires 0 < step
    ensures n == Times(n / step, step) + n % step && 0 <= n % step < step && (0 <= n ==> 0 <= n / step)
  {
  }

  lemma DivOfTimes(k: int, step: int)
    requires 0 < step
    ensures Times(k, step) % step == 0 && Times(k, step) / step == k
  {
    hide Times;
    var n := Times(k, step);
    DivMod(n, step);
    TimesOrder(n / step, k, step);
    TimesOrder(k, n / step, step);
  }

  lemma GridPoint(minimum: int, maximum: int, step: int, price: int)
    requires step > 0 && OnGrid(minimum, maximum, step, price)
    ensures price == minimum + Times((price - minimum) / step, step) && 0 <= (price - minimum) / step
  {
    hide Times;
    DivMod(price - minimum, step);
  }

  lemma MultipleOnGrid(minimum: int, maximum: int, step: int, k: int)
    requires step > 0 && 0 <= k && minimum + Times(k, step) <= maximum
    ensures OnGrid(minimum, maximum, step, minimum + Times(k, step))
  {
    hide Times;
    DivOfTimes(k, step);
    TimesOrder(0, k, step);
  }

  /** Twice the remainder decides between the two neighbours. */
  lemma RoundsUp(step: int, remainder: int)
    requires 0 <= remainder < step
    ensures remainder >= step / 2 + step % 2 <==> 2 * remainder >= step
  {
  }

  /** The default price as a number of whole steps above the minimum. */
  function DefaultSteps(minimum: int, maximum: int, step: int, reference: int): (k: int)
    requires 0 < minimum <= maximum && 0 < step
  {
    var above := Clamp(reference, minimum, maximum) - minimum;
    if above % step >= step / 2 + step % 2
       && minimum + Times(above / step, step) <= maximum - step then above / step + 1
    else above / step
  }

  lemma DefaultInSteps(minimum: int, maximum: int, step: int, reference: int)
    requires 0 < minimum <= maximum && 0 < step
    ensures DefaultTradePrice(minimum, maximum, step, reference)
            == Ok(minimum + Times(DefaultSteps(minimum, maximum, step, reference), step))
  {
  }

  /** The default price is the grid price nearest to the reference, the higher of two equally near ones. */
  lemma DefaultIsNearest(minimum: int, maximum: int, step: int, reference: int, other: int)
    requires 0 < minimum <= maximum && 0 < step && OnGrid(minimum, maximum, step, other)
    ensures var r := DefaultTradePrice(minimum, maximum, step, reference);
            && r.Ok? && OnGrid(minimum, maximum, step, r.value)
            && Distance(r.value, reference) <= Distance(other, reference)
            && (Distance(r.value, reference) == Distance(other, reference) ==> other <= r.value)
  {
    hide Times; hide DefaultTradePrice; hide OnGrid;
    DefaultInSteps(minimum, maximum, step, reference);
    var k := DefaultSteps(minimum, maximum, step, reference);
    var above := Clamp(reference, minimum, maximum) - minimum;
    var steps, remainder := above / step, above % step;
    DivMod(above, step);
    TimesOrder(0, steps, step);
    RoundsUp(step, remainder);
    var j := (other - minimum) / step;
    GridPoint(minimum, maximum, step, other);
    GridRange(minimum, maximum, step, other);
    TimesOrder(j, steps, step);
    TimesOrder(steps, j, step);
    TimesOrder(steps + 1, j, step);
    MultipleOnGrid(minimum, maximum, step, k);
  }

  lemma GridRange(minimum: int, maximum: int, step: int, price: int)
    requires step > 0 && OnGrid(minimum, maximum, step, price)
    ensures minimum <= price <= maximum
  {
  }

  /** Nothing overflows on the way to the default price. */
  lemma DefaultStaysInRange(minimum: int, maximum: int, step: int, reference: int)
    requires 0 < minimum <= maximum <= INT64_MAX && 0 < step <= INT64_MAX && Int64(reference)
    ensures var above := Clamp(reference, minimum, maximum) - minimum;
            var steps := above / step;
            && Int64(above) && Int64(step / 2 + step % 2) && Int64(Times(steps, step))
            && Int64(minimum + Times(steps, step)) && Int64(maximum - step)
            && (minimum + Times(steps, step) <= maximum - step ==>
                  Int64(Times(steps + 1, step)) && Int64(minimum + Times(steps + 1, step)))
  {
    hide Times;
    var above := Clamp(reference, minimum, maximum) - minimum;
    DivMod(above, step);
    TimesOrder(0, above / step, step);
    TimesOrder(above / step, above / step + 1, step);
  }

  // ----- whole numbers in text -----

  predicate IsSpace(c: char) { c == ' ' || '\t' <= c <= '\r' }

  predicate Blank(s: string) { forall i :: 0 <= i < |s| ==> IsSpace(s[i]) }

  /** What `trim` leaves: the text between the outer blanks. */
  function Trim(s: string): (t: string)
    ensures t == "" || (!IsSpace(t[0]) && !IsSpace(t[|t| - 1]))
  {
    if s == "" then "" else if IsSpace(s[0]) then Trim(s[1..])
    else if IsSpace(s[|s| - 1]) then Trim(s[..|s| - 1]) else s
  }

  lemma {:induction false} TrimPadded(left: string, text: string, right: string)
    requires Blank(left) && Blank(right) && text != "" && !IsSpace(text[0]) && !IsSpace(text[|text| - 1])
    ensures Trim(left + text + right) == text
    decreases |left| + |right|
  {
    var s := left + text + right;
    if left != "" {
      assert s[0] == left[0] && s[1..] == left[1..] + text + right;
      TrimPadded(left[1..], text, right);
    } else if right != "" {
      assert s[0] == text[0] && s[|s| - 1] == right[|right| - 1] && s[..|s| - 1] == left + text + right[..|right| - 1];
      TrimPadded(left, text, right[..|right| - 1]);
    } else {
      assert s == text;
    }
  }

  /** Space, tab, line feed, vertical tab, form feed or carriage return. */
  predicate Gap(c: char) { c == ' ' || 9 <= c as int <= 13 }

  lemma TrimUnfolds(s: string)
    ensures forall i :: 0 <= i < |s| ==> (IsSpace(s[i]) <==> Gap(s[i]))
    ensures s == "" ==> Trim(s) == s
    ensures s != "" && IsSpace(s[0]) ==> Trim(s) == Trim(s[1..])
    ensures s != "" && !IsSpace(s[0]) && IsSpace(s[|s| - 1]) ==> Trim(s) == Trim(s[..|s| - 1])
    ensures s != "" && !IsSpace(s[0]) && !IsSpace(s[|s| - 1]) ==> Trim(s) == s
  {
  }

  lemma LongerLeft(s: string, left: string, middle: string, right: string)
    requires s != "" && s[1..] == left + middle + right
    ensures s == ([s[0]] + left) + middle + right
  {
  }

  lemma LongerRight(s: string, left: string, middle: string, right: string)
    requires s != "" && s[..|s| - 1] == left + middle + right
    ensures s == left + middle + (right + [s[|s| - 1]])
  {
  }

  /** What is stripped from either side are blanks, and no outer blank is left. */
  lemma {:induction false} TrimStripsBlanks(s: string) returns (left: string, right: string)
    ensures s == left + Trim(s) + right
    ensures forall i :: 0 <= i < |left| ==> Gap(left[i])
    ensures forall i :: 0 <= i < |right| ==> Gap(right[i])
    ensures Trim(s) == "" || (!Gap(Trim(s)[0]) && !Gap(Trim(s)[|Trim(s)| - 1]))
  {
    hide Trim; hide IsSpace; hide Gap;
    left, right := "", "";
    TrimUnfolds(s);
    if s != "" && IsSpace(s[0]) {
      left, right := TrimStripsBlanks(s[1..]);
      LongerLeft(s, left, Trim(s), right);
      left := [s[0]] + left;
    } else if s != "" && IsSpace(s[|s| - 1]) {
      left, right := TrimStripsBlanks(s[..|s| - 1]);
      LongerRight(s, left, Trim(s), right);
      right := right + [s[|s| - 1]];
    } else {
      assert s == "" + s + "";
    }
  }

  /** `std::from_chars` over a whole text, into 64 bits. */
  function FromChars(s: string): (r: Option<int>)
  {
    var negative := s != "" && s[0] == '-';
    var digits := if negative then s[1..] else s;
    if digits == "" || !Decimal.AllDigits(digits) then None
    else
      var value: int := Decimal.Value(digits);
      var n := if negative then -value else value;
      if Int64(n) then Some(n) else None
  }

  lemma FromCharsOfText(n: int)
    requires Int64(n)
    ensures FromChars(Decimal.Text(n)) == Some(n)
  {
    Decimal.ValueOfDigits(if n < 0 then -n else n);
    var s := Decimal.Text(n);
    if n < 0 { assert s[1..] == Decimal.Digits(-n); }
  }

  function ParseWholeNumber(raw: string, minimum: int, maximum: int): Result<int>
  {
    match FromChars(Trim(raw))
    case None => Err(WholeNumberRange)
    case Some(n) => if minimum <= n <= maximum then Ok(n) else Err(WholeNumberRange)
  }

  function ParseTradePrice(text: string, minimum: int, maximum: int, step: int): Result<int>
  {
    if minimum <= 0 || maximum < minimum || step <= 0 || minimum % 100 != 0 || maximum % 100 != 0
       || step % 100 != 0 then
      Err(PriceRange)
    else
      var units :- ParseWholeNumber(text, minimum / 100, maximum / 100);
      if units > INT64_MAX / 100 then Err(ProductTooLarge)
      else if (units * 100 - minimum) % step != 0 then Err(PriceStep)
      else Ok(units * 100)
  }

  lemma TextHasNoBlanks(n: int)
    ensures Decimal.Text(n) != "" && !IsSpace(Decimal.Text(n)[0]) && !IsSpace(Decimal.Text(n)[|Decimal.Text(n)| - 1])
  {
  }

  /** Every grid price is read back from its printed units, with any blanks around them. */
  lemma PrintedPriceReadsBack(l: Limits, price: int, left: string, right: string)
    requires Validated(l) && OnGrid(l.minimum, l.maximum, l.step, price) && Blank(left) && Blank(right)
    ensures price % 100 == 0
    ensures ParseTradePrice(left + Decimal.Text(price / 100) + right, l.minimum, l.maximum, l.step) == Ok(price)
  {
    hide FromChars; hide Trim; hide Decimal.Text; hide Times; hide ParseTradePrice; hide Blank; hide IsSpace;
    GridPoint(l.minimum, l.maximum, l.step, price);
    HundredsOnGrid(l.minimum, l.step, (price - l.minimum) / l.step);
    var units := price / 100;
    TextHasNoBlanks(units);
    TrimPadded(left, Decimal.Text(units), right);
    FromCharsOfText(units);
    HundredsParse(l, price, left + Decimal.Text(units) + right);
  }

  /** A text of a grid price's hundreds is parsed as the price. */
  lemma HundredsParse(l: Limits, price: int, text: string)
    requires Validated(l) && OnGrid(l.minimum, l.maximum, l.step, price) && price % 100 == 0
    requires FromChars(Trim(text)) == Some(price / 100)
    ensures ParseTradePrice(text, l.minimum, l.maximum, l.step) == Ok(price)
  {
    hide FromChars; hide Trim;
    var units := price / 100;
    assert units * 100 == price;
    assert l.minimum / 100 <= units <= l.maximum / 100;
    assert ParseWholeNumber(text, l.minimum / 100, l.maximum / 100) == Ok(units);
  }

  lemma HundredsOnGrid(minimum: int, step: int, k: int)
    requires minimum % 100 == 0 && step % 100 == 0
    ensures (minimum + Times(k, step)) % 100 == 0
  {
    var a, b := minimum / 100, step / 100;
    assert minimum == 100 * a && step == 100 * b;
    assert minimum + k * step == 100 * (a + k * b);
  }

  /** What is accepted is a grid price, and the one its text says. */
  lemma AcceptedPriceIsOnGrid(l: Limits, text: string)
    requires Validated(l) && ParseTradePrice(text, l.minimum, l.maximum, l.step).Ok?
    ensures var price := ParseTradePrice(text, l.minimum, l.maximum, l.step).value;
            OnGrid(l.minimum, l.maximum, l.step, price) && price % 100 == 0
              && FromChars(Trim(text)) == Some(price / 100)
  {
    var units := FromChars(Trim(text)).value;
    assert l.minimum == 100 * (l.minimum / 100) && l.maximum == 100 * (l.maximum / 100);
    assert units * 100 / 100 == units;
  }

  /** Exactly the texts of whole units on the grid are accepted. */
  lemma PriceIsAcceptedIff(l: Limits, text: string)
    requires Validated(l)
    ensures ParseTradePrice(text, l.minimum, l.maximum, l.step).Ok? <==>
              && FromChars(Trim(text)).Some?
              && OnGrid(l.minimum, l.maximum, l.step, 100 * FromChars(Trim(text)).value)
  {
    hide FromChars; hide Trim;
    if ParseTradePrice(text, l.minimum, l.maximum, l.step).Ok? { AcceptedPriceIsOnGrid(l, text); }
    if FromChars(Trim(text)).Some? {
      var price := 100 * FromChars(Trim(text)).value;
      if OnGrid(l.minimum, l.maximum, l.step, price) { HundredsParse(l, price, text); }
    }
  }

  /** The default price of a validated market is itself a price its form accepts. */
  lemma DefaultPriceIsAccepted(l: Limits, reference: int)
    requires Validated(l)
    ensures var r := DefaultTradePrice(l.minimum, l.maximum, l.step, reference);
            r.Ok? && ParseTradePrice(Decimal.Text(r.value / 100), l.minimum, l.maximum, l.step) == Ok(r.value)
  {
    assert OnGrid(l.minimum, l.maximum, l.step, l.minimum);
    DefaultIsNearest(l.minimum, l.maximum, l.step, reference, l.minimum);
    var price := DefaultTradePrice(l.minimum, l.maximum, l.step, reference).value;
    PrintedPriceReadsBack(l, price, "", "");
    assert "" + Decimal.Text(price / 100) + "" == Decimal.Text(price / 100);
  }

  /** No accepted price times an accepted quantity leaves 64 bits: neither the order's nor the review's product does. */
  lemma OrderValueFits(l: Limits, price: int, quantity: int)
    requires Validated(l) && 0 <= price <= l.maximum && 0 <= quantity <= l.maxQuantity
    ensures 0 <= price * quantity <= INT64_MAX && Product(price, quantity) == Ok(price * quantity)
  {
    QuotientBound(INT64_MAX, l.maxQuantity, price);
    assert price * quantity <= price * l.maxQuantity by {
      assert price * (l.maxQuantity - quantity) >= 0;
    }
    assert 0 <= price * quantity;
  }

  /** `trim` as it scans from both ends. */
  method TrimText(s: string) returns (t: string)
    ensures t == Trim(s)
  {
    var first := 0;
    assert s[0..] == s;
    while first < |s| && IsSpace(s[first])
      invariant first <= |s| && Trim(s[first..]) == Trim(s)
    {
      assert s[first..][1..] == s[first + 1..];
      first := first + 1;
    }
    var last := |s|;
    assert s[first..last] == s[first..];
    while last > first && IsSpace(s[last - 1])
      invariant first <= last <= |s| && Trim(s[first..last]) == Trim(s)
      invariant first < last ==> !IsSpace(s[first])
    {
      var u := s[first..last];
      assert u[0] == s[first] && u[..|u| - 1] == s[first..last - 1];
      last := last - 1;
    }
    t := s[first..last];
  }

  // ----- funding a purchase -----

  /** `spendableBalance` in UMoney mode; division truncates toward zero. */
  function SpendableBalance(balance: int, external: Option<int>): Result<int>
  {
    if external.None? then Err(ExternalMissing)
    else if external.value > INT64_MAX / 100 || external.value < -(-INT64_MIN / 100) then Err(OutOfRange)
    else if external.value * 100 > INT64_MAX - balance then Err(OutOfRange)
    else Ok(external.value * 100 + balance)
  }

  /** What can be spent is the balance and 100 cents for each unit outside, unless a sum on the way leaves 64 bits. */
  lemma SpendableIsExact(balance: int, external: Option<int>)
    requires 0 <= balance <= INT64_MAX
    ensures match SpendableBalance(balance, external)
            case Ok(v) => external.Some? && Int64(100 * external.value) && Int64(v)
                          && v == balance + 100 * external.value
            case Err(e) =>
              if external.None? then e == ExternalMissing
              else e == OutOfRange && !(Int64(100 * external.value) && Int64(balance + 100 * external.value))
  {
  }

  /** The deposit `fundDirectBalance` asks for, or none; an error is one of its refusals. */
  function FundingUnits(balance: int, required: int, external: Option<int>): Result<Option<int>>
  {
    if required <= 0 || balance >= required then Ok(None)
    else
      var shortage := required - balance;
      var units := shortage / 100 + (if shortage % 100 == 0 then 0 else 1);
      if units <= 0 || units > INT64_MAX / 100 then Err(OutOfRange)
      else if external.None? then Err(ExternalMissing)
      else if external.value < units then Err(ExternalInsufficient)
      else Ok(Some(units))
  }

  /** Funding is granted exactly when the spendable balance covers what is required. */
  lemma FundingIffSpendable(balance: int, required: int, external: Option<int>)
    requires 0 <= balance < required <= INT64_MAX && SpendableBalance(balance, external).Ok?
    ensures FundingUnits(balance, required, external).Ok? <==> required <= SpendableBalance(balance, external).value
    ensures FundingUnits(balance, required, external).Err? ==>
              FundingUnits(balance, required, external) == Err(ExternalInsufficient)
              || FundingUnits(balance, required, external) == Err(OutOfRange)
  {
    var shortage := required - balance;
    assert shortage == 100 * (shortage / 100) + shortage % 100;
  }

  /** The deposit is the least that suffices, in whole units, and leaves less than one unit over. */
  lemma FundingIsLeast(balance: int, required: int, external: Option<int>, fewer: int)
    requires 0 <= balance && required <= INT64_MAX && FundingUnits(balance, required, external).Ok?
    ensures match FundingUnits(balance, required, external).value
            case None => required <= 0 || required <= balance
            case Some(units) =>
              && 0 < units && external.Some? && units <= external.value && units * 100 <= INT64_MAX
              && required <= balance + units * 100 < required + 100
              && (fewer < units ==> balance + fewer * 100 < required)
  {
    var shortage := required - balance;
    assert shortage == 100 * (shortage / 100) + shortage % 100;
  }
}
