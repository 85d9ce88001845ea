/** The points engine, `get_points_from_receipt`. Amounts are read as integer
    cents, which the validator makes exact: an accepted amount is digits, a
    point and two digits. */
module Points {
  import opened Strings
  import opened Receipts

  /** The value of an accepted amount in cents (`parseFloat` times 100). */
  function Cents(amount: string): nat
    requires IsAmount(amount)
  {
    DigitsValue(amount[..|amount| - 3]) * 100 + DigitsValue(amount[|amount| - 2..])
  }

  lemma TwoDigits(s: string)
    requires |s| == 2 && AllDigits(s)
    ensures DigitsValue(s) == DigitValue(s[0]) * 10 + DigitValue(s[1]) < 100
  {
    var first := s[..1];
    assert first[..0] == [] && first[0] == s[0];
    assert DigitsValue(first) == DigitValue(s[0]);
    assert s[..|s| - 1] == first;
  }

  /** Canonical text of an amount of cents; Cents reads it back. */
  function AmountText(cents: nat): (s: string)
    ensures IsAmount(s) && Cents(s) == cents
  {
    var whole := DigitsText(cents / 100);
    var frac := [DigitChar(cents % 100 / 10), DigitChar(cents % 10)];
    var s := whole + "." + frac;
    assert s[..|s| - 3] == whole && s[|s| - 2..] == frac;
    TwoDigits(frac);
    s
  }

  // ---- the seven rules ----

  /** 50 points for a round-dollar total (`total % 1 == 0`). */
  function RoundDollarPoints(cents: nat): nat { if cents % 100 == 0 then 50 else 0 }

  /** 25 points for a multiple of a quarter (`total % 0.25 == 0`). */
  function QuarterPoints(cents: nat): nat { if cents % 25 == 0 then 25 else 0 }

  /** 5 points for every complete pair of items. */
  function PairPoints(count: nat): nat { count / 2 * 5 }

  /** `Math.ceil(price * 0.2)` for a price of `cents`: the least whole number
      of points worth at least a fifth of the price. */
  function PriceBonus(cents: nat): (bonus: nat)
    ensures 500 * bonus >= cents > 500 * (bonus - 1)
  {
    (cents + 499) / 500
  }

  /** The price bonus when the trimmed description's length is a multiple of 3. */
  function DescriptionPoints(item: Item): nat
    requires ItemPasses(item)
  {
    if |Trim(item.shortDescription.value)| % 3 == 0 then PriceBonus(Cents(item.price.value)) else 0
  }

  /** What the `forEach` over the items adds, element by element. */
  function ItemsPoints(items: seq<Item>): nat
    requires AllItemsPass(items)
  {
    if |items| == 0 then 0 else ItemsPoints(items[..|items| - 1]) + DescriptionPoints(items[|items| - 1])
  }

  /** `purchaseDate.split("-")[2]`: for an accepted date, its last two characters. */
  function DaySegment(date: string): (day: string)
    requires IsDate(date)
    ensures day == date[8..] && AllDigits(day)
  {
    var parts := [date[..4], date[5..7], date[8..]];
    assert parts[1..][1..] == [date[8..]];
    assert Join(parts[1..], '-') == date[5..7] + ['-'] + date[8..];
    assert date == Join(parts, '-');
    SplitJoin(parts, '-');
    Split(date, '-')[2]
  }

  /** 6 points when `parseInt` of the day segment is odd. */
  function OddDayPoints(date: string): nat
    requires IsDate(date)
  {
    if DigitsValue(DaySegment(date)) % 2 == 1 then 6 else 0
  }

  /** `purchaseTime > "14:00" && purchaseTime < "16:00"` as string comparisons. */
  predicate InAfternoonWindow(time: string) {
    LexLess("14:00", time) && LexLess(time, "16:00")
  }

  function AfternoonPoints(time: string): nat { if InAfternoonWindow(time) then 10 else 0 }

  /** The score of an accepted receipt: the sum of the seven rules. The first
      rule adds the raw length of the retailer name. */
  function Score(r: Receipt): (points: nat)
    requires Accepted(r)
    ensures points >= 1
  {
    |r.retailer.value|
    + RoundDollarPoints(Cents(r.total.value))
    + QuarterPoints(Cents(r.total.value))
    + PairPoints(|r.items.elems|)
    + ItemsPoints(r.items.elems)
    + OddDayPoints(r.purchaseDate.value)
    + AfternoonPoints(r.purchaseTime.value)
  }

  /** `get_points_from_receipt`: a running total updated rule by rule, with a
      loop over the items. */
  method GetPointsFromReceipt(r: Receipt) returns (points: int)
    requires Accepted(r)
    ensures points == Score(r)
  {
    points := 0;
    points := points + |r.retailer.value|;
    var total := Cents(r.total.value);
    points := points + (if total % 100 == 0 then 50 else 0);
    points := points + (if total % 25 == 0 then 25 else 0);
    var items := r.items.elems;
    points := points + |items| / 2 * 5;
    ghost var beforeItems := points;
    assert beforeItems == |r.retailer.value| + RoundDollarPoints(total) + QuarterPoints(total) + PairPoints(|items|);
    for i := 0 to |items|
      invariant points == beforeItems + ItemsPoints(items[..i])
    {
      var item := items[i];
      ItemsPointsPrefix(items, i + 1);
      points := points + (if |Trim(item.shortDescription.value)| % 3 == 0
                          then PriceBonus(Cents(item.price.value)) else 0);
    }
    WholePrefix(items);
    points := points + (if DigitsValue(DaySegment(r.purchaseDate.value)) % 2 == 1 then 6 else 0);
    var time := r.purchaseTime.value;
    points := points + (if LexLess("14:00", time) && LexLess(time, "16:00") then 10 else 0);
  }

  // ---- properties of the rules ----

  /** Extending a prefix by one item adds that item's points. */
  lemma ItemsPointsPrefix(items: seq<Item>, n: nat)
    requires AllItemsPass(items) && 0 < n <= |items|
    ensures AllItemsPass(items[..n - 1]) && AllItemsPass(items[..n])
    ensures ItemsPoints(items[..n]) == ItemsPoints(items[..n - 1]) + DescriptionPoints(items[n - 1])
  {
    PrefixOfPrefix(items, n);
  }

  lemma PrefixOfPrefix<T>(s: seq<T>, n: nat)
    requires 0 < n <= |s|
    ensures s[..n][..n - 1] == s[..n - 1] && s[..n][n - 1] == s[n - 1]
  {
  }

  lemma WholePrefix<T>(s: seq<T>)
    ensures s[..|s|] == s
  {
  }


  /** The items' contribution is additive over concatenation. */
  lemma {:induction false} ItemsPointsAppend(a: seq<Item>, b: seq<Item>)
    requires AllItemsPass(a) && AllItemsPass(b)
    ensures AllItemsPass(a + b)
    ensures ItemsPoints(a + b) == ItemsPoints(a) + ItemsPoints(b)
  {
    if |b| == 0 {
      assert a + b == a;
    } else {
      var n := |b| - 1;
      assert (a + b)[..|a + b| - 1] == a + b[..n];
      ItemsPointsAppend(a, b[..n]);
    }
  }

  /** Taking one item out of the list takes its points out of the sum. */
  lemma ItemsPointsRemove(b: seq<Item>, j: nat)
    requires AllItemsPass(b) && j < |b|
    ensures AllItemsPass(b[..j] + b[j + 1..])
    ensures ItemsPoints(b) == ItemsPoints(b[..j] + b[j + 1..]) + DescriptionPoints(b[j])
  {
    var front, x, back := b[..j], [b[j]], b[j + 1..];
    SplitAround(b, j);
    assert AllItemsPass(front) && AllItemsPass(x) && AllItemsPass(back);
    ItemsPointsAppend(front, x);
    ItemsPointsAppend(front + x, back);
    ItemsPointsAppend(front, back);
    assert ItemsPoints(x) == DescriptionPoints(b[j]) by {
      assert x[..0] == [];
    }
  }

  lemma SplitAround<T>(b: seq<T>, j: nat)
    requires j < |b|
    ensures b[..j] + [b[j]] + b[j + 1..] == b
  {
  }

  lemma MultisetRemove<T>(b: seq<T>, j: nat)
    requires j < |b|
    ensures multiset(b[..j] + b[j + 1..]) == multiset(b) - multiset{b[j]}
  {
    SplitAround(b, j);
  }

  lemma MultisetDropLast<T>(a: seq<T>)
    requires |a| > 0
    ensures multiset(a[..|a| - 1]) == multiset(a) - multiset{a[|a| - 1]}
  {
    assert a == a[..|a| - 1] + [a[|a| - 1]];
  }

  /** Validation of the items does not depend on their order either. */
  lemma AllItemsPassPermutation(a: seq<Item>, b: seq<Item>)
    requires AllItemsPass(a) && multiset(a) == multiset(b)
    ensures AllItemsPass(b)
  {
    forall i | 0 <= i < |b| ensures ItemPasses(b[i]) {
      assert b[i] in multiset(a);
    }
  }

  /** The items' contribution does not depend on their order. */
  lemma {:induction false} ItemsPointsPermutation(a: seq<Item>, b: seq<Item>)
    requires AllItemsPass(a) && multiset(a) == multiset(b)
    ensures AllItemsPass(b) && ItemsPoints(a) == ItemsPoints(b)
    decreases |a|
  {
    AllItemsPassPermutation(a, b);
    PermutationLength(a, b);
    if |a| > 0 {
      var j := MatchLast(a, b);
      ItemsPointsRemove(b, j);
      ItemsPointsPermutation(a[..|a| - 1], b[..j] + b[j + 1..]);
    }
  }

  lemma PermutationLength<T>(a: seq<T>, b: seq<T>)
    requires multiset(a) == multiset(b)
    ensures |a| == |b|
  {
    assert |a| == |multiset(a)|;
  }

  /** Where the last element of `a` sits in its permutation `b`, and what is left on both sides. */
  lemma MatchLast<T>(a: seq<T>, b: seq<T>) returns (j: nat)
    requires |a| > 0 && multiset(a) == multiset(b)
    ensures j < |b| && b[j] == a[|a| - 1]
    ensures multiset(a[..|a| - 1]) == multiset(b[..j] + b[j + 1..])
  {
    assert a[|a| - 1] in multiset(b);
    j :| 0 <= j < |b| && b[j] == a[|a| - 1];
    MultisetDropLast(a);
    MultisetRemove(b, j);
  }

  /** A round-dollar total is also a multiple of a quarter: 75 points together. */
  lemma RoundDollarEarnsBoth(cents: nat)
    ensures cents % 100 == 0 ==> RoundDollarPoints(cents) + QuarterPoints(cents) == 75
    ensures cents % 100 != 0 ==> RoundDollarPoints(cents) == 0
  {
  }

  /** A description that trims to nothing has length 0, a multiple of 3. */
  lemma BlankDescriptionEarnsPriceBonus(item: Item)
    requires ItemPasses(item)
    requires forall i :: 0 <= i < |item.shortDescription.value| ==> IsSpace(item.shortDescription.value[i])
    ensures DescriptionPoints(item) == PriceBonus(Cents(item.price.value))
  {
  }

  /** The day rule looks only at the parity of the last digit of the date. */
  lemma OddDayIsOddLastDigit(date: string)
    requires IsDate(date)
    ensures OddDayPoints(date) == (if DigitValue(date[9]) % 2 == 1 then 6 else 0)
  {
    TwoDigits(date[8..]);
  }

  /** `HHMM` read as one four-digit number. */
  function ClockNumber(time: string): nat
    requires IsTime(time)
  {
    DigitsValue(time[..2]) * 100 + DigitsValue(time[3..])
  }

  /** On accepted times the string window is the numeric window 1400 < HHMM < 1600,
      including minute fields up to 99 that the pattern lets through. */
  lemma AfternoonWindowIsClockWindow(t: string)
    requires IsTime(t)
    ensures InAfternoonWindow(t) <==> 1400 < ClockNumber(t) < 1600
  {
    AfterTwoIsClockAfter(t);
    BeforeFourIsClockBefore(t);
  }

  /** `t > "14:00"` compares hours first, then minutes. */
  lemma AfterTwoIsClockAfter(t: string)
    requires IsTime(t)
    ensures LexLess("14:00", t) <==> 1400 < ClockNumber(t)
  {
    var hh, mm := t[..2], t[3..];
    assert t == hh + t[2..] && t[2..] == [':'] + mm;
    assert "14:00" == "14" + ":00" && ":00" == ":" + "00";
    LexLessAppend("14", ":00", hh, t[2..]);
    LexLessAppend(":", "00", [':'], mm);
    TwoDigits("14");
    TwoDigits("00");
    TwoDigits(mm);
    DigitsLexLess("14", hh);
    DigitsLexLess("00", mm);
    DigitsValueInjective("14", hh);
  }

  /** `t < "16:00"` compares hours first, then minutes. */
  lemma BeforeFourIsClockBefore(t: string)
    requires IsTime(t)
    ensures LexLess(t, "16:00") <==> ClockNumber(t) < 1600
  {
    var hh, mm := t[..2], t[3..];
    assert t == hh + t[2..] && t[2..] == [':'] + mm;
    assert "16:00" == "16" + ":00" && ":00" == ":" + "00";
    LexLessAppend(hh, t[2..], "16", ":00");
    LexLessAppend([':'], mm, ":", "00");
    TwoDigits("16");
    TwoDigits("00");
    TwoDigits(mm);
    DigitsLexLess(hh, "16");
    DigitsLexLess(mm, "00");
    DigitsValueInjective(hh, "16");
  }

  /** With minutes below 60 this is "after 2:00pm and before 4:00pm"; 14:00 and 16:00 are outside. */
  lemma AfternoonWindowInMinutes(t: string)
    requires IsTime(t) && DigitsValue(t[3..]) < 60
    ensures InAfternoonWindow(t) <==> 14 * 60 < DigitsValue(t[..2]) * 60 + DigitsValue(t[3..]) < 16 * 60
  {
    AfternoonWindowIsClockWindow(t);
  }

  /** Alphanumeric characters of a string. */
  function AlphanumericCount(s: string): (n: nat)
    ensures n <= |s|
  {
    if |s| == 0 then 0
    else AlphanumericCount(s[..|s| - 1]) + (if IsAlphanumeric(s[|s| - 1]) then 1 else 0)
  }

  /** The retailer rule counts every character; it agrees with an alphanumeric
      count only on names made of letters and digits alone. */
  lemma {:induction false} RetailerPointsCountEveryCharacter(s: string)
    ensures AlphanumericCount(s) == |s| <==> forall i :: 0 <= i < |s| ==> IsAlphanumeric(s[i])
  {
    if |s| > 0 {
      var n := |s| - 1;
      RetailerPointsCountEveryCharacter(s[..n]);
      if AlphanumericCount(s) == |s| {
        assert AlphanumericCount(s[..n]) == n;
        forall i | 0 <= i < |s| ensures IsAlphanumeric(s[i]) {
          if i < n { assert s[i] == s[..n][i]; }
        }
      }
    }
  }
}
