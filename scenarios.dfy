/** Two worked receipts, scored rule by rule. */
module Scenarios {
  import opened Strings
  import opened Receipts
  import opened Points

  // ---- helpers that let concrete receipts be scored one rule at a time ----

  /** A description with no whitespace at either end is its own trim. */
  lemma TrimmedAsIs(s: string)
    requires |s| > 0 && !IsSpace(s[0]) && !IsSpace(s[|s| - 1])
    ensures Trim(s) == s
  {
    TrimExactly(s, 0, |s|);
  }

  lemma NoDescriptionPoints(item: Item, trimmed: nat)
    requires ItemPasses(item)
    requires |Trim(item.shortDescription.value)| == trimmed && trimmed % 3 != 0
    ensures DescriptionPoints(item) == 0
  {
  }

  lemma DescriptionPointsOf(item: Item, trimmed: nat, cents: nat)
    requires ItemPasses(item)
    requires |Trim(item.shortDescription.value)| == trimmed && trimmed % 3 == 0
    requires Cents(item.price.value) == cents
    ensures DescriptionPoints(item) == PriceBonus(cents)
  {
  }

  lemma CentsOf(amount: string, whole: string, frac: string)
    requires AllDigits(whole) && |whole| >= 1 && AllDigits(frac) && |frac| == 2
    requires amount == whole + "." + frac
    ensures IsAmount(amount) && Cents(amount) == DigitsValue(whole) * 100 + DigitsValue(frac)
  {
    assert amount[..|amount| - 3] == whole && amount[|amount| - 2..] == frac;
  }

  lemma ScoreOf(r: Receipt, cents: nat, itemPoints: nat, day: nat, window: bool)
    requires Accepted(r)
    requires Cents(r.total.value) == cents && ItemsPoints(r.items.elems) == itemPoints
    requires DigitsValue(DaySegment(r.purchaseDate.value)) == day
    requires InAfternoonWindow(r.purchaseTime.value) == window
    ensures Score(r) ==
      |r.retailer.value| + RoundDollarPoints(cents) + QuarterPoints(cents) + PairPoints(|r.items.elems|)
      + itemPoints + (if day % 2 == 1 then 6 else 0) + (if window then 10 else 0)
  {
  }

  /** The points of five items are the sum of their description points. */
  lemma ItemsPointsOfFive(items: seq<Item>)
    requires AllItemsPass(items) && |items| == 5
    ensures ItemsPoints(items) ==
      DescriptionPoints(items[0]) + DescriptionPoints(items[1]) + DescriptionPoints(items[2])
      + DescriptionPoints(items[3]) + DescriptionPoints(items[4])
  {
    WholePrefix(items);
    ItemsPointsPrefix(items, 5);
    ItemsPointsPrefix(items, 4);
    ItemsPointsPrefix(items, 3);
    ItemsPointsPrefix(items, 2);
    ItemsPointsPrefix(items, 1);
  }

  /** When no trimmed description has a length divisible by 3, the items add nothing. */
  lemma {:induction false} ItemsPointsWithoutBonus(items: seq<Item>)
    requires AllItemsPass(items)
    requires forall i :: 0 <= i < |items| ==> |Trim(items[i].shortDescription.value)| % 3 != 0
    ensures ItemsPoints(items) == 0
  {
    if |items| > 0 {
      ItemsPointsWithoutBonus(items[..|items| - 1]);
    }
  }

  // ---- the Target receipt ----

  /** Of the five items only "Emils Cheese Pizza" (18 characters, 12.25) and the
      trimmed "Klarbrunn 12-PK 12 FL OZ" (24 characters, 12.00) earn a price bonus,
      3 points each; with 6 for the name, 10 for two pairs and 6 for day 01 the
      receipt scores 28, while the total 35.35 and the time 13:01 earn nothing. */
  lemma TargetReceiptScores28(r: Receipt)
    requires Accepted(r)
    requires r.retailer.value == "Target" && r.purchaseDate.value == "2022-01-01"
    requires r.purchaseTime.value == "13:01" && r.total.value == "35.35"
    requires |r.items.elems| == 5
    requires r.items.elems[0].shortDescription.value == "Mountain Dew 12PK"
    requires r.items.elems[1].shortDescription.value == "Emils Cheese Pizza"
    requires r.items.elems[1].price.value == "12.25"
    requires r.items.elems[2].shortDescription.value == "Knorr Creamy Chicken"
    requires r.items.elems[3].shortDescription.value == "Doritos Nacho Cheese"
    requires r.items.elems[4].shortDescription.value == "   Klarbrunn 12-PK 12 FL OZ  "
    requires r.items.elems[4].price.value == "12.00"
    ensures Score(r) == 28
  {
    TargetItemsScore6(r.items.elems);
    TargetTotalAndDate(r.total.value, r.purchaseDate.value);
    OutsideWindow(r.purchaseTime.value);
    ScoreOf(r, 3535, 6, 1, false);
  }

  lemma TargetItemsScore6(items: seq<Item>)
    requires AllItemsPass(items) && |items| == 5
    requires items[0].shortDescription.value == "Mountain Dew 12PK"
    requires items[1].shortDescription.value == "Emils Cheese Pizza" && items[1].price.value == "12.25"
    requires items[2].shortDescription.value == "Knorr Creamy Chicken"
    requires items[3].shortDescription.value == "Doritos Nacho Cheese"
    requires items[4].shortDescription.value == "   Klarbrunn 12-PK 12 FL OZ  " && items[4].price.value == "12.00"
    ensures ItemsPoints(items) == 6
  {
    TargetPlainItems(items[0], items[2], items[3]);
    CheesePizzaBonus(items[1]);
    KlarbrunnBonus(items[4]);
    ItemsPointsOfFive(items);
  }

  lemma TargetTotalAndDate(total: string, date: string)
    requires total == "35.35" && date == "2022-01-01"
    ensures IsAmount(total) && Cents(total) == 3535
    ensures RoundDollarPoints(3535) == 0 && QuarterPoints(3535) == 0
    ensures IsDate(date) && DigitsValue(DaySegment(date)) == 1
  {
    TwoDigitAmount(total, "35", "35", 3535);
    TwoDigits("01");
  }

  lemma TargetPlainItems(a: Item, c: Item, d: Item)
    requires ItemPasses(a) && ItemPasses(c) && ItemPasses(d)
    requires a.shortDescription.value == "Mountain Dew 12PK"
    requires c.shortDescription.value == "Knorr Creamy Chicken"
    requires d.shortDescription.value == "Doritos Nacho Cheese"
    ensures DescriptionPoints(a) == 0 && DescriptionPoints(c) == 0 && DescriptionPoints(d) == 0
  {
    MountainDewNoBonus(a);
    CreamyChickenNoBonus(c);
    NachoCheeseNoBonus(d);
  }

  lemma MountainDewNoBonus(item: Item)
    requires ItemPasses(item) && item.shortDescription.value == "Mountain Dew 12PK"
    ensures DescriptionPoints(item) == 0
  {
    NoBonusAsIs(item, 17);
  }

  lemma CreamyChickenNoBonus(item: Item)
    requires ItemPasses(item) && item.shortDescription.value == "Knorr Creamy Chicken"
    ensures DescriptionPoints(item) == 0
  {
    NoBonusAsIs(item, 20);
  }

  lemma NachoCheeseNoBonus(item: Item)
    requires ItemPasses(item) && item.shortDescription.value == "Doritos Nacho Cheese"
    ensures DescriptionPoints(item) == 0
  {
    NoBonusAsIs(item, 20);
  }

  lemma NoBonusAsIs(item: Item, n: nat)
    requires ItemPasses(item) && |item.shortDescription.value| == n && n % 3 != 0
    requires !IsSpace(item.shortDescription.value[0]) && !IsSpace(item.shortDescription.value[n - 1])
    ensures DescriptionPoints(item) == 0
  {
    TrimmedAsIs(item.shortDescription.value);
  }

  lemma CheesePizzaBonus(item: Item)
    requires ItemPasses(item)
    requires item.shortDescription.value == "Emils Cheese Pizza" && item.price.value == "12.25"
    ensures DescriptionPoints(item) == 3
  {
    assert PriceBonus(1225) == 3;
    TrimmedAsIs(item.shortDescription.value);
    TwoDigitAmount(item.price.value, "12", "25", 1225);
    DescriptionPointsOf(item, 18, 1225);
  }

  lemma KlarbrunnBonus(item: Item)
    requires ItemPasses(item)
    requires item.shortDescription.value == "   Klarbrunn 12-PK 12 FL OZ  " && item.price.value == "12.00"
    ensures DescriptionPoints(item) == 3
  {
    TwoDigitAmount(item.price.value, "12", "00", 1200);
    KlarbrunnBonusOfCents(item);
  }

  lemma KlarbrunnBonusOfCents(item: Item)
    requires ItemPasses(item)
    requires item.shortDescription.value == "   Klarbrunn 12-PK 12 FL OZ  " && Cents(item.price.value) == 1200
    ensures DescriptionPoints(item) == 3
  {
    assert PriceBonus(1200) == 3;
    KlarbrunnTrim(item.shortDescription.value);
    DescriptionPointsOf(item, 24, 1200);
  }

  lemma KlarbrunnTrim(s: string)
    requires s == "   Klarbrunn 12-PK 12 FL OZ  "
    ensures |Trim(s)| == 24
  {
    assert |s| == 29 && s[3] == 'K' && s[26] == 'Z';
    assert IsSpace(s[0]) && IsSpace(s[1]) && IsSpace(s[2]);
    assert IsSpace(s[27]) && IsSpace(s[28]);
    TrimExactly(s, 3, 27);
  }

  /** A two-digit whole part and a two-digit fraction, read as cents. */
  lemma TwoDigitAmount(amount: string, whole: string, frac: string, cents: nat)
    requires |whole| == 2 && AllDigits(whole) && |frac| == 2 && AllDigits(frac)
    requires amount == whole + "." + frac
    requires cents == (DigitValue(whole[0]) * 10 + DigitValue(whole[1])) * 100 + DigitValue(frac[0]) * 10 + DigitValue(frac[1])
    ensures IsAmount(amount) && Cents(amount) == cents
  {
    CentsOf(amount, whole, frac);
    TwoDigits(whole);
    TwoDigits(frac);
  }

  const MountainDew := Item(Str("Mountain Dew 12PK"), Str("6.49"), false)
  const CheesePizza := Item(Str("Emils Cheese Pizza"), Str("12.25"), false)
  const CreamyChicken := Item(Str("Knorr Creamy Chicken"), Str("1.26"), false)
  const NachoCheese := Item(Str("Doritos Nacho Cheese"), Str("3.35"), false)
  const Klarbrunn := Item(Str("   Klarbrunn 12-PK 12 FL OZ  "), Str("12.00"), false)

  /** The published "Target" example receipt. */
  const Target := Receipt(
    Str("Target"), Str("2022-01-01"), Str("13:01"), Str("35.35"),
    ItemList([MountainDew, CheesePizza, CreamyChicken, NachoCheese, Klarbrunn]),
    false)

  /** The validators accept it: "-" in "12-PK" and the padding spaces are allowed. */
  lemma TargetAccepted()
    ensures Accepted(Target)
  {
    TargetBodyPasses();
    MountainDewPasses();
    CheesePizzaPasses();
    CreamyChickenPasses();
    NachoCheesePasses();
    KlarbrunnPasses();
    FiveItemsPass(MountainDew, CheesePizza, CreamyChicken, NachoCheese, Klarbrunn);
  }

  lemma TargetBodyPasses()
    ensures VerifyBody(Target)
  {
    BodyPassesWhen("Target", "2022-01-01", "13:01", "35.35", Target.items.elems);
  }

  lemma MountainDewPasses()
    ensures ItemPasses(MountainDew)
  {
    ItemPassesWhen("Mountain Dew 12PK", "6.49");
  }

  lemma CheesePizzaPasses()
    ensures ItemPasses(CheesePizza)
  {
    ItemPassesWhen("Emils Cheese Pizza", "12.25");
  }

  lemma CreamyChickenPasses()
    ensures ItemPasses(CreamyChicken)
  {
    ItemPassesWhen("Knorr Creamy Chicken", "1.26");
  }

  lemma NachoCheesePasses()
    ensures ItemPasses(NachoCheese)
  {
    ItemPassesWhen("Doritos Nacho Cheese", "3.35");
  }

  lemma KlarbrunnPasses()
    ensures ItemPasses(Klarbrunn)
  {
    ItemPassesWhen("   Klarbrunn 12-PK 12 FL OZ  ", "12.00");
  }

  lemma FiveItemsPass(a: Item, b: Item, c: Item, d: Item, e: Item)
    requires ItemPasses(a) && ItemPasses(b) && ItemPasses(c) && ItemPasses(d) && ItemPasses(e)
    ensures AllItemsPass([a, b, c, d, e])
  {
  }

  /** An item without a "false" key passes when both its strings match. */
  lemma ItemPassesWhen(description: string, price: string)
    requires Matches(DescriptionPattern, description) && IsAmount(price)
    ensures ItemPasses(Item(Str(description), Str(price), false))
  {
  }

  /** A body without a "false" key passes `verify_body` when its four strings match. */
  lemma BodyPassesWhen(retailer: string, date: string, time: string, total: string, items: seq<Item>)
    requires Matches(RetailerPattern, retailer) && IsDate(date) && IsTime(time) && IsAmount(total)
    ensures VerifyBody(Receipt(Str(retailer), Str(date), Str(time), Str(total), ItemList(items), false))
  {
  }

  lemma TargetScores28()
    ensures Accepted(Target) && Score(Target) == 28
  {
    TargetAccepted();
    TargetReceiptScores28(Target);
  }

  // ---- the M&M Corner Market receipt ----

  const Gatorade := Item(Str("Gatorade"), Str("2.25"), false)

  /** The published "M&M Corner Market" example receipt. */
  const CornerMarket := Receipt(
    Str("M&M Corner Market"), Str("2022-03-20"), Str("14:33"), Str("9.00"),
    ItemList([Gatorade, Gatorade, Gatorade, Gatorade]),
    false)

  /** The validators accept it: "&" is allowed in a retailer name. */
  lemma CornerMarketAccepted()
    ensures Accepted(CornerMarket)
  {
    CornerMarketBodyPasses();
    GatoradePasses();
  }

  lemma CornerMarketBodyPasses()
    ensures VerifyBody(CornerMarket)
  {
    BodyPassesWhen("M&M Corner Market", "2022-03-20", "14:33", "9.00", CornerMarket.items.elems);
  }

  lemma GatoradePasses()
    ensures ItemPasses(Gatorade)
  {
    ItemPassesWhen("Gatorade", "2.25");
  }

  lemma CornerMarketScores()
    ensures Accepted(CornerMarket) && Score(CornerMarket) == 112
  {
    CornerMarketAccepted();
    CornerMarketScores112(CornerMarket);
  }

  /** "M&M Corner Market" earns 17 retailer points although "&" and the two
      spaces are not letters or digits. */
  lemma CornerMarketName(s: string)
    requires s == "M&M Corner Market"
    ensures |s| == 17 && AlphanumericCount(s) < |s|
  {
    RetailerPointsCountEveryCharacter(s);
    assert !IsAlphanumeric(s[1]);
  }

  /** The retailer rule gives 17 (not 14), the total 9.00 gives 50 + 25, four items
      give 10, no "Gatorade" earns a bonus (8 characters), day 20 is even and 14:33
      is in the window: 112 points. */
  lemma CornerMarketScores112(r: Receipt)
    requires Accepted(r)
    requires r.retailer.value == "M&M Corner Market" && r.purchaseDate.value == "2022-03-20"
    requires r.purchaseTime.value == "14:33" && r.total.value == "9.00"
    requires |r.items.elems| == 4
    requires forall i :: 0 <= i < 4 ==> r.items.elems[i].shortDescription.value == "Gatorade"
    ensures Score(r) == 112
  {
    GatoradeEarnsNothing(r.items.elems);
    CornerMarketTotalAndDate(r.total.value, r.purchaseDate.value);
    InsideWindow(r.purchaseTime.value);
    ScoreOf(r, 900, 0, 20, true);
  }

  lemma GatoradeEarnsNothing(items: seq<Item>)
    requires AllItemsPass(items)
    requires forall i :: 0 <= i < |items| ==> items[i].shortDescription.value == "Gatorade"
    ensures ItemsPoints(items) == 0
  {
    GatoradeTrimmed();
    SameDescriptionWithoutBonus(items, "Gatorade");
  }

  /** "Gatorade" is its own trim, 8 characters long. */
  lemma GatoradeTrimmed()
    ensures |Trim("Gatorade")| == 8
  {
    TrimmedAsIs("Gatorade");
  }

  lemma SameDescriptionWithoutBonus(items: seq<Item>, d: string)
    requires AllItemsPass(items) && |Trim(d)| % 3 != 0
    requires forall i :: 0 <= i < |items| ==> items[i].shortDescription.value == d
    ensures ItemsPoints(items) == 0
  {
    ItemsPointsWithoutBonus(items);
  }

  lemma CornerMarketTotalAndDate(total: string, date: string)
    requires total == "9.00" && date == "2022-03-20"
    ensures IsAmount(total) && Cents(total) == 900
    ensures RoundDollarPoints(900) == 50 && QuarterPoints(900) == 25
    ensures IsDate(date) && DigitsValue(DaySegment(date)) == 20
  {
    CentsOf(total, "9", "00");
    TwoDigits("00");
    TwoDigits("20");
    assert "9"[..0] == [];
  }

  lemma OutsideWindow(t: string)
    requires t == "13:01"
    ensures !InAfternoonWindow(t)
  {
  }

  lemma InsideWindow(t: string)
    requires t == "14:33"
    ensures InAfternoonWindow(t)
  {
  }

  /** The window is strict at both ends. */
  lemma AfternoonWindowIsStrict()
    ensures !InAfternoonWindow("14:00") && !InAfternoonWindow("16:00")
  {
  }

  /** The comparison is on text, not on a clock: "15:99" is inside the window. */
  lemma AfternoonWindowIsTextual()
    ensures InAfternoonWindow("15:99")
  {
  }
}
