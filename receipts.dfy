/** The submitted receipt as the request handler sees it after JSON parsing,
    and the three validators `test_field`, `verify_body` and `verify_list_items`. */
module Receipts {
  import opened Strings

  /** What reading one property of a parsed JSON object yields, as far as
      `typeof body[field] != "string"` can tell: absent (`undefined`), a string,
      or a value of some other type. */
  datatype Field = Absent | Str(value: string) | NonString

  /** One element of `items`. `hasFalseKey` records an own key literally named
      "false", the only thing the expression `(!field) in item` detects. */
  datatype Item = Item(shortDescription: Field, price: Field, hasFalseKey: bool)

  /** The `items` property: absent, a value whose `typeof` is not "object"
      (string, number, boolean), or an array of item objects. */
  datatype ItemsField = ItemsAbsent | ItemsNonObject | ItemList(elems: seq<Item>)

  /** The request body. */
  datatype Receipt = Receipt(
    retailer: Field,
    purchaseDate: Field,
    purchaseTime: Field,
    total: Field,
    items: ItemsField,
    hasFalseKey: bool)

  /** The five anchored patterns the validators use. */
  datatype Pattern =
    | RetailerPattern     // ^[\w\s\-&]+$
    | DatePattern         // ^\d{4}-\d{2}-\d{2}$
    | TimePattern         // ^\d{2}:\d{2}$
    | AmountPattern       // ^\d+\.\d{2}$
    | DescriptionPattern  // ^[\w\s\-]+$

  predicate IsRetailerChar(c: char) { IsWordChar(c) || IsSpace(c) || c == '-' || c == '&' }

  predicate IsDescriptionChar(c: char) { IsWordChar(c) || IsSpace(c) || c == '-' }

  predicate IsDate(s: string) {
    |s| == 10 && AllDigits(s[..4]) && s[4] == '-' && AllDigits(s[5..7]) && s[7] == '-' && AllDigits(s[8..])
  }

  predicate IsTime(s: string) {
    |s| == 5 && AllDigits(s[..2]) && s[2] == ':' && AllDigits(s[3..])
  }

  /** One or more digits, a point, exactly two digits. */
  predicate IsAmount(s: string) {
    |s| >= 4 && AllDigits(s[..|s| - 3]) && s[|s| - 3] == '.' && AllDigits(s[|s| - 2..])
  }

  /** Full match of `s` against the anchored pattern `p`. */
  predicate Matches(p: Pattern, s: string) {
    match p
    case RetailerPattern => |s| >= 1 && forall i :: 0 <= i < |s| ==> IsRetailerChar(s[i])
    case DescriptionPattern => |s| >= 1 && forall i :: 0 <= i < |s| ==> IsDescriptionChar(s[i])
    case DatePattern => IsDate(s)
    case TimePattern => IsTime(s)
    case AmountPattern => IsAmount(s)
  }

  /** `test_field(container, field, regex)`. The guard `(!field) in body` evaluates
      `false in body`, so it rejects only a container with an own key "false";
      absence is caught by the `typeof` test, like any other non-string value. */
  predicate TestField(hasFalseKey: bool, f: Field, p: Pattern)
    ensures TestField(hasFalseKey, f, p) ==> !hasFalseKey && f.Str? && |f.value| >= 1
  {
    if hasFalseKey then false
    else if !f.Str? then false
    else Matches(p, f.value)
  }

  /** `verify_body`: the four top-level fields and `typeof body.items == "object"`. */
  predicate VerifyBody(r: Receipt) {
    && TestField(r.hasFalseKey, r.retailer, RetailerPattern)
    && TestField(r.hasFalseKey, r.purchaseDate, DatePattern)
    && TestField(r.hasFalseKey, r.purchaseTime, TimePattern)
    && TestField(r.hasFalseKey, r.total, AmountPattern)
    && !r.hasFalseKey
    && r.items.ItemList?
  }

  /** The test `verify_list_items` applies to each element. */
  predicate ItemPasses(item: Item) {
    && TestField(item.hasFalseKey, item.shortDescription, DescriptionPattern)
    && TestField(item.hasFalseKey, item.price, AmountPattern)
  }

  predicate AllItemsPass(items: seq<Item>) {
    forall i :: 0 <= i < |items| ==> ItemPasses(items[i])
  }

  /** `verify_list_items`: stop at the first element that fails. */
  method VerifyListItems(items: seq<Item>) returns (ok: bool)
    ensures ok <==> AllItemsPass(items)
  {
    for i := 0 to |items|
      invariant forall j :: 0 <= j < i ==> ItemPasses(items[j])
    {
      var item := items[i];
      if !TestField(item.hasFalseKey, item.shortDescription, DescriptionPattern)
         || !TestField(item.hasFalseKey, item.price, AmountPattern)
      {
        return false;
      }
    }
    return true;
  }

  /** The body passes both validators; `verify_list_items` only runs once
      `verify_body` has established that `items` is an array. */
  predicate Accepted(r: Receipt) {
    VerifyBody(r) && AllItemsPass(r.items.elems)
  }

  /** The condition of the submission handler. */
  predicate RequestAccepted(isJson: bool, r: Receipt) {
    isJson && Accepted(r)
  }

  /** Acceptance spelled out field by field: every failure rejects the whole receipt. */
  lemma AcceptedExactly(r: Receipt)
    ensures Accepted(r) <==>
      && !r.hasFalseKey
      && r.retailer.Str? && Matches(RetailerPattern, r.retailer.value)
      && r.purchaseDate.Str? && IsDate(r.purchaseDate.value)
      && r.purchaseTime.Str? && IsTime(r.purchaseTime.value)
      && r.total.Str? && IsAmount(r.total.value)
      && r.items.ItemList?
      && forall i :: 0 <= i < |r.items.elems| ==>
           var item := r.items.elems[i];
           && !item.hasFalseKey
           && item.shortDescription.Str? && Matches(DescriptionPattern, item.shortDescription.value)
           && item.price.Str? && IsAmount(item.price.value)
  {
  }

  /** An empty item list passes the item loop: acceptance then rests on the top-level fields. */
  lemma EmptyItemListAccepted(r: Receipt)
    requires r.items == ItemList([])
    ensures Accepted(r) <==> VerifyBody(r)
  {
  }

  /** Every pattern needs at least one character, so "" never passes. */
  lemma EmptyNeverMatches(p: Pattern)
    ensures !Matches(p, "")
  {
  }

  /** A missing retailer, a one-digit fraction, a slash-separated date, a missing
      item price and a non-JSON request are all rejected. */
  lemma RejectedExamples(r: Receipt)
    ensures r.retailer.Absent? ==> !Accepted(r)
    ensures !Matches(AmountPattern, "6.1")
    ensures !Matches(DatePattern, "2022/01/01")
    ensures r.items.ItemList? && |r.items.elems| > 0 && r.items.elems[0].price.Absent? ==> !Accepted(r)
    ensures !RequestAccepted(false, r)
  {
  }
}
