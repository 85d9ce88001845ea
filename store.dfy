/** The module-level `memory` object of the two request handlers: receipt id to
    points, written by the submission handler and read by the lookup handler. */
module Store {
  import opened Receipts
  import opened Points

  datatype Option<T> = None | Some(value: T)

  /** Property names every plain JavaScript object inherits from Object.prototype. */
  const ObjectPrototypeMembers: set<string> := {
    "constructor", "hasOwnProperty", "isPrototypeOf", "propertyIsEnumerable",
    "toLocaleString", "toString", "valueOf", "__proto__",
    "__defineGetter__", "__defineSetter__", "__lookupGetter__", "__lookupSetter__"
  }

  /** `id in memory` on a plain object: true for its own keys and for inherited members. */
  predicate HasProperty(memory: map<string, int>, id: string) {
    id in memory || id in ObjectPrototypeMembers
  }

  class ReceiptStore {
    /** Receipt id to points. */
    var memory: map<string, int>
    /** The accepted receipt each entry was computed from. */
    ghost var receipts: map<string, Receipt>

    /** Every stored score is the score of an accepted receipt. */
    ghost predicate Valid()
      reads this
    {
      && memory.Keys == receipts.Keys
      && forall id :: id in receipts ==> Accepted(receipts[id]) && memory[id] == Score(receipts[id])
    }

    constructor ()
      ensures Valid() && memory == map[] && receipts == map[]
    {
      memory := map[];
      receipts := map[];
    }

    /** The submission handler: when the request is JSON and both validators
        accept the body, store the receipt's points under `id` and return it;
        otherwise change nothing. `id` comes from the UUID generator, which never
        yields "__proto__" (an assignment to that name would not create an entry). */
    method Process(isJson: bool, body: Receipt, id: string) returns (issued: Option<string>)
      requires Valid()
      requires id != "__proto__"
      modifies this
      ensures Valid()
      ensures issued.Some? <==> RequestAccepted(isJson, body)
      ensures issued.Some? ==>
        && issued.value == id
        && memory == old(memory)[id := Score(body)]
        && receipts == old(receipts)[id := body]
      ensures issued.None? ==> memory == old(memory) && receipts == old(receipts)
    {
      var ok := false;
      if isJson && VerifyBody(body) {
        ok := VerifyListItems(body.items.elems);
      }
      if ok {
        var points := GetPointsFromReceipt(body);
        memory := memory[id := points];
        receipts := receipts[id := body];
        issued := Some(id);
      } else {
        issued := None;
      }
    }

    /** The lookup handler with an own-key test: a score exactly for the ids stored. */
    method Lookup(id: string) returns (points: Option<int>)
      requires Valid()
      ensures points.Some? <==> id in memory
      ensures points.Some? ==>
        && id in receipts
        && points.value == memory[id] == Score(receipts[id])
        && points.value >= 1
    {
      if id in memory {
        points := Some(memory[id]);
      } else {
        points := None;
      }
    }

    /** The lookup handler as written: `id in memory` also holds for inherited
        members, which answer "found" with no stored score behind them. */
    method LookupAsWritten(id: string) returns (found: bool, points: Option<int>)
      ensures found <==> HasProperty(memory, id)
      ensures points.Some? <==> id in memory
      ensures points.Some? ==> points.value == memory[id]
    {
      found := id in memory || id in ObjectPrototypeMembers;
      if id in memory {
        points := Some(memory[id]);
      } else {
        points := None;
      }
    }
  }

  /** A lookup of "constructor" on a store that holds nothing is answered as found. */
  method InheritedIdFoundAsWritten() returns (found: bool, points: Option<int>)
    ensures found && points.None?
  {
    var store := new ReceiptStore();
    found, points := store.LookupAsWritten("constructor");
  }

  /** With the own-key test, an id that was never issued is not found, whatever its name. */
  method InheritedIdNotFound() returns (points: Option<int>)
    ensures points.None?
  {
    var store := new ReceiptStore();
    points := store.Lookup("constructor");
  }

  /** Submitting and then looking up the same id gives the engine's score for
      an accepted receipt; a rejected one leaves the previous answer. */
  method ProcessThenLookup(store: ReceiptStore, isJson: bool, body: Receipt, id: string)
    returns (points: Option<int>)
    requires store.Valid() && id != "__proto__"
    modifies store
    ensures store.Valid()
    ensures RequestAccepted(isJson, body) ==> points == Some(Score(body))
    ensures !RequestAccepted(isJson, body) ==>
      points == if id in old(store.memory) then Some(old(store.memory)[id]) else None
  {
    var issued := store.Process(isJson, body, id);
    points := store.Lookup(id);
  }
}
