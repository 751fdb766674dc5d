/** The `OrderStates` integer enumeration of the order-intake conversation (`src/bot/states.py`). */
module States {
  import opened Wrappers

  datatype OrderState =
    | Info
    | ReuseQuestion | ReuseConfirm | ReuseReject
    | GetPhone | GetName | GetStreet | GetHouse | GetApartment | GetEntrance
    | SelectServices
    | GetComment
    | Confirm | PaymentQuestion
  {
    /** The IntEnum value. */
    function Value(): int {
      match this
      case Info => 1
      case ReuseQuestion => 2
      case ReuseConfirm => 3
      case ReuseReject => 4
      case GetPhone => 5
      case GetName => 6
      case GetStreet => 7
      case GetHouse => 8
      case GetApartment => 9
      case GetEntrance => 10
      case SelectServices => 12
      case GetComment => 13
      case Confirm => 14
      case PaymentQuestion => 15
    }
  }

  /** The members in declaration order. */
  const AllStates: seq<OrderState> :=
    [Info, ReuseQuestion, ReuseConfirm, ReuseReject, GetPhone, GetName, GetStreet, GetHouse,
     GetApartment, GetEntrance, SelectServices, GetComment, Confirm, PaymentQuestion]

  /** The address-and-contact collection chain, in the order the conversation walks it. */
  const CollectionChain: seq<OrderState> := [GetPhone, GetName, GetStreet, GetHouse, GetApartment, GetEntrance]

  /** `OrderStates(n)`: the member with value `n`, None where Python raises ValueError. */
  function FromValue(n: int): (r: Option<OrderState>)
    ensures r.Some? ==> r.value.Value() == n
  {
    if 1 <= n <= 10 then Some(AllStates[n - 1])
    else if 12 <= n <= 15 then Some(AllStates[n - 2])
    else None
  }

  /** Values increase strictly in declaration order, so they are pairwise distinct and INFO = 1 is the least. */
  lemma ValuesIncreasing()
    ensures |AllStates| == 14
    ensures forall x: OrderState :: x in AllStates
    ensures forall i, j :: 0 <= i < j < |AllStates| ==> AllStates[i].Value() < AllStates[j].Value()
    ensures forall x: OrderState :: Info.Value() <= x.Value()
  {
    forall x: OrderState ensures x in AllStates {
      match x
      case Info => case ReuseQuestion => case ReuseConfirm => case ReuseReject =>
      case GetPhone => case GetName => case GetStreet => case GetHouse => case GetApartment =>
      case GetEntrance => case SelectServices => case GetComment => case Confirm => case PaymentQuestion =>
    }
  }

  /** Two members with the same value are the same member, and every value parses back to its member. */
  lemma ValuesDistinct(a: OrderState, b: OrderState)
    ensures a.Value() == b.Value() <==> a == b
    ensures FromValue(a.Value()) == Some(a)
  {
  }

  /** GET_PHONE ... GET_ENTRANCE take the consecutive values 5..10, and the tail of the flow is ordered. */
  lemma CollectionValues()
    ensures forall k :: 0 <= k < |CollectionChain| ==> CollectionChain[k].Value() == 5 + k
    ensures SelectServices.Value() < Confirm.Value() < PaymentQuestion.Value()
    ensures FromValue(11).None? && FromValue(0).None?
  {
  }
}
