/**
 * The Trello card of an order, `src/services/kanban.py`: the card name and description, the
 * labels of the extra services, the class-level configuration, the guarded card creation and
 * the background job that writes the card id back to the order.
 * The Trello client itself is outside the model: what `add_card` does is an input.
 */
module Kanban {
  import opened Wrappers
  import opened Text
  import opened Models
  import Repository
  import Enums

  const BoardId: string := "RGuiWOAZ"
  const ListId: string := "6937fbac2dcd2ca31a7e3f0a"

  /** `LIST_ID`, where every new card goes, is the WASHING column of `TrelloColumns`, not the NEW one. */
  lemma CardListIsWashingColumn()
    ensures ListId == Enums.ColumnOf(Enums.Washing).Id()
    ensures ListId != Enums.ColumnOf(Enums.New).Id()
  {
    Enums.ColumnIdReadsBack(Enums.ColNew);
  }

  // ------------------------------------------------------------- extra labels

  /** The keys of `EXTRA_LABELS`, one per optional service column of `Order`. */
  datatype ExtraFlag = NeedIroning | NeedConditioner | NeedVacuumPack | NeedUv | NeedWashBag

  /** `EXTRA_LABELS`: the Trello label id of each extra service. */
  function LabelId(f: ExtraFlag): string {
    match f
    case NeedIroning => "693bf869f3ad524b92ff435d"
    case NeedConditioner => "6937fad4cc2d6a1245d7b7be"
    case NeedVacuumPack => "693a9512b66b9a84869c2918"
    case NeedUv => "6937fce76955bed06e42984f"
    case NeedWashBag => "6937fad4cc2d6a1245d7b7c0"
  }

  predicate FlagSet(o: Order, f: ExtraFlag) {
    match f
    case NeedIroning => o.needIroning
    case NeedConditioner => o.needConditioner
    case NeedVacuumPack => o.needVacuumPack
    case NeedUv => o.needUv
    case NeedWashBag => o.needWashBag
  }

  /** `[id] if flag else []`. */
  function If(b: bool, id: string): seq<string> {
    if b then [id] else []
  }

  /**
   * What `_get_extra_labels` returns: the labels of the set flags in the fixed order ironing,
   * conditioner, vacuum pack, UV, wash bag.
   */
  function ExtraLabels(o: Order): seq<string> {
    If(o.needIroning, LabelId(NeedIroning)) + If(o.needConditioner, LabelId(NeedConditioner))
    + If(o.needVacuumPack, LabelId(NeedVacuumPack)) + If(o.needUv, LabelId(NeedUv))
    + If(o.needWashBag, LabelId(NeedWashBag))
  }

  /** `_get_extra_labels`: append the label of each set flag, flag by flag. */
  method GetExtraLabels(o: Order) returns (labels: seq<string>)
    ensures labels == ExtraLabels(o)
  {
    labels := [];
    if o.needIroning {
      labels := labels + [LabelId(NeedIroning)];
    }
    ghost var prefix := If(o.needIroning, LabelId(NeedIroning));
    assert labels == prefix;
    if o.needConditioner {
      labels := labels + [LabelId(NeedConditioner)];
    }
    prefix := prefix + If(o.needConditioner, LabelId(NeedConditioner));
    assert labels == prefix;
    if o.needVacuumPack {
      labels := labels + [LabelId(NeedVacuumPack)];
    }
    prefix := prefix + If(o.needVacuumPack, LabelId(NeedVacuumPack));
    assert labels == prefix;
    if o.needUv {
      labels := labels + [LabelId(NeedUv)];
    }
    prefix := prefix + If(o.needUv, LabelId(NeedUv));
    assert labels == prefix;
    if o.needWashBag {
      labels := labels + [LabelId(NeedWashBag)];
    }
  }

  /** The number of extra services set on `o`. */
  function SetCount(o: Order): nat {
    (if o.needIroning then 1 else 0) + (if o.needConditioner then 1 else 0) + (if o.needVacuumPack then 1 else 0)
    + (if o.needUv then 1 else 0) + (if o.needWashBag then 1 else 0)
  }

  /** No two extra services share a label: the characters at 3, 5 and 22 already tell them apart. */
  lemma LabelIdInjective(f: ExtraFlag, g: ExtraFlag)
    ensures LabelId(f) == LabelId(g) <==> f == g
  {
    if f != g {
      var a, b := LabelId(f), LabelId(g);
      assert a[3] != b[3] || a[5] != b[5] || a[22] != b[22];
    }
  }

  /** The label of a flag is in the list exactly when that flag is set. */
  lemma ExtraLabelsExact(o: Order)
    ensures forall f :: LabelId(f) in ExtraLabels(o) <==> FlagSet(o, f)
  {
    forall f
      ensures LabelId(f) in ExtraLabels(o) <==> FlagSet(o, f)
    {
      LabelIdInjective(f, NeedIroning);
      LabelIdInjective(f, NeedConditioner);
      LabelIdInjective(f, NeedVacuumPack);
      LabelIdInjective(f, NeedUv);
      LabelIdInjective(f, NeedWashBag);
      InIfs(LabelId(f), o.needIroning, LabelId(NeedIroning), o.needConditioner, LabelId(NeedConditioner),
        o.needVacuumPack, LabelId(NeedVacuumPack), o.needUv, LabelId(NeedUv), o.needWashBag, LabelId(NeedWashBag));
    }
  }

  /** Membership in a concatenation of guarded singletons. */
  lemma InIfs(x: string, b1: bool, a1: string, b2: bool, a2: string, b3: bool, a3: string,
              b4: bool, a4: string, b5: bool, a5: string)
    ensures x in If(b1, a1) + If(b2, a2) + If(b3, a3) + If(b4, a4) + If(b5, a5) <==>
      (b1 && x == a1) || (b2 && x == a2) || (b3 && x == a3) || (b4 && x == a4) || (b5 && x == a5)
  {
  }

  /** One label per set flag: none without extras, at most five. */
  lemma ExtraLabelsCount(o: Order)
    ensures |ExtraLabels(o)| == SetCount(o) <= 5
    ensures SetCount(o) == 0 <==> ExtraLabels(o) == []
  {
  }

  // ------------------------------------------------------------- card text

  /** `f"{o}"` of an optional text: None prints as "None". */
  function Show(o: Option<string>): string {
    match o
    case Some(s) => s
    case None => "None"
  }

  /** `a or b` where `b` is a text. */
  function OrText(a: Option<string>, b: string): (r: string)
    ensures r == b <==> !Repository.Truthy(a) || a.value == b
    ensures Repository.Truthy(a) ==> r == a.value
  {
    if Repository.Truthy(a) then a.value else b
  }

  /** `_build_name`: `#<id> ` and the client's name, or the phone when the name is empty or absent. */
  function BuildName(o: Order, client: Client): string {
    "#" + IntToString(o.id) + " " + OrText(client.name, client.phone)
  }

  /** The order id and the client reading can be read back from the card name. */
  lemma BuildNameReadsBack(o: Order, client: Client)
    ensures var r := BuildName(o, client);
      var idText := TakeUntil(r[1..], ' ');
      && r[0] == '#'
      && idText == IntToString(o.id)
      && ((|idText| >= 1 && idText[0] == '-' && AllDigits(idText[1..])) || AllDigits(idText))
      && ParseInt(idText) == o.id
      && r[|idText| + 2..] == (if Repository.Truthy(client.name) then client.name.value else client.phone)
  {
    var r := BuildName(o, client);
    var digits := IntToString(o.id);
    ParseIntToString(o.id);
    assert ' ' !in digits by {
      if o.id < 0 {
        assert digits[1..] == NatToString(-o.id);
      }
    }
    assert r[1..][..|digits|] == digits && r[1..][|digits|] == ' ';
    TakeUntilPrefix(r[1..], |digits|, ' ');
  }

  /** `street_name`: the related street's name, or else the raw `street_id`. */
  function StreetName(o: Order, street: Option<Street>): string {
    match street
    case Some(st) => st.name
    case None => if o.street.Some? then IntToString(o.street.value) else "None"
  }

  function YesNo(b: bool): (r: string)
    ensures r == "Да" <==> b
  {
    if b then "Да" else "Нет"
  }

  const Rule: string := "=================================================\n"

  /** The extras block at the end of the description: one line per extra service. */
  function ExtrasBlock(o: Order): string {
    "Допы\n" + Rule
    + "Глажка: " + YesNo(o.needIroning) + "\n"
    + "Кондиционер: " + YesNo(o.needConditioner) + "\n"
    + "Вакуумный пакет: " + YesNo(o.needVacuumPack) + "\n"
    + "Ультрафиолет: " + YesNo(o.needUv) + "\n"
    + "Мешок для стирки: " + YesNo(o.needWashBag) + "\n"
    + Rule
  }

  /** The header line of the description. */
  function DescHeader(o: Order): string {
    "Заказа #" + IntToString(o.id) + "\n"
  }

  /** The address, contact, price and comment lines between the header and the extras. */
  function DescBody(o: Order, client: Client, street: Option<Street>): string {
    "Адрес: " + StreetName(o, street) + ", дом " + OrText(Some(o.house), "") + ", квартира 228, подъезд "
    + OrText(o.entrance, "—") + ", этаж " + OrText(o.floor, "—") + "\n"
    + "Телефон: " + OrText(Some(client.phone), "—") + "\n"
    + "Имя: " + OrText(client.name, "—") + "\n"
    + "Телеграм id: " + (if client.telegramId != 0 then IntToString(client.telegramId) else "—") + "\n"
    + "Стоимость: " + IntToString(o.totalPriceRub) + " руб\n"
    + "Комментарий: " + OrText(o.comment, "—") + "\n"
  }

  /**
   * `_build_desc`. The apartment is always printed as 228; `client.telegram_id` is an integer
   * column, so it prints as "—" only when it is 0.
   */
  function BuildDesc(o: Order, client: Client, street: Option<Street>): string {
    DescHeader(o) + DescBody(o, client, street) + ExtrasBlock(o)
  }

  /** The description opens with the order number and closes with one Да/Нет line per extra service. */
  lemma BuildDescFrame(o: Order, client: Client, street: Option<Street>)
    ensures StartsWith(BuildDesc(o, client, street), "Заказа #" + IntToString(o.id) + "\n")
    ensures var d := BuildDesc(o, client, street); var e := ExtrasBlock(o);
      |e| <= |d| && d[|d| - |e|..] == e
  {
    var h, b, e := DescHeader(o), DescBody(o, client, street), ExtrasBlock(o);
    assert BuildDesc(o, client, street) == h + (b + e) == (h + b) + e;
    ConcatEnds(h, b + e);
    ConcatEnds(h + b, e);
  }

  // ------------------------------------------------------------- the client

  /** An opaque handle of a `TrelloClient` built from a key and a token. */
  datatype TrelloClient = TrelloClient(apiKey: string, token: string)

  /** What `get_list(...).add_card(name, desc)` did: raised, or returned a card with or without an `id`. */
  datatype AddCardResult = AddCardRaised | Card(id: Option<string>)

  /** The card `create_card_sync` asks Trello for. */
  datatype CardRequest = CardRequest(listId: string, name: string, desc: string)

  /** The class-level state of `Kanban`: the client, the default list and the configured flag. */
  class Kanban {
    var client: Option<TrelloClient>
    var defaultListId: Option<string>
    var configured: bool

    /** The class attributes as declared: no client, the default list, not configured. */
    constructor ()
      ensures client.None? && defaultListId == Some(ListId) && !configured
      ensures !IsConfigured()
    {
      client := None;
      defaultListId := Some(ListId);
      configured := false;
    }

    /** `_is_configured`. */
    predicate IsConfigured()
      reads this
    {
      configured && client.Some?
    }

    /** `configure`: build the client (with empty credentials) and mark the class configured. */
    method Configure()
      modifies this
      ensures client == Some(TrelloClient("", "")) && configured && defaultListId == old(defaultListId)
      ensures IsConfigured()
    {
      client := Some(TrelloClient("", ""));
      configured := true;
    }

    /**
     * `create_card_sync`: nothing is asked of Trello unless configured; then the card named and
     * described from the order is added to the list, and its id returned. Any failure of the
     * Trello call gives None. The owner and street come in already loaded: an error while
     * reading them, before the call, is not part of this model.
     */
    method CreateCardSync(o: Order, owner: Client, street: Option<Street>, trello: AddCardResult)
      returns (cardId: Option<string>, request: Option<CardRequest>)
      ensures request.Some? <==> IsConfigured()
      ensures request.Some? ==> request.value == CardRequest(ListId, BuildName(o, owner), BuildDesc(o, owner, street))
      ensures cardId.Some? <==> IsConfigured() && trello.Card? && trello.id.Some?
      ensures cardId.Some? ==> cardId == trello.id
    {
      if !IsConfigured() {
        return None, None;
      }
      var name := BuildName(o, owner);
      var desc := BuildDesc(o, owner, street);
      request := Some(CardRequest(ListId, name, desc));
      match trello {
        case AddCardRaised => cardId := None;
        case Card(id) => cardId := id;
      }
    }
  }

  /**
   * The body of `enqueue_create_card._job`: create the card, and when its id is truthy store it
   * on the order reloaded by id. An order that is gone, like any other failure, is swallowed.
   */
  method CreateCardJob(kanban: Kanban, db: Repository.Database, o: Order, owner: Client, street: Option<Street>,
                       trello: AddCardResult)
    returns (attached: bool)
    requires db.Valid()
    modifies db
    ensures db.Valid()
    ensures attached <==> kanban.IsConfigured() && trello.Card? && Repository.Truthy(trello.id)
                          && 1 <= o.id <= |old(db.orders)|
    ensures attached ==> db.orders == old(db.orders)[o.id - 1 := old(db.orders)[o.id - 1].(trelloCardId := trello.id)]
    ensures !attached ==> db.orders == old(db.orders)
    ensures db.streets == old(db.streets) && db.statuses == old(db.statuses)
    ensures db.clients == old(db.clients) && db.history == old(db.history)
  {
    var cardId, _ := kanban.CreateCardSync(o, owner, street, trello);
    attached := false;
    if Repository.Truthy(cardId) {
      attached := db.SetTrelloCardId(o.id, cardId.value);
    }
  }
}
