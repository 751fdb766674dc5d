/**
 * The Kaiten card of an order, `src/services/kaiten_kanban.py`: the options dictionary and the
 * tags derived from it, the title, the numbered description, the request payload of
 * `create_card` and the write-back of the card id in `add_card_to_order`.
 * This file reads the order through its own field names (`ironing`, `uv`, `apartment`,
 * `kaiten_card_id`, ...), so it has its own order record. The HTTP client is outside the model:
 * the card the service answers with is an input, and the names of `KaitenTagsNames`, the board and
 * the default column are parameters.
 */
module Kaiten {
  import opened Wrappers
  import opened Text
  import Kanban

  // ------------------------------------------------------------- values

  /** A JSON value as `httpx` sends and receives it. */
  datatype Json =
    | JNull
    | JBool(b: bool)
    | JInt(i: int)
    | JStr(s: string)
    | JArray(items: seq<Json>)
    | JObject(fields: map<string, Json>)

  /** Python truthiness of a decoded JSON value. */
  predicate JTruthy(j: Json) {
    match j
    case JNull => false
    case JBool(b) => b
    case JInt(i) => i != 0
    case JStr(s) => s != ""
    case JArray(items) => items != []
    case JObject(fields) => fields != map[]
  }

  /** The members of `KaitenTagsNames` this file uses, in the order of the options dictionary. */
  datatype TagName = Ironing | Uv | VacuumPack | WashBag | Conditioner | ExactTime

  /** The client of an order, as the description reads it. */
  datatype KaitenClient = KaitenClient(phone: Option<string>, name: Option<string>, telegramId: int)

  /** The order fields `kaiten_kanban.py` reads and writes. */
  datatype KaitenOrder = KaitenOrder(
    id: int,
    client: KaitenClient,
    street: Option<string>,     // the related street's name, when the relation is loaded
    streetId: Option<int>,
    house: Option<string>,
    apartment: Option<string>,
    entrance: Option<string>,
    floor: Option<string>,
    comment: Option<string>,
    totalPriceRub: int,
    ironing: bool,
    uv: bool,
    vacuumPack: bool,
    washBag: bool,
    conditioner: bool,
    deliveryExactTime: Option<int>,
    kaitenCardId: Json)

  // ------------------------------------------------------------- options and tags

  /** Whether the option `t` is on for `o`; a set exact time counts as on. */
  predicate Enabled(o: KaitenOrder, t: TagName) {
    match t
    case Ironing => o.ironing
    case Uv => o.uv
    case VacuumPack => o.vacuumPack
    case WashBag => o.washBag
    case Conditioner => o.conditioner
    case ExactTime => o.deliveryExactTime.Some?
  }

  /** The `options` dictionary of `add_card_to_order`, as its items in insertion order. */
  function Options(o: KaitenOrder): (r: seq<(TagName, bool)>)
    ensures |r| == 6
    ensures forall k :: 0 <= k < 6 ==> r[k].1 == Enabled(o, r[k].0)
  {
    [(Ironing, o.ironing), (Uv, o.uv), (VacuumPack, o.vacuumPack), (WashBag, o.washBag),
     (Conditioner, o.conditioner), (ExactTime, o.deliveryExactTime.Some?)]
  }

  /** The names of the items whose status is on, in item order. */
  function EnabledTags(options: seq<(TagName, bool)>): (r: seq<TagName>)
    ensures |r| <= |options|
  {
    if options == [] then []
    else (if options[0].1 then [options[0].0] else []) + EnabledTags(options[1..])
  }

  /** The tag names of the card: the options that are on. */
  function Tags(o: KaitenOrder): seq<TagName> {
    EnabledTags(Options(o))
  }

  /** The position of each name in the options dictionary. */
  function Rank(t: TagName): nat {
    match t
    case Ironing => 0
    case Uv => 1
    case VacuumPack => 2
    case WashBag => 3
    case Conditioner => 4
    case ExactTime => 5
  }

  /** Names strictly in dictionary order, so each at most once. */
  predicate InDictOrder(ts: seq<TagName>) {
    forall i, j :: 0 <= i < j < |ts| ==> Rank(ts[i]) < Rank(ts[j])
  }

  /** A name is kept exactly when one of its items is on. */
  lemma {:induction false} EnabledTagsMembers(options: seq<(TagName, bool)>)
    ensures forall t :: t in EnabledTags(options) <==> (t, true) in options
  {
    if options != [] {
      EnabledTagsMembers(options[1..]);
      assert options == [options[0]] + options[1..];
    }
  }

  /** The filter keeps the order of the items. */
  lemma {:induction false} EnabledTagsKeepOrder(options: seq<(TagName, bool)>)
    requires forall i, j :: 0 <= i < j < |options| ==> Rank(options[i].0) < Rank(options[j].0)
    ensures InDictOrder(EnabledTags(options))
  {
    if options != [] {
      var rest := options[1..];
      EnabledTagsKeepOrder(rest);
      EnabledTagsMembers(rest);
      if options[0].1 {
        var r := EnabledTags(rest);
        forall t | t in r
          ensures Rank(options[0].0) < Rank(t)
        {
          var k :| 0 <= k < |rest| && rest[k] == (t, true);
          assert options[k + 1] == rest[k];
        }
        var e := EnabledTags(options);
        assert e == [options[0].0] + r;
        forall i, j | 0 <= i < j < |e|
          ensures Rank(e[i]) < Rank(e[j])
        {
          assert e[j] == r[j - 1];
          if i > 0 {
            assert e[i] == r[i - 1];
          } else {
            assert r[j - 1] in r;
          }
        }
      }
    }
  }

  /**
   * The tags name exactly the options that are on, in the order of the options dictionary
   * (ironing, UV, vacuum pack, wash bag, conditioner, exact time), each at most once.
   */
  lemma TagsExact(o: KaitenOrder)
    ensures forall t :: t in Tags(o) <==> Enabled(o, t)
    ensures InDictOrder(Tags(o))
    ensures |Tags(o)| <= 6
  {
    var opts := Options(o);
    EnabledTagsMembers(opts);
    EnabledTagsKeepOrder(opts);
    forall t
      ensures (t, true) in opts <==> Enabled(o, t)
    {
      if Enabled(o, t) {
        assert opts[Rank(t)] == (t, true);
      }
    }
  }

  /** `[{'name': op_name} for ...]`: one JSON object per tag name. */
  function TagObjects(names: TagName -> string, tags: seq<TagName>): (r: seq<Json>)
    ensures |r| == |tags|
    ensures forall k :: 0 <= k < |tags| ==> r[k] == JObject(map["name" := JStr(names(tags[k]))])
  {
    if tags == [] then [] else [JObject(map["name" := JStr(names(tags[0]))])] + TagObjects(names, tags[1..])
  }

  /** `f'Заказ #{order.id}'`. */
  function Title(o: KaitenOrder): string {
    "Заказ #" + IntToString(o.id)
  }

  // ------------------------------------------------------------- description

  /** One line of the options block: `f'{option_num}. {op_name.capitalize()}\n'`. */
  function Line(n: nat, names: TagName -> string, t: TagName): string {
    NatToString(n) + ". " + Capitalize(names(t)) + "\n"
  }

  /** The lines the loop of `_maker_descriptions` appends for `options`, numbering from `n`. */
  function NumberedLines(options: seq<(TagName, bool)>, n: nat, names: TagName -> string): string {
    if options == [] then ""
    else if !options[0].1 then NumberedLines(options[1..], n, names)
    else Line(n, names, options[0].0) + NumberedLines(options[1..], n + 1, names)
  }

  /** The tags `tags`, one line each, numbered `n`, `n + 1`, ... */
  function Numbered(tags: seq<TagName>, n: nat, names: TagName -> string): string {
    if tags == [] then "" else Line(n, names, tags[0]) + Numbered(tags[1..], n + 1, names)
  }

  /** Switched-off options get no line and no number: the lines are exactly the enabled tags, numbered consecutively. */
  lemma {:induction false} NumberedLinesSkipDisabled(options: seq<(TagName, bool)>, n: nat, names: TagName -> string)
    ensures NumberedLines(options, n, names) == Numbered(EnabledTags(options), n, names)
  {
    if options != [] {
      NumberedLinesSkipDisabled(options[1..], if options[0].1 then n + 1 else n, names);
      if options[0].1 {
        var rest := EnabledTags(options[1..]);
        var e := EnabledTags(options);
        assert e == [options[0].0] + rest;
        assert e != [] && e[0] == options[0].0 && e[1..] == rest;
        assert Numbered(e, n, names) == Line(n, names, options[0].0) + Numbered(rest, n + 1, names);
      } else {
        assert EnabledTags(options) == [] + EnabledTags(options[1..]) == EnabledTags(options[1..]);
      }
    }
  }

  /** The last of `|tags|` lines carries the number `n + |tags| - 1`. */
  lemma {:induction false} NumberedLast(tags: seq<TagName>, n: nat, names: TagName -> string)
    requires tags != []
    ensures Numbered(tags, n, names)
            == Numbered(tags[..|tags| - 1], n, names) + Line(n + |tags| - 1, names, tags[|tags| - 1])
  {
    if |tags| > 1 {
      NumberedLast(tags[1..], n + 1, names);
      assert tags[1..][..|tags| - 2] == tags[..|tags| - 1][1..];
      assert tags[1..][|tags| - 2] == tags[|tags| - 1];
    } else {
      assert tags[..0] == [];
    }
  }

  /** The card's options block has one line per tag sent with the card, the last numbered `|tags|`. */
  lemma OptionLinesMatchTags(o: KaitenOrder, names: TagName -> string)
    ensures NumberedLines(Options(o), 1, names) == Numbered(Tags(o), 1, names)
    ensures |TagObjects(names, Tags(o))| == |Tags(o)|
    ensures Tags(o) != [] ==>
      NumberedLines(Options(o), 1, names)
      == Numbered(Tags(o)[..|Tags(o)| - 1], 1, names) + Line(|Tags(o)|, names, Tags(o)[|Tags(o)| - 1])
  {
    NumberedLinesSkipDisabled(Options(o), 1, names);
    if Tags(o) != [] {
      NumberedLast(Tags(o), 1, names);
    }
  }

  /** `x or '—'` on an optional text. */
  function Dash(a: Option<string>): (r: string)
    ensures !(a.Some? && a.value != "") ==> r == "—"
    ensures a.Some? && a.value != "" ==> r == a.value
  {
    Kanban.OrText(a, "—")
  }

  /** `order.client.telegram_id or '—'`: an id of 0 is falsy. */
  function TelegramText(id: int): (r: string)
    ensures r == "—" <==> id == 0
  {
    if id != 0 then IntToString(id)
    else "—"
  }

  /** `street_name`: the related street's name, or else `street_id` as printed. */
  function StreetText(o: KaitenOrder): string {
    match o.street
    case Some(name) => name
    case None => if o.streetId.Some? then IntToString(o.streetId.value) else "None"
  }

  /** The lines between the title and the options heading. */
  function Details(o: KaitenOrder, streetName: string): string {
    "- Адрес: " + streetName + ", дом " + Kanban.OrText(o.house, "") + ", квартира " + Kanban.Show(o.apartment)
    + ", подъезд " + Dash(o.entrance) + ", этаж " + Dash(o.floor) + "\n"
    + "- Телефон: " + Dash(o.client.phone) + "\n"
    + "- Имя: " + Dash(o.client.name) + "\n"
    + "- Телеграм id: " + TelegramText(o.client.telegramId) + "\n"
    + "- Стоимость: " + IntToString(o.totalPriceRub) + " руб\n"
    + "- Комментарий: " + Dash(o.comment) + "\n\n"
  }

  /** What `_maker_descriptions` puts after the title line. */
  function DescriptionBody(options: seq<(TagName, bool)>, o: KaitenOrder, names: TagName -> string): string {
    Details(o, StreetText(o)) + "**Дополнительно**\n" + NumberedLines(options, 1, names)
  }

  /** What `_maker_descriptions` returns. */
  function Description(title: string, options: seq<(TagName, bool)>, o: KaitenOrder, names: TagName -> string): string {
    title + "\n" + DescriptionBody(options, o, names)
  }

  /**
   * `_maker_descriptions`: count the enabled options from 1 while appending their lines, then
   * put the title, the details and the options block together.
   */
  method MakerDescriptions(title: string, options: seq<(TagName, bool)>, o: KaitenOrder, names: TagName -> string)
    returns (d: string)
    ensures d == Description(title, options, o, names)
  {
    var streetName := StreetText(o);
    var optionNum: nat := 1;
    var optionText := "";
    var i := 0;
    while i < |options|
      invariant 0 <= i <= |options|
      invariant optionText + NumberedLines(options[i..], optionNum, names) == NumberedLines(options, 1, names)
    {
      var rest := options[i..];
      assert rest[0] == options[i] && rest[1..] == options[i + 1..];
      if options[i].1 {
        var line := Line(optionNum, names, options[i].0);
        assert optionText + line + NumberedLines(options[i + 1..], optionNum + 1, names)
               == optionText + (line + NumberedLines(options[i + 1..], optionNum + 1, names));
        optionText := optionText + line;
        optionNum := optionNum + 1;
      }
      i := i + 1;
    }
    d := title + "\n" + (Details(o, streetName) + "**Дополнительно**\n" + optionText);
  }

  /** A text with no line break, followed by a line break, is the first line of the whole. */
  lemma FirstLine(t: string, rest: string)
    requires '\n' !in t
    ensures TakeUntil(t + "\n" + rest, '\n') == t
  {
    var d := t + "\n" + rest;
    assert d[..|t|] == t && d[|t|] == '\n';
    TakeUntilPrefix(d, |t|, '\n');
  }

  /** The title is the first line of the description, read back up to the first line break. */
  lemma TitleIsFirstLine(o: KaitenOrder, options: seq<(TagName, bool)>, names: TagName -> string)
    ensures TakeUntil(Description(Title(o), options, o, names), '\n') == Title(o)
  {
    var digits := IntToString(o.id);
    assert '\n' !in digits by {
      if o.id < 0 {
        assert digits[1..] == NatToString(-o.id);
      }
    }
    assert '\n' !in Title(o);
    FirstLine(Title(o), DescriptionBody(options, o, names));
  }

  /** The description ends with the options block. */
  lemma DescriptionEndsWithOptions(title: string, options: seq<(TagName, bool)>, o: KaitenOrder, names: TagName -> string)
    ensures var d, b := Description(title, options, o, names), NumberedLines(options, 1, names);
      |b| <= |d| && d[|d| - |b|..] == b
  {
    var h := title + "\n" + (Details(o, StreetText(o)) + "**Дополнительно**\n");
    var b := NumberedLines(options, 1, names);
    assert Description(title, options, o, names) == h + b;
    ConcatEnds(h, b);
  }

  // ------------------------------------------------------------- create_card payload

  /** `if x:` on an optional integer argument. */
  predicate IntTruthy(x: Option<int>) {
    x.Some? && x.value != 0
  }

  predicate StrTruthy(x: Option<string>) {
    x.Some? && x.value != ""
  }

  predicate ListTruthy(x: Option<seq<Json>>) {
    x.Some? && x.value != []
  }

  /** The keys every payload carries. */
  const BaseKeys: set<string> := {"title", "description", "board_id", "column_id", "expires_later"}

  /**
   * The payload `create_card` posts: title, description, board, column and `expires_later`
   * false always; `owner_id`, `responsible_id` and `tags` only when given and truthy; a truthy
   * `due_date` together with `due_date_time_present` false. No other key.
   */
  predicate PayloadFor(p: map<string, Json>, title: string, description: string, board: int, columnId: int,
                       ownerId: Option<int>, responsibleId: Option<int>, dueDate: Option<string>,
                       tags: Option<seq<Json>>)
  {
    && p.Keys == BaseKeys
         + (if IntTruthy(ownerId) then {"owner_id"} else {})
         + (if IntTruthy(responsibleId) then {"responsible_id"} else {})
         + (if StrTruthy(dueDate) then {"due_date", "due_date_time_present"} else {})
         + (if ListTruthy(tags) then {"tags"} else {})
    && p["title"] == JStr(title) && p["description"] == JStr(description)
    && p["board_id"] == JInt(board) && p["column_id"] == JInt(columnId) && p["expires_later"] == JBool(false)
    && (IntTruthy(ownerId) ==> p["owner_id"] == JInt(ownerId.value))
    && (IntTruthy(responsibleId) ==> p["responsible_id"] == JInt(responsibleId.value))
    && (StrTruthy(dueDate) ==> p["due_date"] == JStr(dueDate.value) && p["due_date_time_present"] == JBool(false))
    && (ListTruthy(tags) ==> p["tags"] == JArray(tags.value))
  }

  /** The payload is determined by the arguments: two payloads for the same call are equal. */
  lemma PayloadForUnique(p: map<string, Json>, q: map<string, Json>, title: string, description: string,
                         board: int, columnId: int, ownerId: Option<int>, responsibleId: Option<int>,
                         dueDate: Option<string>, tags: Option<seq<Json>>)
    requires PayloadFor(p, title, description, board, columnId, ownerId, responsibleId, dueDate, tags)
    requires PayloadFor(q, title, description, board, columnId, ownerId, responsibleId, dueDate, tags)
    ensures p == q
  {
    assert p.Keys == q.Keys;
    forall k | k in p
      ensures p[k] == q[k]
    {
      if k !in BaseKeys {
        assert k in {"owner_id", "responsible_id", "due_date", "due_date_time_present", "tags"};
      }
    }
  }

  /** `create_card`, up to the request: the payload dictionary filled key by key. */
  method CreateCardPayload(title: string, description: string, board: int, columnId: int,
                           ownerId: Option<int>, responsibleId: Option<int>, dueDate: Option<string>,
                           tags: Option<seq<Json>>)
    returns (payload: map<string, Json>)
    ensures PayloadFor(payload, title, description, board, columnId, ownerId, responsibleId, dueDate, tags)
  {
    payload := map["title" := JStr(title), "description" := JStr(description), "board_id" := JInt(board),
                   "column_id" := JInt(columnId), "expires_later" := JBool(false)];
    if IntTruthy(ownerId) {
      payload := payload["owner_id" := JInt(ownerId.value)];
    }
    if IntTruthy(responsibleId) {
      payload := payload["responsible_id" := JInt(responsibleId.value)];
    }
    if StrTruthy(dueDate) {
      payload := payload["due_date" := JStr(dueDate.value)];
      payload := payload["due_date_time_present" := JBool(false)];
    }
    if ListTruthy(tags) {
      payload := payload["tags" := JArray(tags.value)];
    }
  }

  // ------------------------------------------------------------- add_card_to_order

  /** `Order.get(id=...)` found no row. */
  datatype KaitenError = OrderDoesNotExist(id: int)

  /** The orders as the ORM stores them, by primary key. */
  class OrderStore {
    var orders: map<int, KaitenOrder>

    constructor (orders: map<int, KaitenOrder>)
      ensures this.orders == orders
    {
      this.orders := orders;
    }

    /** `fresh = await Order.get(id=...)`, `fresh.kaiten_card_id = card_id`, `fresh.save(...)`. */
    method SaveCardId(id: int, cardId: Json) returns (error: Option<KaitenError>)
      modifies this
      ensures error == None <==> id in old(orders)
      ensures error.Some? ==> error == Some(OrderDoesNotExist(id)) && orders == old(orders)
      ensures error.None? ==> orders == old(orders)[id := old(orders)[id].(kaitenCardId := cardId)]
    {
      if id !in orders {
        return Some(OrderDoesNotExist(id));
      }
      var row := orders[id];
      orders := orders[id := row.(kaitenCardId := cardId)];
      error := None;
    }
  }

  /**
   * `add_card_to_order`: build the tags, the title and the description, post the card with
   * the default column, and write `card.get("id")` to the reloaded order only when it is truthy.
   * The id is returned whatever it is; a missing order raises after the card exists.
   * `card` is what the service answered; `board` and `waitingForCapture` stand for
   * `settings.BOARD` and `KaitenColumns.WAITING_FOR_CAPTURE`.
   */
  method AddCardToOrder(store: OrderStore, o: KaitenOrder, names: TagName -> string, board: int,
                        waitingForCapture: int, card: map<string, Json>)
    returns (payload: map<string, Json>, cardId: Json, error: Option<KaitenError>)
    modifies store
    ensures PayloadFor(payload, Title(o), Description(Title(o), Options(o), o, names), board, waitingForCapture,
                       None, None, None, Some(TagObjects(names, Tags(o))))
    ensures cardId == if "id" in card then card["id"] else JNull
    ensures !JTruthy(cardId) ==> error == None && store.orders == old(store.orders)
    ensures JTruthy(cardId) && o.id !in old(store.orders) ==>
      error == Some(OrderDoesNotExist(o.id)) && store.orders == old(store.orders)
    ensures JTruthy(cardId) && o.id in old(store.orders) ==>
      error == None && store.orders == old(store.orders)[o.id := old(store.orders)[o.id].(kaitenCardId := cardId)]
  {
    var options := Options(o);
    var tags := TagObjects(names, EnabledTags(options));
    var title := Title(o);
    var description := MakerDescriptions(title, options, o, names);
    payload := CreateCardPayload(title, description, board, waitingForCapture, None, None, None, Some(tags));
    cardId := if "id" in card then card["id"] else JNull;
    error := None;
    if JTruthy(cardId) {
      error := store.SaveCardId(o.id, cardId);
    }
  }
}
