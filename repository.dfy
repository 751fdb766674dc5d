/**
 * The order repository of `src/repositories.py`, over an in-memory store.
 * Each table is a sequence of rows whose ids are auto-increment keys (row i has id i + 1);
 * the core never deletes a row.
 */
module Repository {
  import opened Wrappers
  import opened Text
  import opened Enums
  import opened Models
  import Pricing

  datatype RepoError =
    | StreetDoesNotExist(name: string)   // `Street.get(name=...)` found no row
    | StatusDoesNotExist(name: string)   // `OrderStatus.get(name=...)` found no row
    | CoroutineNotSubscriptable          // TypeError: a coroutine subscripted before it is awaited

  /** Python truthiness of an optional string: present and non-empty. */
  predicate Truthy(o: Option<string>) {
    o.Some? && o.value != ""
  }

  /** `a or b` on optional strings. */
  function Or(a: Option<string>, b: Option<string>): Option<string> {
    if Truthy(a) then a else b
  }

  /** `d.get(key, False)`. */
  function GetFlag(d: map<string, bool>, key: string): bool {
    if key in d then d[key] else false
  }

  // ------------------------------------------------------------- lookups

  function FindStreet(rows: seq<Street>, name: string): (r: Option<nat>)
    ensures r.Some? ==> r.value < |rows| && rows[r.value].name == name
    ensures r.None? ==> forall i :: 0 <= i < |rows| ==> rows[i].name != name
  {
    if rows == [] then None
    else if rows[|rows| - 1].name == name then Some(|rows| - 1)
    else FindStreet(rows[..|rows| - 1], name)
  }

  function FindStatus(rows: seq<OrderStatus>, name: string): (r: Option<nat>)
    ensures r.Some? ==> r.value < |rows| && rows[r.value].name == name
    ensures r.None? ==> forall i :: 0 <= i < |rows| ==> rows[i].name != name
  {
    if rows == [] then None
    else if rows[|rows| - 1].name == name then Some(|rows| - 1)
    else FindStatus(rows[..|rows| - 1], name)
  }

  function FindClient(rows: seq<Client>, telegramId: int): (r: Option<nat>)
    ensures r.Some? ==> r.value < |rows| && rows[r.value].telegramId == telegramId
    ensures r.None? ==> forall i :: 0 <= i < |rows| ==> rows[i].telegramId != telegramId
  {
    if rows == [] then None
    else if rows[|rows| - 1].telegramId == telegramId then Some(|rows| - 1)
    else FindClient(rows[..|rows| - 1], telegramId)
  }

  // ------------------------------------------------------------- audit trail

  /** The status of the newest history row of an order, if it has any. */
  function LastStatus(h: seq<OrderStatusHistory>, order: int): Option<int> {
    if h == [] then None
    else if h[|h| - 1].order == order then Some(h[|h| - 1].status)
    else LastStatus(h[..|h| - 1], order)
  }

  /** The number of history rows of an order. */
  function HistoryCount(h: seq<OrderStatusHistory>, order: int): nat {
    if h == [] then 0
    else HistoryCount(h[..|h| - 1], order) + (if h[|h| - 1].order == order then 1 else 0)
  }

  /** Appending a row changes the last status and the count of its own order only. */
  lemma AppendRow(h: seq<OrderStatusHistory>, row: OrderStatusHistory, order: int)
    ensures LastStatus(h + [row], order) == if row.order == order then Some(row.status) else LastStatus(h, order)
    ensures HistoryCount(h + [row], order) == HistoryCount(h, order) + (if row.order == order then 1 else 0)
  {
    assert (h + [row])[..|h|] == h;
  }

  /** An order no row mentions has no history at all. */
  lemma {:induction false} NoRowsNoHistory(h: seq<OrderStatusHistory>, order: int)
    requires forall i :: 0 <= i < |h| ==> h[i].order != order
    ensures HistoryCount(h, order) == 0 && LastStatus(h, order).None?
  {
    if h != [] {
      NoRowsNoHistory(h[..|h| - 1], order);
    }
  }

  // ------------------------------------------------------------- table invariants

  predicate RefOk(r: Option<int>, size: int) {
    r.None? || 1 <= r.value <= size
  }

  predicate StreetsOk(rows: seq<Street>) {
    && (forall i :: 0 <= i < |rows| ==> rows[i].id == i + 1)
    && (forall i, j :: 0 <= i < j < |rows| ==> rows[i].name != rows[j].name)
  }

  predicate StatusesOk(rows: seq<OrderStatus>) {
    && (forall i :: 0 <= i < |rows| ==> rows[i].id == i + 1)
    && (forall i, j :: 0 <= i < j < |rows| ==> rows[i].name != rows[j].name)
  }

  predicate ClientsOk(rows: seq<Client>, streetCount: int) {
    && (forall i :: 0 <= i < |rows| ==> rows[i].id == i + 1 && RefOk(rows[i].street, streetCount))
    && (forall i, j :: 0 <= i < j < |rows| ==> rows[i].telegramId != rows[j].telegramId)
  }

  predicate OrdersOk(rows: seq<Order>, clientCount: int, statusCount: int, streetCount: int) {
    forall i :: 0 <= i < |rows| ==>
      && rows[i].id == i + 1
      && 1 <= rows[i].client <= clientCount
      && 1 <= rows[i].status <= statusCount
      && RefOk(rows[i].street, streetCount)
  }

  predicate HistoryOk(rows: seq<OrderStatusHistory>, orderCount: int, statusCount: int) {
    forall i :: 0 <= i < |rows| ==>
      rows[i].id == i + 1 && 1 <= rows[i].order <= orderCount && 1 <= rows[i].status <= statusCount
  }

  /** Gapless audit trail: every order's newest history row records its current status. */
  predicate Audited(orders: seq<Order>, h: seq<OrderStatusHistory>) {
    forall i :: 0 <= i < |orders| ==> LastStatus(h, i + 1) == Some(orders[i].status)
  }

  /** A name lookup in a table with unique names finds the one row that carries the name. */
  lemma UniqueStreetLookup(rows: seq<Street>, i: int)
    requires StreetsOk(rows) && 0 <= i < |rows|
    ensures FindStreet(rows, rows[i].name) == Some(i)
  {
  }

  /** With unique Telegram ids, the lookup by Telegram id finds the one client that has it. */
  lemma UniqueClientLookup(rows: seq<Client>, streetCount: int, i: int)
    requires ClientsOk(rows, streetCount) && 0 <= i < |rows|
    ensures FindClient(rows, rows[i].telegramId) == Some(i)
  {
  }

  /** The client columns `get_or_create_client` may rewrite on an existing client. */
  predicate AddressUpdated(was: Client, now: Client, street: Option<int>, house: Option<string>,
                           entrance: Option<string>, floor: Option<string>, comment: Option<string>)
  {
    && now.id == was.id && now.telegramId == was.telegramId
    && now.name == was.name && now.phone == was.phone && now.totalOrders == was.totalOrders
    && now.street == (if street.Some? then street else was.street)
    && now.house == (if Truthy(house) then house.value else was.house)
    && now.entrance == (if Truthy(entrance) then entrance else was.entrance)
    && now.floor == (if Truthy(floor) then floor else was.floor)
    && now.comment == (if Truthy(comment) then comment else was.comment)
  }

  /** The columns whose new value is truthy and differs from the stored one, in the order they are checked. */
  function ChangedFields(was: Client, street: Option<int>, house: Option<string>,
                         entrance: Option<string>, floor: Option<string>, comment: Option<string>): seq<string>
  {
    (if street.Some? && was.street != street then ["street"] else [])
    + (if Truthy(house) && was.house != house.value then ["house"] else [])
    + (if Truthy(entrance) && was.entrance != entrance then ["entrance"] else [])
    + (if Truthy(floor) && was.floor != floor then ["floor"] else [])
    + (if Truthy(comment) && was.comment != comment then ["comment"] else [])
  }

  /** Nothing is collected exactly when the update leaves the client as it was. */
  lemma NoChangedFieldsIffUnchanged(was: Client, now: Client, street: Option<int>, house: Option<string>,
                                    entrance: Option<string>, floor: Option<string>, comment: Option<string>)
    requires AddressUpdated(was, now, street, house, entrance, floor, comment)
    ensures ChangedFields(was, street, house, entrance, floor, comment) == [] <==> now == was
  {
  }

  /**
   * The field-by-field update block of `get_or_create_client`: each column is overwritten
   * only by a truthy value that differs, and its name is collected. When nothing is
   * collected the client is unchanged, so skipping the save loses nothing.
   */
  method ApplyAddressUpdate(was: Client, street: Option<int>, house: Option<string>,
                            entrance: Option<string>, floor: Option<string>, comment: Option<string>)
    returns (c: Client, updateFields: seq<string>)
    ensures AddressUpdated(was, c, street, house, entrance, floor, comment)
    ensures updateFields == ChangedFields(was, street, house, entrance, floor, comment)
    ensures |updateFields| <= 5
  {
    c := was;
    updateFields := [];
    if street.Some? && c.street != street {
      c := c.(street := street);
      updateFields := updateFields + ["street"];
    }
    ghost var f1 := if street.Some? && was.street != street then ["street"] else [];
    assert updateFields == f1;
    assert c == was.(street := if street.Some? then street else was.street);
    if Truthy(house) && c.house != house.value {
      c := c.(house := house.value);
      updateFields := updateFields + ["house"];
    }
    ghost var f2 := f1 + if Truthy(house) && was.house != house.value then ["house"] else [];
    assert updateFields == f2;
    assert c == was.(street := if street.Some? then street else was.street,
                     house := if Truthy(house) then house.value else was.house);
    if Truthy(entrance) && c.entrance != entrance {
      c := c.(entrance := entrance);
      updateFields := updateFields + ["entrance"];
    }
    ghost var f3 := f2 + if Truthy(entrance) && was.entrance != entrance then ["entrance"] else [];
    assert updateFields == f3;
    assert c.entrance == (if Truthy(entrance) then entrance else was.entrance);
    if Truthy(floor) && c.floor != floor {
      c := c.(floor := floor);
      updateFields := updateFields + ["floor"];
    }
    ghost var f4 := f3 + if Truthy(floor) && was.floor != floor then ["floor"] else [];
    assert updateFields == f4;
    if Truthy(comment) && c.comment != comment {
      c := c.(comment := comment);
      updateFields := updateFields + ["comment"];
    }
  }

  /** The flags `create_order` reads from its services dictionary, missing keys counting as off. */
  function FlagsOf(services: map<string, bool>, exactTime: Option<DateTime>): Pricing.ServiceFlags {
    Pricing.ServiceFlags(
      GetFlag(services, "ironing"),
      GetFlag(services, "conditioner"),
      GetFlag(services, "vacuum_pack"),
      GetFlag(services, "uv"),
      GetFlag(services, "wash_bag"),
      exactTime)
  }

  /**
   * The price `create_order` computes inline: it agrees with `calculate_order_total`
   * on the same flags, so the two copies of the tariff cannot drift apart in the model.
   */
  method InlineTotal(services: map<string, bool>, deliveryExactTime: Option<DateTime>) returns (total: int)
    ensures total == Pricing.OrderTotal(FlagsOf(services, deliveryExactTime))
  {
    total := 990;
    if GetFlag(services, "ironing") { total := total + 990; }
    if GetFlag(services, "conditioner") { total := total + 200; }
    if GetFlag(services, "vacuum_pack") { total := total + 400; }
    if GetFlag(services, "uv") { total := total + 300; }
    if GetFlag(services, "wash_bag") { total := total + 300; }
    if deliveryExactTime.Some? { total := total + 300; }
    Pricing.SumFlags(FlagsOf(services, deliveryExactTime));
  }

  /** The row `create_order` writes, priced at `total`. */
  function OrderRow(id: int, clientId: int, status: int, street: int, house: string, c: Client,
                    comment: Option<string>, services: map<string, bool>, exactTime: Option<DateTime>,
                    total: int): Order
  {
    var f := FlagsOf(services, exactTime);
    Order(id, clientId, status, Some(street), house, c.entrance, c.floor, Or(comment, c.comment), 3,
          f.needIroning, f.needConditioner, f.needVacuumPack, f.needUv, f.needWashBag,
          exactTime, total, None, "pending", None)
  }

  // ------------------------------------------------------------- invariant bookkeeping

  lemma ClientsGrowStreets(rows: seq<Client>, n: int, m: int)
    requires ClientsOk(rows, n) && n <= m
    ensures ClientsOk(rows, m)
  {
  }

  lemma ClientsPut(rows: seq<Client>, n: int, k: int, c: Client)
    requires ClientsOk(rows, n) && 0 <= k < |rows|
    requires c.id == rows[k].id && c.telegramId == rows[k].telegramId && RefOk(c.street, n)
    ensures ClientsOk(rows[k := c], n)
  {
  }

  lemma ClientsAppend(rows: seq<Client>, n: int, c: Client)
    requires ClientsOk(rows, n) && c.id == |rows| + 1 && RefOk(c.street, n)
    requires forall i :: 0 <= i < |rows| ==> rows[i].telegramId != c.telegramId
    ensures ClientsOk(rows + [c], n)
  {
  }

  lemma OrdersGrowStreets(rows: seq<Order>, c: int, s: int, n: int, m: int)
    requires OrdersOk(rows, c, s, n) && n <= m
    ensures OrdersOk(rows, c, s, m)
  {
  }

  /** Appending an order together with its first history row keeps the tables consistent and the trail gapless. */
  lemma InsertOrder(orders: seq<Order>, h: seq<OrderStatusHistory>, clientCount: int, statusCount: int,
                    streetCount: int, o: Order, row: OrderStatusHistory)
    requires OrdersOk(orders, clientCount, statusCount, streetCount)
    requires HistoryOk(h, |orders|, statusCount) && Audited(orders, h)
    requires o.id == |orders| + 1 && 1 <= o.client <= clientCount && 1 <= o.status <= statusCount
    requires RefOk(o.street, streetCount)
    requires row == OrderStatusHistory(|h| + 1, o.id, o.status, row.changedBy)
    ensures OrdersOk(orders + [o], clientCount, statusCount, streetCount)
    ensures HistoryOk(h + [row], |orders| + 1, statusCount)
    ensures Audited(orders + [o], h + [row])
    ensures HistoryCount(h + [row], o.id) == 1
  {
    NoRowsNoHistory(h, o.id);
    AppendRow(h, row, o.id);
    var os := orders + [o];
    forall i | 0 <= i < |os| ensures LastStatus(h + [row], i + 1) == Some(os[i].status) {
      AppendRow(h, row, i + 1);
    }
  }

  /** Changing one order's status together with a new history row keeps the tables consistent and the trail gapless. */
  lemma ChangeStatus(orders: seq<Order>, h: seq<OrderStatusHistory>, clientCount: int, statusCount: int,
                     streetCount: int, k: int, status: int, row: OrderStatusHistory)
    requires OrdersOk(orders, clientCount, statusCount, streetCount)
    requires HistoryOk(h, |orders|, statusCount) && Audited(orders, h)
    requires 0 <= k < |orders| && 1 <= status <= statusCount
    requires row == OrderStatusHistory(|h| + 1, k + 1, status, row.changedBy)
    ensures OrdersOk(orders[k := orders[k].(status := status)], clientCount, statusCount, streetCount)
    ensures HistoryOk(h + [row], |orders|, statusCount)
    ensures Audited(orders[k := orders[k].(status := status)], h + [row])
    ensures HistoryCount(h + [row], k + 1) == HistoryCount(h, k + 1) + 1
  {
    var os := orders[k := orders[k].(status := status)];
    forall i | 0 <= i < |os| ensures LastStatus(h + [row], i + 1) == Some(os[i].status) {
      AppendRow(h, row, i + 1);
    }
    AppendRow(h, row, k + 1);
  }

  /** `client.total_orders += 1`. */
  function CountOrder(c: Client): (r: Client)
    ensures r.totalOrders == c.totalOrders + 1
    ensures r.(totalOrders := c.totalOrders) == c
    ensures r.id == c.id && r.telegramId == c.telegramId && r.street == c.street
  {
    c.(totalOrders := c.totalOrders + 1)
  }

  /** The tables after `create_order` wrote order `id`: the row, its one history entry and the client's counter. */
  predicate Created(clients0: seq<Client>, orders0: seq<Order>, history0: seq<OrderStatusHistory>,
                    clients: seq<Client>, orders: seq<Order>, history: seq<OrderStatusHistory>,
                    id: int, clientId: int, status: int, street: int, house: string, comment: Option<string>,
                    services: map<string, bool>, exactTime: Option<DateTime>)
  {
    && 1 <= clientId <= |clients0|
    && var c := clients0[clientId - 1];
    && id == |orders0| + 1
    && orders == orders0 + [OrderRow(id, clientId, status, street, house, c, comment, services, exactTime,
                                     Pricing.OrderTotal(FlagsOf(services, exactTime)))]
    && history == history0 + [OrderStatusHistory(|history0| + 1, id, status, Some("client"))]
    && HistoryCount(history, id) == 1
    && clients == clients0[clientId - 1 := CountOrder(c)]
  }

  class Database {
    var streets: seq<Street>
    var statuses: seq<OrderStatus>
    var clients: seq<Client>
    var orders: seq<Order>
    var history: seq<OrderStatusHistory>

    ghost predicate Valid()
      reads this
    {
      && StreetsOk(streets)
      && StatusesOk(statuses)
      && ClientsOk(clients, |streets|)
      && OrdersOk(orders, |clients|, |statuses|, |streets|)
      && HistoryOk(history, |orders|, |statuses|)
      && Audited(orders, history)
    }

    /** A store seeded with the given street and status dictionaries and no clients or orders. */
    constructor (streetNames: seq<string>, statusNames: seq<string>)
      requires forall i, j :: 0 <= i < j < |streetNames| ==> streetNames[i] != streetNames[j]
      requires forall i, j :: 0 <= i < j < |statusNames| ==> statusNames[i] != statusNames[j]
      ensures Valid()
      ensures |streets| == |streetNames| && forall i :: 0 <= i < |streets| ==> streets[i].name == streetNames[i]
      ensures |statuses| == |statusNames| && forall i :: 0 <= i < |statuses| ==> statuses[i].name == statusNames[i]
      ensures clients == [] && orders == [] && history == []
    {
      streets := seq(|streetNames|, i requires 0 <= i < |streetNames| => Street(i + 1, streetNames[i]));
      statuses := seq(|statusNames|, i requires 0 <= i < |statusNames| => OrderStatus(i + 1, statusNames[i]));
      clients := [];
      orders := [];
      history := [];
    }

    /** `Street.get_or_create(name=name)`: the id of the street with that name, added if missing. */
    method GetOrCreateStreet(name: string) returns (id: int)
      requires Valid()
      modifies this
      ensures Valid()
      ensures 1 <= id <= |streets| && streets[id - 1].name == name
      ensures old(FindStreet(streets, name)).Some? ==> streets == old(streets) && id == old(FindStreet(streets, name)).value + 1
      ensures old(FindStreet(streets, name)).None? ==> streets == old(streets) + [Street(id, name)] && id == |old(streets)| + 1
      ensures statuses == old(statuses) && clients == old(clients) && orders == old(orders) && history == old(history)
    {
      var found := FindStreet(streets, name);
      if found.Some? {
        id := found.value + 1;
      } else {
        id := |streets| + 1;
        streets := streets + [Street(id, name)];
      }
    }

    /** The street id `get_or_create_client` attaches for a street name, once that street exists. */
    function StreetIdFor(streetName: Option<string>): Option<int>
      reads this
    {
      if Truthy(streetName) && FindStreet(streets, Normalize(streetName.value)).Some?
      then Some(FindStreet(streets, Normalize(streetName.value)).value + 1)
      else None
    }

    /**
     * The client half of `get_or_create_client`, once the street id is known: find the
     * client by Telegram id and update its address, or insert a new client.
     */
    method UpsertClient(telegramId: int, phone: string, name: Option<string>, street: Option<int>,
                        house: Option<string>, entrance: Option<string>, floor: Option<string>,
                        comment: Option<string>)
      returns (clientId: int, updateFields: seq<string>)
      requires Valid() && RefOk(street, |streets|)
      modifies this
      ensures Valid()
      ensures 1 <= clientId <= |clients| && clients[clientId - 1].telegramId == telegramId
      ensures street.Some? ==> clients[clientId - 1].street == street
      ensures streets == old(streets) && statuses == old(statuses) && orders == old(orders) && history == old(history)
      ensures old(FindClient(clients, telegramId)).None? ==>
        && clientId == |old(clients)| + 1 && updateFields == []
        && clients == old(clients) + [NewClient(clientId, telegramId, name, phone, street,
             (if Truthy(house) then house.value else ""), entrance, floor, comment)]
      ensures old(FindClient(clients, telegramId)).Some? ==>
        var k := old(FindClient(clients, telegramId)).value;
        && clientId == k + 1
        && |clients| == |old(clients)|
        && (forall j :: 0 <= j < |clients| && j != k ==> clients[j] == old(clients)[j])
        && (if street.Some? || Truthy(house)
            then AddressUpdated(old(clients)[k], clients[k], street, house, entrance, floor, comment)
                 && updateFields == ChangedFields(old(clients)[k], street, house, entrance, floor, comment)
            else clients[k] == old(clients)[k] && updateFields == [])
    {
      updateFields := [];
      var found := FindClient(clients, telegramId);
      if found.None? {
        clientId := |clients| + 1;
        var created := NewClient(clientId, telegramId, name, phone, street,
                                 if Truthy(house) then house.value else "", entrance, floor, comment);
        ClientsAppend(clients, |streets|, created);
        clients := clients + [created];
      } else {
        var k := found.value;
        clientId := k + 1;
        if street.Some? || Truthy(house) {
          var c;
          c, updateFields := ApplyAddressUpdate(clients[k], street, house, entrance, floor, comment);
          NoChangedFieldsIffUnchanged(clients[k], c, street, house, entrance, floor, comment);
          if updateFields != [] {
            ClientsPut(clients, |streets|, k, c);
            clients := clients[k := c];
          }
        }
      }
    }

    /**
     * `get_or_create_client`, with the street step as evidently intended
     * (`(await Street.get_or_create(...))[0]`). An existing client keeps name and phone;
     * its address columns change only when a street or a house is given, and then only
     * to truthy new values. A new client starts with `total_orders = 0`.
     */
    method GetOrCreateClient(telegramId: int, phone: string, name: Option<string> := None,
                             streetName: Option<string> := None, house: Option<string> := None,
                             entrance: Option<string> := None, floor: Option<string> := None,
                             comment: Option<string> := None)
      returns (clientId: int, updateFields: seq<string>)
      requires Valid()
      modifies this
      ensures Valid()
      ensures 1 <= clientId <= |clients| && clients[clientId - 1].telegramId == telegramId
      ensures Truthy(streetName) <==> StreetIdFor(streetName).Some?
      ensures Truthy(streetName) ==> clients[clientId - 1].street == StreetIdFor(streetName)
      ensures !Truthy(streetName) ==> streets == old(streets)
      ensures |old(streets)| <= |streets| && streets[..|old(streets)|] == old(streets)
      ensures statuses == old(statuses) && orders == old(orders) && history == old(history)
      ensures old(FindClient(clients, telegramId)).None? ==>
        && clientId == |old(clients)| + 1 && updateFields == []
        && clients == old(clients) + [NewClient(clientId, telegramId, name, phone, StreetIdFor(streetName),
             (if Truthy(house) then house.value else ""), entrance, floor, comment)]
      ensures old(FindClient(clients, telegramId)).Some? ==>
        var k := old(FindClient(clients, telegramId)).value;
        && clientId == k + 1
        && |clients| == |old(clients)|
        && (forall j :: 0 <= j < |clients| && j != k ==> clients[j] == old(clients)[j])
        && (if Truthy(streetName) || Truthy(house)
            then AddressUpdated(old(clients)[k], clients[k], StreetIdFor(streetName), house, entrance, floor, comment)
                 && updateFields == ChangedFields(old(clients)[k], StreetIdFor(streetName), house, entrance, floor, comment)
            else clients[k] == old(clients)[k] && updateFields == [])
    {
      var street: Option<int> := None;
      if Truthy(streetName) {
        var sid := GetOrCreateStreet(Normalize(streetName.value));
        street := Some(sid);
        UniqueStreetLookup(streets, sid - 1);
        ClientsGrowStreets(clients, |old(streets)|, |streets|);
        OrdersGrowStreets(orders, |clients|, |statuses|, |old(streets)|, |streets|);
      }
      assert street == StreetIdFor(streetName);
      clientId, updateFields := UpsertClient(telegramId, phone, name, street, house, entrance, floor, comment);
    }

    /**
     * `get_or_create_client` as written: `await Street.get_or_create(...)[0]` subscripts the
     * coroutine before awaiting it, so a truthy street name raises TypeError before
     * `Client.get_or_create` runs and nothing is written. Without a street name it is the
     * client step with no street.
     */
    method GetOrCreateClientAsWritten(telegramId: int, phone: string, name: Option<string> := None,
                                      streetName: Option<string> := None, house: Option<string> := None,
                                      entrance: Option<string> := None, floor: Option<string> := None,
                                      comment: Option<string> := None)
      returns (r: Result<int, RepoError>, updateFields: seq<string>)
      requires Valid()
      modifies this
      ensures Valid()
      ensures Truthy(streetName) ==>
        && r == Failure(CoroutineNotSubscriptable) && updateFields == []
        && streets == old(streets) && statuses == old(statuses) && clients == old(clients)
        && orders == old(orders) && history == old(history)
      ensures !Truthy(streetName) ==>
        && r.Success? && 1 <= r.value <= |clients| && clients[r.value - 1].telegramId == telegramId
        && streets == old(streets) && statuses == old(statuses) && orders == old(orders) && history == old(history)
      ensures !Truthy(streetName) && old(FindClient(clients, telegramId)).None? ==>
        && r.value == |old(clients)| + 1 && updateFields == []
        && clients == old(clients) + [NewClient(r.value, telegramId, name, phone, None,
             (if Truthy(house) then house.value else ""), entrance, floor, comment)]
      ensures !Truthy(streetName) && old(FindClient(clients, telegramId)).Some? ==>
        var k := old(FindClient(clients, telegramId)).value;
        && r.value == k + 1
        && |clients| == |old(clients)|
        && (forall j :: 0 <= j < |clients| && j != k ==> clients[j] == old(clients)[j])
        && (if Truthy(house)
            then AddressUpdated(old(clients)[k], clients[k], None, house, entrance, floor, comment)
                 && updateFields == ChangedFields(old(clients)[k], None, house, entrance, floor, comment)
            else clients[k] == old(clients)[k] && updateFields == [])
    {
      if Truthy(streetName) {
        return Failure(CoroutineNotSubscriptable), [];
      }
      var clientId;
      clientId, updateFields := UpsertClient(telegramId, phone, name, None, house, entrance, floor, comment);
      r := Success(clientId);
    }

    /**
     * The writes of `create_order` once the order row is built: the order, its first
     * history row (changed by "client") and the client's order counter.
     */
    method AppendOrder(order: Order, clientId: int)
      requires Valid()
      requires order.client == clientId
      requires order.id == |orders| + 1 && 1 <= clientId <= |clients| && 1 <= order.status <= |statuses|
      requires RefOk(order.street, |streets|)
      modifies this
      ensures Valid()
      ensures streets == old(streets) && statuses == old(statuses)
      ensures orders == old(orders) + [order]
      ensures history == old(history) + [OrderStatusHistory(|old(history)| + 1, order.id, order.status, Some("client"))]
      ensures HistoryCount(history, order.id) == 1
      ensures clients == old(clients)[clientId - 1 := CountOrder(old(clients)[clientId - 1])]
    {
      var row := OrderStatusHistory(|history| + 1, order.id, order.status, Some("client"));
      InsertOrder(orders, history, |clients|, |statuses|, |streets|, order, row);
      orders := orders + [order];
      history := history + [row];
      var client := clients[clientId - 1];
      ClientsPut(clients, |streets|, clientId - 1, CountOrder(client));
      clients := clients[clientId - 1 := CountOrder(client)];
    }

    /** The status every new order starts in. */
    static const NewStatus: string := "new"

    /**
     * The row `create_order` builds for a known street and status, priced inline, and its writes.
     */
    method PlaceOrder(clientId: int, status: int, street: int, house: string, services: map<string, bool>,
                      comment: Option<string>, deliveryExactTime: Option<DateTime>) returns (id: int)
      requires Valid()
      requires 1 <= clientId <= |clients| && 1 <= status <= |statuses| && 1 <= street <= |streets|
      modifies this
      ensures Valid()
      ensures streets == old(streets) && statuses == old(statuses)
      ensures Created(old(clients), old(orders), old(history), clients, orders, history, id, clientId,
                      status, street, house, comment, services, deliveryExactTime)
    {
      var total := InlineTotal(services, deliveryExactTime);
      var order := OrderRow(|orders| + 1, clientId, status, street, house, clients[clientId - 1],
                            comment, services, deliveryExactTime, total);
      AppendOrder(order, clientId);
      id := order.id;
    }

    /**
     * `create_order` once the street name is normalised to `key`. Fails, writing nothing, when
     * `key` or the status "new" has no row; otherwise places the order.
     */
    method CreateOrderAt(clientId: int, key: string, house: string, services: map<string, bool>,
                         comment: Option<string>, deliveryExactTime: Option<DateTime>)
      returns (r: Result<int, RepoError>, ghost street: Option<nat>, ghost status: Option<nat>)
      requires Valid()
      requires 1 <= clientId <= |clients|
      modifies this
      ensures Valid()
      ensures streets == old(streets) && statuses == old(statuses)
      ensures street == FindStreet(streets, key) && status == FindStatus(statuses, NewStatus)
      ensures street.None? ==> r == Failure(StreetDoesNotExist(key))
      ensures street.Some? && status.None? ==> r == Failure(StatusDoesNotExist(NewStatus))
      ensures r.Failure? ==> clients == old(clients) && orders == old(orders) && history == old(history)
      ensures r.Success? <==> street.Some? && status.Some?
      ensures r.Success? ==>
        street.Some? && status.Some? &&
        Created(old(clients), old(orders), old(history), clients, orders, history, r.value, clientId,
                status.value + 1, street.value + 1, house, comment, services, deliveryExactTime)
    {
      var streetIndex := FindStreet(streets, key);
      var statusIndex := FindStatus(statuses, NewStatus);
      street, status := streetIndex, statusIndex;
      if streetIndex.None? {
        r := Failure(StreetDoesNotExist(key));
      } else if statusIndex.None? {
        r := Failure(StatusDoesNotExist(NewStatus));
      } else {
        var id := PlaceOrder(clientId, statusIndex.value + 1, streetIndex.value + 1, house, services, comment,
                             deliveryExactTime);
        r := Success(id);
      }
    }

    /**
     * `create_order`. Fails, writing nothing, when the normalised street name or the
     * status "new" has no row. Otherwise it appends one order priced as
     * `calculate_order_total` prices the same flags, appends exactly one history row
     * ("new", changed by "client") and adds 1 to the client's `total_orders`. The ghost
     * results are the lookups of the street and the status, by which the rows are named.
     */
    method CreateOrder(clientId: int, streetName: string, house: string, services: map<string, bool>,
                       comment: Option<string> := None, deliveryExactTime: Option<DateTime> := None)
      returns (r: Result<int, RepoError>, ghost street: Option<nat>, ghost status: Option<nat>)
      requires Valid()
      requires 1 <= clientId <= |clients|
      modifies this
      ensures Valid()
      ensures streets == old(streets) && statuses == old(statuses)
      ensures street == FindStreet(streets, Normalize(streetName)) && status == FindStatus(statuses, NewStatus)
      ensures street.None? ==> r == Failure(StreetDoesNotExist(Normalize(streetName)))
      ensures street.Some? && status.None? ==> r == Failure(StatusDoesNotExist(NewStatus))
      ensures r.Failure? ==> clients == old(clients) && orders == old(orders) && history == old(history)
      ensures r.Success? <==> street.Some? && status.Some?
      ensures r.Success? ==>
        street.Some? && status.Some? &&
        Created(old(clients), old(orders), old(history), clients, orders, history, r.value, clientId,
                status.value + 1, street.value + 1, house, comment, services, deliveryExactTime)
    {
      r, street, status := CreateOrderAt(clientId, Normalize(streetName), house, services, comment,
                                         deliveryExactTime);
    }

    /**
     * `update_status`. Setting the current status again is a no-op: nothing changes and
     * no history row is written. A different status is stored and exactly one history row,
     * tagged with the actor, is appended. An unknown status name fails and writes nothing.
     */
    method UpdateStatus(orderId: int, newStatusName: string, changedBy: string := "system")
      returns (r: Result<Order, RepoError>)
      requires Valid()
      requires 1 <= orderId <= |orders|
      modifies this
      ensures Valid()
      ensures streets == old(streets) && statuses == old(statuses) && clients == old(clients)
      ensures |orders| == |old(orders)|
      ensures FindStatus(statuses, newStatusName).None? ==>
        r == Failure(StatusDoesNotExist(newStatusName)) && orders == old(orders) && history == old(history)
      ensures FindStatus(statuses, newStatusName).Some? ==>
        var status := FindStatus(statuses, newStatusName).value + 1;
        && r == Success(orders[orderId - 1])
        && orders[orderId - 1].status == status
        && (if old(orders)[orderId - 1].status == status
            then orders == old(orders) && history == old(history)
            else orders == old(orders)[orderId - 1 := old(orders)[orderId - 1].(status := status)]
                 && history == old(history) + [OrderStatusHistory(|old(history)| + 1, orderId, status, Some(changedBy))]
                 && HistoryCount(history, orderId) == HistoryCount(old(history), orderId) + 1)
    {
      var statusIndex := FindStatus(statuses, newStatusName);
      if statusIndex.None? {
        return Failure(StatusDoesNotExist(newStatusName));
      }
      var status := statusIndex.value + 1;
      if orders[orderId - 1].status == status {
        return Success(orders[orderId - 1]);
      }
      var row := OrderStatusHistory(|history| + 1, orderId, status, Some(changedBy));
      ChangeStatus(orders, history, |clients|, |statuses|, |streets|, orderId - 1, status, row);
      orders := orders[orderId - 1 := orders[orderId - 1].(status := status)];
      history := history + [row];
      r := Success(orders[orderId - 1]);
    }

    /** `get_order_by_id`: the order with that id, or None. */
    function GetOrderById(id: int): (r: Option<Order>)
      reads this
      requires Valid()
      ensures r.Some? <==> 1 <= id <= |orders|
      ensures r.Some? ==> r.value.id == id && r.value == orders[id - 1]
    {
      if 1 <= id <= |orders| then Some(orders[id - 1]) else None
    }

    /**
     * The write-back of a Trello card id (`Order.get(id=...)` then saving `trello_card_id`):
     * it targets the row by id and does nothing when the row is gone.
     */
    method SetTrelloCardId(orderId: int, cardId: string) returns (found: bool)
      requires Valid()
      modifies this
      ensures Valid()
      ensures found <==> 1 <= orderId <= |old(orders)|
      ensures found ==> orders == old(orders)[orderId - 1 := old(orders)[orderId - 1].(trelloCardId := Some(cardId))]
      ensures !found ==> orders == old(orders)
      ensures streets == old(streets) && statuses == old(statuses) && clients == old(clients) && history == old(history)
    {
      found := 1 <= orderId <= |orders|;
      if found {
        orders := orders[orderId - 1 := orders[orderId - 1].(trelloCardId := Some(cardId))];
      }
    }
  }

  /** Calling `update_status` twice with the same status writes at most one history row. */
  method UpdateStatusTwice(db: Database, orderId: int, name: string, changedBy: string)
    requires db.Valid() && 1 <= orderId <= |db.orders|
    modifies db
    ensures db.Valid()
    ensures |db.history| <= |old(db.history)| + 1
    ensures HistoryCount(db.history, orderId) <= HistoryCount(old(db.history), orderId) + 1
  {
    var first := db.UpdateStatus(orderId, name, changedBy);
    ghost var h1 := db.history;
    var second := db.UpdateStatus(orderId, name, changedBy);
    assert db.history == h1;
  }

  /**
   * The call of `test_repo`: as written it raises TypeError and the store is left as it was;
   * with the street step as intended it stores client 999999 with the street it names.
   */
  method RepoTestCall(db: Database) returns (asWritten: Result<int, RepoError>, clientId: int)
    requires db.Valid()
    modifies db
    ensures db.Valid()
    ensures asWritten == Failure(CoroutineNotSubscriptable)
    ensures 1 <= clientId <= |db.clients| && db.clients[clientId - 1].telegramId == 999999
    ensures db.StreetIdFor(Some("Новорождественская")).Some?
    ensures db.clients[clientId - 1].street == db.StreetIdFor(Some("Новорождественская"))
  {
    var streetName := Some("Новорождественская");
    ghost var tables := (db.streets, db.statuses, db.clients, db.orders, db.history);
    var fields;
    asWritten, fields := db.GetOrCreateClientAsWritten(999999, "+79990011223", Some("Иван Иванов"), streetName,
                                                       Some("д.15 к.3"), Some("2"), Some("5"), Some("домофон 123"));
    assert (db.streets, db.statuses, db.clients, db.orders, db.history) == tables;
    clientId, fields := db.GetOrCreateClient(999999, "+79990011223", Some("Иван Иванов"), streetName,
                                             Some("д.15 к.3"), Some("2"), Some("5"), Some("домофон 123"));
  }
}
