/**
 * Row shapes and column defaults of the ORM models in `src/models.py`.
 * Foreign keys are the referenced row's id; timestamps other than the order's
 * delivery time are not modelled.
 */
module Models {
  import opened Wrappers

  /** An instant; only its presence matters to the core. */
  datatype DateTime = DateTime(epochSeconds: int)

  /** `streets`: a closed dictionary of street names (unique). */
  datatype Street = Street(id: int, name: string)

  /** `clients`: one row per Telegram user (`telegram_id` unique). */
  datatype Client = Client(
    id: int,
    telegramId: int,
    name: Option<string>,
    phone: string,
    street: Option<int>,
    house: string,
    entrance: Option<string>,
    floor: Option<string>,
    comment: Option<string>,
    totalOrders: int)

  /** `order_statuses`: the status dictionary (`name` unique). */
  datatype OrderStatus = OrderStatus(id: int, name: string)

  /** `orders`. `totalPriceRub` is a required integer column; `trelloCardId` stays empty until a card is attached. */
  datatype Order = Order(
    id: int,
    client: int,
    status: int,
    street: Option<int>,
    house: string,
    entrance: Option<string>,
    floor: Option<string>,
    comment: Option<string>,
    weightKg: int,
    needIroning: bool,
    needConditioner: bool,
    needVacuumPack: bool,
    needUv: bool,
    needWashBag: bool,
    deliveryExactTime: Option<DateTime>,
    totalPriceRub: int,
    paymentId: Option<string>,
    paymentStatus: string,
    trelloCardId: Option<string>)

  /** `order_status_history`: one row per status an order was given; `changedBy` may be empty. */
  datatype OrderStatusHistory = OrderStatusHistory(id: int, order: int, status: int, changedBy: Option<string>)

  /** A client row as `Client.create` fills it: the given columns, and `total_orders` at its default. */
  function NewClient(id: int, telegramId: int, name: Option<string>, phone: string, street: Option<int>,
                     house: string, entrance: Option<string>, floor: Option<string>, comment: Option<string>): (c: Client)
    ensures c.totalOrders == 0
    ensures c.id == id && c.telegramId == telegramId && c.name == name && c.phone == phone && c.street == street
    ensures c.house == house && c.entrance == entrance && c.floor == floor && c.comment == comment
  {
    Client(id, telegramId, name, phone, street, house, entrance, floor, comment, 0)
  }

  /**
   * An order row with only its required columns given: every service flag off,
   * 3 kg, no exact time, no payment id, payment "pending" and no Trello card.
   */
  function NewOrder(id: int, client: int, status: int, house: string, totalPriceRub: int): (o: Order)
    ensures o.id == id && o.client == client && o.status == status && o.house == house
    ensures o.totalPriceRub == totalPriceRub
    ensures o.street.None? && o.entrance.None? && o.floor.None? && o.comment.None?
    ensures o.weightKg == 3
    ensures !o.needIroning && !o.needConditioner && !o.needVacuumPack && !o.needUv && !o.needWashBag
    ensures o.deliveryExactTime.None?
    ensures o.paymentId.None? && o.paymentStatus == "pending" && o.trelloCardId.None?
  {
    Order(id, client, status, None, house, None, None, None, 3,
          false, false, false, false, false, None, totalPriceRub, None, "pending", None)
  }
}
